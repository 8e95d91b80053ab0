/**
 * The study-plan store of the planner component: the `Goal` and `StudyPlan` records,
 * the plan updates behind its five handlers, the completed/incomplete split shown on the
 * progress dashboard, and the component state the handlers overwrite.
 */
module StudyPlanner {
  import opened Wrappers
  import opened Text
  import opened Seqs

  /** The fixed single-user id the planner stores its plan under. */
  const LocalUserId: string := "localUser123"

  /** Message set when adding a goal throws (an entered date that `toISOString` rejects). */
  const AddGoalFailed: string := "Failed to add goal."

  datatype Goal = Goal(id: string, description: string, targetDate: Option<string>, completed: bool)

  datatype StudyPlan = StudyPlan(userId: string, goals: seq<Goal>, subjects: seq<string>, lastUpdated: string)

  /** `prevPlan || { userId, goals: [], subjects: [], lastUpdated: now }`. */
  function PlanOrDefault(prev: Option<StudyPlan>, now: string): (p: StudyPlan)
    ensures prev.Some? ==> p == prev.value
    ensures prev.None? ==> p.userId == LocalUserId && p.goals == [] && p.subjects == []
  {
    match prev
    case Some(plan) => plan
    case None => StudyPlan(LocalUserId, [], [], now)
  }

  /** Goal ids are pairwise distinct. */
  predicate UniqueIds(goals: seq<Goal>) {
    forall i, j :: 0 <= i < j < |goals| ==> goals[i].id != goals[j].id
  }

  /** No goal of `goals` carries `id`. */
  predicate FreshId(goals: seq<Goal>, id: string) {
    forall i :: 0 <= i < |goals| ==> goals[i].id != id
  }

  // ---------------------------------------------------------------- goals

  /** The plan after `handleAddGoal`: `goal` appended to the goals, the timestamp renewed. */
  function AppendGoal(prev: Option<StudyPlan>, goal: Goal, now: string): (r: StudyPlan)
    ensures var before := PlanOrDefault(prev, now).goals;
      |r.goals| == |before| + 1 && r.goals[..|before|] == before && r.goals[|before|] == goal
    ensures r.userId == PlanOrDefault(prev, now).userId
    ensures r.subjects == PlanOrDefault(prev, now).subjects
    ensures r.lastUpdated == now
  {
    var current := PlanOrDefault(prev, now);
    current.(goals := current.goals + [goal], lastUpdated := now)
  }

  /** Appending a goal whose id is fresh keeps the goal ids distinct. */
  lemma AppendGoalKeepsIdsUnique(prev: Option<StudyPlan>, goal: Goal, now: string)
    requires UniqueIds(PlanOrDefault(prev, now).goals)
    requires FreshId(PlanOrDefault(prev, now).goals, goal.id)
    ensures UniqueIds(AppendGoal(prev, goal, now).goals)
  {
    var before := PlanOrDefault(prev, now).goals;
    var after := AppendGoal(prev, goal, now).goals;
    forall i, j | 0 <= i < j < |after|
      ensures after[i].id != after[j].id
    {
      assert after[i] == before[i];
      if j < |before| {
        assert after[j] == before[j];
      }
    }
  }

  /** `goals.map(g => g.id === id ? { ...g, completed: !g.completed } : g)`. */
  function ToggleGoal(goals: seq<Goal>, id: string): (r: seq<Goal>)
    ensures |r| == |goals|
    ensures forall i :: 0 <= i < |r| ==>
      r[i].id == goals[i].id && r[i].description == goals[i].description &&
      r[i].targetDate == goals[i].targetDate &&
      r[i].completed == (if goals[i].id == id then !goals[i].completed else goals[i].completed)
  {
    if goals == [] then []
    else
      var g := goals[0];
      [if g.id == id then g.(completed := !g.completed) else g] + ToggleGoal(goals[1..], id)
  }

  /** Toggling the same id twice restores the goals. */
  lemma ToggleGoalTwice(goals: seq<Goal>, id: string)
    ensures ToggleGoal(ToggleGoal(goals, id), id) == goals
  {
    var r := ToggleGoal(ToggleGoal(goals, id), id);
    assert forall i :: 0 <= i < |goals| ==> r[i] == goals[i];
  }

  /** Toggling an id no goal carries changes nothing. */
  lemma ToggleGoalUnknownId(goals: seq<Goal>, id: string)
    requires FreshId(goals, id)
    ensures ToggleGoal(goals, id) == goals
  {
    var r := ToggleGoal(goals, id);
    assert forall i :: 0 <= i < |goals| ==> r[i] == goals[i];
  }

  /** Toggling keeps the goal ids distinct. */
  lemma ToggleGoalKeepsIdsUnique(goals: seq<Goal>, id: string)
    requires UniqueIds(goals)
    ensures UniqueIds(ToggleGoal(goals, id))
  {
  }

  /** The filter predicate `goal => goal.id !== id`. */
  function IdIsNot(id: string): Goal -> bool {
    (g: Goal) => g.id != id
  }

  /** `goals.filter(goal => goal.id !== id)`. */
  function DeleteGoal(goals: seq<Goal>, id: string): (r: seq<Goal>)
    ensures forall g :: g in r <==> g in goals && g.id != id
    ensures FreshId(r, id)
  {
    Filter(goals, IdIsNot(id))
  }

  /** Deleting removes exactly the goals with the id: every other goal keeps its multiplicity. */
  lemma DeleteGoalCounts(goals: seq<Goal>, id: string)
    ensures forall g :: multiset(DeleteGoal(goals, id))[g] == if g.id == id then 0 else multiset(goals)[g]
  {
    FilterCounts(goals, IdIsNot(id));
  }

  /** Deleting keeps the remaining goals in order: it can be done piecewise. */
  lemma DeleteGoalConcat(a: seq<Goal>, b: seq<Goal>, id: string)
    ensures DeleteGoal(a + b, id) == DeleteGoal(a, id) + DeleteGoal(b, id)
  {
    FilterConcat(a, b, IdIsNot(id));
  }

  /** Deleting an id no goal carries changes nothing. */
  lemma DeleteGoalUnknownId(goals: seq<Goal>, id: string)
    requires FreshId(goals, id)
    ensures DeleteGoal(goals, id) == goals
  {
    FilterKeepsAll(goals, IdIsNot(id));
  }

  /** Any filter of goals with distinct ids has distinct ids. */
  lemma {:induction false} FilterKeepsIdsUnique(goals: seq<Goal>, keep: Goal -> bool)
    requires UniqueIds(goals)
    ensures UniqueIds(Filter(goals, keep))
  {
    if goals != [] {
      FilterKeepsIdsUnique(goals[1..], keep);
      var rest := Filter(goals[1..], keep);
      forall j | 0 <= j < |rest|
        ensures rest[j].id != goals[0].id
      {
        assert rest[j] in goals[1..];
      }
    }
  }

  /** Deleting keeps the goal ids distinct. */
  lemma DeleteGoalKeepsIdsUnique(goals: seq<Goal>, id: string)
    requires UniqueIds(goals)
    ensures UniqueIds(DeleteGoal(goals, id))
  {
    FilterKeepsIdsUnique(goals, IdIsNot(id));
  }

  // ---------------------------------------------------------------- subjects

  /** `Array.from(new Set([...subjects, name.trim()]))`. */
  function AddSubject(subjects: seq<string>, name: string): (r: seq<string>)
    ensures NoDups(r)
    ensures forall s :: s in r <==> s in subjects || s == Trim(name)
  {
    Dedup(subjects + [Trim(name)])
  }

  /** On a duplicate-free list, adding a subject appends the trimmed name unless it is present. */
  lemma AddSubjectToNoDups(subjects: seq<string>, name: string)
    requires NoDups(subjects)
    ensures AddSubject(subjects, name) == if Trim(name) in subjects then subjects else subjects + [Trim(name)]
  {
    var s := subjects + [Trim(name)];
    assert s[..|s| - 1] == subjects;
    DedupOfNoDups(subjects);
  }

  /** Adding the same subject twice is adding it once. */
  lemma AddSubjectTwice(subjects: seq<string>, name: string)
    ensures AddSubject(AddSubject(subjects, name), name) == AddSubject(subjects, name)
  {
    AddSubjectToNoDups(AddSubject(subjects, name), name);
  }

  /** The filter predicate `subject => subject !== name`. */
  function IsNot(name: string): string -> bool {
    (s: string) => s != name
  }

  /** `subjects.filter(subject => subject !== name)`. */
  function DeleteSubject(subjects: seq<string>, name: string): (r: seq<string>)
    ensures name !in r
    ensures forall s :: s in r <==> s in subjects && s != name
  {
    Filter(subjects, IsNot(name))
  }

  /** Deleting a subject keeps every other entry, as often as it occurred, in its order. */
  lemma DeleteSubjectKeepsOthers(a: seq<string>, b: seq<string>, name: string)
    ensures forall s :: s != name ==> multiset(DeleteSubject(a, name))[s] == multiset(a)[s]
    ensures DeleteSubject(a + b, name) == DeleteSubject(a, name) + DeleteSubject(b, name)
  {
    FilterCounts(a, IsNot(name));
    FilterConcat(a, b, IsNot(name));
  }

  /** Deleting keeps the subjects duplicate-free. */
  lemma DeleteSubjectKeepsNoDups(subjects: seq<string>, name: string)
    requires NoDups(subjects)
    ensures NoDups(DeleteSubject(subjects, name))
  {
    FilterNoDups(subjects, IsNot(name));
  }

  // ---------------------------------------------------------------- progress

  function IsCompleted(g: Goal): bool { g.completed }

  function IsIncomplete(g: Goal): bool { !g.completed }

  /** `goals.filter(g => g.completed)`. */
  function CompletedGoals(goals: seq<Goal>): (r: seq<Goal>)
    ensures forall g :: g in r <==> g in goals && g.completed
  {
    Filter(goals, IsCompleted)
  }

  /** `goals.filter(g => !g.completed)`. */
  function IncompleteGoals(goals: seq<Goal>): (r: seq<Goal>)
    ensures forall g :: g in r <==> g in goals && !g.completed
  {
    Filter(goals, IsIncomplete)
  }

  /** The completed and incomplete goals partition the goals. */
  lemma {:induction false} ProgressPartition(goals: seq<Goal>)
    ensures |CompletedGoals(goals)| + |IncompleteGoals(goals)| == |goals|
    ensures |CompletedGoals(goals)| <= |goals|
    ensures multiset(CompletedGoals(goals)) + multiset(IncompleteGoals(goals)) == multiset(goals)
  {
    if goals != [] {
      ProgressPartition(goals[1..]);
      assert goals == [goals[0]] + goals[1..];
      assert multiset(goals) == multiset{goals[0]} + multiset(goals[1..]);
    }
  }

  // ---------------------------------------------------------------- component state

  /** The planner component's state fields and its five handlers, run one at a time. */
  class Planner {
    var studyPlan: Option<StudyPlan>
    var newGoalDescription: string
    var newGoalTargetDate: string
    var newSubject: string
    var error: Option<string>

    /** Goal ids distinct and subjects duplicate-free. */
    ghost predicate Valid()
      reads this
    {
      studyPlan.Some? ==> UniqueIds(studyPlan.value.goals) && NoDups(studyPlan.value.subjects)
    }

    /** The state before the plan is loaded: no plan, empty inputs, no error. */
    constructor ()
      ensures studyPlan == None && error == None && Valid()
      ensures newGoalDescription == "" && newGoalTargetDate == "" && newSubject == ""
    {
      studyPlan := None;
      newGoalDescription, newGoalTargetDate, newSubject := "", "", "";
      error := None;
    }

    /**
     * `handleAddGoal`. `freshId` is what `uuidv4()` returned, `now` the current ISO timestamp,
     * and `targetDateIso` what `new Date(newGoalTargetDate).toISOString()` gives (None: it threw).
     */
    method HandleAddGoal(freshId: string, targetDateIso: Option<string>, now: string)
      modifies this
      ensures IsBlank(old(newGoalDescription)) ==> unchanged(this)
      ensures !IsBlank(old(newGoalDescription)) && old(newGoalTargetDate) != "" && targetDateIso.None? ==>
        studyPlan == old(studyPlan) && error == Some(AddGoalFailed) &&
        newGoalDescription == old(newGoalDescription) && newGoalTargetDate == old(newGoalTargetDate) &&
        newSubject == old(newSubject)
      ensures !IsBlank(old(newGoalDescription)) && (old(newGoalTargetDate) == "" || targetDateIso.Some?) ==>
        studyPlan == Some(AppendGoal(old(studyPlan),
          Goal(freshId, Trim(old(newGoalDescription)),
               if old(newGoalTargetDate) == "" then None else targetDateIso, false), now)) &&
        newGoalDescription == "" && newGoalTargetDate == "" &&
        newSubject == old(newSubject) && error == old(error)
      ensures old(Valid()) && (old(studyPlan).Some? ==> FreshId(old(studyPlan).value.goals, freshId)) ==> Valid()
    {
      if IsBlank(newGoalDescription) {
        return;
      }
      var targetDate: Option<string> := None;
      if newGoalTargetDate != "" {
        if targetDateIso.None? {
          error := Some(AddGoalFailed);
          return;
        }
        targetDate := targetDateIso;
      }
      var goal := Goal(freshId, Trim(newGoalDescription), targetDate, false);
      if Valid() && (studyPlan.Some? ==> FreshId(studyPlan.value.goals, freshId)) {
        AppendGoalKeepsIdsUnique(studyPlan, goal, now);
      }
      studyPlan := Some(AppendGoal(studyPlan, goal, now));
      newGoalDescription := "";
      newGoalTargetDate := "";
    }

    /** `handleToggleGoalCompletion`: a no-op without a plan. */
    method HandleToggleGoalCompletion(goalId: string, now: string)
      modifies this
      ensures old(studyPlan).None? ==> unchanged(this)
      ensures old(studyPlan).Some? ==>
        studyPlan == Some(old(studyPlan).value.(goals := ToggleGoal(old(studyPlan).value.goals, goalId), lastUpdated := now))
      ensures newGoalDescription == old(newGoalDescription) && newGoalTargetDate == old(newGoalTargetDate)
      ensures newSubject == old(newSubject) && error == old(error)
      ensures old(Valid()) ==> Valid()
    {
      if studyPlan.None? {
        return;
      }
      var plan := studyPlan.value;
      if Valid() {
        ToggleGoalKeepsIdsUnique(plan.goals, goalId);
      }
      studyPlan := Some(plan.(goals := ToggleGoal(plan.goals, goalId), lastUpdated := now));
    }

    /** `handleDeleteGoal`: a no-op without a plan. */
    method HandleDeleteGoal(goalId: string, now: string)
      modifies this
      ensures old(studyPlan).None? ==> unchanged(this)
      ensures old(studyPlan).Some? ==>
        studyPlan == Some(old(studyPlan).value.(goals := DeleteGoal(old(studyPlan).value.goals, goalId), lastUpdated := now))
      ensures newGoalDescription == old(newGoalDescription) && newGoalTargetDate == old(newGoalTargetDate)
      ensures newSubject == old(newSubject) && error == old(error)
      ensures old(Valid()) ==> Valid()
    {
      if studyPlan.None? {
        return;
      }
      var plan := studyPlan.value;
      if Valid() {
        DeleteGoalKeepsIdsUnique(plan.goals, goalId);
      }
      studyPlan := Some(plan.(goals := DeleteGoal(plan.goals, goalId), lastUpdated := now));
    }

    /** `handleAddSubject`: works with or without a loaded plan. */
    method HandleAddSubject(now: string)
      modifies this
      ensures IsBlank(old(newSubject)) ==> unchanged(this)
      ensures !IsBlank(old(newSubject)) ==>
        var current := PlanOrDefault(old(studyPlan), now);
        studyPlan == Some(current.(subjects := AddSubject(current.subjects, old(newSubject)), lastUpdated := now)) &&
        newSubject == ""
      ensures newGoalDescription == old(newGoalDescription) && newGoalTargetDate == old(newGoalTargetDate)
      ensures error == old(error)
      ensures old(Valid()) ==> Valid()
    {
      if IsBlank(newSubject) {
        return;
      }
      var current := PlanOrDefault(studyPlan, now);
      studyPlan := Some(current.(subjects := AddSubject(current.subjects, newSubject), lastUpdated := now));
      newSubject := "";
    }

    /** `handleDeleteSubject`: a no-op without a plan. */
    method HandleDeleteSubject(subject: string, now: string)
      modifies this
      ensures old(studyPlan).None? ==> unchanged(this)
      ensures old(studyPlan).Some? ==>
        studyPlan == Some(old(studyPlan).value.(subjects := DeleteSubject(old(studyPlan).value.subjects, subject), lastUpdated := now))
      ensures newGoalDescription == old(newGoalDescription) && newGoalTargetDate == old(newGoalTargetDate)
      ensures newSubject == old(newSubject) && error == old(error)
      ensures old(Valid()) ==> Valid()
    {
      if studyPlan.None? {
        return;
      }
      var plan := studyPlan.value;
      if Valid() {
        DeleteSubjectKeepsNoDups(plan.subjects, subject);
      }
      studyPlan := Some(plan.(subjects := DeleteSubject(plan.subjects, subject), lastUpdated := now));
    }
  }
}
