/**
 * The page component's session state: the flashcard cursor, quiz answering and scoring,
 * and the study-buddy chat history, as fields stepped by the page's handlers.
 * Responses from the routes arrive as parameters; the 1.5 s quiz timer is split into a
 * select step that schedules the resolution and a resolve step that runs it.
 */
module LearnPage {
  import opened Wrappers
  import opened Text

  datatype Flashcard = Flashcard(front: string, back: string)

  datatype QuizQuestion = QuizQuestion(question: string, options: seq<string>, correct: int, explanation: string)

  datatype ChatTurn = ChatTurn(question: string, answer: string)

  class Session {
    var notes: string
    var flashcards: seq<Flashcard>
    var currentCard: int
    var flipped: bool

    var quizText: string
    var quiz: seq<QuizQuestion>
    var currentQuestion: int
    var selectedAnswer: Option<int>
    var showResults: bool
    var score: int
    /** The answer index a scheduled resolution timer will use; None when no timer is pending. */
    var pendingAnswer: Option<int>

    var question: string
    var answer: string
    var chatHistory: seq<ChatTurn>

    /** Questions already resolved: those before the current one, and the current one once results show. */
    function Resolved(): int
      reads this
    {
      currentQuestion + if showResults then 1 else 0
    }

    ghost predicate Valid()
      reads this
    {
      && 0 <= currentCard && (flashcards != [] ==> currentCard < |flashcards|)
      && 0 <= currentQuestion && (quiz != [] ==> currentQuestion < |quiz|)
      && 0 <= score <= |quiz| && score <= Resolved()
      && (showResults ==> selectedAnswer.Some?)
      && (pendingAnswer.Some? ==> !showResults && selectedAnswer == pendingAnswer)
    }

    /** The initial state of the page. */
    constructor ()
      ensures Valid()
      ensures flashcards == [] && currentCard == 0 && !flipped
      ensures quiz == [] && currentQuestion == 0 && selectedAnswer.None? && !showResults && score == 0
      ensures pendingAnswer.None? && chatHistory == [] && question == "" && answer == ""
      ensures notes == "" && quizText == ""
    {
      notes, flashcards, currentCard, flipped := "", [], 0, false;
      quizText, quiz, currentQuestion, selectedAnswer, showResults, score := "", [], 0, None, false, 0;
      pendingAnswer := None;
      question, answer, chatHistory := "", "", [];
    }

    // ------------------------------------------------------------ flashcards

    /**
     * `generateFlashcards`. `reply` is `data.flashcards` when it is truthy (an array, possibly
     * empty); None when it is falsy or the request threw. Blank notes send nothing.
     */
    method GenerateFlashcards(reply: Option<seq<Flashcard>>)
      requires Valid()
      modifies this`flashcards, this`currentCard, this`flipped
      ensures Valid()
      ensures !IsBlank(notes) && reply.Some? ==>
        flashcards == reply.value && currentCard == 0 && !flipped
      ensures IsBlank(notes) || reply.None? ==>
        flashcards == old(flashcards) && currentCard == old(currentCard) && flipped == old(flipped)
    {
      if !IsBlank(notes) && reply.Some? {
        flashcards := reply.value;
        currentCard := 0;
        flipped := false;
      }
    }

    /** `nextCard`: moves forward only from a card that is not the last one. */
    method NextCard()
      requires Valid()
      modifies this`currentCard, this`flipped
      ensures Valid()
      ensures old(currentCard) < |flashcards| - 1 ==> currentCard == old(currentCard) + 1 && !flipped
      ensures old(currentCard) >= |flashcards| - 1 ==> currentCard == old(currentCard) && flipped == old(flipped)
    {
      if currentCard < |flashcards| - 1 {
        currentCard := currentCard + 1;
        flipped := false;
      }
    }

    /** `prevCard`: moves back only from a card that is not the first one. */
    method PrevCard()
      requires Valid()
      modifies this`currentCard, this`flipped
      ensures Valid()
      ensures old(currentCard) > 0 ==> currentCard == old(currentCard) - 1 && !flipped
      ensures old(currentCard) <= 0 ==> currentCard == old(currentCard) && flipped == old(flipped)
    {
      if currentCard > 0 {
        currentCard := currentCard - 1;
        flipped := false;
      }
    }

    /** Clicking the card turns it over. */
    method FlipCard()
      requires Valid()
      modifies this`flipped
      ensures Valid() && flipped == !old(flipped)
    {
      flipped := !flipped;
    }

    /** "New Flashcards": empties the deck and leaves the cursor where it was. */
    method ClearFlashcards()
      requires Valid()
      modifies this`flashcards
      ensures Valid() && flashcards == []
    {
      flashcards := [];
    }

    // ------------------------------------------------------------ quiz

    /**
     * `generateQuiz`. `reply` is `data.quiz` when it is truthy; None when it is falsy or the
     * request threw. The form that triggers it is shown only while no question is on screen,
     * so no resolution is pending.
     */
    method GenerateQuiz(reply: Option<seq<QuizQuestion>>)
      requires Valid() && pendingAnswer.None?
      modifies this`quiz, this`currentQuestion, this`selectedAnswer, this`showResults, this`score
      ensures Valid()
      ensures !IsBlank(quizText) && reply.Some? ==>
        quiz == reply.value && currentQuestion == 0 && selectedAnswer.None? && !showResults && score == 0
      ensures IsBlank(quizText) || reply.None? ==>
        quiz == old(quiz) && currentQuestion == old(currentQuestion) && selectedAnswer == old(selectedAnswer) &&
        showResults == old(showResults) && score == old(score)
    {
      if !IsBlank(quizText) && reply.Some? {
        quiz := reply.value;
        currentQuestion := 0;
        selectedAnswer := None;
        showResults := false;
        score := 0;
      }
    }

    /** `selectAnswer`, up to the timer: ignored while an answer is selected. */
    method SelectAnswer(answerIndex: int)
      requires Valid()
      modifies this`selectedAnswer, this`pendingAnswer
      ensures Valid()
      ensures old(selectedAnswer).Some? ==>
        selectedAnswer == old(selectedAnswer) && pendingAnswer == old(pendingAnswer)
      ensures old(selectedAnswer).None? ==>
        selectedAnswer == Some(answerIndex) && pendingAnswer == Some(answerIndex)
    {
      if selectedAnswer.Some? {
        return;
      }
      selectedAnswer := Some(answerIndex);
      pendingAnswer := Some(answerIndex);
    }

    /**
     * The timer callback of `selectAnswer`: scores the answer and moves to the next question,
     * or shows the results after the last one. On an empty quiz `quiz[currentQuestion].correct`
     * throws and the callback changes nothing.
     */
    method ResolveAnswer()
      requires Valid()
      modifies this`pendingAnswer, this`currentQuestion, this`selectedAnswer, this`showResults, this`score
      ensures Valid()
      ensures pendingAnswer.None?
      ensures old(pendingAnswer).None? || old(currentQuestion) >= |quiz| ==>
        currentQuestion == old(currentQuestion) && score == old(score) &&
        selectedAnswer == old(selectedAnswer) && showResults == old(showResults)
      ensures old(pendingAnswer).Some? && old(currentQuestion) < |quiz| ==>
        && score == old(score) + (if old(pendingAnswer).value == quiz[old(currentQuestion)].correct then 1 else 0)
        && (old(currentQuestion) < |quiz| - 1 ==>
              currentQuestion == old(currentQuestion) + 1 && selectedAnswer.None? && showResults == old(showResults))
        && (old(currentQuestion) == |quiz| - 1 ==>
              currentQuestion == old(currentQuestion) && showResults && selectedAnswer == old(selectedAnswer))
    {
      if pendingAnswer.None? {
        return;
      }
      var answerIndex := pendingAnswer.value;
      pendingAnswer := None;
      if currentQuestion >= |quiz| {
        return;
      }
      var finalScore := 0;
      if answerIndex == quiz[currentQuestion].correct {
        finalScore := score + 1;
      } else {
        finalScore := score;
      }
      if currentQuestion < |quiz| - 1 {
        currentQuestion := currentQuestion + 1;
        selectedAnswer := None;
        score := finalScore;
      } else {
        showResults := true;
        score := finalScore;
      }
    }

    /** "Take Another Quiz": empties the quiz and the score; the question cursor and the
        selected answer stay as they were. */
    method TakeAnotherQuiz()
      requires Valid()
      modifies this`quiz, this`showResults, this`score
      ensures Valid()
      ensures quiz == [] && !showResults && score == 0
    {
      quiz := [];
      showResults := false;
      score := 0;
    }

    // ------------------------------------------------------------ study buddy

    /**
     * `askStudyBuddy`. `reply` is `data.answer`; a missing or empty answer, or a request that
     * threw, is None or Some(""). Blank questions send nothing.
     */
    method AskStudyBuddy(reply: Option<string>)
      requires Valid()
      modifies this`chatHistory, this`answer, this`question
      ensures Valid()
      ensures !IsBlank(old(question)) && reply.Some? && reply.value != "" ==>
        chatHistory == old(chatHistory) + [ChatTurn(old(question), reply.value)] &&
        answer == reply.value && question == ""
      ensures IsBlank(old(question)) || reply.None? || reply.value == "" ==>
        chatHistory == old(chatHistory) && answer == old(answer) && question == old(question)
    {
      if !IsBlank(question) && reply.Some? && reply.value != "" {
        chatHistory := chatHistory + [ChatTurn(question, reply.value)];
        answer := reply.value;
        question := "";
      }
    }
  }
}
