/**
  The quiz session: the page-wide `State` object and the event handlers that
  change it. `locked` stands for "every answer button is disabled (or there are
  none)", `nextEnabled` for the Next button's state, `timerActive` for a live
  countdown interval and `card` for which card of the page is showing. Each
  firing of the countdown interval is one call of `Tick`.
 */
module Session {
  import opened Wrappers
  import opened Settings
  import opened Normalize
  import opened SourceClient

  /** The card the page shows. */
  datatype Card = Setup | Quiz | Result

  /** What the results card shows. */
  datatype Summary = Summary(score: int, total: int)

  /** Points for a correct answer. */
  const Award: int := 10

  class QuizState {
    var settings: Settings
    var questions: seq<Question>
    var index: int
    var score: int
    var remaining: int
    var timerActive: bool
    var locked: bool
    var nextEnabled: bool
    var card: Card

    /**
      The state invariant. At most one answer is scored per rendered question:
      the score exceeds `Award * index` only while Next is enabled on a question
      that has just been answered.
     */
    ghost predicate Valid()
      reads this
    {
      && InRange(settings)
      && 0 <= index <= |questions|
      && 0 <= score && score % Award == 0
      && score <= Award * index + (if nextEnabled && index < |questions| then Award else 0)
      && (!locked ==> index < |questions|)
      && (nextEnabled ==> locked)
      && (card == Quiz && nextEnabled ==> index < |questions|)
      && (timerActive ==> card == Quiz && !locked && 0 < remaining <= settings.timerSeconds)
      && (card == Result ==> index == |questions|)
    }

    /** The page as loaded: default settings, nothing fetched, the setup card showing. */
    constructor ()
      ensures Valid()
      ensures settings == Defaults && questions == [] && index == 0 && score == 0
      ensures !timerActive && locked && !nextEnabled && card == Setup
    {
      settings := Defaults;
      questions := [];
      index := 0;
      score := 0;
      remaining := 0;
      timerActive := false;
      locked := true;
      nextEnabled := false;
      card := Setup;
    }

    /** `stopTimer`: clears the countdown interval if there is one. */
    method StopTimer()
      modifies this`timerActive
      ensures !timerActive
    {
      timerActive := false;
    }

    /**
      `startTimer`: restarts the countdown at the configured number of seconds;
      a timer of 0 starts no countdown and leaves `remaining` as it was.
     */
    method StartTimer()
      requires Valid() && card == Quiz && !locked
      modifies this`timerActive, this`remaining
      ensures Valid()
      ensures timerActive <==> settings.timerSeconds > 0
      ensures timerActive ==> remaining == settings.timerSeconds
      ensures !timerActive ==> remaining == old(remaining)
    {
      StopTimer();
      var s := Clamp(NumberOr(Some(settings.timerSeconds), 0), 0, 600);
      if s == 0 {
        return;
      }
      remaining := s;
      timerActive := true;
    }

    /**
      `renderQuestion`: shows the question at `index` with enabled answer
      buttons, disables Next and starts the countdown.
     */
    method RenderQuestion()
      requires Valid() && card == Quiz && index < |questions| && score <= Award * index
      modifies this
      ensures Valid()
      ensures !locked && !nextEnabled
      ensures timerActive <==> settings.timerSeconds > 0
      ensures timerActive ==> remaining == settings.timerSeconds
      ensures settings == old(settings) && questions == old(questions) && index == old(index)
      ensures score == old(score) && card == old(card)
    {
      nextEnabled := false;
      locked := false;
      StartTimer();
    }

    /**
      `resetQuiz`: no questions, no score, back at the first index. Nothing else
      changes; the submit handler empties the answer list and disables Next
      itself.
     */
    method ResetQuiz()
      modifies this`index, this`score, this`questions
      ensures index == 0 && score == 0 && questions == []
    {
      index := 0;
      score := 0;
      questions := [];
    }

    /**
      The setup form's submit handler: reads and clamps the settings, resets the
      session, shows the quiz card and loads the questions from `server`. When
      at least one question arrives the first one is rendered; otherwise the
      quiz card shows the failure, with no answer buttons and Next disabled.
      The form can only be submitted from the setup card.
     */
    method Submit(form: Form, server: seq<(Param, string)> -> Reply, decode: string -> string, rand: nat -> nat -> real)
      returns (error: Option<LoadError>)
      requires Valid()
      modifies this
      ensures Valid()
      ensures old(card) != Setup ==> unchanged(this) && error == None
      ensures old(card) == Setup ==>
        && settings == ReadSettings(form)
        && Loaded(FetchQuestions(settings, server, decode, rand), error)
    {
      if card != Setup {
        return None;
      }
      settings := ReadSettings(form);
      ResetQuiz();
      card := Quiz;
      // the answer list is emptied and Next disabled while loading
      locked := true;
      nextEnabled := false;
      var loaded := FetchQuestions(settings, server, decode, rand);
      error := Load(loaded);
    }

    /**
      The state right after a load: a fresh session on the quiz card, showing
      the first question when at least one arrived, and the failure otherwise.
     */
    ghost predicate Loaded(loaded: Result<seq<Question>, LoadError>, error: Option<LoadError>)
      reads this
    {
      && card == Quiz && index == 0 && score == 0 && !nextEnabled
      && (error == None <==> loaded.Ok? && loaded.value != [])
      && (error == None ==>
            && questions == loaded.value && !locked
            && (timerActive <==> settings.timerSeconds > 0)
            && (timerActive ==> remaining == settings.timerSeconds))
      && (loaded.Err? ==> error == Some(loaded.error))
      && (loaded == Ok([]) ==> error == Some(NoQuestions))
      && (error != None ==> questions == [] && locked && !timerActive)
    }

    /**
      The `try` block after the fetch: an empty result is the error "No
      questions returned."; otherwise the questions become the session's and
      the first is rendered.
     */
    method Load(loaded: Result<seq<Question>, LoadError>) returns (error: Option<LoadError>)
      requires Valid() && card == Quiz && index == 0 && score == 0 && questions == []
      requires locked && !nextEnabled && !timerActive
      modifies this
      ensures Valid() && settings == old(settings)
      ensures Loaded(loaded, error)
    {
      if loaded.Err? {
        return Some(loaded.error);
      }
      if loaded.value == [] {
        return Some(NoQuestions);
      }
      questions := loaded.value;
      RenderQuestion();
      error := None;
    }

    /**
      A click on the answer button at position `choice`: `onAnswer(answers[choice])`.
      Only an enabled button of the question shown can be clicked; the handler
      stops the countdown, disables the answers, enables Next, and adds `Award`
      points exactly when the chosen answer is the correct one.
     */
    method SelectAnswer(choice: nat) returns (isCorrect: bool)
      requires Valid()
      modifies this
      ensures Valid()
      ensures old(card != Quiz || locked || choice >= |questions[index].answers|) ==> unchanged(this) && !isCorrect
      ensures old(card == Quiz && !locked && choice < |questions[index].answers|) ==>
        && isCorrect == (old(questions[index]).answers[choice] == old(questions[index]).correct)
        && score == old(score) + (if isCorrect then Award else 0)
        && locked && nextEnabled && !timerActive
        && settings == old(settings) && questions == old(questions) && index == old(index)
        && remaining == old(remaining) && card == old(card)
    {
      if card != Quiz || locked || choice >= |questions[index].answers| {
        return false;
      }
      var selected := questions[index].answers[choice];
      StopTimer();
      locked := true;
      isCorrect := selected == questions[index].correct;
      if isCorrect {
        score := score + Award;
      }
      nextEnabled := true;
    }

    /**
      One firing of the countdown interval: one second less; at zero or below
      the countdown stops, the answers are disabled and Next is enabled, with
      no points. A cleared interval never fires.
     */
    method Tick()
      requires Valid()
      modifies this
      ensures Valid()
      ensures !old(timerActive) ==> unchanged(this)
      ensures old(timerActive) ==>
        && remaining == old(remaining) - 1
        && (remaining <= 0 ==> !timerActive && locked && nextEnabled)
        && (remaining > 0 ==> timerActive && !locked && !nextEnabled)
        && score == old(score) && index == old(index) && questions == old(questions)
        && settings == old(settings) && card == old(card)
    {
      if !timerActive {
        return;
      }
      remaining := remaining - 1;
      if remaining <= 0 {
        StopTimer();
        locked := true;
        nextEnabled := true;
      }
    }

    /** `showResults`: shows the results card with the score out of `Award` per question. */
    method ShowResults() returns (summary: Summary)
      requires InRange(settings) && index == |questions|
      requires 0 <= score <= Award * index && score % Award == 0
      requires locked && !timerActive
      modifies this`card
      ensures Valid() && card == Result
      ensures summary == Summary(score, Award * |questions|)
      ensures 0 <= summary.score <= summary.total
    {
      card := Result;
      summary := Summary(score, Award * |questions|);
    }

    /**
      `nextQuestion`, reachable only through the enabled Next button: moves to
      the next question, or past the last one to the results.
     */
    method Next() returns (summary: Option<Summary>)
      requires Valid()
      modifies this
      ensures Valid()
      ensures !old(card == Quiz && nextEnabled) ==> unchanged(this) && summary == None
      ensures old(card == Quiz && nextEnabled) ==>
        && index == old(index) + 1
        && score == old(score) && questions == old(questions) && settings == old(settings)
        && (summary.Some? <==> index >= |questions|)
        && (summary.Some? ==> card == Result && summary.value == Summary(score, Award * |questions|))
        && (summary.Some? ==> 0 <= score <= Award * |questions|)
        && (summary.None? ==> card == Quiz && !locked && !nextEnabled)
        && (summary.None? ==> (timerActive <==> settings.timerSeconds > 0))
        && (summary.None? && timerActive ==> remaining == settings.timerSeconds)
    {
      if card != Quiz || !nextEnabled {
        return None;
      }
      index := index + 1;
      if index >= |questions| {
        var s := ShowResults();
        return Some(s);
      }
      RenderQuestion();
      summary := None;
    }

    /** The Quit button: stops the countdown and returns to the setup card, saving nothing. */
    method Quit()
      requires Valid()
      modifies this`card, this`timerActive
      ensures Valid()
      ensures old(card) != Quiz ==> unchanged(this)
      ensures old(card) == Quiz ==>
        && card == Setup && !timerActive
        && score == old(score) && index == old(index) && questions == old(questions)
        && locked == old(locked) && nextEnabled == old(nextEnabled)
        && settings == old(settings) && remaining == old(remaining)
    {
      if card != Quiz {
        return;
      }
      StopTimer();
      card := Setup;
    }

    /**
      The Back button the load-failure message offers: back to the setup card.
      In this model the failure state is the quiz card with no questions.
     */
    method Back()
      requires Valid()
      modifies this`card
      ensures Valid()
      ensures old(card == Quiz && questions == []) ==> card == Setup
      ensures !old(card == Quiz && questions == []) ==> card == old(card)
    {
      if card == Quiz && questions == [] {
        card := Setup;
      }
    }

    /** The Play again and Home buttons of the results card: back to the setup card. */
    method LeaveResults()
      requires Valid()
      modifies this`card
      ensures Valid()
      ensures old(card) == Result ==> card == Setup
      ensures old(card) != Result ==> card == old(card)
    {
      if card == Result {
        card := Setup;
      }
    }
  }

  /**
    Clicking the correct answer of every question, from the first one
    rendered, ends on the results card with the full score. This needs every
    question's correct answer among its answer buttons.
   */
  method PerfectRound(quiz: QuizState) returns (summary: Summary)
    requires quiz.Valid() && quiz.card == Quiz && !quiz.locked && quiz.index == 0 && quiz.score == 0
    requires forall q :: q in quiz.questions ==> q.correct in q.answers
    modifies quiz
    ensures quiz.Valid() && quiz.card == Result
    ensures summary == Summary(Award * |quiz.questions|, Award * |quiz.questions|)
  {
    var shown: Option<Summary> := None;
    while shown.None?
      invariant quiz.Valid()
      invariant forall q :: q in quiz.questions ==> q.correct in q.answers
      invariant shown.None? ==> quiz.card == Quiz && !quiz.locked && !quiz.nextEnabled
      invariant shown.None? ==> quiz.score == Award * quiz.index
      invariant shown.Some? ==> quiz.card == Result && shown.value == Summary(Award * |quiz.questions|, Award * |quiz.questions|)
      decreases |quiz.questions| - quiz.index, if shown.None? then 1 else 0
    {
      var q := quiz.questions[quiz.index];
      assert q in quiz.questions;
      var choice :| 0 <= choice < |q.answers| && q.answers[choice] == q.correct;
      var correct := quiz.SelectAnswer(choice);
      shown := quiz.Next();
    }
    summary := shown.value;
  }

  /**
    Once the countdown has run out, a late answer is ignored: the question was
    locked without points and the score stays as it was.
   */
  method TimeoutThenLateAnswer(quiz: QuizState, late: nat)
    requires quiz.Valid() && quiz.timerActive
    modifies quiz
    ensures quiz.Valid() && quiz.locked && quiz.nextEnabled && !quiz.timerActive
    ensures quiz.score == old(quiz.score) && quiz.index == old(quiz.index)
  {
    while quiz.timerActive
      invariant quiz.Valid()
      invariant quiz.score == old(quiz.score) && quiz.index == old(quiz.index)
      invariant !quiz.timerActive ==> quiz.locked && quiz.nextEnabled
      decreases quiz.remaining, if quiz.timerActive then 1 else 0
    {
      quiz.Tick();
    }
    var scored := quiz.SelectAnswer(late);
  }
}
