/** The daily quiz page: it loads the day's questions, records one selected
    option per question, refuses to submit while an answer is missing, grades
    the answers, builds the submission sent to the backend, and reacts to the
    backend's reply. Network replies are parameters; the two-second timer that
    reports completion is an explicit event. */
module QueryPage {
  import opened Wrappers

  /** One multiple-choice question; `correctAnswer` is the index of the right option. */
  datatype Question = Question(
    mcqId: int,
    question: string,
    options: seq<string>,
    correctAnswer: int,
    correctOption: string)

  // ---------------------------------------------------------------------------
  // Loading the questions
  // ---------------------------------------------------------------------------

  /** The parsed body of the question request, reduced to the shapes the page
      tells apart: a JSON array, or an object whose `mcqs` member is an array
      (`Some`) or is missing or not an array (`None`). */
  datatype QuestionsBody =
    | ListBody(items: seq<Question>)
    | RecordBody(mcqs: Option<seq<Question>>)

  /** What the question request produced: a body, or an error (a network
      failure, a non-OK status or a body that is not JSON). */
  datatype FetchOutcome = Fetched(body: QuestionsBody) | FetchFailed

  /** The question list taken from a body: the array itself, else its `mcqs`
      array, else nothing. */
  function QuestionsOf(body: QuestionsBody): seq<Question>
  {
    match body
    case ListBody(items) => items
    case RecordBody(Some(mcqs)) => mcqs
    case RecordBody(None) => []
  }

  /** One unanswered slot per question. */
  function Unanswered(n: nat): (answers: seq<Option<int>>)
    ensures |answers| == n
    ensures forall i :: 0 <= i < n ==> answers[i] == None
  {
    seq(n, _ => None)
  }

  // ---------------------------------------------------------------------------
  // Grading
  // ---------------------------------------------------------------------------

  /** No answer is missing: the negation of the submit guard. */
  predicate AllAnswered(answers: seq<Option<int>>)
  {
    forall i :: 0 <= i < |answers| ==> answers[i].Some?
  }

  /** `results[i]` holds iff the answer to question `i` is its correct option. */
  function Grade(questions: seq<Question>, answers: seq<Option<int>>): (results: seq<bool>)
    requires |answers| == |questions|
    ensures |results| == |questions|
    ensures forall i :: 0 <= i < |questions| ==>
      (results[i] <==> answers[i] == Some(questions[i].correctAnswer))
  {
    seq(|questions|, i requires 0 <= i < |questions| => answers[i] == Some(questions[i].correctAnswer))
  }

  /** The number of true entries: `results.filter(Boolean).length`. */
  function CountTrue(results: seq<bool>): (n: nat)
    ensures n <= |results|
    ensures n == |results| <==> forall i :: 0 <= i < |results| ==> results[i]
    ensures n == 0 <==> forall i :: 0 <= i < |results| ==> !results[i]
    ensures n == multiset(results)[true]
  {
    if results == [] then 0
    else
      var init := results[..|results| - 1];
      assert forall i :: 0 <= i < |init| ==> init[i] == results[i];
      assert results == init + [results[|results| - 1]];
      CountTrue(init) + (if results[|results| - 1] then 1 else 0)
  }

  // ---------------------------------------------------------------------------
  // The submission payload
  // ---------------------------------------------------------------------------

  /** A UTF-16 code unit, the unit `String.fromCharCode` produces. */
  newtype CodeUnit = x: int | 0 <= x < 0x1_0000

  /** `String.fromCharCode(65 + index)`: the option letter `A`, `B`, ... of an
      option index; the argument is reduced modulo 2^16 as the function does. */
  function OptionLetter(index: int): (c: CodeUnit)
    ensures 0 <= index < 26 ==> c as int == 'A' as int + index
  {
    ((65 + index) % 0x1_0000) as CodeUnit
  }

  /** The option index a letter stands for. */
  function LetterIndex(c: CodeUnit): int
  {
    (c as int - 65) % 0x1_0000
  }

  /** Letters encode option indices without loss, for every index below 2^16. */
  lemma LetterRoundTrip(index: int)
    requires 0 <= index < 0x1_0000
    ensures LetterIndex(OptionLetter(index)) == index
  {
  }

  datatype ResponseRow = ResponseRow(
    mcqId: int,
    userId: Option<int>,
    selectedOption: CodeUnit,
    correctFlag: bool,
    answered: bool,
    respondDate: Option<string>)

  datatype Summary = Summary(
    noCorrect: nat,
    totalMcq: nat,
    userId: Option<int>,
    respondDate: Option<string>,
    questionId: int)

  datatype Submission = Submission(responses: seq<ResponseRow>, summary: Summary)

  /** The correct flags of the rows, in order. */
  function Flags(rows: seq<ResponseRow>): (flags: seq<bool>)
    ensures |flags| == |rows|
    ensures forall i :: 0 <= i < |rows| ==> flags[i] == rows[i].correctFlag
  {
    seq(|rows|, i requires 0 <= i < |rows| => rows[i].correctFlag)
  }

  /** The payload: one row per question in question order, then a summary
      whose correct count is the number of rows flagged correct. */
  function BuildSubmission(questions: seq<Question>, answers: seq<Option<int>>,
                           userId: Option<int>, loginDate: Option<string>): (p: Submission)
    requires |answers| == |questions| && AllAnswered(answers)
    ensures |p.responses| == |questions|
    ensures forall i :: 0 <= i < |questions| ==>
      && p.responses[i].mcqId == questions[i].mcqId
      && p.responses[i].answered
      && p.responses[i].selectedOption == OptionLetter(answers[i].value)
      && (p.responses[i].correctFlag <==> answers[i].value == questions[i].correctAnswer)
    ensures forall i :: 0 <= i < |questions| ==>
      p.responses[i].userId == userId && p.responses[i].respondDate == loginDate
    ensures p.summary.totalMcq == |questions| && p.summary.questionId == 1
    ensures p.summary.userId == userId && p.summary.respondDate == loginDate
    ensures p.summary.noCorrect == CountTrue(Flags(p.responses))
  {
    var results := Grade(questions, answers);
    var rows := seq(|questions|, i requires 0 <= i < |questions| =>
      ResponseRow(questions[i].mcqId, userId, OptionLetter(answers[i].value),
                  results[i], true, loginDate));
    assert Flags(rows) == results;
    Submission(rows, Summary(CountTrue(results), |questions|, userId, loginDate, 1))
  }

  /** The summary reports every question correct iff every answer is its
      question's correct option. */
  lemma AllCorrectSummary(questions: seq<Question>, answers: seq<Option<int>>,
                          userId: Option<int>, loginDate: Option<string>)
    requires |answers| == |questions| && AllAnswered(answers)
    ensures var p := BuildSubmission(questions, answers, userId, loginDate);
      p.summary.noCorrect == p.summary.totalMcq
      <==> forall i :: 0 <= i < |questions| ==> answers[i].value == questions[i].correctAnswer
  {
    var p := BuildSubmission(questions, answers, userId, loginDate);
    var flags := Flags(p.responses);
    assert forall i :: 0 <= i < |questions| ==>
      (flags[i] <==> answers[i].value == questions[i].correctAnswer);
  }

  // ---------------------------------------------------------------------------
  // The backend's reply to a submission
  // ---------------------------------------------------------------------------

  datatype Reply = Reply(status: string, message: string)

  /** The parsed reply body: an array of replies or a single reply. */
  datatype ReplyBody = ReplyList(items: seq<Reply>) | ReplyRecord(reply: Reply)

  /** What the submission request produced: a body, or an error (a network
      failure, a non-OK status or a body that is not JSON). */
  datatype SubmitOutcome = Replied(body: ReplyBody) | SubmitFailed

  /** How the page reads the outcome. */
  datatype Verdict = Accepted | Rejected | Unexpected

  /** The reply the page reads: an array reply through its first element,
      which an empty array does not have. */
  function FirstReply(body: ReplyBody): (r: Option<Reply>)
    ensures body.ReplyRecord? ==> r == Some(body.reply)
    ensures body.ReplyList? ==> (r.None? <==> body.items == [])
    ensures body.ReplyList? && r.Some? ==> r.value == body.items[0]
  {
    match body
    case ReplyList(items) => if items == [] then None else Some(items[0])
    case ReplyRecord(reply) => Some(reply)
  }

  /** "fail" is a rejection and "success" an acceptance; any other status, an
      error, and an empty array (whose missing first element throws when its
      status is read) are unexpected. */
  function VerdictOf(outcome: SubmitOutcome): (v: Verdict)
    ensures v == Accepted <==>
      outcome.Replied? && FirstReply(outcome.body).Some? && FirstReply(outcome.body).value.status == "success"
    ensures v == Rejected <==>
      outcome.Replied? && FirstReply(outcome.body).Some? && FirstReply(outcome.body).value.status == "fail"
  {
    match outcome
    case SubmitFailed => Unexpected
    case Replied(body) =>
      var first := FirstReply(body);
      if first.None? then Unexpected
      else if first.value.status == "fail" then Rejected
      else if first.value.status == "success" then Accepted
      else Unexpected
  }

  // ---------------------------------------------------------------------------
  // The page's state
  // ---------------------------------------------------------------------------

  class Quiz {
    /** The day this page was opened for. */
    const day: int
    var questions: seq<Question>
    var answers: seq<Option<int>>
    var submitted: bool
    var isCorrect: bool
    var showConfetti: bool
    var loading: bool
    /** Submissions sent and not yet answered, oldest first; each entry records
        whether every answer was correct when that submission was made. */
    var inFlight: seq<bool>
    /** Two-second timers that will call `onComplete(day)`, started and not yet fired. */
    var pendingTimers: nat

    /** One answer slot per question; nothing is sent or scheduled while the
        questions load; the confetti only shows while a completion is pending. */
    ghost predicate Valid()
      reads this
    {
      && |answers| == |questions|
      && (loading ==> questions == [] && inFlight == [] && pendingTimers == 0)
      && (showConfetti ==> pendingTimers > 0)
    }

    /** The page opens loading, with no questions, and already submitted
        (so read-only) when the day was attempted before. */
    constructor (day: int, hasAttempted: bool)
      ensures Valid()
      ensures this.day == day && submitted == hasAttempted
      ensures questions == [] && answers == [] && loading
      ensures !isCorrect && !showConfetti && inFlight == [] && pendingTimers == 0
    {
      this.day := day;
      questions := [];
      answers := [];
      submitted := hasAttempted;
      isCorrect := false;
      showConfetti := false;
      loading := true;
      inFlight := [];
      pendingTimers := 0;
    }

    /** The question request completes: the questions are set from the body
        (none on error) and every answer starts out missing. */
    method LoadQuestions(outcome: FetchOutcome)
      requires Valid() && loading
      modifies this`questions, this`answers, this`loading
      ensures Valid() && !loading
      ensures questions == (if outcome.Fetched? then QuestionsOf(outcome.body) else [])
      ensures answers == Unanswered(|questions|)
    {
      if outcome.Fetched? {
        var data := QuestionsOf(outcome.body);
        questions := data;
        answers := Unanswered(|data|);
      }
      loading := false;
    }

    /** `handleSelect`: answer `q` becomes `value`; every other answer and the
        length stay as they were. */
    method HandleSelect(q: nat, value: int)
      requires Valid() && q < |answers|
      modifies this`answers
      ensures Valid()
      ensures |answers| == |old(answers)| && answers[q] == Some(value)
      ensures forall i :: 0 <= i < |answers| && i != q ==> answers[i] == old(answers)[i]
    {
      answers := answers[q := Some(value)];
    }

    /** A click on option `value` of question `q`: the option group is
        disabled once the quiz is submitted, so then nothing changes. While a
        submission is in flight the quiz is not yet submitted, so answers can
        still change. */
    method ChooseOption(q: nat, value: int)
      requires Valid() && !loading && q < |questions|
      modifies this`answers
      ensures Valid()
      ensures answers == if old(submitted) then old(answers) else old(answers)[q := Some(value)]
    {
      if !submitted {
        HandleSelect(q, value);
      }
    }

    /** Whether every current answer is its question's correct option. */
    predicate AllCorrect()
      reads this
      requires |answers| == |questions|
    {
      forall i :: 0 <= i < |questions| ==> answers[i] == Some(questions[i].correctAnswer)
    }

    /** A click on Submit, the part of `handleSubmit` before the request
        returns. With an answer missing nothing is sent. Otherwise the graded
        submission is sent and joins the requests in flight, remembering
        whether it was all correct; no other state changes until its reply.
        The button exists while the quiz is not submitted, so a second click
        before the reply sends a second submission. */
    method HandleSubmit(userId: Option<int>, loginDate: Option<string>)
      returns (sent: Option<Submission>)
      requires Valid() && !loading && !submitted
      modifies this`inFlight
      ensures Valid()
      ensures !AllAnswered(answers) ==> sent == None && inFlight == old(inFlight)
      ensures AllAnswered(answers) ==>
        && sent == Some(BuildSubmission(questions, answers, userId, loginDate))
        && inFlight == old(inFlight) + [AllCorrect()]
    {
      if !AllAnswered(answers) {
        return None;
      }
      var results := Grade(questions, answers);
      var correctCount := CountTrue(results);
      var payload := BuildSubmission(questions, answers, userId, loginDate);
      sent := Some(payload);
      inFlight := inFlight + [correctCount == |questions|];
    }

    /** The reply to the in-flight submission `k` arrives (replies may come in
        any order), the rest of `handleSubmit`. "fail", another status and
        errors leave the quiz unsubmitted; "success" submits it, and when that
        submission was all correct marks it correct, shows the confetti and
        starts a completion timer. Whatever earlier replies did, the latest
        reply decides `submitted`. */
    method ReplyArrives(k: nat, outcome: SubmitOutcome)
      requires Valid() && k < |inFlight|
      modifies this`inFlight, this`submitted, this`isCorrect, this`showConfetti, this`pendingTimers
      ensures Valid()
      ensures inFlight == old(inFlight[..k] + inFlight[k + 1..])
      ensures submitted <==> VerdictOf(outcome) == Accepted
      ensures VerdictOf(outcome) == Accepted ==>
        var allCorrect := old(inFlight[k]);
        && isCorrect == allCorrect
        && pendingTimers == old(pendingTimers) + (if allCorrect then 1 else 0)
        && showConfetti == (allCorrect || old(showConfetti))
      ensures VerdictOf(outcome) != Accepted ==>
        isCorrect == old(isCorrect) && showConfetti == old(showConfetti)
        && pendingTimers == old(pendingTimers)
    {
      var allCorrect := inFlight[k];
      inFlight := inFlight[..k] + inFlight[k + 1..];
      var verdict := VerdictOf(outcome);
      if verdict == Rejected {
        submitted := false;
        return;
      }
      if verdict == Accepted {
        if allCorrect {
          isCorrect := true;
          showConfetti := true;
          pendingTimers := pendingTimers + 1;
        } else {
          isCorrect := false;
        }
        submitted := true;
      } else {
        submitted := false;
      }
    }

    /** A completion timer fires: `onComplete(day)` is called (returned
        here) and the confetti stops, even if another timer is still pending. */
    method CompletionTimerFires() returns (completedDay: int)
      requires Valid() && pendingTimers > 0
      modifies this`showConfetti, this`pendingTimers
      ensures Valid()
      ensures completedDay == day && !showConfetti
      ensures pendingTimers == old(pendingTimers) - 1
    {
      completedDay := day;
      showConfetti := false;
      pendingTimers := pendingTimers - 1;
    }
  }

  /** A failed question fetch leaves an empty quiz; submitting it is allowed,
      zero correct answers equal zero questions, so an accepted submission
      still reports the day complete when the timer fires. */
  method EmptyQuizCompletes(day: int, userId: Option<int>, loginDate: Option<string>)
    returns (completedDay: int)
    ensures completedDay == day
  {
    var quiz := new Quiz(day, false);
    quiz.LoadQuestions(FetchFailed);
    var sent := quiz.HandleSubmit(userId, loginDate);
    quiz.ReplyArrives(0, Replied(ReplyRecord(Reply("success", ""))));
    completedDay := quiz.CompletionTimerFires();
  }

  /** Submit clicked twice before any reply: the first reply accepts and
      starts the completion timer, the second rejects. The quiz is left
      unsubmitted (its Submit button shows again), yet the timer still reports
      the day complete. */
  method SuccessThenLateFail(day: int, userId: Option<int>, loginDate: Option<string>)
    returns (submittedAfterReplies: bool, completedDay: int)
    ensures !submittedAfterReplies && completedDay == day
  {
    var quiz := new Quiz(day, false);
    quiz.LoadQuestions(FetchFailed);
    var first := quiz.HandleSubmit(userId, loginDate);
    var second := quiz.HandleSubmit(userId, loginDate);
    quiz.ReplyArrives(0, Replied(ReplyRecord(Reply("success", ""))));
    quiz.ReplyArrives(0, Replied(ReplyList([Reply("fail", "")])));
    submittedAfterReplies := quiz.submitted;
    completedDay := quiz.CompletionTimerFires();
  }
}
