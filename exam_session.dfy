/**
 * The exam-taking session of pages/user/ExamWindow.tsx: the loaded exam, the
 * current question, the recorded answers, the marked-for-review set, the
 * countdown, and the `submitting` guard around the write of the attempt.
 * Document-store calls are parameters: the loaded exam snapshot, the signed-in
 * user's id and whether the attempt write succeeded.
 */
module ExamSession {

  import opened Wrappers
  import opened Types
  import opened TextUtil

  // ---------------------------------------------------------------------
  // Scoring (negative marking)
  // ---------------------------------------------------------------------

  /** What one question adds to the score: nothing if unanswered, +1 if right, -1/3 if wrong. */
  function Contribution(q: Question, answers: map<string, int>): real {
    if q.id !in answers then 0.0
    else if answers[q.id] == q.correctIndex then 1.0
    else -1.0 / 3.0
  }

  /** The score: the contributions of all questions, added up in list order; with n questions it lies between -n/3 and n. */
  function Score(questions: seq<Question>, answers: map<string, int>): (score: real)
    ensures -(|questions| as real) / 3.0 <= score <= |questions| as real
  {
    if questions == [] then 0.0
    else Score(questions[..|questions| - 1], answers) + Contribution(questions[|questions| - 1], answers)
  }

  predicate AnsweredRight(q: Question, answers: map<string, int>) {
    q.id in answers && answers[q.id] == q.correctIndex
  }

  predicate AnsweredWrong(q: Question, answers: map<string, int>) {
    q.id in answers && answers[q.id] != q.correctIndex
  }

  /** Positions of the questions answered correctly. */
  function RightPositions(questions: seq<Question>, answers: map<string, int>): set<int> {
    set i | 0 <= i < |questions| && AnsweredRight(questions[i], answers)
  }

  /** Positions of the questions answered incorrectly. */
  function WrongPositions(questions: seq<Question>, answers: map<string, int>): set<int> {
    set i | 0 <= i < |questions| && AnsweredWrong(questions[i], answers)
  }

  /** Positions of the questions left unanswered. */
  function BlankPositions(questions: seq<Question>, answers: map<string, int>): set<int> {
    set i | 0 <= i < |questions| && questions[i].id !in answers
  }

  /** Going from a list to the list with one more question adds at most that position to each class. */
  lemma PositionsSnoc(questions: seq<Question>, answers: map<string, int>)
    requires |questions| > 0
    ensures var n := |questions| - 1; var init := questions[..n]; var q := questions[n];
      && RightPositions(questions, answers) == RightPositions(init, answers) + (if AnsweredRight(q, answers) then {n} else {})
      && WrongPositions(questions, answers) == WrongPositions(init, answers) + (if AnsweredWrong(q, answers) then {n} else {})
      && BlankPositions(questions, answers) == BlankPositions(init, answers) + (if q.id !in answers then {n} else {})
      && n !in RightPositions(init, answers) && n !in WrongPositions(init, answers) && n !in BlankPositions(init, answers)
  {
    var n := |questions| - 1;
    assert forall i :: 0 <= i < n ==> questions[..n][i] == questions[i];
  }

  /**
   * The score equals (right answers) - (wrong answers)/3, and every question is
   * exactly one of right, wrong or unanswered.
   */
  lemma {:induction false} ScoreByCounts(questions: seq<Question>, answers: map<string, int>)
    ensures Score(questions, answers)
         == |RightPositions(questions, answers)| as real - |WrongPositions(questions, answers)| as real / 3.0
    ensures |RightPositions(questions, answers)| + |WrongPositions(questions, answers)|
          + |BlankPositions(questions, answers)| == |questions|
    decreases |questions|
  {
    if questions == [] {
      assert RightPositions(questions, answers) == {};
      assert WrongPositions(questions, answers) == {};
      assert BlankPositions(questions, answers) == {};
    } else {
      var n := |questions| - 1;
      ScoreByCounts(questions[..n], answers);
      PositionsSnoc(questions, answers);
    }
  }

  /** A session in which none of the questions was answered scores exactly 0. */
  lemma {:induction false} ScoreUnanswered(questions: seq<Question>, answers: map<string, int>)
    requires forall i :: 0 <= i < |questions| ==> questions[i].id !in answers
    ensures Score(questions, answers) == 0.0
    decreases |questions|
  {
    if questions != [] {
      ScoreUnanswered(questions[..|questions| - 1], answers);
    }
  }

  /** Answering every question correctly gives one point per question. */
  lemma {:induction false} ScoreAllRight(questions: seq<Question>, answers: map<string, int>)
    requires forall i :: 0 <= i < |questions| ==> AnsweredRight(questions[i], answers)
    ensures Score(questions, answers) == |questions| as real
    decreases |questions|
  {
    if questions != [] {
      ScoreAllRight(questions[..|questions| - 1], answers);
    }
  }

  /** The accumulation loop of the submission: `score += 1` or `score -= 1/3` per answered question. */
  method TallyScore(questions: seq<Question>, answers: map<string, int>) returns (score: real)
    ensures score == Score(questions, answers)
  {
    score := 0.0;
    var i := 0;
    while i < |questions|
      invariant 0 <= i <= |questions|
      invariant score == Score(questions[..i], answers)
    {
      var q := questions[i];
      assert questions[..i + 1][..i] == questions[..i];
      if q.id in answers {
        if answers[q.id] == q.correctIndex {
          score := score + 1.0;
        } else {
          score := score - 1.0 / 3.0;
        }
      }
      i := i + 1;
    }
    assert questions[..i] == questions;
  }

  // ---------------------------------------------------------------------
  // The attempt document and the countdown display
  // ---------------------------------------------------------------------

  /** The attempt written at submission, under the document key `key`. */
  datatype AttemptWrite = AttemptWrite(
    key: string, userId: Option<string>, examId: string, examTitle: string,
    score: real, answers: map<string, int>)

  /** A template-literal rendering of an optional id: absent prints as "undefined". */
  function IdText(id: Option<string>): string {
    if id.Some? then id.value else "undefined"
  }

  /**
   * The attempt document key `<uid>_<examId>`: the rendered uid, an underscore,
   * then the exam id. A later submission of the same user and exam overwrites
   * the same document.
   */
  function AttemptKey(uid: Option<string>, examId: string): (key: string)
    ensures |key| == |IdText(uid)| + 1 + |examId|
    ensures key[..|IdText(uid)|] == IdText(uid) && key[|IdText(uid)|] == '_'
    ensures key[|IdText(uid)| + 1..] == examId
  {
    IdText(uid) + "_" + examId
  }

  /** For one user, distinct exams get distinct attempt documents. */
  lemma AttemptKeyPerExam(uid: Option<string>, e1: string, e2: string)
    ensures AttemptKey(uid, e1) == AttemptKey(uid, e2) ==> e1 == e2
  {
    var p := |IdText(uid)| + 1;
    var k1, k2 := AttemptKey(uid, e1), AttemptKey(uid, e2);
    if k1 == k2 {
      calc {
        e1;
        k1[p..];
        k2[p..];
        e2;
      }
    }
  }

  /**
   * When the rendered uids contain no underscore (an absent uid renders as
   * "undefined"), the key determines both the user and the exam: one attempt
   * document per user and exam.
   */
  lemma {:induction false} AttemptKeyDetermines(u1: Option<string>, e1: string, u2: Option<string>, e2: string)
    requires '_' !in IdText(u1) && '_' !in IdText(u2)
    ensures AttemptKey(u1, e1) == AttemptKey(u2, e2) ==> IdText(u1) == IdText(u2) && e1 == e2
  {
    var t1, t2 := IdText(u1), IdText(u2);
    var k := AttemptKey(u1, e1);
    if k == AttemptKey(u2, e2) {
      if |t1| < |t2| {
        assert false;
      } else if |t2| < |t1| {
        assert false;
      }
      assert t1 == k[..|t1|] == t2;
      assert e1 == k[|t1| + 1..] == e2;
    }
  }

  /**
   * The attempt a submission writes for exam `e`: under the key of this user
   * and exam, the answers as given and their score, which lies between -n/3
   * and n for n questions.
   */
  function AttemptFor(uid: Option<string>, e: Exam, answers: map<string, int>): (w: AttemptWrite)
    ensures w.key == AttemptKey(uid, e.id) && w.userId == uid && w.examId == e.id && w.examTitle == e.title
    ensures w.answers == answers && w.score == Score(e.questions, answers)
    ensures -(|e.questions| as real) / 3.0 <= w.score <= |e.questions| as real
  {
    AttemptWrite(AttemptKey(uid, e.id), uid, e.id, e.title, Score(e.questions, answers), answers)
  }

  /**
   * `t % 60` in JavaScript: the remainder takes the sign of `t`, so it is the
   * Euclidean remainder for `t >= 0` and lies in (-60, 0] for negative `t`.
   */
  function JsRem60(t: int): (r: int)
    ensures t >= 0 ==> r == t % 60
    ensures t < 0 ==> -60 < r <= 0 && (t - r) % 60 == 0
  {
    if t >= 0 then t % 60 else -((-t) % 60)
  }

  /**
   * The countdown text: whole minutes (rounded down), ":", then the seconds
   * padded to two characters. For a non-negative count that is the minutes in
   * decimal and exactly two second digits; a negative count (the countdown
   * before an exam has loaded) renders with a leading minus sign.
   */
  function FormatTime(seconds: int): (text: string)
    ensures seconds >= 0 ==>
      text == Decimal(seconds / 60) + ":" + [DigitChar(seconds % 60 / 10), DigitChar(seconds % 60 % 10)]
    ensures seconds < 0 ==> |text| >= 1 && text[0] == '-'
  {
    var m := seconds / 60;  // a positive divisor: Dafny's division rounds down, like Math.floor
    var s := JsRem60(seconds);
    assert s >= 10 ==> Decimal(s / 10) == [DigitChar(s / 10)];
    IntToString(m) + ":" + (if s < 10 then "0" else "") + IntToString(s)
  }

  /** Reads an `m:ss` text back as seconds; anything else is not a countdown text. */
  function ParseTime(text: string): Option<nat> {
    var n := |text|;
    if n >= 4 && text[n - 3] == ':' && AllDigits(text[..n - 3])
       && IsDigit(text[n - 2]) && IsDigit(text[n - 1]) && DigitValue(text[n - 2]) < 6
    then Some(ParseDecimal(text[..n - 3]) * 60 + DigitValue(text[n - 2]) * 10 + DigitValue(text[n - 1]))
    else None
  }

  /** Distinct non-negative counts render differently: the text determines the count. */
  lemma FormatTimeRoundTrip(t: nat)
    ensures ParseTime(FormatTime(t)) == Some(t)
  {
    DecimalRoundTrip(t / 60);
    var text := FormatTime(t);
    var n := |text|;
    assert text[..n - 3] == Decimal(t / 60);
    assert DigitValue(text[n - 2]) == t % 60 / 10;
    assert DigitValue(text[n - 1]) == t % 60 % 10;
  }

  /** Two worked values: 65 seconds is "1:05" and 600 seconds is "10:00". */
  lemma FormatTimeExamples()
    ensures FormatTime(65) == "1:05"
    ensures FormatTime(600) == "10:00"
  {
    assert Decimal(1) == "1";
    assert Decimal(10) == Decimal(1) + [DigitChar(0)];
  }

  // ---------------------------------------------------------------------
  // Mark-for-review
  // ---------------------------------------------------------------------

  /** The marked set after a toggle: `idx` flips membership, every other index keeps its own. */
  function Toggled(marked: set<int>, idx: int): (r: set<int>)
    ensures idx in r <==> idx !in marked
    ensures forall j :: j != idx ==> (j in r <==> j in marked)
  {
    if idx in marked then marked - {idx} else marked + {idx}
  }

  /** Toggling the same index twice restores the marked set. */
  lemma ToggleTwice(marked: set<int>, idx: int)
    ensures Toggled(Toggled(marked, idx), idx) == marked
  {
  }

  // ---------------------------------------------------------------------
  // The session object
  // ---------------------------------------------------------------------

  class ExamWindow {
    var exam: Option<Exam>
    var currentQ: int
    var answers: map<string, int>
    var timeLeft: int
    var marked: set<int>
    var submitting: bool

    /** Position is on a question of the loaded exam. */
    predicate PositionValid()
      reads this
    {
      exam.Some? && 0 <= currentQ < |exam.value.questions|
    }

    /** The stored question count agrees with the question list. */
    predicate CountMatches()
      reads this
    {
      exam.Some? && exam.value.qCount == |exam.value.questions|
    }

    /** A fresh window: nothing loaded, first question, no answers, no marks, countdown 0, not submitting. */
    constructor ()
      ensures exam == None && currentQ == 0 && answers == map[] && timeLeft == 0
      ensures marked == {} && !submitting
    {
      exam := None;
      currentQ := 0;
      answers := map[];
      timeLeft := 0;
      marked := {};
      submitting := false;
    }

    /** The exam fetch: a found exam is loaded and the countdown set to its duration in seconds. */
    method LoadExam(snapshot: Option<Exam>)
      modifies this`exam, this`timeLeft
      ensures snapshot.Some? ==> exam == snapshot && timeLeft == snapshot.value.duration * 60
      ensures snapshot.None? ==> exam == old(exam) && timeLeft == old(timeLeft)
    {
      if snapshot.Some? {
        exam := snapshot;
        timeLeft := snapshot.value.duration * 60;
      }
    }

    /**
     * Start of a submission: ignored when nothing is loaded or a submission is in
     * flight; otherwise the guard is raised and the attempt to write is produced,
     * carrying the current answers and their score.
     */
    method BeginSubmit(uid: Option<string>) returns (write: Option<AttemptWrite>)
      modifies this`submitting
      ensures old(exam.None? || submitting) ==> write == None && submitting == old(submitting)
      ensures old(exam.Some? && !submitting) ==>
        submitting && write == Some(AttemptFor(uid, exam.value, answers))
    {
      if exam.None? || submitting {
        return None;
      }
      submitting := true;
      var e := exam.value;
      var score := TallyScore(e.questions, answers);
      write := Some(AttemptWrite(AttemptKey(uid, e.id), uid, e.id, e.title, score, answers));
    }

    /**
     * End of a submission, whatever the write's outcome: the guard is lowered.
     * Only a successful write leads back to the home page.
     */
    method EndSubmit(writeSucceeded: bool) returns (goHome: bool)
      modifies this`submitting
      ensures !submitting && goHome == writeSucceeded
    {
      submitting := false;
      goHome := writeSucceeded;
    }

    /**
     * One run of the timer effect: with an exam loaded and the countdown at or
     * below 0 it submits instead of ticking; otherwise it lowers the countdown by one.
     */
    method Tick(uid: Option<string>) returns (write: Option<AttemptWrite>)
      modifies this`timeLeft, this`submitting
      ensures old(timeLeft <= 0 && exam.Some?) ==>
        timeLeft == old(timeLeft)
        && (if old(submitting) then write == None && submitting
            else submitting && write == Some(AttemptFor(uid, exam.value, answers)))
      ensures !old(timeLeft <= 0 && exam.Some?) ==>
        timeLeft == old(timeLeft) - 1 && write == None && submitting == old(submitting)
      ensures exam.Some? && old(timeLeft) >= 0 ==> timeLeft >= 0
    {
      if timeLeft <= 0 && exam.Some? {
        write := BeginSubmit(uid);
      } else {
        timeLeft := timeLeft - 1;
        write := None;
      }
    }

    /** Mark-for-review toggle of question `idx`. */
    method ToggleMark(idx: int)
      modifies this`marked
      ensures marked == Toggled(old(marked), idx)
    {
      var next := marked;
      if idx in next {
        next := next - {idx};
      } else {
        next := next + {idx};
      }
      marked := next;
    }

    /** Choosing option `idx` of the current question records it under that question's id; no range check. */
    method SelectOption(idx: int)
      requires PositionValid()
      modifies this`answers
      ensures var id := exam.value.questions[currentQ].id;
        && answers == old(answers)[id := idx]
        && id in answers && answers[id] == idx
        && forall k :: k != id ==> (k in answers <==> k in old(answers)) && (k in answers ==> answers[k] == old(answers)[k])
    {
      var q := exam.value.questions[currentQ];
      answers := answers[q.id := idx];
    }

    /** Previous: disabled on the first question, otherwise one question back. */
    method Previous()
      requires exam.Some?
      modifies this`currentQ
      ensures currentQ == if old(currentQ) == 0 then old(currentQ) else old(currentQ) - 1
      ensures old(PositionValid()) ==> PositionValid()
    {
      if currentQ != 0 {
        currentQ := currentQ - 1;
      }
    }

    /** Next: one question forward while before position qCount-1, otherwise nothing. */
    method Next()
      requires exam.Some?
      modifies this`currentQ
      ensures currentQ == if old(currentQ) < exam.value.qCount - 1 then old(currentQ) + 1 else old(currentQ)
      ensures CountMatches() && old(PositionValid()) ==> PositionValid()
    {
      if currentQ < exam.value.qCount - 1 {
        currentQ := currentQ + 1;
      }
    }

    /** Palette jump: a button per question of the list moves straight to it. */
    method JumpTo(idx: int)
      requires exam.Some? && 0 <= idx < |exam.value.questions|
      modifies this`currentQ
      ensures currentQ == idx && PositionValid()
    {
      currentQ := idx;
    }
  }
}
