/**
 * The interview session screen: a forward-only walk through the questions
 * in which each recording, when stopped, stores the spoken answer (and,
 * for a coding question, the code and its language) in the slot of the
 * current question. React's `setState` calls are modelled as immediate
 * assignments to the fields of one object.
 */
module Session {
  import opened Common
  import opened Text

  const DefaultLanguage: string := "javascript"

  const NoCodeMessage: string := "No code submitted. Please write some code and run it."
  const NoAnswerMessage: string := "No answer detected. Please try again."

  /** What `onComplete` receives when the last question is finished. */
  datatype Completion = Completion(answers: seq<string>, codeAnswers: seq<string>, codingLanguages: seq<string>)

  /** `Array(n).fill(v)`. */
  function Filled(n: nat, v: string): (r: seq<string>)
    ensures |r| == n
    ensures forall i :: 0 <= i < n ==> r[i] == v
  {
    seq(n, _ => v)
  }

  /** `questionTypes[i] === "coding"`; an index past the end reads `undefined`. */
  predicate IsCoding(types: seq<string>, i: nat)
  {
    i < |types| && types[i] == "coding"
  }

  /**
   * The early exits of the feedback request: a blank submission gets a
   * fixed message instead of a network call (None means the call is made).
   * A coding question is judged by its code, any other by its answer.
   */
  function BlankFeedback(types: seq<string>, i: nat, answer: string, code: string): (r: Option<string>)
    ensures r.Some? <==> (if IsCoding(types, i) then !HasNonSpace(code) else !HasNonSpace(answer))
    ensures r.Some? ==> r.value == (if IsCoding(types, i) then NoCodeMessage else NoAnswerMessage)
  {
    if IsCoding(types, i) then
      (if Trim(code) == [] then Some(NoCodeMessage) else None)
    else if Trim(answer) == [] then Some(NoAnswerMessage)
    else None
  }

  // ---------------------------------------------------------------------
  // Elapsed recording time
  // ---------------------------------------------------------------------

  /** The seconds field: zero-padded to two digits. */
  function TwoDigits(n: nat): (r: string)
    requires n < 60
    ensures |r| == 2 && AllDigits(r)
    ensures DigitsValue(r) == n
  {
    NatToStringRoundTrip(n);
    if n < 10 then
      LeadingZero(NatToString(n));
      "0" + NatToString(n)
    else NatToString(n)
  }

  /** `formatTime`: whole minutes, a colon, then the remaining seconds as two digits. */
  function FormatTime(seconds: nat): (r: string)
    ensures |r| >= 4 && r[|r| - 3] == ':'
    ensures AllDigits(r[..|r| - 3]) && AllDigits(r[|r| - 2..])
  {
    var m := NatToString(seconds / 60);
    var s := TwoDigits(seconds % 60);
    var r := m + ":" + s;
    assert r[..|r| - 3] == m && r[|r| - 2..] == s;
    r
  }

  /** Reading "m:ss" back as a number of seconds; None for any other text. */
  function ParseTime(r: string): (v: Option<nat>)
    ensures v.Some? ==> |r| >= 4 && r[|r| - 3] == ':'
    ensures v.Some? ==> AllDigits(r[|r| - 2..]) && DigitsValue(r[|r| - 2..]) < 60
  {
    if |r| >= 4 && r[|r| - 3] == ':' && AllDigits(r[..|r| - 3]) && AllDigits(r[|r| - 2..])
       && DigitsValue(r[|r| - 2..]) < 60
    then Some(60 * DigitsValue(r[..|r| - 3]) + DigitsValue(r[|r| - 2..]))
    else None
  }

  /** The displayed time loses nothing: it reads back as the elapsed seconds. */
  lemma FormatTimeRoundTrip(seconds: nat)
    ensures ParseTime(FormatTime(seconds)) == Some(seconds)
  {
    var m := NatToString(seconds / 60);
    var s := TwoDigits(seconds % 60);
    NatToStringRoundTrip(seconds / 60);
    ParseJoined(m, s);
  }

  /** Minutes text, a colon and a two-digit seconds text parse back to their values. */
  lemma ParseJoined(m: string, s: string)
    requires |m| >= 1 && AllDigits(m)
    requires |s| == 2 && AllDigits(s) && DigitsValue(s) < 60
    ensures ParseTime(m + ":" + s) == Some(60 * DigitsValue(m) + DigitsValue(s))
  {
    var r := m + ":" + s;
    assert r[..|r| - 3] == m && r[|r| - 2..] == s;
  }

  /** Different elapsed times are displayed differently. */
  lemma FormatTimeInjective(a: nat, b: nat)
    requires FormatTime(a) == FormatTime(b)
    ensures a == b
  {
    FormatTimeRoundTrip(a);
    FormatTimeRoundTrip(b);
  }

  // ---------------------------------------------------------------------
  // Progress bar
  // ---------------------------------------------------------------------

  /** `((current + 1) / questions.length) * 100`, exactly. */
  function Progress(current: nat, count: nat): (p: real)
    requires current < count
    ensures 0.0 < p <= 100.0
    ensures p == 100.0 <==> current == count - 1
  {
    var f := (current + 1) as real / count as real;
    assert f * count as real == (current + 1) as real;
    f * 100.0
  }

  /** `Math.round(progress)`, the percentage shown beside the bar. */
  function ShownPercent(current: nat, count: nat): (r: nat)
    requires current < count
    ensures r <= 100
    ensures r == 100 <==> 200 * (count - current - 1) <= count
  {
    RoundDivBounds(100 * (current + 1), count, 0, 100);
    RoundsToHundred(current, count);
    RoundDiv(100 * (current + 1), count)
  }

  lemma RoundsToHundred(current: nat, count: nat)
    requires current < count
    ensures RoundDiv(100 * (current + 1), count) == 100 <==> 200 * (count - current - 1) <= count
  {
    var a := 100 * (current + 1);
    if 200 * (count - current - 1) <= count {
      assert 2 * count * 100 <= 2 * a + count < 2 * count * 101;
      RoundDivUnique(a, count, 100);
    }
  }

  /** The shown percentage is the rounding of the exact one. */
  lemma ShownPercentRounds(current: nat, count: nat)
    requires current < count
    ensures ShownPercent(current, count) as real - 0.5 <= Progress(current, count)
    ensures Progress(current, count) < ShownPercent(current, count) as real + 0.5
  {
    var r := ShownPercent(current, count);
    var n := count as real;
    var p := Progress(current, count);
    var a := 100.0 * (current + 1) as real;
    assert 2 * count * r <= 200 * (current + 1) + count < 2 * count * (r + 1);
    assert p == a / n;
    assert (r as real - 0.5) * n <= a < (r as real + 0.5) * n;
    DivideBounds(r as real - 0.5, a, r as real + 0.5, n);
  }

  /** Dividing lo*n <= a < hi*n by a positive n. */
  lemma DivideBounds(lo: real, a: real, hi: real, n: real)
    requires n > 0.0 && lo * n <= a < hi * n
    ensures lo <= a / n < hi
  {
    assert a / n - lo == (a - lo * n) / n;
    assert hi - a / n == (hi * n - a) / n;
  }

  // ---------------------------------------------------------------------
  // The session state
  // ---------------------------------------------------------------------

  class InterviewSession {
    const questions: seq<string>
    const questionTypes: seq<string>
    var current: nat
    var recording: bool
    var recordingTime: nat
    var feedback: Option<string>
    var realTimeFeedback: Option<string>
    var userAnswer: string
    var userCode: string
    var codingLanguage: string
    var answers: seq<string>
    var codeAnswers: seq<string>
    var codingLanguages: seq<string>
    var notes: seq<string>

    /** The index names a question and every per-question array has one slot per question. */
    ghost predicate Valid()
      reads this
    {
      current < |questions|
      && |answers| == |questions| && |codeAnswers| == |questions|
      && |codingLanguages| == |questions| && |notes| == |questions|
    }

    constructor (questions: seq<string>, questionTypes: seq<string>)
      requires |questions| >= 1
      ensures Valid()
      ensures this.questions == questions && this.questionTypes == questionTypes
      ensures current == 0 && !recording && recordingTime == 0
      ensures feedback == None && realTimeFeedback == None
      ensures userAnswer == "" && userCode == "" && codingLanguage == DefaultLanguage
      ensures answers == Filled(|questions|, "") && codeAnswers == Filled(|questions|, "")
      ensures notes == Filled(|questions|, "")
      ensures codingLanguages == Filled(|questions|, DefaultLanguage)
    {
      this.questions := questions;
      this.questionTypes := questionTypes;
      current := 0;
      recording := false;
      recordingTime := 0;
      feedback := None;
      realTimeFeedback := None;
      userAnswer := "";
      userCode := "";
      codingLanguage := DefaultLanguage;
      answers := Filled(|questions|, "");
      codeAnswers := Filled(|questions|, "");
      codingLanguages := Filled(|questions|, DefaultLanguage);
      notes := Filled(|questions|, "");
    }

    /**
     * Stop or start recording. Stopping stores the answer in the current
     * slot, and for a coding question the code and language as well; the
     * feedback becomes the blank-submission message or `reply`, the text
     * the feedback service (or its fallback) produced. Starting clears the
     * feedback, the timer and the transcript.
     */
    method ToggleRecording(reply: string)
      requires Valid()
      modifies this
      ensures Valid()
      ensures current == old(current) && notes == old(notes)
      ensures recording == !old(recording)
      ensures userCode == old(userCode) && codingLanguage == old(codingLanguage)
      ensures old(recording) ==>
        && answers == old(answers)[current := old(userAnswer)]
        && (IsCoding(questionTypes, current) ==>
              && codeAnswers == old(codeAnswers)[current := old(userCode)]
              && codingLanguages == old(codingLanguages)[current := old(codingLanguage)])
        && (!IsCoding(questionTypes, current) ==>
              codeAnswers == old(codeAnswers) && codingLanguages == old(codingLanguages))
        && feedback == Some(
             var blank := BlankFeedback(questionTypes, current, old(userAnswer), old(userCode));
             if blank.Some? then blank.value else reply)
        && userAnswer == old(userAnswer) && recordingTime == old(recordingTime)
        && realTimeFeedback == old(realTimeFeedback)
      ensures !old(recording) ==>
        && feedback == None && realTimeFeedback == None
        && recordingTime == 0 && userAnswer == ""
        && answers == old(answers) && codeAnswers == old(codeAnswers)
        && codingLanguages == old(codingLanguages)
    {
      if recording {
        recording := false;
        answers := answers[current := userAnswer];
        if IsCoding(questionTypes, current) {
          codeAnswers := codeAnswers[current := userCode];
          codingLanguages := codingLanguages[current := codingLanguage];
        }
        var blank := BlankFeedback(questionTypes, current, userAnswer, userCode);
        if blank.Some? {
          feedback := Some(blank.value);
        } else {
          feedback := Some(reply);
        }
      } else {
        recording := true;
        feedback := None;
        realTimeFeedback := None;
        recordingTime := 0;
        userAnswer := "";
      }
    }

    /**
     * Move to the next question, clearing the per-question working state;
     * on the last question the session is complete instead, and the saved
     * answers are handed on.
     */
    method NextQuestion() returns (done: Option<Completion>)
      requires Valid()
      modifies this
      ensures Valid()
      ensures notes == old(notes) && answers == old(answers)
      ensures codeAnswers == old(codeAnswers) && codingLanguages == old(codingLanguages)
      ensures codingLanguage == old(codingLanguage)
      ensures old(current) < |questions| - 1 ==>
        && current == old(current) + 1 && done == None
        && !recording && recordingTime == 0
        && feedback == None && realTimeFeedback == None
        && userAnswer == "" && userCode == ""
      ensures old(current) == |questions| - 1 ==>
        && done == Some(Completion(answers, codeAnswers, codingLanguages))
        && current == old(current) && recording == old(recording)
        && recordingTime == old(recordingTime) && feedback == old(feedback)
        && realTimeFeedback == old(realTimeFeedback)
        && userAnswer == old(userAnswer) && userCode == old(userCode)
    {
      if current < |questions| - 1 {
        if notes[current] != "" {
          notes := notes[current := notes[current]];
        }
        current := current + 1;
        recording := false;
        recordingTime := 0;
        feedback := None;
        realTimeFeedback := None;
        userAnswer := "";
        userCode := "";
        done := None;
      } else {
        done := Some(Completion(answers, codeAnswers, codingLanguages));
      }
    }

    /** Going back was removed: nothing changes. */
    method PreviousQuestion()
      requires Valid()
      ensures Valid()
    {
    }

    /** Store the note of one question, leaving every other note as it was. */
    method SaveNote(index: nat, text: string)
      requires Valid() && index < |questions|
      modifies this
      ensures Valid()
      ensures notes == old(notes)[index := text]
      ensures current == old(current) && answers == old(answers)
      ensures codeAnswers == old(codeAnswers) && codingLanguages == old(codingLanguages)
      ensures recording == old(recording) && userAnswer == old(userAnswer) && userCode == old(userCode)
      ensures recordingTime == old(recordingTime) && codingLanguage == old(codingLanguage)
      ensures feedback == old(feedback) && realTimeFeedback == old(realTimeFeedback)
    {
      notes := notes[index := text];
    }

    /** One tick of the one-second timer, which runs only while recording. */
    method Tick()
      requires Valid()
      modifies this
      ensures Valid()
      ensures recordingTime == if old(recording) then old(recordingTime) + 1 else old(recordingTime)
      ensures current == old(current) && answers == old(answers) && notes == old(notes)
      ensures codeAnswers == old(codeAnswers) && codingLanguages == old(codingLanguages)
      ensures recording == old(recording) && userAnswer == old(userAnswer) && userCode == old(userCode)
      ensures codingLanguage == old(codingLanguage)
      ensures feedback == old(feedback) && realTimeFeedback == old(realTimeFeedback)
    {
      if recording {
        recordingTime := recordingTime + 1;
      }
    }

    /** Inputs from the page: the running transcript, the code editor and the language selector. */
    method Transcribe(transcript: string)
      requires Valid()
      modifies this
      ensures Valid()
      ensures userAnswer == transcript
      ensures current == old(current) && answers == old(answers) && notes == old(notes)
      ensures codeAnswers == old(codeAnswers) && codingLanguages == old(codingLanguages)
      ensures recording == old(recording) && userCode == old(userCode)
      ensures recordingTime == old(recordingTime) && codingLanguage == old(codingLanguage)
      ensures feedback == old(feedback) && realTimeFeedback == old(realTimeFeedback)
    {
      userAnswer := transcript;
    }

    method EditCode(code: string)
      requires Valid()
      modifies this
      ensures Valid()
      ensures userCode == code
      ensures current == old(current) && answers == old(answers) && notes == old(notes)
      ensures codeAnswers == old(codeAnswers) && codingLanguages == old(codingLanguages)
      ensures recording == old(recording) && userAnswer == old(userAnswer)
      ensures recordingTime == old(recordingTime) && codingLanguage == old(codingLanguage)
      ensures feedback == old(feedback) && realTimeFeedback == old(realTimeFeedback)
    {
      userCode := code;
    }

    method SelectLanguage(language: string)
      requires Valid()
      modifies this
      ensures Valid()
      ensures codingLanguage == language
      ensures current == old(current) && answers == old(answers) && notes == old(notes)
      ensures codeAnswers == old(codeAnswers) && codingLanguages == old(codingLanguages)
      ensures recording == old(recording) && userAnswer == old(userAnswer) && userCode == old(userCode)
      ensures recordingTime == old(recordingTime)
      ensures feedback == old(feedback) && realTimeFeedback == old(realTimeFeedback)
    {
      codingLanguage := language;
    }
  }

  /** A user action on the session page. */
  datatype Action =
    | Toggle(reply: string)
    | Next
    | Previous
    | Note(index: nat, text: string)
    | Tick
    | Speak(transcript: string)
    | Code(code: string)
    | Language(language: string)

  /**
   * A walk through the session: whatever the sequence of actions, the
   * index never moves backwards and always names a question, and the
   * answers of questions already passed are never rewritten.
   */
  method Walk(s: InterviewSession, actions: seq<Action>)
    requires s.Valid()
    modifies s
    ensures s.Valid()
    ensures old(s.current) <= s.current < |s.questions|
    ensures forall i :: 0 <= i < old(s.current) ==> s.answers[i] == old(s.answers[i])
  {
    var k := 0;
    while k < |actions|
      invariant 0 <= k <= |actions|
      invariant s.Valid()
      invariant old(s.current) <= s.current
      invariant forall i :: 0 <= i < old(s.current) ==> s.answers[i] == old(s.answers[i])
    {
      match actions[k] {
      case Toggle(reply) => s.ToggleRecording(reply);
      case Next => var _ := s.NextQuestion();
      case Previous => s.PreviousQuestion();
      case Note(index, text) =>
        if index < |s.questions| {
          s.SaveNote(index, text);
        }
      case Tick => s.Tick();
      case Speak(transcript) => s.Transcribe(transcript);
      case Code(code) => s.EditCode(code);
      case Language(language) => s.SelectLanguage(language);
      }
      k := k + 1;
    }
  }
}
