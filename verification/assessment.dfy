/** The RIASEC quiz page (client/src/pages/Assessment.jsx): one yes/no answer per
    question, one point per "yes" to the question's type, and the final scores
    handed to the results page after the last answer. */
module AssessmentPage {
  import opened Wrappers
  import opened Models

  /** The score map, keyed by the six interest types. */
  type Scores = map<Riasec, int>

  predicate Complete(s: Scores) {
    forall t: Riasec :: t in s
  }

  /** `{ R: 0, I: 0, A: 0, S: 0, E: 0, C: 0 }` */
  function InitialScores(): (s: Scores)
    ensures Complete(s)
    ensures forall t: Riasec :: s[t] == 0
  {
    var s := map[R := 0, I := 0, A := 0, S := 0, E := 0, C := 0];
    SixKeys(s);
    s
  }

  lemma SixKeys(s: Scores)
    requires R in s && I in s && A in s && S in s && E in s && C in s
    ensures Complete(s)
  {
    forall t: Riasec ensures t in s {
      match t
      case R => case I => case A => case S => case E => case C =>
    }
  }

  /** The effect of one answer on the scores. */
  function Score(s: Scores, q: Question, isYes: bool): (r: Scores)
    requires Complete(s)
    ensures Complete(r)
    ensures r[q.kind] == s[q.kind] + (if isYes then 1 else 0)
    ensures forall t: Riasec :: t != q.kind ==> r[t] == s[t]
  {
    if isYes then s[q.kind := s[q.kind] + 1] else s
  }

  /** The scores after answering the first |answers| questions in order. */
  function Tally(qs: seq<Question>, answers: seq<bool>): (s: Scores)
    requires |answers| <= |qs|
    ensures Complete(s)
  {
    if answers == [] then InitialScores()
    else Score(Tally(qs, answers[..|answers| - 1]), qs[|answers| - 1], answers[|answers| - 1])
  }

  /** An independent count: how many of the answers are "yes" to a question of type t. */
  function YesCount(qs: seq<Question>, answers: seq<bool>, t: Riasec): (n: nat)
    requires |answers| <= |qs|
    ensures n <= |answers|
  {
    if answers == [] then 0
    else (if answers[0] && qs[0].kind == t then 1 else 0) + YesCount(qs[1..], answers[1..], t)
  }

  /** The number of "yes" answers. */
  function Yeses(answers: seq<bool>): (n: nat)
    ensures n <= |answers|
  {
    if answers == [] then 0 else (if answers[0] then 1 else 0) + Yeses(answers[1..])
  }

  function Sum(s: Scores): int
    requires Complete(s)
  {
    s[R] + s[I] + s[A] + s[S] + s[E] + s[C]
  }

  lemma {:induction false} YesCountSnoc(qs: seq<Question>, answers: seq<bool>, b: bool, t: Riasec)
    requires |answers| < |qs|
    ensures YesCount(qs, answers + [b], t) == YesCount(qs, answers, t) + (if b && qs[|answers|].kind == t then 1 else 0)
  {
    if answers != [] {
      assert (answers + [b])[1..] == answers[1..] + [b];
      YesCountSnoc(qs[1..], answers[1..], b, t);
    }
  }

  lemma {:induction false} YesesSnoc(answers: seq<bool>, b: bool)
    ensures Yeses(answers + [b]) == Yeses(answers) + (if b then 1 else 0)
  {
    if answers != [] {
      assert (answers + [b])[1..] == answers[1..] + [b];
      YesesSnoc(answers[1..], b);
    }
  }

  /** Each type's score is the number of "yes" answers to questions of that type. */
  lemma {:induction false} TallyCountsYes(qs: seq<Question>, answers: seq<bool>)
    requires |answers| <= |qs|
    ensures forall t: Riasec :: Tally(qs, answers)[t] == YesCount(qs, answers, t)
  {
    if answers != [] {
      var init := answers[..|answers| - 1];
      var b := answers[|answers| - 1];
      TallyCountsYes(qs, init);
      assert answers == init + [b];
      forall t: Riasec ensures Tally(qs, answers)[t] == YesCount(qs, answers, t) {
        YesCountSnoc(qs, init, b, t);
      }
    }
  }

  /** The scores add up to the number of "yes" answers, hence to at most the
      number of answers. */
  lemma {:induction false} TallySum(qs: seq<Question>, answers: seq<bool>)
    requires |answers| <= |qs|
    ensures Sum(Tally(qs, answers)) == Yeses(answers)
    ensures Sum(Tally(qs, answers)) <= |answers|
  {
    if answers != [] {
      var init := answers[..|answers| - 1];
      var b := answers[|answers| - 1];
      TallySum(qs, init);
      assert answers == init + [b];
      YesesSnoc(init, b);
    }
  }

  class Assessment {
    var questions: seq<Question>
    var index: nat
    var scores: Scores
    var loading: bool
    /** The scores passed along when navigating to the results page. */
    var results: Option<Scores>
    /** The answers given so far, in order. */
    ghost var answers: seq<bool>

    ghost predicate Valid()
      reads this
    {
      && |answers| <= |questions|
      && scores == Tally(questions, answers)
      && (loading ==> questions == [] && answers == [] && index == 0 && results.None?)
      && (results.None? ==> index == |answers| && (|questions| > 0 ==> index < |questions|))
      && (results.Some? ==> |questions| > 0 && index == |questions| - 1 && |answers| == |questions|
                            && results.value == scores)
    }

    /** The page shows a question (and its two buttons) only once loaded with a
        non-empty list, and until it has navigated away. */
    predicate Accepting()
      reads this
    {
      !loading && |questions| > 0 && results.None?
    }

    constructor ()
      ensures Valid() && loading && questions == [] && index == 0 && results.None?
      ensures scores == InitialScores()
    {
      questions := [];
      index := 0;
      scores := InitialScores();
      loading := true;
      results := None;
      answers := [];
    }

    /** The question fetch settles: the list on success, nothing on failure;
        loading ends either way. */
    method Loaded(outcome: Option<seq<Question>>)
      requires Valid() && loading
      modifies this
      ensures Valid() && !loading
      ensures questions == (if outcome.Some? then outcome.value else [])
      ensures index == 0 && scores == InitialScores() && results.None?
      ensures outcome.None? || outcome.value == [] ==> !Accepting()
    {
      if outcome.Some? {
        questions := outcome.value;
      }
      loading := false;
    }

    /** `handleAnswer(isYes)`. */
    method Answer(isYes: bool)
      requires Valid()
      modifies this
      ensures Valid()
      ensures questions == old(questions) && loading == old(loading)
      ensures !old(Accepting()) ==> unchanged(this)
      ensures old(Accepting()) ==>
                && answers == old(answers) + [isYes]
                && scores == Score(old(scores), questions[old(index)], isYes)
      ensures old(Accepting()) && old(index) < |questions| - 1 ==> index == old(index) + 1 && results.None?
      ensures old(Accepting()) && old(index) == |questions| - 1 ==> index == old(index) && results == Some(scores)
    {
      if loading || |questions| == 0 || results.Some? {
        return;
      }
      var kind := questions[index].kind;
      var snapshot := scores;
      if isYes {
        scores := snapshot[kind := snapshot[kind] + 1];
      }
      if index < |questions| - 1 {
        index := index + 1;
      } else {
        var finalScores := snapshot;
        if isYes {
          finalScores := finalScores[kind := finalScores[kind] + 1];
        }
        results := Some(finalScores);
      }
      assert (answers + [isYes])[..|answers|] == answers;
      answers := answers + [isYes];
    }
  }

  /** The scores handed to the results page count every "yes", including the one
      given to the last question, and sum to at most the number of questions. */
  lemma FinalScores(a: Assessment)
    requires a.Valid() && a.results.Some?
    ensures forall t: Riasec :: a.results.value[t] == YesCount(a.questions, a.answers, t)
    ensures Sum(a.results.value) <= |a.questions|
  {
    TallyCountsYes(a.questions, a.answers);
    TallySum(a.questions, a.answers);
  }
}
