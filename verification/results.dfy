/** The results page (client/src/pages/Results.jsx): the score entries stable-sorted
    by descending score, the top three types, the top type, and the careers whose
    type is among the top three. */
module ResultsPage {
  import opened Wrappers
  import opened Collections
  import opened Models
  import opened AssessmentPage
  import opened ItemsRoute

  /** One `[type, score]` pair of `Object.entries(scores)`. */
  datatype Entry = Entry(kind: Riasec, score: int)

  /** `Object.entries(scores)`: the pairs in the map's key order R, I, A, S, E, C. */
  function Entries(scores: Scores): (es: seq<Entry>)
    requires Complete(scores)
    ensures |es| == |RiasecOrder|
    ensures forall k :: 0 <= k < |es| ==> es[k] == Entry(RiasecOrder[k], scores[RiasecOrder[k]])
  {
    seq(|RiasecOrder|, k requires 0 <= k < |RiasecOrder| => Entry(RiasecOrder[k], scores[RiasecOrder[k]]))
  }

  predicate NonIncreasing(s: seq<Entry>) {
    forall i, j :: 0 <= i < j < |s| ==> s[i].score >= s[j].score
  }

  /** Places `x`, which precedes every element of `s` in the input, before the first
      element that does not score strictly higher: the comparator `b - a` is
      descending, and a stable sort keeps `x` ahead of its ties. */
  function Insert(x: Entry, s: seq<Entry>): (r: seq<Entry>)
    ensures |r| == |s| + 1
    ensures multiset(r) == multiset(s) + multiset{x}
  {
    if s == [] || x.score >= s[0].score then [x] + s
    else
      assert s == [s[0]] + s[1..];
      [s[0]] + Insert(x, s[1..])
  }

  predicate AtMost(s: seq<Entry>, bound: int) {
    forall k :: 0 <= k < |s| ==> s[k].score <= bound
  }

  lemma {:induction false} InsertAtMost(x: Entry, s: seq<Entry>, bound: int)
    requires AtMost(s, bound) && x.score <= bound
    ensures AtMost(Insert(x, s), bound)
    decreases |s|
  {
    if s != [] && x.score < s[0].score {
      InsertAtMost(x, s[1..], bound);
    }
  }

  lemma ConsSorted(h: Entry, rest: seq<Entry>)
    requires NonIncreasing(rest) && AtMost(rest, h.score)
    ensures NonIncreasing([h] + rest)
  {
  }

  lemma {:induction false} InsertSorted(x: Entry, s: seq<Entry>)
    requires NonIncreasing(s)
    ensures NonIncreasing(Insert(x, s))
    decreases |s|
  {
    if s == [] || x.score >= s[0].score {
      ConsSorted(x, s);
    } else {
      InsertSorted(x, s[1..]);
      InsertAtMost(x, s[1..], s[0].score);
      ConsSorted(s[0], Insert(x, s[1..]));
    }
  }

  /** `.sort(([, a], [, b]) => b - a)` with the stable sort of ECMAScript 2019. */
  function SortByScore(s: seq<Entry>): (r: seq<Entry>)
    ensures |r| == |s|
    ensures multiset(r) == multiset(s)
    ensures NonIncreasing(r)
  {
    if s == [] then []
    else
      assert s == [s[0]] + s[1..];
      var rest := SortByScore(s[1..]);
      InsertSorted(s[0], rest);
      Insert(s[0], rest)
  }

  function ScoreIs(v: int): Entry -> bool {
    (e: Entry) => e.score == v
  }

  /** `x` passes ahead of every element of `s` that scores no higher, and only
      those that score strictly higher stay in front of it, so no entry of `x`'s
      score changes place relative to `x`. */
  lemma {:induction false} InsertStable(x: Entry, s: seq<Entry>, v: int)
    ensures Filter(Insert(x, s), ScoreIs(v)) == Filter([x], ScoreIs(v)) + Filter(s, ScoreIs(v))
    decreases |s|
  {
    var p := ScoreIs(v);
    if s == [] || x.score >= s[0].score {
      FilterAppend([x], s, p);
    } else {
      var head, tail := [s[0]], s[1..];
      assert s == head + tail;
      assert Insert(x, s) == head + Insert(x, tail);
      var fx, fh, ft := Filter([x], p), Filter(head, p), Filter(tail, p);
      FilterAppend(head, Insert(x, tail), p);
      InsertStable(x, tail, v);
      FilterAppend(head, tail, p);
      assert fh == [] || fx == [] by {
        FilterSingle(x, p);
        FilterSingle(s[0], p);
      }
      assert Filter(Insert(x, s), p) == fh + (fx + ft);
      assert fh + (fx + ft) == fx + (fh + ft);
    }
  }

  /** Stability: the entries of any one score appear in the sorted list in the same
      order as in the input. */
  lemma {:induction false} SortStable(s: seq<Entry>, v: int)
    ensures Filter(SortByScore(s), ScoreIs(v)) == Filter(s, ScoreIs(v))
    decreases |s|
  {
    if s != [] {
      SortStable(s[1..], v);
      InsertStable(s[0], SortByScore(s[1..]), v);
      assert s == [s[0]] + s[1..];
      FilterAppend([s[0]], s[1..], ScoreIs(v));
    }
  }

  /** When every entry has the same score the sort changes nothing. */
  lemma AllTiedKeepOrder(s: seq<Entry>, v: int)
    requires forall e :: e in s ==> e.score == v
    ensures SortByScore(s) == s
  {
    var sorted := SortByScore(s);
    assert forall e :: e in sorted ==> e in multiset(s);
    SortStable(s, v);
    FilterKeepsAll(s, ScoreIs(v));
    FilterKeepsAll(sorted, ScoreIs(v));
  }

  function Keys(es: seq<Entry>): (ts: seq<Riasec>)
    ensures |ts| == |es|
    ensures forall k :: 0 <= k < |es| ==> ts[k] == es[k].kind
  {
    seq(|es|, k requires 0 <= k < |es| => es[k].kind)
  }

  /** `sortedTypes`: the types of the first three sorted entries. */
  function SortedTypes(es: seq<Entry>): (ts: seq<Riasec>)
    ensures |ts| == Min(3, |es|)
  {
    Keys(SortByScore(es)[..Min(3, |es|)])
  }

  /** `topType = sortedTypes[0]`, undefined for an empty list. */
  function TopType(ts: seq<Riasec>): (t: Option<Riasec>)
    ensures t.None? <==> ts == []
    ensures t.Some? ==> t.value == ts[0]
  {
    if ts == [] then None else Some(ts[0])
  }

  lemma EntryListed(scores: Scores, t: Riasec)
    requires Complete(scores)
    ensures Entry(t, scores[t]) in Entries(scores)
  {
    var es := Entries(scores);
    match t
    case R => assert es[0] == Entry(t, scores[t]);
    case I => assert es[1] == Entry(t, scores[t]);
    case A => assert es[2] == Entry(t, scores[t]);
    case S => assert es[3] == Entry(t, scores[t]);
    case E => assert es[4] == Entry(t, scores[t]);
    case C => assert es[5] == Entry(t, scores[t]);
  }

  /** Ranking any list of six entries that pair each type with its score: the
      kept types come in non-increasing score order, no listed type scores higher
      than the first, and a listed type left out scores no higher than the third. */
  lemma RankEntries(es: seq<Entry>, scores: Scores, t: Riasec)
    requires Complete(scores) && |es| == 6
    requires forall e :: e in es ==> e.score == scores[e.kind]
    requires Entry(t, scores[t]) in es
    ensures var ts := SortedTypes(es);
            && |ts| == 3
            && scores[ts[0]] >= scores[ts[1]] >= scores[ts[2]]
            && scores[t] <= scores[ts[0]]
            && (t !in ts ==> scores[t] <= scores[ts[2]])
  {
    var sorted := SortByScore(es);
    var ts := SortedTypes(es);
    assert forall k :: 0 <= k < 6 ==> sorted[k] in multiset(es);
    assert forall k :: 0 <= k < 3 ==> ts[k] == sorted[k].kind && scores[ts[k]] == sorted[k].score;
    assert Entry(t, scores[t]) in multiset(sorted);
    var k :| 0 <= k < 6 && sorted[k] == Entry(t, scores[t]);
    assert sorted[k].score <= sorted[0].score;
    assert ts == [sorted[0].kind, sorted[1].kind, sorted[2].kind];
    if t !in ts {
      assert 3 <= k;
      assert sorted[k].score <= sorted[2].score;
    }
  }

  /** On a full score map: three types in non-increasing score order, the top type
      scoring highest of all, and every type left out scoring no higher than the
      last one kept. */
  lemma TopThree(scores: Scores)
    requires Complete(scores)
    ensures |SortedTypes(Entries(scores))| == 3
    ensures var ts := SortedTypes(Entries(scores));
            && scores[ts[0]] >= scores[ts[1]] >= scores[ts[2]]
            && (forall t: Riasec :: scores[t] <= scores[ts[0]])
            && (forall t: Riasec :: t !in ts ==> scores[t] <= scores[ts[2]])
  {
    var es := Entries(scores);
    assert forall e :: e in es ==> e.score == scores[e.kind];
    EntryListed(scores, R);
    RankEntries(es, scores, R);
    forall t: Riasec
      ensures var ts := SortedTypes(es);
              scores[t] <= scores[ts[0]] && (t !in ts ==> scores[t] <= scores[ts[2]])
    {
      EntryListed(scores, t);
      RankEntries(es, scores, t);
    }
  }

  /** With every score zero the ties keep key order: R, I and A come first. */
  lemma AllZeroProfile()
    ensures SortedTypes(Entries(InitialScores())) == [R, I, A]
  {
    var es := Entries(InitialScores());
    AllTiedKeepOrder(es, 0);
  }

  function Codes(ts: seq<Riasec>): (cs: seq<string>)
    ensures |cs| == |ts|
    ensures forall k :: 0 <= k < |ts| ==> cs[k] == Code(ts[k])
  {
    seq(|ts|, k requires 0 <= k < |ts| => Code(ts[k]))
  }

  /** `allCareers.filter(career => sortedTypes.includes(career.type))`. */
  function MatchedCareers(careers: seq<CareerSummary>, ts: seq<Riasec>): (r: seq<CareerSummary>)
    ensures forall c :: c in r <==> c in careers && exists k :: 0 <= k < |ts| && Code(ts[k]) == c.kind
  {
    var codes := Codes(ts);
    Filter(careers, (c: CareerSummary) => c.kind in codes)
  }

  datatype ResultsView =
    | NoResults
    | LoadingCareers
    | Profile(sortedTypes: seq<Riasec>, topType: Option<Riasec>, matched: seq<CareerSummary>)

  /** What the page shows for the scores it was given (None when it was opened
      without any) once the career list has or has not arrived. */
  function View(scores: Option<Scores>, loading: bool, careers: seq<CareerSummary>): (v: ResultsView)
    requires scores.Some? ==> Complete(scores.value)
    ensures v.NoResults? <==> scores.None?
    ensures v.LoadingCareers? <==> scores.Some? && loading
    ensures v.Profile? ==> v.sortedTypes == SortedTypes(Entries(scores.value))
    ensures v.Profile? ==> |v.sortedTypes| == 3 && v.topType == Some(v.sortedTypes[0])
    ensures v.Profile? ==> forall c :: c in v.matched <==> c in careers && exists k :: 0 <= k < 3 && Code(v.sortedTypes[k]) == c.kind
  {
    if scores.None? then NoResults
    else if loading then LoadingCareers
    else
      var ts := SortedTypes(Entries(scores.value));
      Profile(ts, TopType(ts), MatchedCareers(careers, ts))
  }

  /** The page as written: `allCareers` is set to whatever GET /careers resolved
      to, which is the paging envelope, an object; `allCareers.filter` then throws
      while rendering. None stands for that render error. A failed fetch leaves the
      initial empty array in place. */
  function ViewAsWritten(scores: Option<Scores>, loading: bool, fetched: Option<CareersEnvelope>): (v: Option<ResultsView>)
    requires scores.Some? ==> Complete(scores.value)
    ensures v.None? <==> scores.Some? && !loading && fetched.Some?
    ensures v.Some? ==> v.value == View(scores, loading, [])
  {
    if scores.None? then Some(NoResults)
    else if loading then Some(LoadingCareers)
    else if fetched.Some? then None
    else Some(View(scores, loading, []))
  }

  /** The page with the list taken out of the envelope (`data.careers`): once the
      fetch settled it always shows the profile, matched against the careers of the
      page the route returned. */
  function CorrectedView(scores: Option<Scores>, loading: bool, fetched: Option<CareersEnvelope>): (v: ResultsView)
    requires scores.Some? ==> Complete(scores.value)
    ensures scores.Some? && !loading ==> v.Profile?
    ensures v.Profile? ==> |v.sortedTypes| == 3 && forall c :: c in v.matched <==>
              fetched.Some? && c in fetched.value.careers && exists k :: 0 <= k < 3 && Code(v.sortedTypes[k]) == c.kind
  {
    View(scores, loading, if fetched.Some? then fetched.value.careers else [])
  }
}
