/**
 * The client's pure helpers (client/src/lib/seo-utils.ts): the length limits, the
 * score recomputed from tag statuses, the score label and the millisecond rendering
 * of the analysis time.
 */
module SeoUtils {
  import opened Schema
  import opened Seqs
  import opened Scoring
  import NumberText
  import ExtendedRoutes

  const TITLE_MIN: nat := 30
  const TITLE_MAX: nat := 60
  const DESCRIPTION_MIN: nat := 120
  const DESCRIPTION_MAX: nat := 160

  /** The client's limits are ordered and are the bounds the server judges lengths by. */
  lemma SeoLimitsAgree()
    ensures TITLE_MIN <= TITLE_MAX && DESCRIPTION_MIN <= DESCRIPTION_MAX
    ensures TITLE_MIN == ExtendedRoutes.TITLE.min && TITLE_MAX == ExtendedRoutes.TITLE.max
    ensures DESCRIPTION_MIN == ExtendedRoutes.META_DESCRIPTION.min
    ensures DESCRIPTION_MAX == ExtendedRoutes.META_DESCRIPTION.max
  {
  }

  /**
   * `calculateSeoScore` over the tags' status strings. With no tags the division is
   * 0 / 0 and JavaScript yields NaN, modelled as `None`. The quotient is rounded exactly;
   * the source rounds a double, which can fall just short of a .5 boundary.
   */
  function CalculateSeoScore(statuses: seq<string>): (r: Option<nat>)
    ensures r.None? <==> statuses == []
    ensures r.Some? ==> r.value <= 100
    ensures r.Some? && Count(statuses, "good") == |statuses| ==> r.value == 100
    ensures r.Some? && Count(statuses, "good") == 0 && Count(statuses, "warning") == 0 ==> r.value == 0
  {
    var total := |statuses|;
    var good := Count(statuses, "good");
    var warning := Count(statuses, "warning");
    if total == 0 then None
    else
      assert good + warning <= total by {
        GoodAndWarningAtMostAll(statuses);
      }
      Some(WeightedScore(good, warning, total))
  }

  lemma {:induction false} GoodAndWarningAtMostAll(statuses: seq<string>)
    ensures Count(statuses, "good") + Count(statuses, "warning") <= |statuses|
  {
    if statuses != [] {
      GoodAndWarningAtMostAll(statuses[1..]);
      assert Count(statuses, "good") == (if statuses[0] == "good" then 1 else 0) + Count(statuses[1..], "good");
      assert Count(statuses, "warning") == (if statuses[0] == "warning" then 1 else 0) + Count(statuses[1..], "warning");
    }
  }

  /** The score depends only on how often each status occurs, not on the tags' order. */
  lemma ScorePermutationInvariant(a: seq<string>, b: seq<string>)
    requires multiset(a) == multiset(b)
    ensures CalculateSeoScore(a) == CalculateSeoScore(b)
  {
    assert |a| == |multiset(a)| == |multiset(b)| == |b|;
  }

  /**
   * A status other than "good" or "warning" earns nothing: two status lists of the same
   * length that agree wherever either says "good" or "warning" score the same.
   */
  lemma {:induction false} OtherStatusesEarnNothing(a: seq<string>, b: seq<string>)
    requires |a| == |b|
    requires forall i :: 0 <= i < |a| ==> (a[i] == "good" <==> b[i] == "good")
    requires forall i :: 0 <= i < |a| ==> (a[i] == "warning" <==> b[i] == "warning")
    ensures CalculateSeoScore(a) == CalculateSeoScore(b)
  {
    SameCounts(a, b, "good");
    SameCounts(a, b, "warning");
  }

  lemma {:induction false} SameCounts(a: seq<string>, b: seq<string>, v: string)
    requires |a| == |b|
    requires forall i :: 0 <= i < |a| ==> (a[i] == v <==> b[i] == v)
    ensures Count(a, v) == Count(b, v)
  {
    if a != [] {
      SameCounts(a[1..], b[1..], v);
      assert Count(a, v) == (if a[0] == v then 1 else 0) + Count(a[1..], v);
      assert Count(b, v) == (if b[0] == v then 1 else 0) + Count(b[1..], v);
    }
  }

  /** The client's score of the server's tags is the score the server reported. */
  lemma ClientScoreMatchesServer(tags: seq<SeoTag>)
    requires tags != []
    ensures var names := seq(|tags|, i requires 0 <= i < |tags| => StatusName(tags[i].status));
      CalculateSeoScore(names)
        == Some(WeightedScore(Count(Map(tags, StatusOf), Good), Count(Map(tags, StatusOf), Warning), |tags|))
  {
    var names := seq(|tags|, i requires 0 <= i < |tags| => StatusName(tags[i].status));
    NamedCount(Map(tags, StatusOf), names, Good);
    NamedCount(Map(tags, StatusOf), names, Warning);
  }

  lemma {:induction false} NamedCount(statuses: seq<Status>, names: seq<string>, s: Status)
    requires |names| == |statuses|
    requires forall i :: 0 <= i < |names| ==> names[i] == StatusName(statuses[i])
    ensures Count(names, StatusName(s)) == Count(statuses, s)
  {
    if statuses != [] {
      NamedCount(statuses[1..], names[1..], s);
      assert Count(names, StatusName(s))
        == (if names[0] == StatusName(s) then 1 else 0) + Count(names[1..], StatusName(s));
      assert Count(statuses, s) == (if statuses[0] == s then 1 else 0) + Count(statuses[1..], s);
    }
  }

  /** What `formatAnalysisTime` returns: `${ms}ms` below a second, else seconds with one decimal. */
  datatype AnalysisTimeText =
    | Millis(text: string)
    | Seconds(milliseconds: nat)  // `${(ms / 1000).toFixed(1)}s`, floating-point, not rendered here

  function FormatAnalysisTime(milliseconds: nat): (r: AnalysisTimeText)
    ensures r.Millis? <==> milliseconds < 1000
    ensures r.Millis? ==>
      && |r.text| >= 3 && r.text[|r.text| - 2..] == "ms"
      && (forall i :: 0 <= i < |r.text| - 2 ==> NumberText.IsDigit(r.text[i]))
      && NumberText.DecimalValue(r.text[..|r.text| - 2]) == milliseconds
    ensures r.Seconds? ==> r.milliseconds == milliseconds
  {
    if milliseconds < 1000 then
      var digits := NumberText.DecimalString(milliseconds);
      assert (digits + "ms")[..|digits|] == digits;
      NumberText.DecimalRoundTrip(milliseconds);
      Millis(digits + "ms")
    else Seconds(milliseconds)
  }

  /** `getScoreLabel`: four bands at 80, 60 and 40. */
  function GetScoreLabel(score: int): (text: string)
    ensures text in {"Excellent", "Good", "Fair", "Needs Work"}
  {
    if score >= 80 then "Excellent"
    else if score >= 60 then "Good"
    else if score >= 40 then "Fair"
    else "Needs Work"
  }

  /** The position of a label from worst (0) to best (3). */
  function LabelRank(text: string): nat {
    if text == "Excellent" then 3
    else if text == "Good" then 2
    else if text == "Fair" then 1
    else 0
  }

  /** The bands, by the score range each covers. */
  lemma ScoreLabelBands(score: int)
    ensures GetScoreLabel(score) == "Excellent" <==> score >= 80
    ensures GetScoreLabel(score) == "Good" <==> 60 <= score < 80
    ensures GetScoreLabel(score) == "Fair" <==> 40 <= score < 60
    ensures GetScoreLabel(score) == "Needs Work" <==> score < 40
  {
  }

  /** A higher score never gets a worse label. */
  lemma ScoreLabelMonotone(s1: int, s2: int)
    requires s1 <= s2
    ensures LabelRank(GetScoreLabel(s1)) <= LabelRank(GetScoreLabel(s2))
  {
  }
}
