/**
 * The logic of the results view (client/src/components/analysis-results.tsx): the
 * score's colour and label, the three priority lists of recommendations, and the
 * recommendation list of the exported report.
 */
module AnalysisResults {
  import opened Schema
  import opened Seqs

  const GREEN_SCORE := "text-green-600 bg-green-100"
  const YELLOW_SCORE := "text-yellow-600 bg-yellow-100"
  const RED_SCORE := "text-red-600 bg-red-100"

  /** `getScoreColor`. */
  function GetScoreColor(score: int): (c: string)
    ensures c in {GREEN_SCORE, YELLOW_SCORE, RED_SCORE}
  {
    if score >= 80 then GREEN_SCORE
    else if score >= 60 then YELLOW_SCORE
    else RED_SCORE
  }

  /** `getScoreLabel` of the results view: three bands, no "Fair". */
  function GetScoreLabel(score: int): (text: string)
    ensures text in {"Excellent", "Good", "Needs Work"}
  {
    if score >= 80 then "Excellent"
    else if score >= 60 then "Good"
    else "Needs Work"
  }

  /** Colour and label always name the same band: green/Excellent, yellow/Good, red/Needs Work. */
  lemma ScoreColorMatchesLabel(score: int)
    ensures GetScoreColor(score) == GREEN_SCORE <==> GetScoreLabel(score) == "Excellent"
    ensures GetScoreColor(score) == YELLOW_SCORE <==> GetScoreLabel(score) == "Good"
    ensures GetScoreColor(score) == RED_SCORE <==> GetScoreLabel(score) == "Needs Work"
    ensures GetScoreColor(score) == GREEN_SCORE <==> score >= 80
    ensures GetScoreColor(score) == YELLOW_SCORE <==> 60 <= score < 80
  {
  }

  /** The tags whose absence is critical: `["Title Tag", "Meta Description", "Twitter Card Type"]`. */
  predicate IsCriticalName(name: string) {
    name in ["Title Tag", "Meta Description", "Twitter Card Type"]
  }

  predicate IsHighPriority(t: SeoTag) {
    t.status == Missing && IsCriticalName(t.name)
  }

  predicate IsMediumPriority(t: SeoTag) {
    t.status == Warning
  }

  predicate IsLowPriority(t: SeoTag) {
    t.status == Missing && !IsCriticalName(t.name)
  }

  predicate NeedsAttention(t: SeoTag) {
    t.status != Good
  }

  /** `highPriorityRecommendations`: the missing critical tags, in report order. */
  function HighPriority(tags: seq<SeoTag>): (r: seq<SeoTag>)
    ensures forall t :: t in r <==> t in tags && t.status == Missing && IsCriticalName(t.name)
    ensures IsSubsequence(r, tags)
  {
    FilterMembership(tags, IsHighPriority);
    FilterIsSubsequence(tags, IsHighPriority);
    Filter(tags, IsHighPriority)
  }

  /** `mediumPriorityRecommendations`: every warning, whatever its name, in report order. */
  function MediumPriority(tags: seq<SeoTag>): (r: seq<SeoTag>)
    ensures forall t :: t in r <==> t in tags && t.status == Warning
    ensures IsSubsequence(r, tags)
  {
    FilterMembership(tags, IsMediumPriority);
    FilterIsSubsequence(tags, IsMediumPriority);
    Filter(tags, IsMediumPriority)
  }

  /** `lowPriorityRecommendations`: every other missing tag, in report order. */
  function LowPriority(tags: seq<SeoTag>): (r: seq<SeoTag>)
    ensures forall t :: t in r <==> t in tags && t.status == Missing && !IsCriticalName(t.name)
    ensures IsSubsequence(r, tags)
  {
    FilterMembership(tags, IsLowPriority);
    FilterIsSubsequence(tags, IsLowPriority);
    Filter(tags, IsLowPriority)
  }

  /** No tag value appears in two of the three lists. */
  lemma PrioritiesDisjoint(tags: seq<SeoTag>)
    ensures forall t :: t in HighPriority(tags) ==> t !in MediumPriority(tags) && t !in LowPriority(tags)
    ensures forall t :: t in MediumPriority(tags) ==> t !in LowPriority(tags)
  {
  }

  /**
   * Together the three lists hold exactly the tags that are not good, each as often as it
   * occurs among them.
   */
  lemma {:induction false} PrioritiesPartitionNonGood(tags: seq<SeoTag>)
    ensures multiset(HighPriority(tags)) + multiset(MediumPriority(tags)) + multiset(LowPriority(tags))
         == multiset(Filter(tags, NeedsAttention))
  {
    if tags != [] {
      PrioritiesPartitionNonGood(tags[1..]);
    }
  }

  /** One entry of the exported report's `recommendations`. */
  datatype ExportedRecommendation = ExportedRecommendation(tag: string, recommendation: string)

  predicate HasRecommendation(t: SeoTag) {
    t.recommendation.Some? && t.recommendation.value != ""
  }

  /**
   * `tags.filter(tag => tag.recommendation).map(tag => ({ tag: tag.name, recommendation }))`:
   * one entry per tag with advice, in tag order.
   */
  function ExportRecommendations(tags: seq<SeoTag>): (r: seq<ExportedRecommendation>)
    ensures |r| == |Filter(tags, HasRecommendation)|
    ensures forall i :: 0 <= i < |r| ==>
      var t := Filter(tags, HasRecommendation)[i];
      HasRecommendation(t) && r[i] == ExportedRecommendation(t.name, t.recommendation.value)
  {
    if tags == [] then []
    else if HasRecommendation(tags[0]) then
      [ExportedRecommendation(tags[0].name, tags[0].recommendation.value)]
        + ExportRecommendations(tags[1..])
    else ExportRecommendations(tags[1..])
  }

  /**
   * For tags that give non-empty advice exactly when they are not good, the export holds
   * one entry for every tag in the three priority lists.
   */
  lemma ExportMatchesPriorities(tags: seq<SeoTag>)
    requires forall t :: t in tags ==> RecommendationIffNotGood(t)
    requires forall t :: t in tags && t.recommendation.Some? ==> t.recommendation.value != ""
    ensures |ExportRecommendations(tags)|
         == |HighPriority(tags)| + |MediumPriority(tags)| + |LowPriority(tags)|
  {
    PrioritiesPartitionNonGood(tags);
    SameFilter(tags, HasRecommendation, NeedsAttention);
    assert |multiset(Filter(tags, NeedsAttention))|
        == |multiset(HighPriority(tags))| + |multiset(MediumPriority(tags))| + |multiset(LowPriority(tags))|;
  }

  lemma {:induction false} SameFilter(s: seq<SeoTag>, p: SeoTag -> bool, q: SeoTag -> bool)
    requires forall t :: t in s ==> (p(t) <==> q(t))
    ensures Filter(s, p) == Filter(s, q)
  {
    if s != [] {
      SameFilter(s[1..], p, q);
    }
  }
}
