/**
 * How one tag is displayed (client/src/components/seo-tag-item.tsx): the status colour
 * and badge, the character-count line with its progress bar, and the advice box.
 */
module SeoTagItem {
  import opened Schema
  import ExtendedRoutes

  /** `getStatusColor`, switched on the status string. */
  function GetStatusColor(status: string): (c: string)
    ensures status == "good" <==> c == "bg-green-600"
    ensures status == "warning" <==> c == "bg-yellow-600"
    ensures status == "missing" <==> c == "bg-red-600"
    ensures status !in {"good", "warning", "missing"} <==> c == "bg-gray-600"
  {
    match status
    case "good" => "bg-green-600"
    case "warning" => "bg-yellow-600"
    case "missing" => "bg-red-600"
    case _ => "bg-gray-600"
  }

  /** `getStatusBadge`: the badge's text, or no badge for an unknown status. */
  function GetStatusBadge(status: string): (b: Option<string>)
    ensures status == "good" <==> b == Some("Good")
    ensures status == "warning" <==> b == Some("Warning")
    ensures status == "missing" <==> b == Some("Missing")
    ensures b.None? <==> status !in {"good", "warning", "missing"}
  {
    match status
    case "good" => Some("Good")
    case "warning" => Some("Warning")
    case "missing" => Some("Missing")
    case _ => None
  }

  /** Every status a tag can carry gets its own colour and a badge, never the grey fallback. */
  lemma StatusDisplayDistinct(s1: Status, s2: Status)
    ensures GetStatusColor(StatusName(s1)) != "bg-gray-600"
    ensures GetStatusBadge(StatusName(s1)).Some?
    ensures GetStatusColor(StatusName(s1)) == GetStatusColor(StatusName(s2)) <==> s1 == s2
    ensures GetStatusBadge(StatusName(s1)) == GetStatusBadge(StatusName(s2)) <==> s1 == s2
  {
  }

  /** The card's border: red for a missing tag, grey otherwise. */
  function CardBorder(status: Status): (c: string)
    ensures c == "border-red-200 bg-red-50" <==> status == Missing
    ensures c == "border-gray-200" <==> status != Missing
  {
    if status == Missing then "border-red-200 bg-red-50" else "border-gray-200"
  }

  /** The colour of the character count: green for good, yellow for warning, red otherwise. */
  function CharacterCountColor(status: Status): (c: string)
    ensures c == "text-green-600" <==> status == Good
    ensures c == "text-yellow-600" <==> status == Warning
    ensures c == "text-red-600" <==> status == Missing
  {
    match status
    case Good => "text-green-600"
    case Warning => "text-yellow-600"
    case Missing => "text-red-600"
  }

  /** `characterCount !== undefined && maxLength`: a count of 0 is shown, a limit of 0 is not. */
  predicate CharacterCountShown(t: SeoTag) {
    t.characterCount.Some? && t.maxLength.Some? && t.maxLength.value != 0
  }

  /** `getProgressPercentage`: the count as a share of the limit, capped at 100. */
  function ProgressPercentage(t: SeoTag): (p: real)
    ensures 0.0 <= p <= 100.0
    ensures t.characterCount.None? || t.characterCount == Some(0) ==> p == 0.0
    ensures t.maxLength.None? || t.maxLength == Some(0) ==> p == 0.0
    ensures t.characterCount.Some? && t.maxLength.Some? && 0 < t.maxLength.value <= t.characterCount.value
      ==> p == 100.0
    ensures t.characterCount.Some? && t.maxLength.Some? && 0 < t.characterCount.value < t.maxLength.value
      ==> p * (t.maxLength.value as real) == 100.0 * (t.characterCount.value as real)
  {
    if t.characterCount.None? || t.characterCount.value == 0
       || t.maxLength.None? || t.maxLength.value == 0 then 0.0
    else
      var c := t.characterCount.value as real;
      var m := t.maxLength.value as real;
      var share := c / m * 100.0;
      assert m <= c ==> share >= 100.0 by {
        if m <= c {
          ShareAtLeastFull(c, m);
        }
      }
      assert c < m ==> share < 100.0 by {
        if c < m {
          ShareBelowFull(c, m);
        }
      }
      assert share * m == 100.0 * c by {
        assert c / m * m == c;
      }
      assert share >= 0.0;
      if share < 100.0 then share else 100.0
  }

  /** A count that reaches its limit is at least 100% of it. */
  lemma ShareAtLeastFull(c: real, m: real)
    requires 0.0 < m <= c
    ensures c / m * 100.0 >= 100.0
  {
    var q := c / m;
    assert q * m == c;
    assert (q - 1.0) * m == c - m;
  }

  /** A count below its limit is less than 100% of it. */
  lemma ShareBelowFull(c: real, m: real)
    requires 0.0 < c < m
    ensures c / m * 100.0 < 100.0
  {
    var q := c / m;
    assert q * m == c;
    FractionBelowOne(q, c, m);
  }

  /** A factor that scales `m` down to a smaller positive `c` is less than 1. */
  lemma FractionBelowOne(q: real, c: real, m: real)
    requires q * m == c && 0.0 < c < m
    ensures q < 1.0
  {
    var r := 1.0 - q;
    assert r * m == m - c;
    assert r * m > 0.0;
  }

  /** `getProgressColor`: green from half to full, red above full, yellow below half. */
  function GetProgressColor(percentage: real): (c: string)
    ensures 50.0 <= percentage <= 100.0 <==> c == "bg-green-600"
    ensures percentage > 100.0 <==> c == "bg-red-600"
    ensures percentage < 50.0 <==> c == "bg-yellow-600"
  {
    if percentage <= 100.0 && percentage >= 50.0 then "bg-green-600"
    else if percentage > 100.0 then "bg-red-600"
    else "bg-yellow-600"
  }

  /** A count is at least half its limit exactly when its share of the limit is at least 50%. */
  lemma HalfShare(c: real, m: real)
    requires m > 0.0 && c >= 0.0
    ensures c / m * 100.0 >= 50.0 <==> 2.0 * c >= m
  {
    var q := c / m;
    assert q * m == c;
    assert 2.0 * c - m == (2.0 * q - 1.0) * m;
    if 2.0 * q >= 1.0 {
      assert (2.0 * q - 1.0) * m >= 0.0;
      assert 2.0 * c >= m;
    } else {
      assert (1.0 - 2.0 * q) * m > 0.0;
      assert 2.0 * c < m;
    }
  }

  /**
   * The bar of a real tag is never red, since the percentage is capped: it is green
   * exactly when the count is at least half the limit.
   */
  lemma ProgressNeverRed(t: SeoTag)
    ensures GetProgressColor(ProgressPercentage(t)) != "bg-red-600"
    ensures CharacterCountShown(t) && t.characterCount.value > 0 ==>
      ((GetProgressColor(ProgressPercentage(t)) == "bg-green-600")
        <==> 2 * t.characterCount.value >= t.maxLength.value)
  {
    if CharacterCountShown(t) && t.characterCount.value > 0 {
      var c := t.characterCount.value as real;
      var m := t.maxLength.value as real;
      HalfShare(c, m);
    }
  }

  /**
   * `getProgressColor` of the title's percentage: green for a good title and, since the
   * percentage is capped, for a title that is too long; yellow for one that is too short.
   */
  lemma TitleProgressColor(title: Option<string>)
    ensures var t := ExtendedRoutes.BoundedTag(ExtendedRoutes.TITLE, title);
      && CharacterCountShown(t)
      && (t.status == Good ==> GetProgressColor(ProgressPercentage(t)) == "bg-green-600")
      && (Truthy(title) && |title.value| > 60 ==> GetProgressColor(ProgressPercentage(t)) == "bg-green-600")
      && (Truthy(title) && |title.value| < 30 ==> GetProgressColor(ProgressPercentage(t)) == "bg-yellow-600")
  {
    var t := ExtendedRoutes.BoundedTag(ExtendedRoutes.TITLE, title);
    ExtendedRoutes.TitleTagRule(title);
    ProgressNeverRed(t);
  }

  /** `getProgressColor` of the meta description's percentage: green whenever it is good. */
  lemma DescriptionProgressColor(description: Option<string>)
    ensures var t := ExtendedRoutes.BoundedTag(ExtendedRoutes.META_DESCRIPTION, description);
      && CharacterCountShown(t)
      && (t.status == Good ==> GetProgressColor(ProgressPercentage(t)) == "bg-green-600")
  {
    var t := ExtendedRoutes.BoundedTag(ExtendedRoutes.META_DESCRIPTION, description);
    ExtendedRoutes.MetaDescriptionRule(description);
    ProgressNeverRed(t);
  }

  /** The advice box's style: red for a missing tag, yellow otherwise; no box without advice. */
  function RecommendationStyle(t: SeoTag): (s: Option<string>)
    ensures s.Some? <==> Truthy(t.recommendation)
    ensures s == Some("text-red-700 bg-red-100 border-red-200") <==> Truthy(t.recommendation) && t.status == Missing
    ensures s == Some("text-yellow-700 bg-yellow-100 border-yellow-200") <==> Truthy(t.recommendation) && t.status != Missing
  {
    if !Truthy(t.recommendation) then None
    else if t.status == Missing then Some("text-red-700 bg-red-100 border-red-200")
    else Some("text-yellow-700 bg-yellow-100 border-yellow-200")
  }

  /** A tag whose advice is non-empty exactly when it is not good. */
  predicate AdviceShownIffNotGood(t: SeoTag) {
    RecommendationIffNotGood(t) && (t.recommendation.Some? ==> t.recommendation.value != "")
  }

  lemma PresenceAdviceShown(sig: ExtendedRoutes.PresenceSignal, value: Option<string>)
    requires sig.advice != ""
    ensures AdviceShownIffNotGood(ExtendedRoutes.PresenceTag(sig, value))
    ensures !CharacterCountShown(ExtendedRoutes.PresenceTag(sig, value))
  {
  }

  lemma BoundedAdviceShown(sig: ExtendedRoutes.BoundedSignal, value: Option<string>)
    requires sig.min <= sig.max && 0 < sig.max
    requires sig.addAdvice != "" && sig.shortAdvice != "" && sig.longAdvice != ""
    ensures AdviceShownIffNotGood(ExtendedRoutes.BoundedTag(sig, value))
    ensures CharacterCountShown(ExtendedRoutes.BoundedTag(sig, value))
  {
    ExtendedRoutes.BoundedTagRule(sig, value);
  }

  /** Each of the ten signal tags: advice shown iff not good, and a count only on the first two. */
  lemma SignalTagsDisplay(f: MetaFields)
    ensures var tags := ExtendedRoutes.SignalTags(f);
      forall i :: 0 <= i < 10 ==> AdviceShownIffNotGood(tags[i]) && (CharacterCountShown(tags[i]) <==> i < 2)
  {
    BoundedAdviceShown(ExtendedRoutes.TITLE, f.title);
    BoundedAdviceShown(ExtendedRoutes.META_DESCRIPTION, f.metaDescription);
    PresenceAdviceShown(ExtendedRoutes.OG_TITLE, f.ogTitle);
    PresenceAdviceShown(ExtendedRoutes.OG_DESCRIPTION, f.ogDescription);
    PresenceAdviceShown(ExtendedRoutes.OG_IMAGE, f.ogImage);
    PresenceAdviceShown(ExtendedRoutes.OG_SITE_NAME, f.ogSiteName);
    PresenceAdviceShown(ExtendedRoutes.TWITTER_CARD, f.twitterCard);
    PresenceAdviceShown(ExtendedRoutes.TWITTER_TITLE, f.twitterTitle);
    PresenceAdviceShown(ExtendedRoutes.TWITTER_DESCRIPTION, f.twitterDescription);
    PresenceAdviceShown(ExtendedRoutes.TWITTER_IMAGE, f.twitterImage);
  }

  /** A tag whose advice is non-empty exactly when it is not good gets the box exactly then. */
  lemma AdviceBox(t: SeoTag)
    requires AdviceShownIffNotGood(t)
    ensures RecommendationStyle(t).Some? <==> t.status != Good
    ensures RecommendationStyle(t) == Some("text-red-700 bg-red-100 border-red-200") <==> t.status == Missing
  {
  }

  /**
   * Over the extended report's tags: the character count is shown for the title and the
   * description only, and the advice box appears exactly for the tags that are not good,
   * red for the missing ones.
   */
  lemma ExtendedTagsDisplay(f: MetaFields, htmlLength: nat, responseTime: nat, pageSize: string)
    ensures var tags := ExtendedRoutes.ExtendedTags(f, htmlLength, responseTime, pageSize);
      && |tags| == 12
      && (forall i :: 0 <= i < 12 ==> (CharacterCountShown(tags[i]) <==> i < 2))
      && (forall i :: 0 <= i < 12 ==>
            && (RecommendationStyle(tags[i]).Some? <==> tags[i].status != Good)
            && ((RecommendationStyle(tags[i]) == Some("text-red-700 bg-red-100 border-red-200"))
                <==> tags[i].status == Missing))
  {
    var signals := ExtendedRoutes.SignalTags(f);
    var tags := ExtendedRoutes.ExtendedTags(f, htmlLength, responseTime, pageSize);
    SignalTagsDisplay(f);
    ExtendedRoutes.PageSizeRule(htmlLength, pageSize);
    ExtendedRoutes.ResponseTimeRule(responseTime);
    forall i | 0 <= i < 12
      ensures (CharacterCountShown(tags[i]) <==> i < 2) && AdviceShownIffNotGood(tags[i])
    {
      if i < 10 {
        assert tags[i] == signals[i];
      }
    }
    forall i | 0 <= i < 12
      ensures && (RecommendationStyle(tags[i]).Some? <==> tags[i].status != Good)
              && ((RecommendationStyle(tags[i]) == Some("text-red-700 bg-red-100 border-red-200"))
                  <==> tags[i].status == Missing)
    {
      AdviceBox(tags[i]);
    }
  }
}
