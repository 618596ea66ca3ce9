/**
 * The basic analysis route (server/routes.ts): the ten signal analysers without a score
 * or a category, and the handler's tally and weighted score over their ten tags.
 * Every analyser here is proved to agree with its extended counterpart once the
 * extended tag's score and category are dropped.
 */
module BasicRoutes {
  import opened Schema
  import opened Seqs
  import opened Scoring
  import ExtendedRoutes

  /** The basic tag: the extended record without `score` and `category`. */
  datatype BasicTag = BasicTag(
    name: string,
    description: string,
    content: Option<string>,
    status: Status,
    recommendation: Option<string>,
    characterCount: Option<nat>,
    maxLength: Option<nat>,
    isPresent: bool)

  /** The basic report: no category scores, tags without score or category. */
  datatype BasicAnalysisResult = BasicAnalysisResult(
    url: string,
    fields: MetaFields,
    tags: seq<BasicTag>,
    score: nat,
    foundTags: nat,
    warningTags: nat,
    missingTags: nat,
    totalChecks: nat,
    analysisTime: nat,
    pageSize: string,
    responseTime: nat)

  /** Drops the two fields the basic route does not produce. */
  function Strip(t: SeoTag): BasicTag {
    BasicTag(t.name, t.description, t.content, t.status, t.recommendation,
             t.characterCount, t.maxLength, t.isPresent)
  }

  /** `tag => tag.status` over basic tags. */
  function BasicStatusOf(t: BasicTag): Status {
    t.status
  }

  /**
   * The step-by-step body of the basic `analyzeTitleTag` and `analyzeMetaDescription`:
   * status and score start as missing and 0, with no advice, and are overwritten branch
   * by branch.
   */
  method AnalyzeBounded(sig: ExtendedRoutes.BoundedSignal, value: Option<string>) returns (t: BasicTag)
    requires sig.min <= sig.max
    ensures t == Strip(ExtendedRoutes.BoundedTag(sig, value))
  {
    var isPresent := Truthy(value);
    var length := if value.Some? then |value.value| else 0;
    var status := Missing;
    var recommendation: Option<string> := None;
    if isPresent {
      if length >= sig.min && length <= sig.max {
        status := Good;
      } else if length > 0 {
        status := Warning;
        if length < sig.min {
          recommendation := Some(sig.shortAdvice);
        } else {
          recommendation := Some(sig.longAdvice);
        }
      }
    } else {
      recommendation := Some(sig.addAdvice);
    }
    t := BasicTag(sig.name, sig.description, value, status, recommendation,
                  Some(length), Some(sig.max), isPresent);
  }

  /** Basic `analyzeTitleTag`: the extended title tag without score and category. */
  method AnalyzeTitleTag(title: Option<string>) returns (t: BasicTag)
    ensures t == Strip(ExtendedRoutes.BoundedTag(ExtendedRoutes.TITLE, title))
  {
    t := AnalyzeBounded(ExtendedRoutes.TITLE, title);
  }

  /** Basic `analyzeMetaDescription`: the extended description tag without score and category. */
  method AnalyzeMetaDescription(description: Option<string>) returns (t: BasicTag)
    ensures t == Strip(ExtendedRoutes.BoundedTag(ExtendedRoutes.META_DESCRIPTION, description))
  {
    t := AnalyzeBounded(ExtendedRoutes.META_DESCRIPTION, description);
  }

  /**
   * The basic presence rule, written as the basic route writes it: present is good,
   * absent is `absent` with the signal's advice.
   */
  function Presence(name: string, description: string, value: Option<string>,
                    absent: Status, advice: string): BasicTag
  {
    var isPresent := Truthy(value);
    BasicTag(name, description, value,
             if isPresent then Good else absent,
             if isPresent then None else Some(advice),
             None, None, isPresent)
  }

  /** Basic `analyzeOgTitle`, agreeing with the extended one. */
  function AnalyzeOgTitle(ogTitle: Option<string>): (t: BasicTag)
    ensures t == Strip(ExtendedRoutes.AnalyzeOgTitle(ogTitle))
  {
    Presence("Open Graph Title", "Title for social media sharing", ogTitle, Missing,
             "Add Open Graph title for better social media sharing appearance.")
  }

  /** Basic `analyzeOgDescription`, agreeing with the extended one. */
  function AnalyzeOgDescription(ogDescription: Option<string>): (t: BasicTag)
    ensures t == Strip(ExtendedRoutes.AnalyzeOgDescription(ogDescription))
  {
    Presence("Open Graph Description", "Description for social media sharing", ogDescription, Missing,
             "Add Open Graph description for better social media sharing.")
  }

  /** Basic `analyzeOgImage`, agreeing with the extended one. */
  function AnalyzeOgImage(ogImage: Option<string>): (t: BasicTag)
    ensures t == Strip(ExtendedRoutes.AnalyzeOgImage(ogImage))
  {
    Presence("Open Graph Image", "Image for social media sharing", ogImage, Missing,
             "Add Open Graph image (recommended size: 1200x630px) for social sharing.")
  }

  /** Basic `analyzeOgSiteName`, agreeing with the extended one. */
  function AnalyzeOgSiteName(ogSiteName: Option<string>): (t: BasicTag)
    ensures t == Strip(ExtendedRoutes.AnalyzeOgSiteName(ogSiteName))
  {
    Presence("Open Graph Site Name", "Website name for social media", ogSiteName, Warning,
             "Consider adding Open Graph site name for brand consistency.")
  }

  /** Basic `analyzeTwitterCard`, agreeing with the extended one. */
  function AnalyzeTwitterCard(twitterCard: Option<string>): (t: BasicTag)
    ensures t == Strip(ExtendedRoutes.AnalyzeTwitterCard(twitterCard))
  {
    Presence("Twitter Card Type", "Specifies Twitter card display type", twitterCard, Missing,
             "Add Twitter Card meta tag (e.g., summary_large_image) for optimal Twitter sharing.")
  }

  /** Basic `analyzeTwitterTitle`, agreeing with the extended one. */
  function AnalyzeTwitterTitle(twitterTitle: Option<string>): (t: BasicTag)
    ensures t == Strip(ExtendedRoutes.AnalyzeTwitterTitle(twitterTitle))
  {
    Presence("Twitter Title", "Title for Twitter cards", twitterTitle, Warning,
             "Consider adding Twitter-specific title for optimized Twitter sharing.")
  }

  /** Basic `analyzeTwitterDescription`, agreeing with the extended one. */
  function AnalyzeTwitterDescription(twitterDescription: Option<string>): (t: BasicTag)
    ensures t == Strip(ExtendedRoutes.AnalyzeTwitterDescription(twitterDescription))
  {
    Presence("Twitter Description", "Description for Twitter cards", twitterDescription, Warning,
             "Consider adding Twitter-specific description for better engagement.")
  }

  /** Basic `analyzeTwitterImage`, agreeing with the extended one. */
  function AnalyzeTwitterImage(twitterImage: Option<string>): (t: BasicTag)
    ensures t == Strip(ExtendedRoutes.AnalyzeTwitterImage(twitterImage))
  {
    Presence("Twitter Image", "Image for Twitter cards", twitterImage, Warning,
             "Consider adding Twitter-specific image for better visual appeal.")
  }

  /** The basic route's ten tags: the extended route's first ten, stripped. */
  function BasicTags(f: MetaFields): (tags: seq<BasicTag>)
    ensures |tags| == 10
  {
    var signals := ExtendedRoutes.SignalTags(f);
    seq(10, i requires 0 <= i < 10 => Strip(signals[i]))
  }

  /** Stripping keeps every status: stripped tags have the statuses of the originals. */
  lemma StripKeepsStatuses(basic: seq<BasicTag>, tags: seq<SeoTag>)
    requires |basic| == |tags|
    requires forall i :: 0 <= i < |tags| ==> basic[i] == Strip(tags[i])
    ensures Map(basic, BasicStatusOf) == Map(tags, StatusOf)
  {
    var b := Map(basic, BasicStatusOf);
    var e := Map(tags, StatusOf);
    forall i | 0 <= i < |tags|
      ensures b[i] == e[i]
    {
      assert b[i] == basic[i].status;
    }
  }

  /** The basic and the extended route count the same good, warning and missing signals. */
  lemma BasicTallyMatchesExtended(f: MetaFields, s: Status)
    ensures Count(Map(BasicTags(f), BasicStatusOf), s) == Count(Map(ExtendedRoutes.SignalTags(f), StatusOf), s)
  {
    StripKeepsStatuses(BasicTags(f), ExtendedRoutes.SignalTags(f));
  }

  /**
   * The ten basic tags come in the order title, description, the four Open Graph tags,
   * then the four Twitter tags.
   */
  lemma BasicTagsOrder(f: MetaFields)
    ensures var tags := BasicTags(f);
      && tags[0].name == "Title Tag" && tags[1].name == "Meta Description"
      && tags[2].name == "Open Graph Title" && tags[3].name == "Open Graph Description"
      && tags[4].name == "Open Graph Image" && tags[5].name == "Open Graph Site Name"
      && tags[6].name == "Twitter Card Type" && tags[7].name == "Twitter Title"
      && tags[8].name == "Twitter Description" && tags[9].name == "Twitter Image"
  {
    var signals := ExtendedRoutes.SignalTags(f);
    var tags := BasicTags(f);
    ExtendedRoutes.SignalTagsNames(f);
    forall i | 0 <= i < 10
      ensures tags[i].name == signals[i].name
    {
      assert tags[i] == Strip(signals[i]);
    }
  }

  /** Every basic tag gives advice exactly when it is not good. */
  lemma BasicTagsAdviceIffNotGood(f: MetaFields)
    ensures var tags := BasicTags(f);
      forall i :: 0 <= i < 10 ==> (tags[i].recommendation.Some? <==> tags[i].status != Good)
  {
    ExtendedRoutes.SignalTagsWellScored(f);
  }

  /** Ten tags of half or full credit score 5 or 10 points each: the weighted score is 10·found + 5·warning. */
  lemma BasicScoreIsLinear(found: nat, warning: nat)
    requires found + warning <= 10
    ensures WeightedScore(found, warning, 10) == 10 * found + 5 * warning
    ensures WeightedScore(found, warning, 10) % 5 == 0
  {
    RoundRatioExact(10 * found + 5 * warning, 20);
    assert 100 * (2 * found + warning) == (10 * found + 5 * warning) * 20;
  }

  /** The basic route handler: the ten tags, their tally and the weighted score. */
  method AnalyzePage(url: string, fields: MetaFields, responseTime: nat,
                     pageSize: string, analysisTime: nat)
    returns (r: BasicAnalysisResult)
    ensures r.tags == BasicTags(fields)
    ensures r.foundTags == Count(Map(r.tags, BasicStatusOf), Good)
    ensures r.warningTags == Count(Map(r.tags, BasicStatusOf), Warning)
    ensures r.missingTags == Count(Map(r.tags, BasicStatusOf), Missing)
    ensures r.totalChecks == 10
    ensures r.foundTags + r.warningTags + r.missingTags == r.totalChecks
    ensures r.score == 10 * r.foundTags + 5 * r.warningTags
    ensures r.score % 5 == 0 && r.score <= 100
    ensures r.url == url && r.fields == fields && r.pageSize == pageSize
    ensures r.responseTime == responseTime && r.analysisTime == analysisTime
  {
    var titleTag := AnalyzeTitleTag(fields.title);
    var descriptionTag := AnalyzeMetaDescription(fields.metaDescription);
    var tags := [
      titleTag,
      descriptionTag,
      AnalyzeOgTitle(fields.ogTitle),
      AnalyzeOgDescription(fields.ogDescription),
      AnalyzeOgImage(fields.ogImage),
      AnalyzeOgSiteName(fields.ogSiteName),
      AnalyzeTwitterCard(fields.twitterCard),
      AnalyzeTwitterTitle(fields.twitterTitle),
      AnalyzeTwitterDescription(fields.twitterDescription),
      AnalyzeTwitterImage(fields.twitterImage)
    ];
    assert tags == BasicTags(fields);

    var statuses := Map(tags, BasicStatusOf);
    var foundTags := Count(statuses, Good);
    var warningTags := Count(statuses, Warning);
    var missingTags := Count(statuses, Missing);
    var totalChecks := |tags|;
    CountsPartition(statuses);
    var score := WeightedScore(foundTags, warningTags, totalChecks);
    BasicScoreIsLinear(foundTags, warningTags);

    r := BasicAnalysisResult(url, fields, tags, score, foundTags, warningTags, missingTags,
                             totalChecks, analysisTime, pageSize, responseTime);
  }
}
