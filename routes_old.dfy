/**
 * The extended analysis route (server/routes-old.ts): twelve analysers, each turning one
 * extracted value or one measured number into a scored, categorised tag, and the
 * handler's aggregation of those tags into counts, a weighted score and category scores.
 *
 * Fetching the page, parsing the markup and reading the clock are not modelled: the
 * ten extracted values, the page's length, the fetch latency, the formatted page size
 * and the total analysis time are the inputs.
 */
module ExtendedRoutes {
  import opened Schema
  import opened Seqs
  import opened Scoring
  import NumberText

  /** The score a tag earns for its status, out of 10. */
  function StatusScore(s: Status): (n: nat)
    ensures n <= 10
    ensures (n == 10 <==> s == Good) && (n == 5 <==> s == Warning) && (n == 0 <==> s == Missing)
  {
    match s
    case Good => 10
    case Warning => 5
    case Missing => 0
  }

  /** Every tag the analysers build keeps these: advice iff not good, score fixed by the status. */
  predicate WellScored(t: SeoTag) {
    RecommendationIffNotGood(t) && t.score == StatusScore(t.status)
  }

  // ---------------------------------------------------------------------------------
  // Length-bounded analysers: title and meta description
  // ---------------------------------------------------------------------------------

  /** A signal judged by the length of its value against the bounds `min..max`. */
  datatype BoundedSignal = BoundedSignal(
    name: string,
    description: string,
    min: nat,
    max: nat,
    addAdvice: string,
    shortAdvice: string,
    longAdvice: string,
    category: Category)

  const TITLE: BoundedSignal := BoundedSignal(
    "Title Tag",
    "Primary page title for search results",
    30, 60,
    "Add a title tag to improve SEO. This is one of the most important ranking factors.",
    "Title is too short. Aim for 30-60 characters for optimal SEO.",
    "Title is too long. Keep it under 60 characters to avoid truncation in search results.",
    Content)

  const META_DESCRIPTION: BoundedSignal := BoundedSignal(
    "Meta Description",
    "Search result snippet description",
    120, 160,
    "Add a meta description to improve click-through rates from search results.",
    "Meta description is too short. Aim for 120-160 characters for better search result display.",
    "Meta description is too long. Keep it under 160 characters to avoid truncation.",
    Content)

  /** `value?.length || 0`. */
  function CharacterCount(value: Option<string>): (n: nat)
    ensures value.None? ==> n == 0
    ensures value.Some? ==> n == |value.value|
    ensures n > 0 <==> Truthy(value)
  {
    if value.Some? then |value.value| else 0
  }

  /**
   * The rule a length-bounded signal follows, stated as a classification of the value:
   * absent, shorter than `min`, within the bounds, or longer than `max`.
   */
  function BoundedTag(sig: BoundedSignal, value: Option<string>): SeoTag {
    var present := Truthy(value);
    var length := CharacterCount(value);
    var status := if !present then Missing else if sig.min <= length <= sig.max then Good else Warning;
    var advice :=
      if !present then Some(sig.addAdvice)
      else if length < sig.min then Some(sig.shortAdvice)
      else if length > sig.max then Some(sig.longAdvice)
      else None;
    SeoTag(sig.name, sig.description, value, status, advice,
           Some(length), Some(sig.max), present, StatusScore(status), sig.category)
  }

  /**
   * The step-by-step body shared by `analyzeTitleTag` and `analyzeMetaDescription`:
   * status and score start as missing and 0, with no advice, and are overwritten branch
   * by branch.
   */
  method AnalyzeBounded(sig: BoundedSignal, value: Option<string>) returns (t: SeoTag)
    requires sig.min <= sig.max
    ensures t == BoundedTag(sig, value)
  {
    var isPresent := Truthy(value);
    var length := CharacterCount(value);
    var status := Missing;
    var recommendation: Option<string> := None;
    var score: nat := 0;
    if isPresent {
      if length >= sig.min && length <= sig.max {
        status := Good;
        score := 10;
      } else if length > 0 {
        // a present value is non-empty, so this guard always holds here
        status := Warning;
        score := 5;
        if length < sig.min {
          recommendation := Some(sig.shortAdvice);
        } else {
          recommendation := Some(sig.longAdvice);
        }
      }
    } else {
      recommendation := Some(sig.addAdvice);
    }
    t := SeoTag(sig.name, sig.description, value, status, recommendation,
                Some(length), Some(sig.max), isPresent, score, sig.category);
  }

  /** `analyzeTitleTag`. */
  method AnalyzeTitleTag(title: Option<string>) returns (t: SeoTag)
    ensures t == BoundedTag(TITLE, title)
  {
    t := AnalyzeBounded(TITLE, title);
  }

  /** `analyzeMetaDescription`. */
  method AnalyzeMetaDescription(description: Option<string>) returns (t: SeoTag)
    ensures t == BoundedTag(META_DESCRIPTION, description)
  {
    t := AnalyzeBounded(META_DESCRIPTION, description);
  }

  /** The length rule, case by case, for any signal whose bounds are ordered. */
  lemma BoundedTagRule(sig: BoundedSignal, value: Option<string>)
    requires sig.min <= sig.max
    ensures var t := BoundedTag(sig, value);
      && WellScored(t)
      && t.isPresent == Truthy(value)
      && t.content == value
      && t.maxLength == Some(sig.max)
      && t.characterCount == Some(CharacterCount(value))
      && (!Truthy(value) ==> t.status == Missing && t.score == 0 && t.characterCount == Some(0)
                             && t.recommendation == Some(sig.addAdvice))
      && (Truthy(value) && sig.min <= |value.value| <= sig.max ==>
            t.status == Good && t.score == 10 && t.recommendation == None)
      && (Truthy(value) && |value.value| < sig.min ==>
            t.status == Warning && t.score == 5 && t.recommendation == Some(sig.shortAdvice))
      && (Truthy(value) && |value.value| > sig.max ==>
            t.status == Warning && t.score == 5 && t.recommendation == Some(sig.longAdvice))
  {
  }

  /** The title rule with its bounds: 30..60 characters is good, anything else present is a warning. */
  lemma TitleTagRule(title: Option<string>)
    ensures var t := BoundedTag(TITLE, title);
      && WellScored(t) && t.category == Content && t.name == "Title Tag" && t.maxLength == Some(60)
      && (t.status == Missing <==> !Truthy(title))
      && (t.status == Good <==> Truthy(title) && 30 <= |title.value| <= 60)
      && (t.status == Warning <==> Truthy(title) && (|title.value| < 30 || |title.value| > 60))
      && (!Truthy(title) ==> t.score == 0 && t.characterCount == Some(0)
                             && t.recommendation == Some(TITLE.addAdvice))
      && (Truthy(title) ==> t.characterCount == Some(|title.value|))
  {
    BoundedTagRule(TITLE, title);
  }

  /** The meta description rule with its bounds: 120..160 characters is good. */
  lemma MetaDescriptionRule(description: Option<string>)
    ensures var t := BoundedTag(META_DESCRIPTION, description);
      && WellScored(t) && t.category == Content && t.name == "Meta Description"
      && t.maxLength == Some(160)
      && (t.status == Missing <==> !Truthy(description))
      && (t.status == Good <==> Truthy(description) && 120 <= |description.value| <= 160)
      && (t.status == Warning <==>
            Truthy(description) && (|description.value| < 120 || |description.value| > 160))
      && (!Truthy(description) ==> t.score == 0 && t.characterCount == Some(0)
                                   && t.recommendation == Some(META_DESCRIPTION.addAdvice))
      && (Truthy(description) ==> t.characterCount == Some(|description.value|))
  {
    BoundedTagRule(META_DESCRIPTION, description);
  }

  // ---------------------------------------------------------------------------------
  // Presence analysers: Open Graph and Twitter Card tags
  // ---------------------------------------------------------------------------------

  /** Whether an absent value is a miss (strict) or only a warning (soft). */
  datatype Severity = Strict | Soft

  datatype PresenceSignal = PresenceSignal(
    name: string,
    description: string,
    severity: Severity,
    advice: string,
    category: Category)

  /** The status an absent value of a signal of this severity gets. */
  function AbsentStatus(severity: Severity): Status {
    if severity == Strict then Missing else Warning
  }

  function PresenceTag(sig: PresenceSignal, value: Option<string>): SeoTag {
    var isPresent := Truthy(value);
    var status := if isPresent then Good else AbsentStatus(sig.severity);
    SeoTag(sig.name, sig.description, value, status,
           if isPresent then None else Some(sig.advice),
           None, None, isPresent, StatusScore(status), sig.category)
  }

  /**
   * What a presence analyser promises: present means good with 10 points and no advice,
   * absent means `absent` with its score and the signal's advice; no length is reported.
   */
  predicate PresenceRule(t: SeoTag, value: Option<string>, absent: Status, advice: string) {
    && t.isPresent == Truthy(value)
    && t.content == value
    && t.characterCount.None? && t.maxLength.None?
    && (Truthy(value) ==> t.status == Good && t.score == 10 && t.recommendation.None?)
    && (!Truthy(value) ==> t.status == absent && t.score == StatusScore(absent)
                           && t.recommendation == Some(advice))
  }

  const OG_TITLE: PresenceSignal := PresenceSignal(
    "Open Graph Title", "Title for social media sharing", Strict,
    "Add Open Graph title for better social media sharing appearance.", Social)

  const OG_DESCRIPTION: PresenceSignal := PresenceSignal(
    "Open Graph Description", "Description for social media sharing", Strict,
    "Add Open Graph description for better social media sharing.", Social)

  const OG_IMAGE: PresenceSignal := PresenceSignal(
    "Open Graph Image", "Image for social media sharing", Strict,
    "Add Open Graph image (recommended size: 1200x630px) for social sharing.", Social)

  const OG_SITE_NAME: PresenceSignal := PresenceSignal(
    "Open Graph Site Name", "Website name for social media", Soft,
    "Consider adding Open Graph site name for brand consistency.", Social)

  const TWITTER_CARD: PresenceSignal := PresenceSignal(
    "Twitter Card Type", "Specifies Twitter card display type", Strict,
    "Add Twitter Card meta tag (e.g., summary_large_image) for optimal Twitter sharing.", Technical)

  const TWITTER_TITLE: PresenceSignal := PresenceSignal(
    "Twitter Title", "Title for Twitter cards", Soft,
    "Consider adding Twitter-specific title for optimized Twitter sharing.", Social)

  const TWITTER_DESCRIPTION: PresenceSignal := PresenceSignal(
    "Twitter Description", "Description for Twitter cards", Soft,
    "Consider adding Twitter-specific description for better engagement.", Social)

  const TWITTER_IMAGE: PresenceSignal := PresenceSignal(
    "Twitter Image", "Image for Twitter cards", Soft,
    "Consider adding Twitter-specific image for better visual appeal.", Social)

  /** `analyzeOgTitle`: strict. */
  function AnalyzeOgTitle(ogTitle: Option<string>): (t: SeoTag)
    ensures PresenceRule(t, ogTitle, Missing, OG_TITLE.advice)
    ensures t.name == "Open Graph Title" && t.category == Social
  {
    PresenceTag(OG_TITLE, ogTitle)
  }

  /** `analyzeOgDescription`: strict. */
  function AnalyzeOgDescription(ogDescription: Option<string>): (t: SeoTag)
    ensures PresenceRule(t, ogDescription, Missing, OG_DESCRIPTION.advice)
    ensures t.name == "Open Graph Description" && t.category == Social
  {
    PresenceTag(OG_DESCRIPTION, ogDescription)
  }

  /** `analyzeOgImage`: strict. */
  function AnalyzeOgImage(ogImage: Option<string>): (t: SeoTag)
    ensures PresenceRule(t, ogImage, Missing, OG_IMAGE.advice)
    ensures t.name == "Open Graph Image" && t.category == Social
  {
    PresenceTag(OG_IMAGE, ogImage)
  }

  /** `analyzeOgSiteName`: soft, an absent site name is only a warning. */
  function AnalyzeOgSiteName(ogSiteName: Option<string>): (t: SeoTag)
    ensures PresenceRule(t, ogSiteName, Warning, OG_SITE_NAME.advice)
    ensures t.name == "Open Graph Site Name" && t.category == Social
  {
    PresenceTag(OG_SITE_NAME, ogSiteName)
  }

  /** `analyzeTwitterCard`: strict, and the one technical tag. */
  function AnalyzeTwitterCard(twitterCard: Option<string>): (t: SeoTag)
    ensures PresenceRule(t, twitterCard, Missing, TWITTER_CARD.advice)
    ensures t.name == "Twitter Card Type" && t.category == Technical
  {
    PresenceTag(TWITTER_CARD, twitterCard)
  }

  /** `analyzeTwitterTitle`: soft. */
  function AnalyzeTwitterTitle(twitterTitle: Option<string>): (t: SeoTag)
    ensures PresenceRule(t, twitterTitle, Warning, TWITTER_TITLE.advice)
    ensures t.name == "Twitter Title" && t.category == Social
  {
    PresenceTag(TWITTER_TITLE, twitterTitle)
  }

  /** `analyzeTwitterDescription`: soft. */
  function AnalyzeTwitterDescription(twitterDescription: Option<string>): (t: SeoTag)
    ensures PresenceRule(t, twitterDescription, Warning, TWITTER_DESCRIPTION.advice)
    ensures t.name == "Twitter Description" && t.category == Social
  {
    PresenceTag(TWITTER_DESCRIPTION, twitterDescription)
  }

  /** `analyzeTwitterImage`: soft. */
  function AnalyzeTwitterImage(twitterImage: Option<string>): (t: SeoTag)
    ensures PresenceRule(t, twitterImage, Warning, TWITTER_IMAGE.advice)
    ensures t.name == "Twitter Image" && t.category == Social
  {
    PresenceTag(TWITTER_IMAGE, twitterImage)
  }

  // ---------------------------------------------------------------------------------
  // Performance analysers: page size and response time
  // ---------------------------------------------------------------------------------

  const PAGE_SIZE_ADVICE := "Page size is quite large. Consider optimizing images and compressing content."
  const PAGE_SIZE_SEVERE_ADVICE := "Page size is very large and may impact loading speed significantly."
  const RESPONSE_TIME_ADVICE := "Server response time is slow. Consider optimizing server performance."
  const RESPONSE_TIME_SEVERE_ADVICE :=
    "Server response time is very slow and will negatively impact user experience."

  /**
   * 1024 "KB": a page whose text is longer than this earns a warning. The handler passes
   * `html.length`, the decoded text's length in UTF-16 code units, not its size in bytes.
   */
  const LARGE_PAGE_LENGTH: nat := 1024 * 1024

  /** 2048 KB: the intended "very large" threshold, which the code never reaches. */
  const VERY_LARGE_PAGE_LENGTH: nat := 2048 * 1024

  /** The page-size rule as the code behaves: only above 1024 KB does it warn, and it never reports a miss. */
  function PageSizeTag(htmlLength: nat, pageSize: string): SeoTag {
    var status := if htmlLength > LARGE_PAGE_LENGTH then Warning else Good;
    SeoTag("Page Size", "Total page size for performance", Some(pageSize), status,
           if status == Warning then Some(PAGE_SIZE_ADVICE) else None,
           None, None, true, StatusScore(status), Performance)
  }

  /**
   * `analyzePageSize`. `pageSize` is `formatBytes(htmlLength)`, whose floating-point
   * formatting is not part of this model.
   */
  method AnalyzePageSize(htmlLength: nat, pageSize: string) returns (t: SeoTag)
    ensures t == PageSizeTag(htmlLength, pageSize)
  {
    var sizeInKB: real := htmlLength as real / 1024.0;
    var status := Good;
    var score: int := 10;
    var recommendation: Option<string> := None;
    if sizeInKB > 1024.0 {
      status := Warning;
      score := 5;
      recommendation := Some(PAGE_SIZE_ADVICE);
    } else if sizeInKB > 2048.0 {
      status := Missing;
      score := 0;
      recommendation := Some(PAGE_SIZE_SEVERE_ADVICE);
    }
    t := SeoTag("Page Size", "Total page size for performance", Some(pageSize), status,
                recommendation, None, None, true, score, Performance);
  }

  /** 1000 ms: a slower response earns a warning. */
  const SLOW_RESPONSE_MS: nat := 1000

  /** 2000 ms: the intended "very slow" threshold, which the code never reaches. */
  const VERY_SLOW_RESPONSE_MS: nat := 2000

  /** The response-time rule as the code behaves: a warning above 1000 ms, never a miss. */
  function ResponseTimeTag(responseTime: nat): SeoTag {
    var status := if responseTime > SLOW_RESPONSE_MS then Warning else Good;
    SeoTag("Response Time", "Server response time",
           Some(NumberText.DecimalString(responseTime) + "ms"), status,
           if status == Warning then Some(RESPONSE_TIME_ADVICE) else None,
           None, None, true, StatusScore(status), Performance)
  }

  /** `analyzeResponseTime`; the tag's content is `${responseTime}ms`. */
  method AnalyzeResponseTime(responseTime: nat) returns (t: SeoTag)
    ensures t == ResponseTimeTag(responseTime)
  {
    var status := Good;
    var score: int := 10;
    var recommendation: Option<string> := None;
    if responseTime > 1000 {
      status := Warning;
      score := 5;
      recommendation := Some(RESPONSE_TIME_ADVICE);
    } else if responseTime > 2000 {
      status := Missing;
      score := 0;
      recommendation := Some(RESPONSE_TIME_SEVERE_ADVICE);
    }
    t := SeoTag("Response Time", "Server response time",
                Some(NumberText.DecimalString(responseTime) + "ms"), status,
                recommendation, None, None, true, score, Performance);
  }

  /**
   * The page-size tag is good up to 1024 KB and a warning above, however large the page:
   * the "very large" branch behind the warning branch can never run.
   */
  lemma PageSizeRule(htmlLength: nat, pageSize: string)
    ensures var t := PageSizeTag(htmlLength, pageSize);
      && WellScored(t) && t.isPresent && t.category == Performance
      && t.status != Missing
      && (t.status == Good <==> htmlLength <= LARGE_PAGE_LENGTH)
      && (htmlLength > VERY_LARGE_PAGE_LENGTH ==>
            t.status == Warning && t.recommendation == Some(PAGE_SIZE_ADVICE))
  {
  }

  /**
   * The response-time tag is good up to 1000 ms and a warning above, however slow:
   * the "very slow" branch can never run. Its content reads back as the latency.
   */
  lemma ResponseTimeRule(responseTime: nat)
    ensures var t := ResponseTimeTag(responseTime);
      && WellScored(t) && t.isPresent && t.category == Performance
      && t.status != Missing
      && (t.status == Good <==> responseTime <= SLOW_RESPONSE_MS)
      && (responseTime > VERY_SLOW_RESPONSE_MS ==> t.status == Warning
                                                   && t.recommendation == Some(RESPONSE_TIME_ADVICE))
      && t.content.Some? && |t.content.value| >= 3
      && t.content.value[|t.content.value| - 2..] == "ms"
      && NumberText.DecimalValue(t.content.value[..|t.content.value| - 2]) == responseTime
  {
    var text := NumberText.DecimalString(responseTime);
    assert (text + "ms")[..|text|] == text;
    NumberText.DecimalRoundTrip(responseTime);
  }

  // ---------------------------------------------------------------------------------
  // The handler: the tag sequence and its aggregation
  // ---------------------------------------------------------------------------------

  /** The ten tags built from the extracted values, in the handler's order. */
  function SignalTags(f: MetaFields): seq<SeoTag> {
    [ BoundedTag(TITLE, f.title),
      BoundedTag(META_DESCRIPTION, f.metaDescription),
      AnalyzeOgTitle(f.ogTitle),
      AnalyzeOgDescription(f.ogDescription),
      AnalyzeOgImage(f.ogImage),
      AnalyzeOgSiteName(f.ogSiteName),
      AnalyzeTwitterCard(f.twitterCard),
      AnalyzeTwitterTitle(f.twitterTitle),
      AnalyzeTwitterDescription(f.twitterDescription),
      AnalyzeTwitterImage(f.twitterImage) ]
  }

  /** The twelve tags of the extended report: the ten signals, then page size and response time. */
  function ExtendedTags(f: MetaFields, htmlLength: nat, responseTime: nat, pageSize: string): seq<SeoTag> {
    SignalTags(f) + [PageSizeTag(htmlLength, pageSize), ResponseTimeTag(responseTime)]
  }

  /** The categories of the twelve tags, in the handler's order. */
  const EXTENDED_LAYOUT: seq<Category> :=
    [Content, Content, Social, Social, Social, Social,
     Technical, Social, Social, Social, Performance, Performance]

  /** How often each category occurs in that layout. */
  lemma ExtendedLayoutMultiset()
    ensures multiset(EXTENDED_LAYOUT)[Technical] == 1 && multiset(EXTENDED_LAYOUT)[Social] == 7
    ensures multiset(EXTENDED_LAYOUT)[Content] == 2 && multiset(EXTENDED_LAYOUT)[Performance] == 2
  {
  }

  /** The twelve tags, in order, with the fixed category of each. */
  lemma ExtendedTagsShape(f: MetaFields, htmlLength: nat, responseTime: nat, pageSize: string)
    ensures var tags := ExtendedTags(f, htmlLength, responseTime, pageSize);
      && |tags| == 12
      && Map(tags, CategoryOf) == EXTENDED_LAYOUT
      && tags[0].name == "Title Tag" && tags[1].name == "Meta Description"
      && tags[6].name == "Twitter Card Type"
      && tags[10].name == "Page Size" && tags[11].name == "Response Time"
  {
    var tags := ExtendedTags(f, htmlLength, responseTime, pageSize);
    LayoutOfCategories(tags);
  }

  lemma LayoutOfCategories(tags: seq<SeoTag>)
    requires |tags| == |EXTENDED_LAYOUT|
    requires forall i :: 0 <= i < |tags| ==> tags[i].category == EXTENDED_LAYOUT[i]
    ensures Map(tags, CategoryOf) == EXTENDED_LAYOUT
  {
    var layout := Map(tags, CategoryOf);
    assert |layout| == |EXTENDED_LAYOUT|;
    forall i | 0 <= i < |layout|
      ensures layout[i] == EXTENDED_LAYOUT[i]
    {
      assert layout[i] == CategoryOf(tags[i]);
    }
  }

  /** The ten signal tags' names, in the handler's order. */
  lemma SignalTagsNames(f: MetaFields)
    ensures var tags := SignalTags(f);
      && |tags| == 10
      && tags[0].name == "Title Tag" && tags[1].name == "Meta Description"
      && tags[2].name == "Open Graph Title" && tags[3].name == "Open Graph Description"
      && tags[4].name == "Open Graph Image" && tags[5].name == "Open Graph Site Name"
      && tags[6].name == "Twitter Card Type" && tags[7].name == "Twitter Title"
      && tags[8].name == "Twitter Description" && tags[9].name == "Twitter Image"
  {
  }

  lemma PresenceTagWellScored(sig: PresenceSignal, value: Option<string>)
    ensures WellScored(PresenceTag(sig, value)) && PresenceTag(sig, value).score <= 10
  {
  }

  /** Every one of the ten signal tags gives advice exactly when it is not good, and scores 10, 5 or 0. */
  lemma SignalTagsWellScored(f: MetaFields)
    ensures var tags := SignalTags(f);
      forall i :: 0 <= i < |tags| ==> WellScored(tags[i]) && tags[i].score <= 10
  {
    BoundedTagRule(TITLE, f.title);
    BoundedTagRule(META_DESCRIPTION, f.metaDescription);
    PresenceTagWellScored(OG_TITLE, f.ogTitle);
    PresenceTagWellScored(OG_DESCRIPTION, f.ogDescription);
    PresenceTagWellScored(OG_IMAGE, f.ogImage);
    PresenceTagWellScored(OG_SITE_NAME, f.ogSiteName);
    PresenceTagWellScored(TWITTER_CARD, f.twitterCard);
    PresenceTagWellScored(TWITTER_TITLE, f.twitterTitle);
    PresenceTagWellScored(TWITTER_DESCRIPTION, f.twitterDescription);
    PresenceTagWellScored(TWITTER_IMAGE, f.twitterImage);
  }

  /** The same holds of all twelve tags of the extended report. */
  lemma ExtendedTagsWellScored(f: MetaFields, htmlLength: nat, responseTime: nat, pageSize: string)
    ensures var tags := ExtendedTags(f, htmlLength, responseTime, pageSize);
      forall t :: t in tags ==> WellScored(t) && t.score <= 10
  {
    var tags := ExtendedTags(f, htmlLength, responseTime, pageSize);
    SignalTagsWellScored(f);
    PageSizeRule(htmlLength, pageSize);
    ResponseTimeRule(responseTime);
    forall t | t in tags
      ensures WellScored(t) && t.score <= 10
    {
      var i :| 0 <= i < |tags| && tags[i] == t;
      if i < 10 {
        assert t == SignalTags(f)[i];
      }
    }
  }

  /** `tags.filter(tag => tag.category === c)`. */
  function CategoryMembers(tags: seq<SeoTag>, c: Category): (m: seq<SeoTag>)
    ensures forall t :: t in m ==> t in tags && t.category == c
  {
    Filter(tags, (t: SeoTag) => t.category == c)
  }

  /** A category's group holds every tag of that category, as often as it occurs, and no other tag. */
  lemma {:induction false} CategoryMembersMultiset(tags: seq<SeoTag>, c: Category)
    ensures forall t :: multiset(CategoryMembers(tags, c))[t] == if t.category == c then multiset(tags)[t] else 0
  {
    if tags != [] {
      CategoryMembersMultiset(tags[1..], c);
      assert tags == [tags[0]] + tags[1..];
    }
  }

  /** `reduce((sum, tag) => sum + tag.score, 0)`, summed from the front. */
  function SumScores(tags: seq<SeoTag>): nat {
    if tags == [] then 0 else tags[0].score + SumScores(tags[1..])
  }

  /**
   * The left fold `reduce` performs gives the same sum: each step adds the next tag's
   * score to the sum of the tags before it.
   */
  lemma SumScoresLeftFold(tags: seq<SeoTag>)
    requires tags != []
    ensures SumScores(tags) == SumScores(tags[..|tags| - 1]) + tags[|tags| - 1].score
  {
    var n := |tags| - 1;
    assert tags == tags[..n] + [tags[n]];
    SumScoresAppend(tags[..n], [tags[n]]);
  }

  lemma {:induction false} SumScoresAppend(a: seq<SeoTag>, b: seq<SeoTag>)
    ensures SumScores(a + b) == SumScores(a) + SumScores(b)
  {
    if a == [] {
      assert a + b == b;
    } else {
      SumScoresAppend(a[1..], b);
      assert (a + b)[0] == a[0] && (a + b)[1..] == a[1..] + b;
    }
  }

  /** Taking out the tag at `j` takes its score out of the sum. */
  lemma {:induction false} SumScoresRemoveAt(tags: seq<SeoTag>, j: nat)
    requires j < |tags|
    ensures SumScores(tags) == tags[j].score + SumScores(tags[..j] + tags[j + 1..])
  {
    if j == 0 {
      assert tags[..0] + tags[1..] == tags[1..];
    } else {
      var rest := tags[..j] + tags[j + 1..];
      SumScoresRemoveAt(tags[1..], j - 1);
      assert rest[0] == tags[0];
      assert rest[1..] == tags[1..][..j - 1] + tags[1..][j..];
    }
  }

  /** The sum of the scores does not depend on the order of the tags. */
  lemma {:induction false} SumScoresPermutation(a: seq<SeoTag>, b: seq<SeoTag>)
    requires multiset(a) == multiset(b)
    ensures SumScores(a) == SumScores(b)
    decreases |a|
  {
    if a == [] {
      assert |b| == |multiset(b)| == 0;
    } else {
      var x := a[0];
      assert a == [x] + a[1..];
      assert multiset(a[1..]) == multiset(a) - multiset{x};
      assert x in b;
      var j :| 0 <= j < |b| && b[j] == x;
      var rest := b[..j] + b[j + 1..];
      MultisetRemoveAt(b, j);
      assert multiset(a[1..]) == multiset(rest);
      SumScoresRemoveAt(b, j);
      SumScoresPermutation(a[1..], rest);
    }
  }

  lemma {:induction false} SumScoresAtMost(tags: seq<SeoTag>)
    requires forall t :: t in tags ==> t.score <= 10
    ensures SumScores(tags) <= 10 * |tags|
  {
    if tags != [] {
      SumScoresAtMost(tags[1..]);
    }
  }

  /**
   * A category's average score in tenths:
   * `Math.round(sum / Math.max(count, 1) * 10)`, which the handler then divides by 10.
   */
  function CategoryTenths(tags: seq<SeoTag>, c: Category): (r: nat)
    ensures CategoryMembers(tags, c) == [] ==> r == 0
    ensures (forall t :: t in tags ==> t.score <= 10) ==> r <= 100
  {
    var members := CategoryMembers(tags, c);
    var divisor := if |members| > 1 then |members| else 1;
    assert (forall t :: t in tags ==> t.score <= 10) ==> RoundRatio(10 * SumScores(members), divisor) <= 100 by {
      if forall t :: t in tags ==> t.score <= 10 {
        SumScoresAtMost(members);
        RoundRatioAtMost(10 * SumScores(members), divisor, 100);
      }
    }
    RoundRatio(10 * SumScores(members), divisor)
  }

  /**
   * A category's average depends only on which tags the report holds, not on their
   * order: `[10, 5, 0]` and `[0, 10, 5]` both average 5.0.
   */
  lemma CategoryTenthsPermutation(a: seq<SeoTag>, b: seq<SeoTag>, c: Category)
    requires multiset(a) == multiset(b)
    ensures CategoryTenths(a, c) == CategoryTenths(b, c)
  {
    var ma := CategoryMembers(a, c);
    var mb := CategoryMembers(b, c);
    CategoryMembersMultiset(a, c);
    CategoryMembersMultiset(b, c);
    assert multiset(ma) == multiset(mb);
    assert |ma| == |multiset(ma)| == |multiset(mb)| == |mb|;
    SumScoresPermutation(ma, mb);
  }

  /** `Math.round((technical + social + content + performance) * 2.5)`, from the four averages in tenths. */
  function CategoryTotal(technical: nat, social: nat, content: nat, performance: nat): (r: nat)
    ensures technical <= 100 && social <= 100 && content <= 100 && performance <= 100 ==> r <= 100
  {
    var sum := technical + social + content + performance;
    assert sum <= 400 ==> RoundRatio(sum, 4) <= 100 by {
      if sum <= 400 {
        RoundRatioAtMost(sum, 4, 100);
      }
    }
    RoundRatio(sum, 4)
  }

  /** The four averages and their combined total. */
  function CategoryScoresOf(tags: seq<SeoTag>): (cs: CategoryScores)
    ensures (forall t :: t in tags ==> t.score <= 10) ==>
      cs.technical <= 100 && cs.social <= 100 && cs.content <= 100 && cs.performance <= 100
      && cs.total <= 100
  {
    var technical := CategoryTenths(tags, Technical);
    var social := CategoryTenths(tags, Social);
    var content := CategoryTenths(tags, Content);
    var performance := CategoryTenths(tags, Performance);
    CategoryScores(technical, social, content, performance,
                   CategoryTotal(technical, social, content, performance))
  }

  /** Reordering the tags changes none of the four averages, nor their total. */
  lemma CategoryScoresPermutation(a: seq<SeoTag>, b: seq<SeoTag>)
    requires multiset(a) == multiset(b)
    ensures CategoryScoresOf(a) == CategoryScoresOf(b)
  {
    CategoryTenthsPermutation(a, b, Technical);
    CategoryTenthsPermutation(a, b, Social);
    CategoryTenthsPermutation(a, b, Content);
    CategoryTenthsPermutation(a, b, Performance);
  }

  lemma {:induction false} SumScoresAllTen(tags: seq<SeoTag>)
    requires forall t :: t in tags ==> t.score == 10
    ensures SumScores(tags) == 10 * |tags|
  {
    if tags != [] {
      SumScoresAllTen(tags[1..]);
    }
  }

  /** A category whose every tag scores 10 averages exactly 10.0. */
  lemma CategoryTenthsPerfect(tags: seq<SeoTag>, c: Category)
    requires forall t :: t in tags ==> t.score == 10
    requires CategoryMembers(tags, c) != []
    ensures CategoryTenths(tags, c) == 100
  {
    var members := CategoryMembers(tags, c);
    SumScoresAllTen(members);
    assert 10 * SumScores(members) == 100 * |members|;
    RoundRatioExact(100, |members|);
  }

  /** When every tag scores 10 and no category is empty, every average and the total are perfect. */
  lemma CategoryScoresPerfect(tags: seq<SeoTag>)
    requires forall t :: t in tags ==> t.score == 10
    requires CategoryMembers(tags, Technical) != [] && CategoryMembers(tags, Social) != []
    requires CategoryMembers(tags, Content) != [] && CategoryMembers(tags, Performance) != []
    ensures CategoryScoresOf(tags) == CategoryScores(100, 100, 100, 100, 100)
  {
    CategoryTenthsPerfect(tags, Technical);
    CategoryTenthsPerfect(tags, Social);
    CategoryTenthsPerfect(tags, Content);
    CategoryTenthsPerfect(tags, Performance);
    RoundRatioExact(100, 4);
  }

  /** The number of tags of one category is the number of times the category occurs. */
  lemma {:induction false} CategoryMembersCount(tags: seq<SeoTag>, c: Category)
    ensures |CategoryMembers(tags, c)| == Count(Map(tags, CategoryOf), c)
  {
    if tags != [] {
      CategoryMembersCount(tags[1..], c);
      assert Map(tags, CategoryOf) == [tags[0].category] + Map(tags[1..], CategoryOf);
    }
  }

  /** One technical, seven social, two content and two performance tags: no category is empty. */
  lemma ExtendedCategorySizes(f: MetaFields, htmlLength: nat, responseTime: nat, pageSize: string)
    ensures var tags := ExtendedTags(f, htmlLength, responseTime, pageSize);
      && |CategoryMembers(tags, Technical)| == 1
      && |CategoryMembers(tags, Social)| == 7
      && |CategoryMembers(tags, Content)| == 2
      && |CategoryMembers(tags, Performance)| == 2
  {
    var tags := ExtendedTags(f, htmlLength, responseTime, pageSize);
    ExtendedTagsShape(f, htmlLength, responseTime, pageSize);
    ExtendedLayoutMultiset();
    CategoryMembersCount(tags, Technical);
    CategoryMembersCount(tags, Social);
    CategoryMembersCount(tags, Content);
    CategoryMembersCount(tags, Performance);
  }

  /** The page every check passes: all ten values present, both lengths in bounds, small and fast. */
  predicate PassesEveryCheck(f: MetaFields, htmlLength: nat, responseTime: nat) {
    && Truthy(f.title) && TITLE.min <= |f.title.value| <= TITLE.max
    && Truthy(f.metaDescription)
    && META_DESCRIPTION.min <= |f.metaDescription.value| <= META_DESCRIPTION.max
    && Truthy(f.ogTitle) && Truthy(f.ogDescription) && Truthy(f.ogImage) && Truthy(f.ogSiteName)
    && Truthy(f.twitterCard) && Truthy(f.twitterTitle) && Truthy(f.twitterDescription)
    && Truthy(f.twitterImage)
    && htmlLength <= LARGE_PAGE_LENGTH && responseTime <= SLOW_RESPONSE_MS
  }

  lemma SignalTagsAllGood(f: MetaFields)
    requires Truthy(f.title) && TITLE.min <= |f.title.value| <= TITLE.max
    requires Truthy(f.metaDescription)
    requires META_DESCRIPTION.min <= |f.metaDescription.value| <= META_DESCRIPTION.max
    requires Truthy(f.ogTitle) && Truthy(f.ogDescription) && Truthy(f.ogImage) && Truthy(f.ogSiteName)
    requires Truthy(f.twitterCard) && Truthy(f.twitterTitle) && Truthy(f.twitterDescription)
    requires Truthy(f.twitterImage)
    ensures forall i :: 0 <= i < 10 ==> SignalTags(f)[i].status == Good
  {
    BoundedTagRule(TITLE, f.title);
    BoundedTagRule(META_DESCRIPTION, f.metaDescription);
  }

  lemma {:induction false} CountAllGood(s: seq<Status>)
    requires forall i :: 0 <= i < |s| ==> s[i] == Good
    ensures Count(s, Good) == |s| && Count(s, Warning) == 0
  {
    if s != [] {
      CountAllGood(s[1..]);
    }
  }

  /** Tags that are all good tally as all good, none a warning. */
  lemma CountAllGoodTags(tags: seq<SeoTag>)
    requires forall i :: 0 <= i < |tags| ==> tags[i].status == Good
    ensures Count(Map(tags, StatusOf), Good) == |tags| && Count(Map(tags, StatusOf), Warning) == 0
  {
    CountAllGood(Map(tags, StatusOf));
  }

  lemma ExtendedTagsAllGood(f: MetaFields, htmlLength: nat, responseTime: nat, pageSize: string)
    requires PassesEveryCheck(f, htmlLength, responseTime)
    ensures var tags := ExtendedTags(f, htmlLength, responseTime, pageSize);
      && |tags| == 12
      && (forall i :: 0 <= i < |tags| ==> tags[i].status == Good)
      && (forall t :: t in tags ==> t.score == 10)
  {
    var tags := ExtendedTags(f, htmlLength, responseTime, pageSize);
    SignalTagsAllGood(f);
    PageSizeRule(htmlLength, pageSize);
    ResponseTimeRule(responseTime);
    ExtendedTagsWellScored(f, htmlLength, responseTime, pageSize);
    forall i | 0 <= i < 12
      ensures tags[i].status == Good
    {
      if i < 10 {
        assert tags[i] == SignalTags(f)[i];
      }
    }
    forall t | t in tags
      ensures t.score == 10
    {
      var i :| 0 <= i < 12 && tags[i] == t;
      assert WellScored(t);
    }
  }

  /** Such a page gets twelve good tags, a score of 100 and perfect category scores. */
  lemma PerfectPage(f: MetaFields, htmlLength: nat, responseTime: nat, pageSize: string)
    requires PassesEveryCheck(f, htmlLength, responseTime)
    ensures var tags := ExtendedTags(f, htmlLength, responseTime, pageSize);
      && Count(Map(tags, StatusOf), Good) == 12
      && WeightedScore(Count(Map(tags, StatusOf), Good), Count(Map(tags, StatusOf), Warning), |tags|) == 100
      && CategoryScoresOf(tags) == CategoryScores(100, 100, 100, 100, 100)
  {
    var tags := ExtendedTags(f, htmlLength, responseTime, pageSize);
    ExtendedTagsAllGood(f, htmlLength, responseTime, pageSize);
    CountAllGoodTags(tags);
    ExtendedCategorySizes(f, htmlLength, responseTime, pageSize);
    CategoryScoresPerfect(tags);
  }

  /**
   * The ten values as the handler extracts them, each through `|| null`. `$('title').text()`
   * is a string; an absent `content` attribute is given as "", which is falsy like
   * `undefined` and becomes null the same way.
   */
  function ExtractFields(title: string, metaDescription: string, ogTitle: string,
                         ogDescription: string, ogImage: string, ogSiteName: string,
                         twitterCard: string, twitterTitle: string,
                         twitterDescription: string, twitterImage: string): (f: MetaFields)
    ensures Normalised(f)
  {
    MetaFields(OrNull(title), OrNull(metaDescription), OrNull(ogTitle), OrNull(ogDescription),
               OrNull(ogImage), OrNull(ogSiteName), OrNull(twitterCard), OrNull(twitterTitle),
               OrNull(twitterDescription), OrNull(twitterImage))
  }

  /**
   * The report's copy of the ten values, each through `|| undefined`. On values the
   * extraction produced this changes nothing: the report echoes what was extracted.
   */
  function ReportedFields(f: MetaFields): (r: MetaFields)
    ensures Normalised(r)
    ensures Normalised(f) ==> r == f
  {
    MetaFields(
      OrUndefined(f.title), OrUndefined(f.metaDescription),
      OrUndefined(f.ogTitle), OrUndefined(f.ogDescription),
      OrUndefined(f.ogImage), OrUndefined(f.ogSiteName),
      OrUndefined(f.twitterCard), OrUndefined(f.twitterTitle),
      OrUndefined(f.twitterDescription), OrUndefined(f.twitterImage))
  }

  /** The report carries back exactly the values the handler extracted. */
  lemma ExtractedFieldsReported(title: string, metaDescription: string, ogTitle: string,
                                ogDescription: string, ogImage: string, ogSiteName: string,
                                twitterCard: string, twitterTitle: string,
                                twitterDescription: string, twitterImage: string)
    ensures var f := ExtractFields(title, metaDescription, ogTitle, ogDescription, ogImage,
                                   ogSiteName, twitterCard, twitterTitle, twitterDescription,
                                   twitterImage);
      ReportedFields(f) == f
  {
  }

  /**
   * The route handler: build the twelve tags, tally them, score them and average them by
   * category. `analysisTime` and the normalised field values are copied into the report.
   */
  method AnalyzePage(url: string, fields: MetaFields, htmlLength: nat, responseTime: nat,
                     pageSize: string, analysisTime: nat)
    returns (r: SeoAnalysisResult)
    ensures r.tags == ExtendedTags(fields, htmlLength, responseTime, pageSize)
    ensures r.foundTags == Count(Map(r.tags, StatusOf), Good)
    ensures r.warningTags == Count(Map(r.tags, StatusOf), Warning)
    ensures r.missingTags == Count(Map(r.tags, StatusOf), Missing)
    ensures r.totalChecks == 12
    ensures r.foundTags + r.warningTags + r.missingTags == r.totalChecks
    ensures r.score == WeightedScore(r.foundTags, r.warningTags, r.totalChecks)
    ensures r.score <= 100
    ensures r.categoryScores == CategoryScoresOf(r.tags)
    ensures r.categoryScores.technical <= 100 && r.categoryScores.social <= 100
    ensures r.categoryScores.content <= 100 && r.categoryScores.performance <= 100
    ensures r.categoryScores.total <= 100
    ensures r.url == url && r.pageSize == pageSize
    ensures r.responseTime == responseTime && r.analysisTime == analysisTime
    ensures r.fields == ReportedFields(fields)
  {
    var titleTag := AnalyzeTitleTag(fields.title);
    var descriptionTag := AnalyzeMetaDescription(fields.metaDescription);
    var pageSizeTag := AnalyzePageSize(htmlLength, pageSize);
    var responseTimeTag := AnalyzeResponseTime(responseTime);
    var tags := [
      titleTag,
      descriptionTag,
      AnalyzeOgTitle(fields.ogTitle),
      AnalyzeOgDescription(fields.ogDescription),
      AnalyzeOgImage(fields.ogImage),
      AnalyzeOgSiteName(fields.ogSiteName),
      AnalyzeTwitterCard(fields.twitterCard),
      AnalyzeTwitterTitle(fields.twitterTitle),
      AnalyzeTwitterDescription(fields.twitterDescription),
      AnalyzeTwitterImage(fields.twitterImage),
      pageSizeTag,
      responseTimeTag
    ];
    assert tags == ExtendedTags(fields, htmlLength, responseTime, pageSize);
    ExtendedTagsWellScored(fields, htmlLength, responseTime, pageSize);

    var statuses := Map(tags, StatusOf);
    var foundTags := Count(statuses, Good);
    var warningTags := Count(statuses, Warning);
    var missingTags := Count(statuses, Missing);
    var totalChecks := |tags|;
    CountsPartition(statuses);
    var score := WeightedScore(foundTags, warningTags, totalChecks);

    var categoryScores := CategoryScores(
      CategoryTenths(tags, Technical), CategoryTenths(tags, Social),
      CategoryTenths(tags, Content), CategoryTenths(tags, Performance), 0);
    categoryScores := categoryScores.(total := CategoryTotal(
      categoryScores.technical, categoryScores.social,
      categoryScores.content, categoryScores.performance));

    r := SeoAnalysisResult(url, ReportedFields(fields), tags, score, foundTags, warningTags, missingTags,
                           totalChecks, analysisTime, pageSize, responseTime, categoryScores);
  }
}
