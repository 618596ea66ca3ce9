/**
 * The records exchanged between the analyser and its client (shared/schema.ts):
 * one scored SEO tag per signal, and the analysis result that carries them.
 */
module Schema {

  datatype Option<+T> = None | Some(value: T)

  /** Outcome of one signal's evaluation. */
  datatype Status = Good | Warning | Missing

  /** The grouping bucket a tag's score is averaged in. */
  datatype Category = Technical | Social | Content | Performance

  /**
   * One analysed signal. `content` is the extracted value, `recommendation` the advice
   * shown to the user, `characterCount`/`maxLength` are only set by the two
   * length-bounded analysers, `score` is out of 10.
   */
  datatype SeoTag = SeoTag(
    name: string,
    description: string,
    content: Option<string>,
    status: Status,
    recommendation: Option<string>,
    characterCount: Option<nat>,
    maxLength: Option<nat>,
    isPresent: bool,
    score: nat,
    category: Category)

  /** The ten values extracted from the page's markup, in the order the analysers take them. */
  datatype MetaFields = MetaFields(
    title: Option<string>,
    metaDescription: Option<string>,
    ogTitle: Option<string>,
    ogDescription: Option<string>,
    ogImage: Option<string>,
    ogSiteName: Option<string>,
    twitterCard: Option<string>,
    twitterTitle: Option<string>,
    twitterDescription: Option<string>,
    twitterImage: Option<string>)

  /**
   * Per-category averages in integer tenths (an average of 7.5 is 75) and the combined
   * total as an integer percentage.
   */
  datatype CategoryScores = CategoryScores(
    technical: nat,
    social: nat,
    content: nat,
    performance: nat,
    total: nat)

  /** The report the extended route returns; times are in milliseconds. */
  datatype SeoAnalysisResult = SeoAnalysisResult(
    url: string,
    fields: MetaFields,
    tags: seq<SeoTag>,
    score: nat,
    foundTags: nat,
    warningTags: nat,
    missingTags: nat,
    totalChecks: nat,
    analysisTime: nat,
    pageSize: string,
    responseTime: nat,
    categoryScores: CategoryScores)

  /** JavaScript truthiness of a `string | null` value: present and non-empty. */
  predicate Truthy(o: Option<string>) {
    o.Some? && o.value != ""
  }

  /** `raw || null`, the way every extracted field is normalised. */
  function OrNull(raw: string): (o: Option<string>)
    ensures Truthy(o) <==> raw != ""
    ensures o.Some? ==> o.value == raw
    ensures AbsentOrTruthy(o)
  {
    if raw == "" then None else Some(raw)
  }

  /** `value || undefined`: a falsy value becomes absent, a truthy one is kept. */
  function OrUndefined(o: Option<string>): (r: Option<string>)
    ensures Truthy(r) <==> Truthy(o)
    ensures r.Some? ==> r == o
    ensures AbsentOrTruthy(r)
    ensures AbsentOrTruthy(o) ==> r == o
  {
    if Truthy(o) then o else None
  }

  /** A value as `|| null` or `|| undefined` leaves it: absent, or present and non-empty. */
  predicate AbsentOrTruthy(o: Option<string>) {
    o.None? || Truthy(o)
  }

  /** Every one of the ten values is absent or non-empty. */
  predicate Normalised(f: MetaFields) {
    && AbsentOrTruthy(f.title) && AbsentOrTruthy(f.metaDescription)
    && AbsentOrTruthy(f.ogTitle) && AbsentOrTruthy(f.ogDescription)
    && AbsentOrTruthy(f.ogImage) && AbsentOrTruthy(f.ogSiteName)
    && AbsentOrTruthy(f.twitterCard) && AbsentOrTruthy(f.twitterTitle)
    && AbsentOrTruthy(f.twitterDescription) && AbsentOrTruthy(f.twitterImage)
  }

  /** The status as the string the client compares against. */
  function StatusName(s: Status): string {
    match s
    case Good => "good"
    case Warning => "warning"
    case Missing => "missing"
  }

  /** The invariant every analyser's tag keeps: advice is given exactly when the tag is not good. */
  predicate RecommendationIffNotGood(t: SeoTag) {
    t.recommendation.Some? <==> t.status != Good
  }

  /** `tag => tag.status`, the projection the status tallies filter on. */
  function StatusOf(t: SeoTag): Status {
    t.status
  }

  /** `tag => tag.category`, the projection the category groups filter on. */
  function CategoryOf(t: SeoTag): Category {
    t.category
  }
}
