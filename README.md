# SeoDiagnose tag analysis and scoring, in Dafny

SeoDiagnose fetches a web page, extracts ten meta values (title, meta description, four
Open Graph and four Twitter Card properties) and judges each one. The result is an SEO tag
with a status (good, warning or missing), a score out of 10 and a piece of advice. The
report carries these tags, a tally of the statuses, a weighted percentage score and, in
the extended variant, per-category averages. The web client then renders the report:
score colour and label, three priority lists of advice, the search and social previews,
and one card per tag.

This project models that core:

- `schema.dfy` (`Schema`): the tag and report records, JavaScript truthiness of a nullable
  string, and the `|| null` / `|| undefined` normalisations.
- `seqs.dfy` (`Seqs`): `map`, `filter` and `filter(...).length`.
- `scoring.dfy` (`Scoring`): `Math.round` of a non-negative ratio, done in exact integer
  arithmetic. It also holds the weighted score and the status tally.
- `number_text.dfy` (`NumberText`): how `${n}` writes an integer, with its round trip.
- `routes_old.dfy` (`ExtendedRoutes`): the extended route, with twelve analysers, the
  tally, the weighted score and the category scores.
- `routes_basic.dfy` (`BasicRoutes`): the basic route, with ten analysers and no score or
  category on a tag. Each analyser is proved equal to its extended counterpart once the
  two extra fields are dropped.
- `seo_utils.dfy` (`SeoUtils`): the client's score recomputation, score label, length
  limits and millisecond formatting.
- `analysis_results.dfy` (`AnalysisResults`): the results view's colours, label, priority
  lists and exported recommendations.
- `preview_panels.dfy` (`PreviewPanels`): which previews are shown and the fallback text
  of each.
- `seo_tag_item.dfy` (`SeoTagItem`): one tag's card, with its status colour and badge,
  progress bar and advice box.

Each analyser that the source writes step by step is a `method`. Its status, score and
advice start from a default value and are overwritten branch by branch: missing and 0 for
the length analysers, good and 10 for page size and response time, and no advice in all
of them. It is proved equal to a
specification function (`BoundedTag`, `PageSizeTag`, `ResponseTimeTag`), and that
function's rules are proved as lemmas. The presence analysers and the client helpers are
pure expressions in the source, so they are functions here.

Two conventions run through the model:

- A JavaScript `string | null` is an `Option<string>`. A value counts as present when it
  is `Truthy`, which means not null and not empty.
- Every `Math.round(x)` of the source is computed in exact arithmetic as
  `RoundRatio(p, q)`, the integer nearest to `p / q` with halves rounded up. The source
  rounds a double, which can differ at a .5 boundary (see `SeoUtils.CalculateSeoScore`
  under "## Left out"). The category averages are kept in integer tenths: an average of
  7.5 is 75.

The page-size and response-time analysers each have a "very large" / "very slow" branch,
and those branches sit behind the weaker test. `analyzePageSize` tests `sizeInKB > 1024`
before `sizeInKB > 2048`, and `analyzeResponseTime` tests `> 1000` before `> 2000`, so
the second branch can never run. The methods keep both branches as written. Their
contracts prove that the outcome is never "missing", and that a page over 2048 KB or a
response over 2000 ms gets the ordinary warning.

## Model

| member | source | states |
|---|---|---|
| Schema.OrNull | server/routes-old.ts:36-45 | `raw \|\| null`: the value is truthy exactly when the raw text is non-empty, and a kept value is the raw text |
| Schema.OrUndefined | server/routes-old.ts:94-103 | `value \|\| undefined`: truthiness is preserved, the result is absent or non-empty, and a value that already is absent or non-empty comes back unchanged |
| Seqs.Count | server/routes-old.ts:64-66 | `filter(x => x === v).length` is the multiplicity of `v`, at most the length |
| Seqs.Filter | client/src/components/analysis-results.tsx:48-58 | a filtered list keeps only elements of the input that satisfy the predicate, and is no longer than the input |
| Seqs.FilterIsSubsequence | client/src/components/analysis-results.tsx:48-58 | a filtered list keeps the input's order |
| Seqs.FilterKeepsAll | client/src/components/analysis-results.tsx:48-58 | a filtered list keeps every element that satisfies the predicate |
| Seqs.FilterMembership | client/src/components/analysis-results.tsx:48-58 | an element is in the filtered list exactly when it is in the input and satisfies the predicate |
| Scoring.RoundRatio | server/routes-old.ts:70-72 | `Math.round(p/q)`: the result r satisfies r − ½ ≤ p/q < r + ½ |
| Scoring.RoundRatioAtMost | server/routes-old.ts:70-72 | a ratio at most k rounds to at most k |
| Scoring.RoundRatioExact | server/routes-old.ts:70-72 | a whole ratio rounds to itself |
| Scoring.RoundRatioMonotone | server/routes-old.ts:70-72 | rounding keeps the order of ratios over one divisor |
| Scoring.WeightedScore | server/routes-old.ts:70-72 | the weighted score is at most 100, is 100 when every tag is good and 0 when none is good or a warning |
| Scoring.WeightedScoreMonotone | server/routes-old.ts:70-72 | more good or warning tags over the same total never lower the score |
| Scoring.CountsPartition | server/routes-old.ts:64-67 | the good, warning and missing tallies add up to the number of tags |
| NumberText.DecimalString | server/routes-old.ts:178 | `${n}` is a non-empty string of digits without a leading zero |
| NumberText.DecimalRoundTrip | server/routes-old.ts:178 | reading back the digits of `${n}` gives n |
| NumberText.DecimalStringInjective | server/routes-old.ts:178 | distinct latencies are written differently |
| ExtendedRoutes.StatusScore | server/routes-old.ts:195-232 | the score is 10 for good, 5 for warning and 0 for missing |
| ExtendedRoutes.CharacterCount | server/routes-old.ts:197 | `value?.length \|\| 0`: 0 when absent, the length otherwise, positive exactly when the value is truthy |
| ExtendedRoutes.AnalyzeBounded | server/routes-old.ts:195-271 | the step-by-step body of the two length analysers produces exactly the tag of the length rule |
| ExtendedRoutes.AnalyzeTitleTag | server/routes-old.ts:195-232 | `analyzeTitleTag` produces the length-rule tag with bounds 30..60 and the title advice |
| ExtendedRoutes.AnalyzeMetaDescription | server/routes-old.ts:234-271 | `analyzeMetaDescription` produces the length-rule tag with bounds 120..160 and the description advice |
| ExtendedRoutes.BoundedTagRule | server/routes-old.ts:195-271 | absent: missing, 0 points, add-advice, count 0; in bounds: good, 10, no advice; too short or too long: warning, 5, the matching advice; advice exactly when not good |
| ExtendedRoutes.TitleTagRule | server/routes-old.ts:195-232 | the title rule with its bounds 30 and 60 and its three advice strings |
| ExtendedRoutes.MetaDescriptionRule | server/routes-old.ts:234-271 | the description rule with its bounds 120 and 160 and its three advice strings |
| ExtendedRoutes.AnalyzeOgTitle | server/routes-old.ts:273-286 | present: good, 10, no advice; absent: missing, 0, the Open Graph title advice; social |
| ExtendedRoutes.AnalyzeOgDescription | server/routes-old.ts:288-301 | present: good; absent: missing with its advice; social |
| ExtendedRoutes.AnalyzeOgImage | server/routes-old.ts:303-316 | present: good; absent: missing with its advice; social |
| ExtendedRoutes.AnalyzeOgSiteName | server/routes-old.ts:318-331 | present: good; absent: only a warning (5 points) with its advice; social |
| ExtendedRoutes.AnalyzeTwitterCard | server/routes-old.ts:333-346 | present: good; absent: missing with its advice; technical |
| ExtendedRoutes.AnalyzeTwitterTitle | server/routes-old.ts:348-361 | present: good; absent: a warning with its advice; social |
| ExtendedRoutes.AnalyzeTwitterDescription | server/routes-old.ts:363-376 | present: good; absent: a warning with its advice; social |
| ExtendedRoutes.AnalyzeTwitterImage | server/routes-old.ts:378-391 | present: good; absent: a warning with its advice; social |
| ExtendedRoutes.AnalyzePageSize | server/routes-old.ts:132-158 | the step-by-step page-size analyser, with both branches, produces the page-size rule's tag |
| ExtendedRoutes.AnalyzeResponseTime | server/routes-old.ts:160-185 | the step-by-step response-time analyser, with both branches, produces the response-time rule's tag |
| ExtendedRoutes.PageSizeRule | server/routes-old.ts:132-158 | good exactly up to 1024 KB, a warning above, never missing; over 2048 KB it is still the ordinary warning |
| ExtendedRoutes.ResponseTimeRule | server/routes-old.ts:160-185 | good exactly up to 1000 ms, a warning above, never missing; the content `${ms}ms` reads back as the latency |
| ExtendedRoutes.ExtractFields | server/routes-old.ts:36-45 | the ten extracted values after `\|\| null` are each absent or non-empty |
| ExtendedRoutes.ReportedFields | server/routes-old.ts:94-103 | the report's values after `\|\| undefined` are each absent or non-empty, and values already in that form are copied unchanged |
| ExtendedRoutes.ExtractedFieldsReported | server/routes-old.ts:36-103 | the report carries back exactly the ten values the handler extracted |
| ExtendedRoutes.ExtendedTagsShape | server/routes-old.ts:48-61 | twelve tags in the handler's order, with categories content×2, social×4, technical, social×3, performance×2 |
| ExtendedRoutes.ExtendedLayoutMultiset | server/routes-old.ts:48-61 | the twelve tags' category layout holds one technical, seven social, two content and two performance entries |
| ExtendedRoutes.SignalTagsNames | server/routes-old.ts:48-58 | the ten signal tags carry the names title, description, four Open Graph and four Twitter, in that order |
| ExtendedRoutes.PresenceTagWellScored | server/routes-old.ts:273-391 | a presence tag gives advice exactly when it is not good, and its score matches its status |
| ExtendedRoutes.SignalTagsWellScored | server/routes-old.ts:48-58 | each of the ten signal tags gives advice exactly when not good, and scores 10, 5 or 0 by status |
| ExtendedRoutes.ExtendedTagsWellScored | server/routes-old.ts:48-61 | the same holds for all twelve tags |
| ExtendedRoutes.CategoryMembers | server/routes-old.ts:77-80 | `tags.filter(tag => tag.category === c)` keeps only tags of that category |
| ExtendedRoutes.CategoryMembersMultiset | server/routes-old.ts:77-80 | a category's group holds every tag of that category as often as the report does, and no other tag |
| ExtendedRoutes.SumScoresLeftFold | server/routes-old.ts:83-86 | the sum equals the left fold `reduce` computes: the sum of all but the last tag plus the last tag's score |
| ExtendedRoutes.SumScoresPermutation | server/routes-old.ts:83-86 | the summed scores do not depend on the order of the tags |
| ExtendedRoutes.SumScoresAtMost | server/routes-old.ts:83-86 | the summed scores are at most 10 per tag |
| ExtendedRoutes.CategoryTenths | server/routes-old.ts:83-86 | an empty category averages 0 (the divisor is `Math.max(n, 1)`), and an average never exceeds 10.0 |
| ExtendedRoutes.CategoryTenthsPermutation | server/routes-old.ts:77-86 | a category's average does not depend on the order of the tags |
| ExtendedRoutes.CategoryTotal | server/routes-old.ts:90 | `Math.round(sum × 2.5)` of four averages of at most 10.0 is at most 100 |
| ExtendedRoutes.CategoryScoresOf | server/routes-old.ts:82-90 | all four averages and the total stay within bounds |
| ExtendedRoutes.CategoryScoresPermutation | server/routes-old.ts:77-90 | reordering the tags changes none of the four averages nor the total |
| ExtendedRoutes.SumScoresAllTen | server/routes-old.ts:83-86 | tags that all score 10 sum to 10 per tag |
| ExtendedRoutes.CategoryTenthsPerfect | server/routes-old.ts:83-86 | a non-empty category whose every tag scores 10 averages exactly 10.0 |
| ExtendedRoutes.CategoryScoresPerfect | server/routes-old.ts:82-90 | with every tag at 10 and no empty category, every average is 10.0 and the total is 100 |
| ExtendedRoutes.CategoryMembersCount | server/routes-old.ts:77-80 | a category has as many members as its occurrences among the tags' categories |
| ExtendedRoutes.ExtendedCategorySizes | server/routes-old.ts:48-61 | one technical, seven social, two content and two performance tags, so no category is empty |
| ExtendedRoutes.SignalTagsAllGood | server/routes-old.ts:48-58 | all ten values present with both lengths in bounds makes all ten signal tags good |
| ExtendedRoutes.CountAllGood | server/routes-old.ts:64-65 | a list of only good statuses counts all good and no warnings |
| ExtendedRoutes.CountAllGoodTags | server/routes-old.ts:64-65 | tags that are all good tally as all good and no warning |
| ExtendedRoutes.ExtendedTagsAllGood | server/routes-old.ts:48-61 | a page that passes every check gets twelve good tags, each scoring 10 |
| ExtendedRoutes.PerfectPage | server/routes-old.ts:48-90 | such a page scores 100, with every category average at 10.0 and a total of 100 |
| ExtendedRoutes.AnalyzePage | server/routes-old.ts:7-114 | the report has the twelve tags, tallies that add up to 12, the weighted score (at most 100), the category scores within bounds, and the normalised values and inputs passed through |
| BasicRoutes.AnalyzeBounded | server/routes.ts:114-180 | the basic length analysers' step-by-step body equals the extended length rule, stripped of score and category |
| BasicRoutes.AnalyzeTitleTag | server/routes.ts:114-146 | the basic title tag is the extended title tag without score and category |
| BasicRoutes.AnalyzeMetaDescription | server/routes.ts:148-180 | the basic description tag is the extended one without score and category |
| BasicRoutes.AnalyzeOgTitle | server/routes.ts:182-193 | equals the extended Open Graph title tag without score and category |
| BasicRoutes.AnalyzeOgDescription | server/routes.ts:195-206 | equals the extended Open Graph description tag, stripped |
| BasicRoutes.AnalyzeOgImage | server/routes.ts:208-219 | equals the extended Open Graph image tag, stripped |
| BasicRoutes.AnalyzeOgSiteName | server/routes.ts:221-232 | equals the extended Open Graph site name tag (absent is a warning), stripped |
| BasicRoutes.AnalyzeTwitterCard | server/routes.ts:234-245 | equals the extended Twitter card tag, stripped |
| BasicRoutes.AnalyzeTwitterTitle | server/routes.ts:247-258 | equals the extended Twitter title tag (absent is a warning), stripped |
| BasicRoutes.AnalyzeTwitterDescription | server/routes.ts:260-271 | equals the extended Twitter description tag, stripped |
| BasicRoutes.AnalyzeTwitterImage | server/routes.ts:273-284 | equals the extended Twitter image tag, stripped |
| BasicRoutes.BasicTags | server/routes.ts:49-60 | the basic route builds ten tags |
| BasicRoutes.BasicTagsOrder | server/routes.ts:49-60 | the ten tags come in the order title, description, four Open Graph, four Twitter |
| BasicRoutes.StripKeepsStatuses | server/routes.ts:63-65 | dropping score and category keeps every tag's status, in order |
| BasicRoutes.BasicTallyMatchesExtended | server/routes.ts:63-65 | the basic route counts as many good, warning and missing tags as the extended route does among its ten signal tags |
| BasicRoutes.BasicTagsAdviceIffNotGood | server/routes.ts:49-60 | every basic tag gives advice exactly when it is not good |
| BasicRoutes.BasicScoreIsLinear | server/routes.ts:69-71 | over ten tags the rounded weighted score is exactly 10·good + 5·warning, a multiple of 5 |
| BasicRoutes.AnalyzePage | server/routes.ts:7-96 | the basic report has the ten tags, tallies that add up to 10, a score of 10·good + 5·warning (at most 100), and its inputs passed through |
| SeoUtils.SeoLimitsAgree | client/src/lib/seo-utils.ts:1-6 | the client's limits are ordered and are the bounds 30/60 and 120/160 the server judges lengths by |
| SeoUtils.CalculateSeoScore | client/src/lib/seo-utils.ts:14-20 | no tags gives NaN (None); otherwise the score is at most 100, is 100 when all are good, and 0 when none is good or a warning |
| SeoUtils.GoodAndWarningAtMostAll | client/src/lib/seo-utils.ts:15-17 | the good and warning tallies together never exceed the number of tags |
| SeoUtils.ScorePermutationInvariant | client/src/lib/seo-utils.ts:14-20 | reordering the tags does not change the score |
| SeoUtils.OtherStatusesEarnNothing | client/src/lib/seo-utils.ts:14-20 | any status other than "good" or "warning" earns nothing, whatever its text |
| SeoUtils.SameCounts | client/src/lib/seo-utils.ts:16-17 | lists that agree position by position on one value count it equally |
| SeoUtils.ClientScoreMatchesServer | client/src/lib/seo-utils.ts:14-20 | recomputing the score from the server's tags gives the server's weighted score |
| SeoUtils.NamedCount | client/src/lib/seo-utils.ts:16-17 | counting a status's name in the name list counts that status |
| SeoUtils.FormatAnalysisTime | client/src/lib/seo-utils.ts:22-27 | under 1000 ms the text is the digits of the time followed by "ms", and they read back as the time; otherwise seconds |
| SeoUtils.GetScoreLabel | client/src/lib/seo-utils.ts:29-34 | the label is one of Excellent, Good, Fair and Needs Work |
| SeoUtils.ScoreLabelBands | client/src/lib/seo-utils.ts:29-34 | Excellent from 80, Good from 60, Fair from 40, else Needs Work, in both directions |
| SeoUtils.ScoreLabelMonotone | client/src/lib/seo-utils.ts:29-34 | a higher score never gets a worse label |
| AnalysisResults.GetScoreColor | client/src/components/analysis-results.tsx:14-18 | the score colour is green, yellow or red |
| AnalysisResults.GetScoreLabel | client/src/components/analysis-results.tsx:20-24 | the view's label is Excellent, Good or Needs Work, with no Fair band |
| AnalysisResults.ScoreColorMatchesLabel | client/src/components/analysis-results.tsx:14-24 | green goes with Excellent (from 80), yellow with Good (60 to 79), red with Needs Work |
| AnalysisResults.HighPriority | client/src/components/analysis-results.tsx:48-50 | exactly the missing tags named title, description or Twitter card, in report order |
| AnalysisResults.MediumPriority | client/src/components/analysis-results.tsx:52-54 | exactly the warning tags, whatever their name, in report order |
| AnalysisResults.LowPriority | client/src/components/analysis-results.tsx:56-58 | exactly the other missing tags, in report order |
| AnalysisResults.PrioritiesDisjoint | client/src/components/analysis-results.tsx:48-58 | no tag is in two priority lists |
| AnalysisResults.PrioritiesPartitionNonGood | client/src/components/analysis-results.tsx:48-58 | together the three lists hold exactly the tags that are not good, with multiplicity |
| AnalysisResults.ExportRecommendations | client/src/components/analysis-results.tsx:32-34 | one exported entry (name, advice) per tag with advice, in tag order |
| AnalysisResults.ExportMatchesPriorities | client/src/components/analysis-results.tsx:32-58 | for tags that give advice exactly when not good, the export has as many entries as the three priority lists together |
| AnalysisResults.SameFilter | client/src/components/analysis-results.tsx:32-58 | two predicates that agree on the tags filter them alike |
| PreviewPanels.TruncateText | client/src/components/preview-panels.tsx:9-12 | text that fits is unchanged; longer text becomes its first maxLength characters followed by "..." |
| PreviewPanels.TruncateBound | client/src/components/preview-panels.tsx:9-12 | a truncated line is at most maxLength + 3 long, and never longer than the input except by the "..." |
| PreviewPanels.TruncateIdempotent | client/src/components/preview-panels.tsx:9-12 | truncating twice at one limit is truncating once, and a text that fits comes back whole |
| PreviewPanels.FirstTruthy | client/src/components/preview-panels.tsx:89 | `a \|\| b \|\| fallback` is the first truthy candidate, else the fallback |
| PreviewPanels.FirstTruthyNonEmpty | client/src/components/preview-panels.tsx:89 | a chain ending in a non-empty fallback never yields an empty string |
| PreviewPanels.TotalPreviews | client/src/components/preview-panels.tsx:24-27 | 1 to 3 previews: 1 exactly when there are no Open Graph and no Twitter values, 3 exactly when there are both |
| PreviewPanels.GridColumns | client/src/components/preview-panels.tsx:30 | two or three columns for two or three previews, none otherwise |
| PreviewPanels.GoogleTitle | client/src/components/preview-panels.tsx:51 | the title, or "No title found" |
| PreviewPanels.GoogleDescription | client/src/components/preview-panels.tsx:55 | the meta description cut at 120, or "No meta description found"; at most 123 characters |
| PreviewPanels.FacebookSiteName | client/src/components/preview-panels.tsx:86 | the Open Graph site name, else the upper-case host name |
| PreviewPanels.FacebookTitle | client/src/components/preview-panels.tsx:89 | Open Graph title, else title, else "No title found" |
| PreviewPanels.FacebookDescription | client/src/components/preview-panels.tsx:92 | Open Graph description, else meta description, else "No description found", cut at 100 |
| PreviewPanels.TwitterImage | client/src/components/preview-panels.tsx:113-115 | the Twitter image, else the Open Graph image; an image is shown exactly when either is truthy |
| PreviewPanels.TwitterTitle | client/src/components/preview-panels.tsx:125 | Twitter title, else Open Graph title, else the Facebook headline's own fallback |
| PreviewPanels.TwitterDescription | client/src/components/preview-panels.tsx:128 | Twitter description cut at 100, else exactly the Facebook preview's text |
| PreviewPanels.PreviewTextsNonEmpty | client/src/components/preview-panels.tsx:51-128 | no headline or text of any preview is empty, and the social texts stay within 103 characters |
| SeoTagItem.GetStatusColor | client/src/components/seo-tag-item.tsx:24-35 | green, yellow, red for good, warning, missing, and grey for anything else, in both directions |
| SeoTagItem.GetStatusBadge | client/src/components/seo-tag-item.tsx:37-48 | a Good, Warning or Missing badge for the three statuses, and no badge otherwise |
| SeoTagItem.StatusDisplayDistinct | client/src/components/seo-tag-item.tsx:24-48 | every real status gets its own colour and a badge, never the grey fallback |
| SeoTagItem.CardBorder | client/src/components/seo-tag-item.tsx:63 | a red border exactly for a missing tag |
| SeoTagItem.CharacterCountColor | client/src/components/seo-tag-item.tsx:88 | the count is green, yellow or red by status |
| SeoTagItem.ProgressPercentage | client/src/components/seo-tag-item.tsx:50-53 | the percentage is within 0..100: 0 without a count or a limit, 100 once the count reaches the limit, and count / limit × 100 below it |
| SeoTagItem.GetProgressColor | client/src/components/seo-tag-item.tsx:55-60 | green from 50 to 100, red above 100, yellow below 50 |
| SeoTagItem.ProgressNeverRed | client/src/components/seo-tag-item.tsx:50-60 | the capped bar is never red, and is green exactly when the count is at least half the limit |
| SeoTagItem.TitleProgressColor | client/src/components/seo-tag-item.tsx:50-60 | getProgressColor gives green for a good or too-long title, and yellow for a too-short one |
| SeoTagItem.DescriptionProgressColor | client/src/components/seo-tag-item.tsx:50-60 | getProgressColor gives green for a good description |
| SeoTagItem.RecommendationStyle | client/src/components/seo-tag-item.tsx:101-106 | the advice box appears exactly for truthy advice, red for a missing tag and yellow otherwise |
| SeoTagItem.PresenceAdviceShown | client/src/components/seo-tag-item.tsx:85-106 | a presence tag shows non-empty advice exactly when not good, and shows no character count |
| SeoTagItem.BoundedAdviceShown | client/src/components/seo-tag-item.tsx:85-106 | a length tag shows non-empty advice exactly when not good, and always shows its character count |
| SeoTagItem.SignalTagsDisplay | client/src/components/seo-tag-item.tsx:85-106 | of the ten signal tags, only the first two show a count, and each shows advice exactly when not good |
| SeoTagItem.AdviceBox | client/src/components/seo-tag-item.tsx:101-106 | a tag with non-empty advice exactly when not good gets the box exactly then, red when missing |
| SeoTagItem.ExtendedTagsDisplay | client/src/components/seo-tag-item.tsx:85-106 | over the twelve extended tags, only title and description show a count, and the advice box appears exactly for tags that are not good, red for the missing ones |

## Left out

- Fetching the page, the request's URL validation (zod), HTML parsing (cheerio) and the
  clock (`Date.now`). The ten extracted values, the page text's length (`html.length`), the fetch
  latency, the formatted page size and the analysis time are inputs.
- The HTTP error responses (400 and 500). They are produced only by the fetch, the
  parser and the validation, which are not modelled.
- `formatBytes` is not modelled: it formats with floating point and `toFixed`. The
  page-size tag takes the formatted string as an input. Its `sizes` array has four units,
  so an input of 1024⁴ units or more would read `sizes[4]` and print "undefined".
- The second copies of `analyzePageSize`, `analyzeResponseTime` and `formatBytes` at
  server/routes-old.ts:393-454 are identical to the first copies, so one model covers both.
- ExtendedRoutes.AnalyzePage: floating point is not modelled. The source divides in
  floating point, multiplies the category averages (tenths) by 2.5 and rounds. The model
  computes the same roundings exactly in integers, and the category scores are integer
  tenths, not decimals.
- SeoUtils.CalculateSeoScore: the client score is exact rational rounding of
  `(good + warning / 2) / total * 100`. The source evaluates that in doubles first, and the
  double can land just below a .5 boundary the exact value sits on. For 20 statuses with 3
  good and 17 warnings the double is 57.49999999999999, so JavaScript gives 57 where the
  model gives 58. For the 10 and 12 tags the server reports the two agree, so
  `ClientScoreMatchesServer` is unaffected. For other lengths the model can round up
  where the source rounds down.
- SeoTagItem.ProgressPercentage: uses exact reals, where the source uses floating-point
  numbers.
- ExtendedRoutes.AnalyzePageSize: the "page size" it judges is `html.length`, the number
  of UTF-16 code units of the decoded text, not the number of bytes sent. A page with
  non-ASCII text is judged on a smaller number than its size in bytes. The model takes that
  length as its input, named `htmlLength`, and does not relate it to a byte count.
- String lengths are counted in characters. JavaScript counts UTF-16 code units, so a
  value with characters outside the Basic Multilingual Plane would be longer in the
  source.
- SeoUtils.FormatAnalysisTime: the seconds branch (`(ms / 1000).toFixed(1)`) is returned
  as the millisecond value, not rendered. It is floating-point formatting.
- URL parsing in the client (`getDisplayUrl`, `getDomainFromUrl`, the Facebook preview's
  `new URL(url).hostname`). The upper-case host name is an input of
  PreviewPanels.FacebookSiteName.
- `SEO_PRIORITIES` in client/src/lib/seo-utils.ts: the results view never reads it, and
  writes its own list of critical tag names.
- `getStatusIcon` returns JSX icons, so it is not modelled. The rest of the React
  rendering is also out: the JSON download of the export, the page shell, the URL input
  and the category summary cards.
- `getProgressColor` is modelled but the card never applies it to the rendered bar. It is
  kept because it states the intended colouring of the length bar.
