/**
 * The search and social previews (client/src/components/preview-panels.tsx): which
 * previews are shown, and the text each one falls back to when a tag is absent.
 */
module PreviewPanels {
  import opened Schema

  /** `truncateText`: text longer than `maxLength` is cut there and marked with "...". */
  function TruncateText(text: string, maxLength: nat): (r: string)
    ensures |text| <= maxLength ==> r == text
    ensures |text| > maxLength ==>
      && |r| == maxLength + 3
      && r[..maxLength] == text[..maxLength]
      && r[maxLength..] == "..."
  {
    if |text| <= maxLength then text
    else
      assert (text[..maxLength] + "...")[..maxLength] == text[..maxLength];
      text[..maxLength] + "..."
  }

  /** A preview line never exceeds the limit by more than the three dots. */
  lemma TruncateBound(text: string, maxLength: nat)
    ensures |TruncateText(text, maxLength)| <= maxLength + 3
    ensures |TruncateText(text, maxLength)| <= |text| || |text| == maxLength + 1 || |text| == maxLength + 2
  {
  }

  /**
   * Truncating twice at the same limit is truncating once: a cut text keeps its first
   * `maxLength` characters and its dots, and a text that fits comes back whole.
   */
  lemma TruncateIdempotent(text: string, maxLength: nat)
    ensures TruncateText(TruncateText(text, maxLength), maxLength) == TruncateText(text, maxLength)
    ensures |text| <= maxLength ==> TruncateText(TruncateText(text, maxLength), maxLength) == text
  {
    var once := TruncateText(text, maxLength);
    if |text| > maxLength {
      assert once[..maxLength] + once[maxLength..] == once;
    }
  }

  /** `a || b || ... || fallback` over nullable strings: the first truthy candidate, else the fallback. */
  function FirstTruthy(candidates: seq<Option<string>>, fallback: string): (r: string)
    ensures forall i :: 0 <= i < |candidates| && Truthy(candidates[i]) ==>
      (forall j :: 0 <= j < i ==> !Truthy(candidates[j])) ==> r == candidates[i].value
    ensures (forall i :: 0 <= i < |candidates| ==> !Truthy(candidates[i])) ==> r == fallback
  {
    if candidates == [] then fallback
    else if Truthy(candidates[0]) then candidates[0].value
    else
      var r := FirstTruthy(candidates[1..], fallback);
      assert forall i :: 1 <= i < |candidates| ==> candidates[i] == candidates[1..][i - 1];
      r
  }

  /** A fallback chain ending in a non-empty default never renders an empty line. */
  lemma {:induction false} FirstTruthyNonEmpty(candidates: seq<Option<string>>, fallback: string)
    requires fallback != ""
    ensures FirstTruthy(candidates, fallback) != ""
  {
    if candidates != [] && !Truthy(candidates[0]) {
      FirstTruthyNonEmpty(candidates[1..], fallback);
    }
  }

  /** `hasFacebookTags`: any of the four Open Graph fields is truthy. */
  predicate HasFacebookTags(f: MetaFields) {
    Truthy(f.ogTitle) || Truthy(f.ogDescription) || Truthy(f.ogImage) || Truthy(f.ogSiteName)
  }

  /** `hasTwitterTags`: any of the four Twitter fields is truthy. */
  predicate HasTwitterTags(f: MetaFields) {
    Truthy(f.twitterCard) || Truthy(f.twitterTitle) || Truthy(f.twitterDescription) || Truthy(f.twitterImage)
  }

  /** `totalPreviews`: the Google preview is always shown, the other two when their tags exist. */
  function TotalPreviews(f: MetaFields): (n: nat)
    ensures 1 <= n <= 3
    ensures n == 1 <==> !HasFacebookTags(f) && !HasTwitterTags(f)
    ensures n == 3 <==> HasFacebookTags(f) && HasTwitterTags(f)
  {
    1 + (if HasFacebookTags(f) then 1 else 0) + (if HasTwitterTags(f) then 1 else 0)
  }

  /** The grid's column class for the number of previews. */
  function GridColumns(totalPreviews: nat): (c: string)
    ensures totalPreviews == 2 <==> c == "lg:grid-cols-2"
    ensures totalPreviews == 3 <==> c == "lg:grid-cols-3"
    ensures totalPreviews !in {2, 3} <==> c == ""
  {
    if totalPreviews == 2 then "lg:grid-cols-2"
    else if totalPreviews == 3 then "lg:grid-cols-3"
    else ""
  }

  /** The Google preview's headline: the title, or "No title found". */
  function GoogleTitle(f: MetaFields): (r: string)
    ensures Truthy(f.title) ==> r == f.title.value
    ensures !Truthy(f.title) ==> r == "No title found"
  {
    FirstTruthy([f.title], "No title found")
  }

  /** The Google preview's snippet: the meta description cut at 120 characters, or a notice. */
  function GoogleDescription(f: MetaFields): (r: string)
    ensures Truthy(f.metaDescription) ==> r == TruncateText(f.metaDescription.value, 120)
    ensures !Truthy(f.metaDescription) ==> r == "No meta description found"
    ensures |r| <= 123
  {
    if Truthy(f.metaDescription) then TruncateText(f.metaDescription.value, 120)
    else "No meta description found"
  }

  /**
   * The Facebook preview's site line: the Open Graph site name, else the page's host name
   * in upper case (`hostnameUpper`, since URL parsing is not part of this model).
   */
  function FacebookSiteName(f: MetaFields, hostnameUpper: string): (r: string)
    ensures Truthy(f.ogSiteName) ==> r == f.ogSiteName.value
    ensures !Truthy(f.ogSiteName) ==> r == hostnameUpper
  {
    FirstTruthy([f.ogSiteName], hostnameUpper)
  }

  /** The Facebook preview's headline: Open Graph title, else the page title, else a notice. */
  function FacebookTitle(f: MetaFields): (r: string)
    ensures Truthy(f.ogTitle) ==> r == f.ogTitle.value
    ensures !Truthy(f.ogTitle) && Truthy(f.title) ==> r == f.title.value
    ensures !Truthy(f.ogTitle) && !Truthy(f.title) ==> r == "No title found"
  {
    var candidates := [f.ogTitle, f.title];
    assert candidates[1] == f.title;
    FirstTruthy(candidates, "No title found")
  }

  /** The Facebook preview's text: Open Graph description, else meta description, else a notice, cut at 100. */
  function FacebookDescription(f: MetaFields): (r: string)
    ensures Truthy(f.ogDescription) ==> r == TruncateText(f.ogDescription.value, 100)
    ensures !Truthy(f.ogDescription) && Truthy(f.metaDescription) ==> r == TruncateText(f.metaDescription.value, 100)
    ensures !Truthy(f.ogDescription) && !Truthy(f.metaDescription) ==> r == "No description found"
  {
    var candidates := [f.ogDescription, f.metaDescription];
    assert candidates[1] == f.metaDescription;
    TruncateText(FirstTruthy(candidates, "No description found"), 100)
  }

  /** The Twitter preview's image: the Twitter image, else the Open Graph image, else none. */
  function TwitterImage(f: MetaFields): (r: Option<string>)
    ensures Truthy(f.twitterImage) ==> r == f.twitterImage
    ensures !Truthy(f.twitterImage) && Truthy(f.ogImage) ==> r == f.ogImage
    ensures r.Some? <==> Truthy(f.twitterImage) || Truthy(f.ogImage)
  {
    if Truthy(f.twitterImage) then f.twitterImage
    else if Truthy(f.ogImage) then f.ogImage
    else None
  }

  /** The Twitter preview's headline: Twitter title, else Open Graph title, else page title, else a notice. */
  function TwitterTitle(f: MetaFields): (r: string)
    ensures Truthy(f.twitterTitle) ==> r == f.twitterTitle.value
    ensures !Truthy(f.twitterTitle) && Truthy(f.ogTitle) ==> r == f.ogTitle.value
    ensures !Truthy(f.twitterTitle) && !Truthy(f.ogTitle) ==> r == FacebookTitle(f)
  {
    var candidates := [f.twitterTitle, f.ogTitle, f.title];
    assert candidates[1] == f.ogTitle && candidates[2] == f.title;
    FirstTruthy(candidates, "No title found")
  }

  /**
   * The Twitter preview's text: Twitter description, else the Facebook preview's chain,
   * cut at 100.
   */
  function TwitterDescription(f: MetaFields): (r: string)
    ensures Truthy(f.twitterDescription) ==> r == TruncateText(f.twitterDescription.value, 100)
    ensures !Truthy(f.twitterDescription) ==> r == FacebookDescription(f)
  {
    var candidates := [f.twitterDescription, f.ogDescription, f.metaDescription];
    assert candidates[1] == f.ogDescription && candidates[2] == f.metaDescription;
    TruncateText(FirstTruthy(candidates, "No description found"), 100)
  }

  /** No preview ever shows an empty headline or text, and the texts stay within 103 characters. */
  lemma PreviewTextsNonEmpty(f: MetaFields)
    ensures GoogleTitle(f) != "" && FacebookTitle(f) != "" && TwitterTitle(f) != ""
    ensures GoogleDescription(f) != "" && FacebookDescription(f) != "" && TwitterDescription(f) != ""
    ensures |FacebookDescription(f)| <= 103 && |TwitterDescription(f)| <= 103
  {
    FirstTruthyNonEmpty([f.ogDescription, f.metaDescription], "No description found");
    FirstTruthyNonEmpty([f.twitterDescription, f.ogDescription, f.metaDescription], "No description found");
  }
}
