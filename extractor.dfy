/** `Webpage_scraper.parse_page`: the record built from a fetched page.
    The HTML parse itself belongs to BeautifulSoup; what it finds in the
    page is the `SoupView` given here. */
module Extractor {
  import opened PyBuiltins

  const MaxContentChars: nat := 1000
  const NoTitle: string := "No title found for this url"
  const NoDescription: string := "No description found for this url"
  const NoContent: string := "No content found on this url"

  /** What the parser finds. `paragraphs` is the `get_text(strip=True)` of
      every `<p>`, in document order, taken before the `script`/`style`/...
      tags are removed. `title` and `description` are read only after that
      removal, so they are what the first `<title>` and the first description
      `<meta>` hold once it is done. Reading a tag that the removal destroyed
      may itself fail; the parser's `Threw` stands for that failure too.
      `title` is that tag's text (None when there is none);
      `description` is the tag's `content` attribute (None when no tag was
      found, `Some(None)` when the tag has no `content`). */
  datatype SoupView = SoupView(
    title: Option<string>,
    description: Option<Option<string>>,
    paragraphs: seq<string>)

  /** The dictionary `parse_page` returns. */
  datatype Record = Record(url: string, title: string, description: string, content: string)

  /** The paragraph texts joined by single spaces. */
  function JoinedParagraphs(paragraphs: seq<string>): string {
    Join(" ", paragraphs)
  }

  /** `if len(para_text) > 1000: para_text = para_text[:1000]` */
  function CutToLimit(text: string): (r: string)
    ensures |r| <= MaxContentChars
    ensures r <= text
    ensures r == text <==> |text| <= MaxContentChars
    ensures |text| > MaxContentChars ==> |r| == MaxContentChars
  {
    if |text| > MaxContentChars then text[..MaxContentChars] else text
  }

  function BuildRecord(url: string, view: SoupView): (d: Record)
    ensures d.url == url
    ensures view.title.None? ==> d.title == NoTitle
    ensures view.title.Some? ==> d.title == Strip(view.title.value)
    ensures view.description.None? ==> d.description == NoDescription
    ensures view.description == Some(None) ==> d.description == ""
    ensures view.description.Some? && view.description.value.Some? ==>
      d.description == Strip(view.description.value.value)
    ensures JoinedParagraphs(view.paragraphs) == "" ==> d.content == NoContent
    ensures JoinedParagraphs(view.paragraphs) != "" ==>
      d.content <= JoinedParagraphs(view.paragraphs)
      && |d.content| == Min(|JoinedParagraphs(view.paragraphs)|, MaxContentChars)
  {
    Record(url, TitleField(view.title), DescriptionField(view.description),
           ContentField(view.paragraphs))
  }

  /** `title.text.strip() if title else "No title found for this url"` */
  function TitleField(title: Option<string>): (r: string)
    ensures title.None? ==> r == NoTitle
    ensures title.Some? ==> r == Strip(title.value)
  {
    if title.Some? then Strip(title.value) else NoTitle
  }

  /** `desc.get("content", "").strip() if desc else "No description found for this url"` */
  function DescriptionField(desc: Option<Option<string>>): (r: string)
    ensures desc.None? ==> r == NoDescription
    ensures desc == Some(None) ==> r == ""
    ensures desc.Some? && desc.value.Some? ==> r == Strip(desc.value.value)
  {
    if desc.Some? then Strip(GetOr(desc.value, "")) else NoDescription
  }

  /** The paragraphs joined, cut to the limit, and replaced by the sentinel
      when nothing is left. */
  function ContentField(paragraphs: seq<string>): (r: string)
    ensures JoinedParagraphs(paragraphs) == "" ==> r == NoContent
    ensures JoinedParagraphs(paragraphs) != "" ==>
      r <= JoinedParagraphs(paragraphs)
      && |r| == Min(|JoinedParagraphs(paragraphs)|, MaxContentChars)
  {
    var paraText := CutToLimit(JoinedParagraphs(paragraphs));
    if Truthy(paraText) then paraText else NoContent
  }

  function Min(a: nat, b: nat): nat {
    if a < b then a else b
  }

  /** `tag.get("content", "")` */
  function GetOr(attr: Option<string>, default: string): string {
    if attr.Some? then attr.value else default
  }

  /** The record's content is never empty and never longer than 1000
      characters, whatever the page holds. */
  lemma ContentBounded(url: string, view: SoupView)
    ensures 0 < |BuildRecord(url, view).content| <= MaxContentChars
  {
    assert |NoContent| == 28;
  }

  /** The no-content sentinel appears only for a page with no `<p>`, or with a
      single `<p>` whose text is empty (or for a page whose paragraphs begin
      with the sentinel's own words). */
  lemma NoContentOnlyWithoutParagraphText(url: string, view: SoupView)
    ensures view.paragraphs == [] || view.paragraphs == [""] ==> BuildRecord(url, view).content == NoContent
    ensures BuildRecord(url, view).content == NoContent ==>
      view.paragraphs == [] || view.paragraphs == [""] || NoContent <= JoinedParagraphs(view.paragraphs)
  {
    JoinEmptyIff(" ", view.paragraphs);
  }

  /** Two or more paragraphs whose text is empty (whitespace-only `<p>`
      elements after `get_text(strip=True)`) do not give the sentinel but a
      content of spaces, one per gap up to the 1000-character limit. */
  lemma EmptyParagraphsGiveSpaces(url: string, view: SoupView)
    requires |view.paragraphs| >= 2
    requires forall i :: 0 <= i < |view.paragraphs| ==> view.paragraphs[i] == ""
    ensures BuildRecord(url, view).content != NoContent
    ensures |BuildRecord(url, view).content| == Min(|view.paragraphs| - 1, MaxContentChars)
    ensures forall k :: 0 <= k < |BuildRecord(url, view).content| ==> BuildRecord(url, view).content[k] == ' '
  {
    JoinOfEmpties(view.paragraphs);
    assert NoContent[0] != ' ';
  }

  /** Paragraph text longer than 1000 characters is cut to exactly its first
      1000 characters, not at a word boundary. */
  lemma LongTextCut(url: string, view: SoupView)
    requires |JoinedParagraphs(view.paragraphs)| > MaxContentChars
    ensures BuildRecord(url, view).content == JoinedParagraphs(view.paragraphs)[..MaxContentChars]
  {
  }

  /** A found description tag never yields the sentinel unless its stripped
      `content` is the sentinel's own text: a tag without `content`, or with
      a blank one, gives the empty string. */
  lemma FoundDescriptionIsNotSentinel(url: string, view: SoupView)
    requires view.description.Some?
    ensures BuildRecord(url, view).description == NoDescription ==>
      view.description.value.Some? && Strip(view.description.value.value) == NoDescription
    ensures view.description.value.Some? && AllSpace(view.description.value.value) ==>
      BuildRecord(url, view).description == ""
  {
    if view.description.value.Some? && AllSpace(view.description.value.value) {
      var c := view.description.value.value;
      assert c + [] + [] == c;
      StripUnique(c, [], []);
    }
  }

  /** A found title keeps its inner text and loses only surrounding
      whitespace. */
  lemma FoundTitleIsTrimmed(url: string, view: SoupView, before: string, t: string, after: string)
    requires view.title == Some(before + t + after)
    requires AllSpace(before) && AllSpace(after) && Unpadded(t)
    ensures BuildRecord(url, view).title == t
  {
    StripUnique(before, t, after);
  }

  /** A page with no title, no description tag and no paragraphs gets all
      three sentinels. */
  lemma EmptyPageSentinels(url: string)
    ensures BuildRecord(url, SoupView(None, None, [])) == Record(url, NoTitle, NoDescription, NoContent)
  {
  }
}
