/** src/lib/tabContent.ts: the shape of a tab's content as the broker answers
    `GET_TAB_CONTENT`, and its rendering into a prompt section. */
module TabContentLib {
  import opened Wrappers

  /** `{ content, url, title }`, each `string | null`. */
  datatype TabContent = TabContent(content: Option<string>, url: Option<string>, title: Option<string>)

  /** The fixed text of the template literal, split at its three holes. */
  const ContextHeader: string := "\n\n[CURRENT PAGE CONTEXT]\nURL: "
  const TitleLabel: string := "\nTitle: "
  const ContentLabel: string := "\nContent: "
  const ContextFooter: string := "\n[END CONTEXT]\n\nPlease use the above page content as context when answering my question. The content comes from the page I'm currently viewing.\n\n"

  /** Number of fixed characters around the three holes. */
  const FixedLength: nat := |ContextHeader| + |TitleLabel| + |ContentLabel| + |ContextFooter|

  /** `${v}` in a template literal: `null` renders as the text "null". */
  function Interpolated(v: Option<string>): string {
    match v
    case Some(s) => s
    case None => "null"
  }

  /** `formatTabContentForPrompt`: nothing for a null or empty content,
      otherwise the URL, title and content between the context markers. */
  function FormatTabContentForPrompt(tab: TabContent): (r: string)
    ensures (tab.content.None? || tab.content == Some("")) <==> r == ""
  {
    if tab.content.None? || tab.content.value == "" then ""
    else ContextHeader + Interpolated(tab.url) + TitleLabel + Interpolated(tab.title)
         + ContentLabel + tab.content.value + ContextFooter
  }

  /** Where the content starts in the rendered prompt. */
  function ContentOffset(tab: TabContent): nat {
    |ContextHeader| + |Interpolated(tab.url)| + |TitleLabel| + |Interpolated(tab.title)| + |ContentLabel|
  }

  /** The prompt section opens with the header and the URL, then the title,
      then the content verbatim, and closes with the footer; its length is a
      constant plus the lengths of the three values. */
  lemma FormatLayout(tab: TabContent)
    requires tab.content.Some? && tab.content.value != ""
    ensures var r := FormatTabContentForPrompt(tab);
      var u, t, c := Interpolated(tab.url), Interpolated(tab.title), tab.content.value;
      && |r| == FixedLength + |u| + |t| + |c|
      && r[..|ContextHeader|] == ContextHeader
      && r[|ContextHeader|..|ContextHeader| + |u|] == u
      && r[|ContextHeader| + |u|..|ContextHeader| + |u| + |TitleLabel|] == TitleLabel
      && r[|ContextHeader| + |u| + |TitleLabel|..|ContextHeader| + |u| + |TitleLabel| + |t|] == t
      && r[ContentOffset(tab) - |ContentLabel|..ContentOffset(tab)] == ContentLabel
      && r[ContentOffset(tab)..ContentOffset(tab) + |c|] == c
      && r[|r| - |ContextFooter|..] == ContextFooter
  {
    FormatHead(tab);
    FormatTail(tab);
  }

  /** The header, the URL, the title label and the title, in that order. */
  lemma FormatHead(tab: TabContent)
    requires tab.content.Some? && tab.content.value != ""
    ensures var r := FormatTabContentForPrompt(tab);
      var u, t := Interpolated(tab.url), Interpolated(tab.title);
      && |r| >= |ContextHeader| + |u| + |TitleLabel| + |t|
      && r[..|ContextHeader|] == ContextHeader
      && r[|ContextHeader|..|ContextHeader| + |u|] == u
      && r[|ContextHeader| + |u|..|ContextHeader| + |u| + |TitleLabel|] == TitleLabel
      && r[|ContextHeader| + |u| + |TitleLabel|..|ContextHeader| + |u| + |TitleLabel| + |t|] == t
  {
    var u, t, c := Interpolated(tab.url), Interpolated(tab.title), tab.content.value;
    Pieces(ContextHeader, u, TitleLabel, t, ContentLabel, c, ContextFooter);
  }

  /** The content label, the content and the footer close the section, and
      the length adds up. */
  lemma FormatTail(tab: TabContent)
    requires tab.content.Some? && tab.content.value != ""
    ensures var r := FormatTabContentForPrompt(tab);
      var u, t, c := Interpolated(tab.url), Interpolated(tab.title), tab.content.value;
      && |r| == FixedLength + |u| + |t| + |c|
      && r[ContentOffset(tab) - |ContentLabel|..ContentOffset(tab)] == ContentLabel
      && r[ContentOffset(tab)..ContentOffset(tab) + |c|] == c
      && r[|r| - |ContextFooter|..] == ContextFooter
  {
    var u, t, c := Interpolated(tab.url), Interpolated(tab.title), tab.content.value;
    Pieces(ContextHeader, u, TitleLabel, t, ContentLabel, c, ContextFooter);
  }

  /** Where each of seven consecutive pieces sits in their concatenation. */
  lemma Pieces(a: string, b: string, c: string, d: string, e: string, f: string, g: string)
    ensures var r := a + b + c + d + e + f + g;
      var i1, i2, i3 := |a|, |a| + |b|, |a| + |b| + |c|;
      var i4, i5, i6 := i3 + |d|, i3 + |d| + |e|, i3 + |d| + |e| + |f|;
      && |r| == i6 + |g|
      && r[..i1] == a && r[i1..i2] == b && r[i2..i3] == c && r[i3..i4] == d
      && r[i4..i5] == e && r[i5..i6] == f && r[i6..] == g
  {
    var ab := a + b;
    var abc := ab + c;
    var abcd := abc + d;
    var abcde := abcd + e;
    var abcdef := abcde + f;
    var r := abcdef + g;
    assert r[..|abcdef|] == abcdef;
    assert abcdef[..|abcde|] == abcde;
    assert abcde[..|abcd|] == abcd;
    assert abcd[..|abc|] == abc;
    assert abc[..|ab|] == ab;
    assert r[..|a|] == ab[..|a|];
    assert r[|a|..|ab|] == ab[|a|..];
    assert r[|ab|..|abc|] == abc[|ab|..];
    assert r[|abc|..|abcd|] == abcd[|abc|..];
    assert r[|abcd|..|abcde|] == abcde[|abcd|..];
    assert r[|abcde|..|abcdef|] == abcdef[|abcde|..];
  }

  /** The template's fixed text is 193 characters long. */
  lemma FixedLengthValue()
    ensures FixedLength == 193
  {
  }

  /** A null URL or title is rendered as the literal text "null". */
  lemma NullRendersAsText(tab: TabContent)
    requires tab.content.Some? && tab.content.value != ""
    ensures tab.url.None? ==> FormatTabContentForPrompt(tab)[|ContextHeader|..|ContextHeader| + 4] == "null"
    ensures var titleAt := |ContextHeader| + |Interpolated(tab.url)| + |TitleLabel|;
      tab.title.None? ==> FormatTabContentForPrompt(tab)[titleAt..titleAt + 4] == "null"
  {
    FormatHead(tab);
  }
}
