/** The routine the broker injects into a tab to read its main text
    (the `func` passed to `chrome.scripting.executeScript` in src/background.ts).
    The DOM is abstracted: a page is what `document.querySelector` answers for
    each selector, the body element, `location.href` and `document.title`; an
    element is its `textContent` and the text of its clone once scripts, styles
    and embedded content have been removed. */
module Extraction {
  import opened Text

  /** An element as the routine sees it: the `textContent` used to judge it, and
      the `innerText` and `textContent` of its clone with script, style,
      noscript, iframe, embed and object elements removed. */
  datatype Element = Element(textContent: string, cloneInnerText: string, cloneTextContent: string)

  /** A page: `select[s]` is what `document.querySelector(s)` returns (absent
      for `null`). */
  datatype Page = Page(select: map<string, Element>, body: Element, href: string, title: string)

  /** What the routine returns to the broker. */
  datatype Extracted = Extracted(content: string, url: string, title: string)

  /** The selectors tried, in order of preference. */
  const ContentSelectors: seq<string> := ["article", "main", "[role=\"main\"]", "body"]

  /** Longest text kept before the truncation marker is appended. */
  const MaxContentLength: nat := 8000
  const TruncationMarker: string := "..."

  /** An element qualifies when its trimmed `textContent` is longer than 100
      characters. */
  predicate Qualifies(e: Element) {
    e.textContent != "" && |Trim(e.textContent)| > 100
  }

  predicate SelectorQualifies(page: Page, j: nat)
    requires j < |ContentSelectors|
  {
    ContentSelectors[j] in page.select && Qualifies(page.select[ContentSelectors[j]])
  }

  /** Index of the first selector at or after `i` whose element qualifies, or
      `|ContentSelectors|` when there is none. */
  function FirstQualifying(page: Page, i: nat): (k: nat)
    requires i <= |ContentSelectors|
    ensures i <= k <= |ContentSelectors|
    ensures forall j :: i <= j < k ==> !SelectorQualifies(page, j)
    ensures k < |ContentSelectors| ==> SelectorQualifies(page, k)
    decreases |ContentSelectors| - i
  {
    if i == |ContentSelectors| || SelectorQualifies(page, i) then i else FirstQualifying(page, i + 1)
  }

  /** A qualifying selector with none qualifying before it, from `i` on, is
      the one `FirstQualifying` finds. */
  lemma {:induction false} FirstQualifyingAt(page: Page, i: nat, k: nat)
    requires i <= k < |ContentSelectors| && SelectorQualifies(page, k)
    requires forall j :: i <= j < k ==> !SelectorQualifies(page, j)
    ensures FirstQualifying(page, i) == k
    decreases k - i
  {
    if i < k {
      FirstQualifyingAt(page, i + 1, k);
    }
  }

  /** The element whose text is extracted: that of the first qualifying
      selector, else `document.body`. */
  function ChosenElement(page: Page): Element {
    var k := FirstQualifying(page, 0);
    if k < |ContentSelectors| then page.select[ContentSelectors[k]] else page.body
  }

  /** `innerText || textContent || ''` of the cleaned clone. */
  function CloneText(e: Element): string {
    if e.cloneInnerText != "" then e.cloneInnerText else e.cloneTextContent
  }

  // ----- the text clean-up -------------------------------------------------

  /** `replace(/\s+/g, ' ')`: every maximal run of whitespace becomes one space. */
  function CollapseSpaces(s: string): (r: string)
    ensures s == [] <==> r == []
    ensures s != [] && IsSpace(s[0]) ==> r[0] == ' '
    ensures s != [] && !IsSpace(s[0]) ==> r[0] == s[0]
    decreases |s|
  {
    if s == [] then []
    else if IsSpace(s[0]) then [' '] + CollapseSpaces(TrimStart(s[1..]))
    else [s[0]] + CollapseSpaces(s[1..])
  }

  /** Whitespace at `i` and at `i + 1`. */
  predicate SpacePair(s: string, i: nat)
    requires i + 1 < |s|
  {
    IsSpace(s[i]) && IsSpace(s[i + 1])
  }

  /** No whitespace other than plain spaces, and never two in a row. */
  predicate WellSpaced(s: string) {
    && (forall i :: 0 <= i < |s| && IsSpace(s[i]) ==> s[i] == ' ')
    && (forall i: nat :: i + 1 < |s| ==> !SpacePair(s, i))
  }

  /** The characters of `s` that are not whitespace, in order. */
  function NonSpace(s: string): string {
    if s == [] then [] else (if IsSpace(s[0]) then [] else [s[0]]) + NonSpace(s[1..])
  }

  /** Greatest index in `[lo, hi)` holding a newline, if any. */
  function LastNewline(s: string, lo: nat, hi: nat): (r: int)
    requires lo <= hi <= |s|
    ensures r == -1 || (lo <= r < hi && s[r] == '\n')
    ensures r == -1 ==> forall j :: lo <= j < hi ==> s[j] != '\n'
    decreases hi - lo
  {
    if lo == hi then -1 else if s[hi - 1] == '\n' then hi - 1 else LastNewline(s, lo, hi - 1)
  }

  /** `replace(/\n\s*\n/g, '\n')`. At a newline the greedy `\s*` takes the
      whole whitespace run after it and gives back characters until a newline
      follows, so a match exists exactly when that run holds a newline, and it
      ends at the last one. */
  function RemoveEmptyLines(s: string): string
    decreases |s|
  {
    if s == [] then []
    else
      var runEnd := |s| - |TrimStart(s[1..])|;
      var last := LastNewline(s, 1, runEnd);
      if s[0] == '\n' && last != -1 then "\n" + RemoveEmptyLines(s[last + 1..])
      else [s[0]] + RemoveEmptyLines(s[1..])
  }

  /** `if (text.length > 8000) text = text.substring(0, 8000) + '...'`. */
  function Truncate(s: string): (r: string)
    ensures |s| <= MaxContentLength ==> r == s
    ensures |s| > MaxContentLength ==>
      && |r| == MaxContentLength + |TruncationMarker|
      && r[..MaxContentLength] == s[..MaxContentLength]
      && r[MaxContentLength..] == TruncationMarker
  {
    if |s| > MaxContentLength then s[..MaxContentLength] + TruncationMarker else s
  }

  /** The whole clean-up of src/background.ts:184-192, in its order. */
  function CleanText(raw: string): string {
    Truncate(Trim(RemoveEmptyLines(CollapseSpaces(raw))))
  }

  // ----- the routine ----------------------------------------------------------

  /** The injected routine: choose the content element, take its cleaned text. */
  method ExtractContent(page: Page) returns (result: Extracted)
    ensures result.content == CleanText(CloneText(ChosenElement(page)))
    ensures result.url == page.href && result.title == page.title
  {
    var contentElement := page.body;
    for i := 0 to |ContentSelectors|
      invariant FirstQualifying(page, 0) == FirstQualifying(page, i)
      invariant contentElement == page.body
    {
      var selector := ContentSelectors[i];
      if selector in page.select && Qualifies(page.select[selector]) {
        contentElement := page.select[selector];
        break;
      }
    }
    assert contentElement == ChosenElement(page);
    var text := CloneText(contentElement);
    text := CollapseSpaces(text);
    text := RemoveEmptyLines(text);
    text := Trim(text);
    ghost var trimmed := text;
    if |text| > MaxContentLength {
      text := text[..MaxContentLength] + TruncationMarker;
    }
    assert text == Truncate(trimmed);
    result := Extracted(text, page.href, page.title);
  }
}

/** Properties of the clean-up. */
module ExtractionProofs {
  import opened Text
  import opened Extraction

  /** Collapsing leaves only single plain spaces. */
  lemma {:induction false} CollapseIsWellSpaced(s: string)
    ensures WellSpaced(CollapseSpaces(s))
    decreases |s|
  {
    if s != [] {
      if IsSpace(s[0]) {
        var rest := TrimStart(s[1..]);
        TrimStartDrops(s[1..]);
        CollapseIsWellSpaced(rest);
        ConsWellSpaced(' ', CollapseSpaces(rest));
      } else {
        CollapseIsWellSpaced(s[1..]);
        ConsWellSpaced(s[0], CollapseSpaces(s[1..]));
      }
    }
  }

  /** A character put in front of a well-spaced text keeps it well-spaced when
      it is not whitespace, or is a plain space before a non-space. */
  lemma ConsWellSpaced(h: char, tail: string)
    requires WellSpaced(tail)
    requires IsSpace(h) ==> h == ' ' && (tail == [] || !IsSpace(tail[0]))
    ensures WellSpaced([h] + tail)
  {
    var r := [h] + tail;
    forall i | 0 <= i < |r| && IsSpace(r[i]) ensures r[i] == ' ' {
      if i > 0 { assert r[i] == tail[i - 1]; }
    }
    forall i: nat | i + 1 < |r| ensures !SpacePair(r, i) {
      if i > 0 {
        assert r[i] == tail[i - 1] && r[i + 1] == tail[i];
        assert !SpacePair(tail, i - 1);
      } else {
        assert r[1] == tail[0];
      }
    }
  }

  /** Without a newline, the empty-line pass has nothing to match. */
  lemma {:induction false} RemoveEmptyLinesWithoutNewline(s: string)
    requires forall i :: 0 <= i < |s| ==> s[i] != '\n'
    ensures RemoveEmptyLines(s) == s
    decreases |s|
  {
    if s != [] {
      RemoveEmptyLinesWithoutNewline(s[1..]);
    }
  }

  /** The `\n\s*\n` replacement never matches after `\s+` became `' '`: a
      collapsed text holds no newline. */
  lemma EmptyLinePassIsIdentity(raw: string)
    ensures RemoveEmptyLines(CollapseSpaces(raw)) == CollapseSpaces(raw)
  {
    var c := CollapseSpaces(raw);
    CollapseIsWellSpaced(raw);
    forall i | 0 <= i < |c| ensures c[i] != '\n' {
      if c[i] == '\n' { assert IsSpace(c[i]); }
    }
    RemoveEmptyLinesWithoutNewline(c);
  }

  lemma {:induction false} NonSpaceAppend(a: string, b: string)
    ensures NonSpace(a + b) == NonSpace(a) + NonSpace(b)
    decreases |a|
  {
    if a == [] {
      assert a + b == b;
    } else {
      assert (a + b)[0] == a[0];
      assert (a + b)[1..] == a[1..] + b;
      NonSpaceAppend(a[1..], b);
    }
  }

  lemma {:induction false} NonSpaceTrimStart(s: string)
    ensures NonSpace(TrimStart(s)) == NonSpace(s)
    decreases |s|
  {
    if s != [] && IsSpace(s[0]) {
      NonSpaceTrimStart(s[1..]);
    }
  }

  /** Collapsing whitespace loses no other character and reorders nothing. */
  lemma {:induction false} CollapseKeepsText(s: string)
    ensures NonSpace(CollapseSpaces(s)) == NonSpace(s)
    decreases |s|
  {
    if s != [] {
      if IsSpace(s[0]) {
        var rest := TrimStart(s[1..]);
        NonSpaceAppend([' '], CollapseSpaces(rest));
        CollapseKeepsText(rest);
        NonSpaceTrimStart(s[1..]);
      } else {
        NonSpaceAppend([s[0]], CollapseSpaces(s[1..]));
        CollapseKeepsText(s[1..]);
      }
    }
  }

  /** A well-spaced text is left as it is, so collapsing twice is collapsing once. */
  lemma {:induction false} CollapseWellSpaced(s: string)
    requires WellSpaced(s)
    ensures CollapseSpaces(s) == s
    decreases |s|
  {
    if s != [] {
      forall i: nat | i + 1 < |s| - 1 ensures !SpacePair(s[1..], i) {
        assert !SpacePair(s, i + 1);
      }
      assert WellSpaced(s[1..]);
      if IsSpace(s[0]) {
        assert TrimStart(s[1..]) == s[1..] by {
          assert |s| > 1 ==> !SpacePair(s, 0);
        }
      }
      CollapseWellSpaced(s[1..]);
    }
  }

  lemma CollapseIdempotent(s: string)
    ensures CollapseSpaces(CollapseSpaces(s)) == CollapseSpaces(s)
  {
    CollapseIsWellSpaced(s);
    CollapseWellSpaced(CollapseSpaces(s));
  }

  /** `Trim` returns a contiguous slice of its input. */
  lemma TrimIsSlice(s: string) returns (lo: nat, hi: nat)
    ensures lo <= hi <= |s| && Trim(s) == s[lo..hi]
  {
    var t := TrimStart(s);
    lo := |s| - |t|;
    hi := lo + |TrimEnd(t)|;
  }

  lemma WellSpacedSlice(s: string, lo: nat, hi: nat)
    requires WellSpaced(s) && lo <= hi <= |s|
    ensures WellSpaced(s[lo..hi])
  {
    var c := s[lo..hi];
    forall i: nat | i + 1 < |c| ensures !SpacePair(c, i) {
      assert c[i] == s[lo + i] && c[i + 1] == s[lo + i + 1];
      assert !SpacePair(s, lo + i);
    }
  }

  /** Trimming a well-spaced text keeps it well-spaced. */
  lemma TrimWellSpaced(c: string)
    requires WellSpaced(c)
    ensures WellSpaced(Trim(c))
  {
    var lo, hi := TrimIsSlice(c);
    WellSpacedSlice(c, lo, hi);
  }

  /** Leading whitespace in front of a text that starts with a non-space is
      all that the leading trim removes. */
  lemma {:induction false} TrimStartSpaces(w: string, b: string)
    requires AllSpace(w) && (b == [] || !IsSpace(b[0]))
    ensures TrimStart(w + b) == b
    decreases |w|
  {
    if w != [] {
      assert (w + b)[1..] == w[1..] + b;
      TrimStartSpaces(w[1..], b);
    } else {
      assert w + b == b;
    }
  }

  /** Trimming the front of a text with a visible character never reaches
      what follows it. */
  lemma {:induction false} TrimStartAppend(x: string, y: string)
    requires !AllSpace(x)
    ensures TrimStart(x + y) == TrimStart(x) + y
    decreases |x|
  {
    assert x != [];
    if IsSpace(x[0]) {
      assert (x + y)[1..] == x[1..] + y;
      assert !AllSpace(x[1..]) by {
        var k :| 0 <= k < |x| && !IsSpace(x[k]);
        assert x[1..][k - 1] == x[k];
      }
      TrimStartAppend(x[1..], y);
    }
  }

  /** One step of the collapse, on a text given by its first character. */
  lemma CollapseCons(c: char, t: string)
    ensures CollapseSpaces([c] + t)
      == if IsSpace(c) then [' '] + CollapseSpaces(TrimStart(t)) else [c] + CollapseSpaces(t)
  {
    assert ([c] + t)[0] == c && ([c] + t)[1..] == t;
  }

  /** A non-empty text is its first character followed by the rest, also in
      front of whatever follows it. */
  lemma SplitHead(x: string, y: string)
    requires x != []
    ensures x == [x[0]] + x[1..] && x + y == [x[0]] + (x[1..] + y)
  {
  }

  lemma Assoc(a: string, b: string, c: string)
    ensures a + b + c == a + (b + c)
  {
  }

  /** A text ending with a visible character collapses on its own: no run
      crosses its end. */
  lemma {:induction false} CollapseAppend(x: string, y: string)
    requires x == [] || !IsSpace(x[|x| - 1])
    ensures CollapseSpaces(x + y) == CollapseSpaces(x) + CollapseSpaces(y)
    decreases |x|, 1
  {
    if x == [] {
      assert x + y == y;
    } else if IsSpace(x[0]) {
      CollapseAppendSpace(x, y);
    } else {
      CollapseAppendWord(x, y);
    }
  }

  /** The case of `CollapseAppend` where the text opens with whitespace: the
      run becomes one space in front of the rest. */
  lemma {:induction false} CollapseAppendSpace(x: string, y: string)
    requires x != [] && IsSpace(x[0]) && !IsSpace(x[|x| - 1])
    ensures CollapseSpaces(x + y) == CollapseSpaces(x) + CollapseSpaces(y)
    decreases |x|, 0
  {
    var c, t := x[0], x[1..];
    SplitHead(x, y);
    var front := FrontAfterSpace(x);
    calc {
      CollapseSpaces(x + y);
      CollapseSpaces([c] + (t + y));
      { CollapseCons(c, t + y); }
      [' '] + CollapseSpaces(TrimStart(t + y));
      { TrimStartAppend(t, y); }
      [' '] + CollapseSpaces(front + y);
      { CollapseAppend(front, y); }
      [' '] + (CollapseSpaces(front) + CollapseSpaces(y));
      { Assoc([' '], CollapseSpaces(front), CollapseSpaces(y)); }
      [' '] + CollapseSpaces(front) + CollapseSpaces(y);
      { CollapseCons(c, t); }
      CollapseSpaces(x) + CollapseSpaces(y);
    }
  }

  /** The case of `CollapseAppend` where the text opens with a visible
      character, which the collapse keeps. */
  lemma {:induction false} CollapseAppendWord(x: string, y: string)
    requires x != [] && !IsSpace(x[0]) && !IsSpace(x[|x| - 1])
    ensures CollapseSpaces(x + y) == CollapseSpaces(x) + CollapseSpaces(y)
    decreases |x|, 0
  {
    var c, t := x[0], x[1..];
    SplitHead(x, y);
    calc {
      CollapseSpaces(x + y);
      CollapseSpaces([c] + (t + y));
      { CollapseCons(c, t + y); }
      [c] + CollapseSpaces(t + y);
      { assert t == [] || t[|t| - 1] == x[|x| - 1];
        CollapseAppend(t, y); }
      [c] + (CollapseSpaces(t) + CollapseSpaces(y));
      { Assoc([c], CollapseSpaces(t), CollapseSpaces(y)); }
      [c] + CollapseSpaces(t) + CollapseSpaces(y);
      { CollapseCons(c, t); }
      CollapseSpaces(x) + CollapseSpaces(y);
    }
  }

  /** What is left of a text starting with whitespace and ending with a
      visible character once its leading run is gone: a shorter text that
      still ends with that character. */
  lemma FrontAfterSpace(x: string) returns (front: string)
    requires x != [] && IsSpace(x[0]) && !IsSpace(x[|x| - 1])
    ensures front == TrimStart(x[1..]) && |front| < |x|
    ensures front != [] && !IsSpace(front[|front| - 1])
    ensures !AllSpace(x[1..])
  {
    var t := x[1..];
    assert |x| >= 2 && t[|t| - 1] == x[|x| - 1];
    front := TrimStart(t);
    TrimStartDrops(t);
    assert front[|front| - 1] == t[|t| - 1];
  }

  /** A whitespace run between two words becomes exactly one space: the
      collapse of `a + w + b` is the collapse of `a`, one space, and the
      collapse of `b`. */
  lemma CollapseSplits(a: string, w: string, b: string)
    requires w != [] && AllSpace(w)
    requires a == [] || !IsSpace(a[|a| - 1])
    requires b == [] || !IsSpace(b[0])
    ensures CollapseSpaces(a + w + b) == CollapseSpaces(a) + " " + CollapseSpaces(b)
  {
    calc {
      CollapseSpaces(a + w + b);
      { Assoc(a, w, b); }
      CollapseSpaces(a + (w + b));
      { CollapseAppend(a, w + b); }
      CollapseSpaces(a) + CollapseSpaces(w + b);
      { SplitHead(w, b); }
      CollapseSpaces(a) + CollapseSpaces([w[0]] + (w[1..] + b));
      { CollapseCons(w[0], w[1..] + b); }
      CollapseSpaces(a) + ([' '] + CollapseSpaces(TrimStart(w[1..] + b)));
      { TrimStartSpaces(w[1..], b); }
      CollapseSpaces(a) + ([' '] + CollapseSpaces(b));
      { Assoc(CollapseSpaces(a), " ", CollapseSpaces(b)); }
      CollapseSpaces(a) + " " + CollapseSpaces(b);
    }
  }

  /** Truncation keeps a trimmed, well-spaced text trimmed and well-spaced. */
  lemma TruncateShape(t: string)
    requires WellSpaced(t)
    requires t == [] || (!IsSpace(t[0]) && !IsSpace(t[|t| - 1]))
    ensures var out := Truncate(t);
      && |out| <= MaxContentLength + |TruncationMarker|
      && WellSpaced(out)
      && (out == [] || (!IsSpace(out[0]) && !IsSpace(out[|out| - 1])))
  {
    if |t| > MaxContentLength {
      var head := t[..MaxContentLength];
      WellSpacedSlice(t, 0, MaxContentLength);
      var out := head + TruncationMarker;
      assert out[0] == t[0];
      assert out[|out| - 1] == '.';
      assert forall i :: MaxContentLength <= i < |out| ==> out[i] == '.';
      forall i | 0 <= i < |out| && IsSpace(out[i]) ensures out[i] == ' ' {
        assert out[i] == head[i];
      }
      forall i: nat | i + 1 < |out| ensures !SpacePair(out, i) {
        if i >= MaxContentLength - 1 { assert out[i + 1] == '.'; }
        else { assert out[i] == head[i] && out[i + 1] == head[i + 1] && !SpacePair(head, i); }
      }
    }
  }

  /** What the injected routine returns as page text: no whitespace but single
      spaces, none at either end, at most 8003 characters. */
  lemma CleanTextShape(raw: string)
    ensures var out := CleanText(raw);
      && |out| <= MaxContentLength + |TruncationMarker|
      && WellSpaced(out)
      && (out == [] || (!IsSpace(out[0]) && !IsSpace(out[|out| - 1])))
  {
    var c := CollapseSpaces(raw);
    var t := Trim(c);
    assert CleanText(raw) == Truncate(t) by {
      EmptyLinePassIsIdentity(raw);
    }
    assert WellSpaced(t) && (t == [] || (!IsSpace(t[0]) && !IsSpace(t[|t| - 1]))) by {
      CollapseIsWellSpaced(raw);
      TrimWellSpaced(c);
      TrimDrops(c);
    }
    TruncateShape(t);
  }

  /** Text of at most 8000 characters after trimming is kept whole; longer text
      becomes its first 8000 characters and the marker. */
  lemma CleanTextTruncation(raw: string)
    ensures var t := Trim(CollapseSpaces(raw));
      CleanText(raw) == if |t| > MaxContentLength then t[..MaxContentLength] + TruncationMarker else t
  {
    EmptyLinePassIsIdentity(raw);
  }

  /** Short of truncation, the clean-up keeps every non-whitespace character in order. */
  lemma CleanTextKeepsText(raw: string)
    requires |Trim(CollapseSpaces(raw))| <= MaxContentLength
    ensures NonSpace(CleanText(raw)) == NonSpace(raw)
  {
    EmptyLinePassIsIdentity(raw);
    CollapseKeepsText(raw);
    NonSpaceTrim(CollapseSpaces(raw));
  }

  /** Trimming removes only whitespace. */
  lemma NonSpaceTrim(c: string)
    ensures NonSpace(Trim(c)) == NonSpace(c)
  {
    NonSpaceTrimStart(c);
    NonSpaceTrimEnd(TrimStart(c));
  }

  lemma NonSpaceTrimEnd(t: string)
    ensures NonSpace(TrimEnd(t)) == NonSpace(t)
  {
    var r := TrimEnd(t);
    TrimEndDrops(t);
    var tail := t[|r|..];
    assert t == r + tail;
    NonSpaceAppend(r, tail);
    NonSpaceAllSpace(tail);
    assert NonSpace(r) + [] == NonSpace(r);
  }

  lemma {:induction false} NonSpaceAllSpace(s: string)
    requires AllSpace(s)
    ensures NonSpace(s) == []
    decreases |s|
  {
    if s != [] { NonSpaceAllSpace(s[1..]); }
  }

  /** The injected routine reads the first of `article`, `main`, `[role="main"]`
      and `body` whose trimmed text is longer than 100 characters, else the body. */
  lemma ChosenElementIsFirstQualifying(page: Page)
    ensures (forall j :: 0 <= j < |ContentSelectors| ==> !SelectorQualifies(page, j))
      ==> ChosenElement(page) == page.body
    ensures forall k ::
                 0 <= k < |ContentSelectors| && SelectorQualifies(page, k)
                 && (forall j :: 0 <= j < k ==> !SelectorQualifies(page, j))
                 ==> ChosenElement(page) == page.select[ContentSelectors[k]]
  {
    forall k | 0 <= k < |ContentSelectors| && SelectorQualifies(page, k)
               && (forall j :: 0 <= j < k ==> !SelectorQualifies(page, j))
      ensures ChosenElement(page) == page.select[ContentSelectors[k]]
    {
      FirstQualifyingAt(page, 0, k);
    }
  }
}
