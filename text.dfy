/** The few JavaScript string primitives the core relies on: the whitespace
    class shared by the regular-expression escape `\s` and `String.prototype.trim`,
    `trim()`, ASCII `toLowerCase()` and `includes()`. */
module Text {

  /** ECMAScript WhiteSpace and LineTerminator code points: exactly the set
      that `\s` matches and that `trim()` removes. */
  predicate IsSpace(c: char) {
    var n := c as int;
    n == 0x09 || n == 0x0A || n == 0x0B || n == 0x0C || n == 0x0D || n == 0x20
    || n == 0xA0 || n == 0x1680 || (0x2000 <= n <= 0x200A) || n == 0x2028
    || n == 0x2029 || n == 0x202F || n == 0x205F || n == 0x3000 || n == 0xFEFF
  }

  predicate AllSpace(s: string) {
    forall i :: 0 <= i < |s| ==> IsSpace(s[i])
  }

  /** `trimStart()`: drops the leading whitespace (see `TrimStartDrops`). */
  function TrimStart(s: string): (r: string)
    ensures |r| <= |s| && r == s[|s| - |r|..]
  {
    if s != [] && IsSpace(s[0]) then TrimStart(s[1..]) else s
  }

  /** `trimEnd()`: drops the trailing whitespace (see `TrimEndDrops`). */
  function TrimEnd(s: string): (r: string)
    ensures |r| <= |s| && r == s[..|r|]
  {
    if s != [] && IsSpace(s[|s| - 1]) then TrimEnd(s[..|s| - 1]) else s
  }

  /** `trim()`: the text between the leading and the trailing whitespace
      (see `TrimDrops`). */
  function Trim(s: string): (r: string)
    ensures |r| <= |s|
  {
    TrimEnd(TrimStart(s))
  }

  /** What `trimStart()` removes is whitespace, and all of it. */
  lemma {:induction false} TrimStartDrops(s: string)
    ensures var r := TrimStart(s);
      AllSpace(s[..|s| - |r|]) && (r == [] || !IsSpace(r[0]))
    decreases |s|
  {
    if s != [] && IsSpace(s[0]) {
      TrimStartDrops(s[1..]);
      var r := TrimStart(s[1..]);
      var dropped := s[1..][..|s| - 1 - |r|];
      forall i | 0 <= i < |s| - |r| ensures IsSpace(s[i]) {
        if i > 0 { assert s[i] == dropped[i - 1]; }
      }
    }
  }

  /** What `trimEnd()` removes is whitespace, and all of it. */
  lemma {:induction false} TrimEndDrops(s: string)
    ensures var r := TrimEnd(s);
      AllSpace(s[|r|..]) && (r == [] || !IsSpace(r[|r| - 1]))
    decreases |s|
  {
    if s != [] && IsSpace(s[|s| - 1]) {
      TrimEndDrops(s[..|s| - 1]);
      var r := TrimEnd(s[..|s| - 1]);
      var dropped := s[..|s| - 1][|r|..];
      forall i | |r| <= i < |s| ensures IsSpace(s[i]) {
        if i < |s| - 1 { assert s[i] == dropped[i - |r|]; }
      }
    }
  }

  /** `trim()` is empty exactly when the input is all whitespace, which is when
      JavaScript treats `s.trim()` as false; otherwise it starts and ends with
      a non-space. */
  lemma TrimDrops(s: string)
    ensures var r := Trim(s);
      && (r == [] <==> AllSpace(s))
      && (r == [] || (!IsSpace(r[0]) && !IsSpace(r[|r| - 1])))
  {
    var t := TrimStart(s);
    var lo := |s| - |t|;
    TrimStartDrops(s);
    TrimEndDrops(t);
    var r := TrimEnd(t);
    assert Trim(s) == r;
    if r != [] {
      assert r[0] == t[0] == s[lo];
      assert !IsSpace(s[lo]);
      assert !AllSpace(s);
    } else {
      assert t[|r|..] == t;
      assert s[..lo] == s;
      assert AllSpace(s);
    }
  }

  /** `toLowerCase()` on the ASCII letters; every other character is kept. */
  function LowerAscii(c: char): char {
    if 'A' <= c <= 'Z' then (c as int + 32) as char else c
  }

  /** `toLowerCase()` (see `ToLowerAt`). */
  function ToLower(s: string): (r: string)
    ensures |r| == |s|
  {
    if s == [] then [] else [LowerAscii(s[0])] + ToLower(s[1..])
  }

  /** `toLowerCase()` maps every character on its own, in place. */
  lemma {:induction false} ToLowerAt(s: string)
    ensures forall i :: 0 <= i < |s| ==> ToLower(s)[i] == LowerAscii(s[i])
    decreases |s|
  {
    if s != [] {
      ToLowerAt(s[1..]);
      var r := ToLower(s);
      forall i | 0 < i < |s| ensures r[i] == LowerAscii(s[i]) {
        assert r[i] == ToLower(s[1..])[i - 1];
      }
    }
  }

  /** `s.includes(p)`. */
  predicate Contains(s: string, p: string)
    decreases |s|
  {
    |p| <= |s| && (s[..|p|] == p || (s != [] && Contains(s[1..], p)))
  }

  /** `includes` finds every occurrence: an occurrence at index `k` is enough. */
  lemma {:induction false} ContainsAt(s: string, p: string, k: nat)
    requires k + |p| <= |s| && s[k..k + |p|] == p
    ensures Contains(s, p)
    decreases k
  {
    if k > 0 {
      assert s[1..][k - 1..k - 1 + |p|] == s[k..k + |p|];
      ContainsAt(s[1..], p, k - 1);
    }
  }

  /** ... and nothing else: `includes` holds only if some occurrence exists. */
  lemma {:induction false} ContainsOnlyAt(s: string, p: string) returns (k: nat)
    requires Contains(s, p)
    ensures k + |p| <= |s| && s[k..k + |p|] == p
    decreases |s|
  {
    if s[..|p|] == p {
      k := 0;
    } else {
      var j := ContainsOnlyAt(s[1..], p);
      assert s[1..][j..j + |p|] == s[j + 1..j + 1 + |p|];
      k := j + 1;
    }
  }
}
