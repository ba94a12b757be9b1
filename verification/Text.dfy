/** Strings as the source uses them: stripping, and decimal rendering of counters. */
module Text {

  datatype Option<+T> = None | Some(value: T)

  /** The characters that Python's `str.strip` removes, by code point. */
  predicate IsSpace(c: char) {
    var n := c as int;
    || 0x09 <= n <= 0x0D || 0x1C <= n <= 0x20 || n == 0x85 || n == 0xA0 || n == 0x1680 || 0x2000 <= n <= 0x200A
    || n == 0x2028 || n == 0x2029 || n == 0x202F || n == 0x205F || n == 0x3000
  }

  predicate Blank(s: string) {
    forall c | c in s :: IsSpace(c)
  }

  function StripLeft(s: string): (r: string)
    ensures |r| <= |s| && r == s[|s| - |r|..]
    ensures Blank(s[..|s| - |r|])
    ensures r != "" ==> !IsSpace(r[0])
  {
    if s != "" && IsSpace(s[0]) then StripLeft(s[1..]) else s
  }

  function StripRight(s: string): (r: string)
    ensures |r| <= |s| && r == s[..|r|]
    ensures Blank(s[|r|..])
    ensures r != "" ==> !IsSpace(r[|r| - 1])
  {
    if s != "" && IsSpace(s[|s| - 1]) then
      var r := StripRight(s[..|s| - 1]);
      assert s[|r|..] == s[..|s| - 1][|r|..] + [s[|s| - 1]];
      r
    else s
  }

  function Strip(s: string): (r: string) {
    StripRight(StripLeft(s))
  }

  /** `r` is `s` without the white space at its ends. */
  ghost predicate IsStripped(s: string, r: string) {
    exists i, j :: StrippedAt(s, i, j) && r == s[i..j]
  }

  ghost predicate StrippedAt(s: string, i: int, j: int) {
    && 0 <= i <= j <= |s| && Blank(s[..i]) && Blank(s[j..])
    && (i < j ==> !IsSpace(s[i]) && !IsSpace(s[j - 1]))
  }

  lemma StrippedEnds(s: string, i: int, j: int, k: int, l: int)
    requires StrippedAt(s, i, j) && StrippedAt(s, k, l)
    ensures s[i..j] == s[k..l]
  {
    hide IsSpace, Blank;
    BlankEnds(s, i, j);
    BlankEnds(s, k, l);
  }

  lemma BlankEnds(s: string, i: nat, j: nat)
    requires i <= j <= |s| && Blank(s[..i]) && Blank(s[j..])
    ensures forall x :: 0 <= x < i || j <= x < |s| ==> IsSpace(s[x])
  {
    hide IsSpace;
    forall x | 0 <= x < i || j <= x < |s|
      ensures IsSpace(s[x])
    {
      if x < i {
        assert s[..i][x] == s[x];
      } else {
        assert s[j..][x - j] == s[x];
      }
    }
  }

  /** Stripping takes away the white space at both ends and nothing else. */
  lemma StripMeans(s: string)
    ensures forall r :: IsStripped(s, r) <==> r == Strip(s)
  {
    StripIs(s);
    forall r | IsStripped(s, r)
      ensures r == Strip(s)
    {
      var i, j :| StrippedAt(s, i, j) && r == s[i..j];
      var k, l :| StrippedAt(s, k, l) && Strip(s) == s[k..l];
      StrippedEnds(s, i, j, k, l);
    }
  }

  lemma StripIs(s: string)
    ensures IsStripped(s, Strip(s))
  {
    hide IsSpace, Blank;
    var l := StripLeft(s);
    var r := StripRight(l);
    var i := |s| - |l|;
    if r == "" {
      BlankBoth(s[..i], l);
      assert s[..|s|] == s == s[..i] + l && l[0..] == l && s[|s|..] == l[|l|..];
      NothingVisible(s);
    } else {
      SameSlices(s, i, |r|);
      assert StrippedAt(s, i, i + |r|);
    }
  }

  lemma NothingVisible(s: string)
    requires Blank(s)
    ensures IsStripped(s, "")
  {
    assert s[..|s|] == s && s[|s|..] == "";
    assert StrippedAt(s, |s|, |s|) && "" == s[|s|..|s|];
  }

  lemma SameSlices(s: string, i: nat, n: nat)
    requires i + n <= |s|
    ensures s[i..][..n] == s[i..i + n] && s[i..][n..] == s[i + n..]
  {
  }

  lemma BlankBoth(a: string, b: string)
    requires Blank(a) && Blank(b)
    ensures Blank(a + b)
  {
  }

  lemma NothingToStrip(s: string)
    requires s != "" && !IsSpace(s[0]) && !IsSpace(s[|s| - 1])
    ensures Strip(s) == s
  {
    hide IsSpace, Blank;
    assert StripLeft(s) == s;
    assert StripRight(s) == s;
  }

  /** Stripping leaves nothing exactly when there was nothing but white space. */
  lemma StripEmptyIffBlank(s: string)
    ensures Strip(s) == "" <==> Blank(s)
  {
    var l := StripLeft(s);
    var r := StripRight(l);
    assert s == s[..|s| - |l|] + l;
    if r == "" {
      assert l == l[|r|..];
    } else {
      assert r[0] == l[0];
      assert l[0] in s;
    }
  }

  lemma StripNotBlank(s: string)
    ensures !Blank(s) ==> !Blank(Strip(s))
  {
    StripEmptyIffBlank(s);
    var r := Strip(s);
    if r != "" {
      assert r[|r| - 1] in r;
    }
  }

  function Digit(d: nat): char
    requires d < 10
  {
    '0' + d as char
  }

  function Decimal(n: nat): (s: string)
    ensures s != ""
  {
    if n < 10 then [Digit(n)] else Decimal(n / 10) + [Digit(n % 10)]
  }

  lemma {:induction false} DecimalInjective(m: nat, n: nat)
    requires Decimal(m) == Decimal(n)
    ensures m == n
  {
    var s := Decimal(m);
    assert s[|s| - 1] == Digit(m % 10) == Digit(n % 10);
    if m >= 10 && n >= 10 {
      assert s[..|s| - 1] == Decimal(m / 10) == Decimal(n / 10);
      DecimalInjective(m / 10, n / 10);
    }
  }
}
