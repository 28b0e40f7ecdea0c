/** The few Python string operations the pipeline relies on: `str.strip`,
    `str.lower`, the `in` substring test, `str.join` and the decimal
    rendering of an `int` inside an f-string. */
module Text {

  /** Python's `str.isspace` for one character. */
  predicate IsSpace(c: char) {
    var k := c as int;
    k == 32 || 9 <= k <= 13 || 28 <= k <= 31 || k == 0x85 || k == 0xA0 || k == 0x1680
    || 0x2000 <= k <= 0x200A || k == 0x2028 || k == 0x2029 || k == 0x202F || k == 0x205F
    || k == 0x3000
  }

  /** `str.lower` on ASCII letters; every other character is left as it is. */
  function LowerChar(c: char): char {
    if 'A' <= c <= 'Z' then (c as int + 32) as char else c
  }

  function Lower(s: string): (r: string)
    ensures |r| == |s|
    ensures forall i :: 0 <= i < |s| ==> r[i] == LowerChar(s[i])
  {
    seq(|s|, i requires 0 <= i < |s| => LowerChar(s[i]))
  }

  /** `str.lstrip()`: drops the leading whitespace. Its properties are
      stated by `TrimStartSpec`. */
  function TrimStart(s: string): string
    decreases |s|
  {
    if s != [] && IsSpace(s[0]) then TrimStart(s[1..]) else s
  }

  /** `str.rstrip()`: drops the trailing whitespace. Its properties are
      stated by `TrimEndSpec`. */
  function TrimEnd(s: string): string
    decreases |s|
  {
    if s != [] && IsSpace(s[|s| - 1]) then TrimEnd(s[..|s| - 1]) else s
  }

  /** `str.strip()`; its properties are stated by `StripSpec`. */
  function Strip(s: string): string {
    TrimEnd(TrimStart(s))
  }

  /** `lstrip` keeps a suffix, cuts only whitespace, and stops at the first
      character that is not whitespace. */
  lemma {:induction false} TrimStartSpec(s: string)
    ensures var r := TrimStart(s);
            && |r| <= |s| && r == s[|s| - |r|..]
            && (forall i :: 0 <= i < |s| - |r| ==> IsSpace(s[i]))
            && (r == [] || !IsSpace(r[0]))
    decreases |s|
  {
    if s != [] && IsSpace(s[0]) {
      TrimStartSpec(s[1..]);
      var r := TrimStart(s);
      forall i | 1 <= i < |s| - |r|
        ensures IsSpace(s[i])
      {
        assert s[i] == s[1..][i - 1];
      }
    }
  }

  /** `rstrip` keeps a prefix, cuts only whitespace, and stops at the last
      character that is not whitespace. */
  lemma {:induction false} TrimEndSpec(s: string)
    ensures var r := TrimEnd(s);
            && |r| <= |s| && r == s[..|r|]
            && (forall i :: |r| <= i < |s| ==> IsSpace(s[i]))
            && (r == [] || !IsSpace(r[|r| - 1]))
    decreases |s|
  {
    if s != [] && IsSpace(s[|s| - 1]) {
      var u := s[..|s| - 1];
      TrimEndSpec(u);
      var r := TrimEnd(s);
      assert r == TrimEnd(u);
      forall i | |r| <= i < |s| - 1
        ensures IsSpace(s[i])
      {
        assert s[i] == u[i];
      }
    }
  }

  /** `strip` keeps a contiguous slice of its input that neither starts nor
      ends with whitespace; everything cut on either side is whitespace. */
  lemma StripSpec(s: string)
    ensures |TrimStart(s)| <= |s|
    ensures var a := |s| - |TrimStart(s)|;
            var r := Strip(s);
            && a + |r| <= |s| && r == s[a..a + |r|]
            && (forall i :: 0 <= i < a ==> IsSpace(s[i]))
            && (forall i :: a + |r| <= i < |s| ==> IsSpace(s[i]))
            && (r == [] || (!IsSpace(r[0]) && !IsSpace(r[|r| - 1])))
  {
    var a := |s| - |TrimStart(s)|;
    var u := TrimStart(s);
    var r := TrimEnd(u);
    TrimStartSpec(s);
    TrimEndSpec(u);
    assert u == s[a..];
    assert r == u[..|r|];
    assert r != [] ==> r[0] == u[0];
    assert forall i :: a + |r| <= i < |s| ==> s[i] == u[i - a];
  }

  predicate IsPrefix(t: string, s: string) {
    |t| <= |s| && s[..|t|] == t
  }

  /** Python's `t in s` for strings. */
  predicate Contains(s: string, t: string)
    decreases |s|
  {
    IsPrefix(t, s) || (s != [] && Contains(s[1..], t))
  }

  /** `t` occurs in `s` at position `i`. */
  predicate OccursAt(s: string, t: string, i: int) {
    0 <= i && i + |t| <= |s| && s[i..i + |t|] == t
  }

  /** `Contains` finds an occurrence of `t` at some position of `s`, and
      every occurrence is found. */
  lemma {:induction false} ContainsIffOccurs(s: string, t: string)
    ensures Contains(s, t) <==> exists i :: OccursAt(s, t, i)
    decreases |s|
  {
    if s != [] {
      ContainsIffOccurs(s[1..], t);
      if IsPrefix(t, s) {
        assert OccursAt(s, t, 0);
      }
      if Contains(s[1..], t) {
        var i :| OccursAt(s[1..], t, i);
        assert OccursAt(s, t, i + 1);
      }
      if i :| OccursAt(s, t, i) {
        if i > 0 {
          assert OccursAt(s[1..], t, i - 1);
        } else {
          assert s[..|t|] == s[i..i + |t|];
        }
      }
    } else {
      if t == [] {
        assert OccursAt(s, t, 0);
      }
    }
  }

  lemma ContainsEmpty(t: string)
    requires t != []
    ensures !Contains([], t)
  {
  }

  lemma {:induction false} ContainsSkipsFirst(s: string, t: string)
    requires s != [] && t != [] && s[0] != t[0]
    ensures Contains(s, t) == Contains(s[1..], t)
  {
  }

  lemma {:induction false} ContainsIgnoresLast(s: string, c: char, t: string)
    requires t != [] && c != t[|t| - 1]
    ensures Contains(s + [c], t) == Contains(s, t)
    decreases |s|
  {
    var sc := s + [c];
    if |t| <= |s| {
      assert sc[..|t|] == s[..|t|];
    } else if |t| == |s| + 1 {
      assert sc[..|t|] == sc;
      assert sc[|t| - 1] == c;
    }
    if s == [] {
      assert sc[1..] == [];
      ContainsEmpty(t);
    } else {
      assert sc[1..] == s[1..] + [c];
      ContainsIgnoresLast(s[1..], c, t);
    }
  }

  lemma {:induction false} TrimStartKeepsWord(s: string, t: string)
    requires t != [] && !IsSpace(t[0])
    ensures Contains(Lower(TrimStart(s)), t) == Contains(Lower(s), t)
    decreases |s|
  {
    if s != [] && IsSpace(s[0]) {
      TrimStartKeepsWord(s[1..], t);
      assert Lower(s)[1..] == Lower(s[1..]);
      assert Lower(s)[0] == s[0];
      ContainsSkipsFirst(Lower(s), t);
    }
  }

  lemma {:induction false} TrimEndKeepsWord(s: string, t: string)
    requires t != [] && !IsSpace(t[|t| - 1])
    ensures Contains(Lower(TrimEnd(s)), t) == Contains(Lower(s), t)
    decreases |s|
  {
    if s != [] && IsSpace(s[|s| - 1]) {
      var u := s[..|s| - 1];
      TrimEndKeepsWord(u, t);
      assert Lower(s) == Lower(u) + [s[|s| - 1]];
      ContainsIgnoresLast(Lower(u), s[|s| - 1], t);
    }
  }

  /** Stripping never changes whether a word that starts and ends with a
      non-space character occurs in the lower-cased text. */
  lemma {:induction false} StripKeepsWord(s: string, t: string)
    requires t != [] && !IsSpace(t[0]) && !IsSpace(t[|t| - 1])
    ensures Contains(Lower(Strip(s)), t) == Contains(Lower(s), t)
  {
    TrimStartKeepsWord(s, t);
    TrimEndKeepsWord(TrimStart(s), t);
  }

  /** Python's `sep.join(parts)`. */
  function Join(sep: string, parts: seq<string>): string
    decreases |parts|
  {
    if |parts| == 0 then ""
    else if |parts| == 1 then parts[0]
    else parts[0] + sep + Join(sep, parts[1..])
  }

  lemma {:induction false} JoinSnoc(sep: string, parts: seq<string>, x: string)
    requires |parts| > 0
    ensures Join(sep, parts + [x]) == Join(sep, parts) + sep + x
    decreases |parts|
  {
    var px := parts + [x];
    if |parts| == 1 {
      assert px[1..] == [x];
    } else {
      assert px[1..] == parts[1..] + [x];
      JoinSnoc(sep, parts[1..], x);
    }
  }

  lemma JoinStartsWithFirst(sep: string, parts: seq<string>)
    requires |parts| > 0
    ensures IsPrefix(parts[0], Join(sep, parts))
  {
  }

  /** The length of a join: every part, plus one separator between each
      two neighbours. */
  function TotalLength(parts: seq<string>): nat
    decreases |parts|
  {
    if parts == [] then 0 else |parts[0]| + TotalLength(parts[1..])
  }

  lemma {:induction false} JoinLength(sep: string, parts: seq<string>)
    requires |parts| > 0
    ensures |Join(sep, parts)| == TotalLength(parts) + |sep| * (|parts| - 1)
    decreases |parts|
  {
    if |parts| > 1 {
      JoinLength(sep, parts[1..]);
    }
  }

  function DigitChar(d: nat): (c: char)
    requires d < 10
    ensures '0' <= c <= '9'
  {
    ('0' as int + d) as char
  }

  function DigitValue(c: char): nat
    requires '0' <= c <= '9'
  {
    c as int - '0' as int
  }

  predicate AllDigits(s: string) {
    forall i :: 0 <= i < |s| ==> '0' <= s[i] <= '9'
  }

  /** The decimal rendering `f"{n}"` of a natural number: digits only, never
      empty, and no leading zero except for 0 itself. */
  function NatToString(n: nat): (r: string)
    ensures |r| > 0 && AllDigits(r)
    ensures r[0] == '0' ==> n == 0
    decreases n
  {
    if n < 10 then [DigitChar(n)] else NatToString(n / 10) + [DigitChar(n % 10)]
  }

  /** `int(s)` for a string of decimal digits. */
  function ParseNat(s: string): nat
    requires AllDigits(s)
    decreases |s|
  {
    if s == [] then 0 else ParseNat(s[..|s| - 1]) * 10 + DigitValue(s[|s| - 1])
  }

  /** Reading the rendering back gives the number. */
  lemma {:induction false} ParseNatToString(n: nat)
    ensures ParseNat(NatToString(n)) == n
    decreases n
  {
    var r := NatToString(n);
    if n < 10 {
      assert r[..0] == [];
    } else {
      ParseNatToString(n / 10);
      assert r[..|r| - 1] == NatToString(n / 10);
    }
  }
}
