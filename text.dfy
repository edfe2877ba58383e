/**
 * String helpers shared by the template generators: prefix, suffix and
 * substring predicates, `Array.prototype.join`, the ASCII form of the
 * `s.charAt(0).toUpperCase() + s.slice(1)` idiom, and decimal rendering of
 * a non-negative number (the year printed into some templates).
 */
module Text {

  predicate IsPrefix(p: string, s: string) {
    |p| <= |s| && s[..|p|] == p
  }

  predicate IsSuffix(p: string, s: string) {
    |p| <= |s| && s[|s| - |p|..] == p
  }

  /** `s.includes(sub)` */
  predicate Contains(s: string, sub: string) {
    exists i :: 0 <= i <= |s| && IsPrefix(sub, s[i..])
  }

  /** A piece placed between two others can be found in the result. */
  lemma {:induction false} ContainsInfix(a: string, b: string, c: string)
    ensures Contains(a + b + c, b)
  {
    var s := a + b + c;
    assert s[|a|..][..|b|] == b;
    assert IsPrefix(b, s[|a|..]);
  }

  /** Text found in `s` is still found once more text is put around `s`. */
  lemma {:induction false} ContainsInContext(a: string, s: string, c: string, sub: string)
    requires Contains(s, sub)
    ensures Contains(a + s + c, sub)
  {
    var i :| 0 <= i <= |s| && IsPrefix(sub, s[i..]);
    var t := a + s + c;
    assert t[|a| + i..][..|sub|] == s[i..][..|sub|];
    assert IsPrefix(sub, t[|a| + i..]);
  }

  /** Text found in `s` is still found in `s + t`. */
  lemma {:induction false} ContainsExtended(s: string, t: string, sub: string)
    requires Contains(s, sub)
    ensures Contains(s + t, sub)
  {
    var i :| 0 <= i <= |s| && IsPrefix(sub, s[i..]);
    assert (s + t)[i..][..|sub|] == s[i..][..|sub|];
  }

  /** Two strings that differ at a position both have are not prefixes of each other. */
  lemma NotPrefixAt(p: string, s: string, i: nat)
    requires i < |p| && i < |s| && p[i] != s[i]
    ensures !IsPrefix(p, s) && !IsPrefix(s, p)
  {
  }

  /** A template literal's pieces put together, in order. */
  function Concat(parts: seq<string>): string {
    if parts == [] then "" else Concat(parts[..|parts| - 1]) + parts[|parts| - 1]
  }

  /** Two pieces put together. */
  lemma {:induction false} ConcatPair(a: string, b: string)
    ensures Concat([a, b]) == a + b
  {
    assert [a, b][..1] == [a];
    assert [a][..0] == [];
    assert Concat([a]) == Concat([]) + a == a;
  }

  /** Prefixes of a prefix are prefixes. */
  lemma {:induction false} PrefixTransitive(a: string, b: string, c: string)
    requires IsPrefix(a, b) && IsPrefix(b, c)
    ensures IsPrefix(a, c)
  {
    assert c[..|a|] == c[..|b|][..|a|];
  }

  /** The first `i` pieces, put together, begin the whole. */
  lemma {:induction false} ConcatPrefix(parts: seq<string>, i: nat)
    requires i <= |parts|
    ensures IsPrefix(Concat(parts[..i]), Concat(parts))
    decreases |parts|
  {
    if i == |parts| {
      assert parts[..i] == parts;
    } else {
      var init := parts[..|parts| - 1];
      assert parts[..i] == init[..i];
      ConcatPrefix(init, i);
      var whole := Concat(parts);
      assert whole[..|Concat(init)|] == Concat(init);
      PrefixTransitive(Concat(parts[..i]), Concat(init), whole);
    }
  }

  /** Text found in a string is found in any string it begins. */
  lemma {:induction false} ContainsInPrefix(s: string, t: string, sub: string)
    requires Contains(s, sub) && IsPrefix(s, t)
    ensures Contains(t, sub)
  {
    assert t == s + t[|s|..];
    ContainsExtended(s, t[|s|..], sub);
  }

  /** Every piece can be found in the whole. */
  lemma {:induction false} ConcatContains(parts: seq<string>, i: nat)
    requires i < |parts|
    ensures Contains(Concat(parts), parts[i])
  {
    var upto := parts[..i + 1];
    assert upto[..|upto| - 1] == parts[..i];
    assert Concat(upto) == Concat(parts[..i]) + parts[i] + "";
    ContainsInfix(Concat(parts[..i]), parts[i], "");
    ConcatPrefix(parts, i + 1);
    ContainsInPrefix(Concat(upto), Concat(parts), parts[i]);
  }

  /** `parts.join(sep)`: an empty list gives "", one element gives itself. */
  function Join(parts: seq<string>, sep: string): (r: string)
    ensures parts == [] ==> r == ""
    ensures |parts| == 1 ==> r == parts[0]
    ensures |parts| > 0 ==> IsPrefix(parts[0], r) && IsSuffix(parts[|parts| - 1], r)
    ensures |parts| > 1 ==> Contains(r, sep)
  {
    if |parts| == 0 then ""
    else if |parts| == 1 then parts[0]
    else
      ContainsInfix(parts[0], sep, Join(parts[1..], sep));
      parts[0] + sep + Join(parts[1..], sep)
  }

  /** Three parts joined: each separated from the next by one separator. */
  lemma {:induction false} JoinThree(a: string, b: string, c: string, sep: string)
    ensures Join([a, b, c], sep) == a + sep + b + sep + c
  {
    assert [a, b, c][1..] == [b, c];
    assert [b, c][1..] == [c];
    assert Join([b, c], sep) == b + sep + c;
  }

  function UpperAscii(c: char): (u: char)
    ensures 'a' <= c <= 'z' ==> 'A' <= u <= 'Z' && u as int == c as int - 32
    ensures !('a' <= c <= 'z') ==> u == c
  {
    if 'a' <= c <= 'z' then (c as int - 32) as char else c
  }

  /**
   * `s.charAt(0).toUpperCase() + s.slice(1)`, restricted to ASCII letters:
   * only a leading lower-case ASCII letter changes.
   */
  function Capitalize(s: string): (r: string)
    ensures |r| == |s|
    ensures |s| > 0 ==> r[0] == UpperAscii(s[0]) && r[1..] == s[1..]
  {
    if s == "" then "" else [UpperAscii(s[0])] + s[1..]
  }

  predicate IsDigit(c: char) {
    '0' <= c <= '9'
  }

  function DigitChar(d: nat): (c: char)
    requires d < 10
    ensures IsDigit(c) && c as int - '0' as int == d
  {
    ('0' as int + d) as char
  }

  /** `String(n)` for a non-negative integer: its decimal digits. */
  function NatToString(n: nat): (r: string)
    ensures r != []
    ensures forall i :: 0 <= i < |r| ==> IsDigit(r[i])
    ensures n < 10 <==> |r| == 1
  {
    if n < 10 then [DigitChar(n)] else NatToString(n / 10) + [DigitChar(n % 10)]
  }

  function DigitOf(c: char): nat
    requires IsDigit(c)
  {
    c as int - '0' as int
  }

  /** The value of a string of decimal digits. */
  function DigitsValue(s: string): nat
    requires forall i :: 0 <= i < |s| ==> IsDigit(s[i])
  {
    if s == [] then 0 else 10 * DigitsValue(s[..|s| - 1]) + DigitOf(s[|s| - 1])
  }

  /** Reading the digits back gives the number: the rendering loses nothing. */
  lemma {:induction false} NatToStringRoundTrip(n: nat)
    ensures DigitsValue(NatToString(n)) == n
  {
    if n >= 10 {
      var r := NatToString(n);
      assert r[..|r| - 1] == NatToString(n / 10);
      NatToStringRoundTrip(n / 10);
    }
  }
}
