/**
 Small value types and sequence helpers shared by the weather report model:
 an Option type, integers extended with the two infinities the script uses as
 sentinels, JavaScript's Math.round, sums and concatenations of sequences,
 decimal rendering of integers and substring search.
 */
module Basics {

  datatype Option<T> = None | Some(value: T)

  /** An integer-valued JavaScript number, or one of the sentinels -Infinity and Infinity. */
  datatype ExtInt = NegInf | Fin(v: int) | PosInf {

    /** `this < k` for a finite number k, as JavaScript compares. */
    predicate Below(k: int) {
      match this
      case NegInf => true
      case Fin(x) => x < k
      case PosInf => false
    }

    /** `this > k` for a finite number k, as JavaScript compares. */
    predicate Above(k: int) {
      match this
      case NegInf => false
      case Fin(x) => x > k
      case PosInf => true
    }
  }

  /** `Math.max(a, t)` for a finite t. */
  function Max(a: ExtInt, t: int): (r: ExtInt)
    ensures a != PosInf ==> r.Fin? && r.v >= t && (a.Fin? ==> r.v >= a.v)
    ensures a != PosInf ==> r == Fin(t) || r == a
    ensures a == PosInf ==> r == PosInf
  {
    match a
    case NegInf => Fin(t)
    case Fin(x) => if x >= t then a else Fin(t)
    case PosInf => PosInf
  }

  /** `Math.min(a, t)` for a finite t. */
  function Min(a: ExtInt, t: int): (r: ExtInt)
    ensures a != NegInf ==> r.Fin? && r.v <= t && (a.Fin? ==> r.v <= a.v)
    ensures a != NegInf ==> r == Fin(t) || r == a
    ensures a == NegInf ==> r == NegInf
  {
    match a
    case NegInf => NegInf
    case Fin(x) => if x <= t then a else Fin(t)
    case PosInf => Fin(t)
  }

  /** `Math.round`: the nearest integer, halves rounded towards +Infinity. */
  function Round(x: real): (r: int)
    ensures x - 0.5 < r as real <= x + 0.5
  {
    (x + 0.5).Floor
  }

  /** The sum of a sequence of reals, accumulated from the left as a `+=` loop does. */
  function Sum(s: seq<real>): real
  {
    if s == [] then 0.0 else Sum(s[..|s| - 1]) + s[|s| - 1]
  }

  /** The concatenation of a sequence of strings, appended from the left. */
  function Flatten(ss: seq<string>): string
  {
    if ss == [] then "" else Flatten(ss[..|ss| - 1]) + ss[|ss| - 1]
  }

  /** [a] when the condition holds, nothing otherwise. */
  function When<T>(condition: bool, a: T): seq<T> {
    if condition then [a] else []
  }

  /** t when the condition holds, the empty string otherwise. */
  function Line(condition: bool, t: string): string {
    if condition then t else ""
  }

  /** f applied to every element, in order. */
  function Map<A, B>(f: A -> B, xs: seq<A>): seq<B>
  {
    if xs == [] then [] else Map(f, xs[..|xs| - 1]) + [f(xs[|xs| - 1])]
  }

  lemma {:induction false} MapIndex<A, B>(f: A -> B, xs: seq<A>)
    ensures |Map(f, xs)| == |xs|
    ensures forall k :: 0 <= k < |xs| ==> Map(f, xs)[k] == f(xs[k])
  {
    if xs != [] {
      MapIndex(f, xs[..|xs| - 1]);
    }
  }

  lemma MapWhen<A, B>(f: A -> B, xs: seq<A>, c: bool, a: A)
    ensures Map(f, xs + When(c, a)) == Map(f, xs) + When(c, f(a))
  {
    if c {
      assert (xs + [a])[..|xs|] == xs;
    } else {
      assert xs + When(c, a) == xs;
    }
  }

  lemma FlattenWhen(ss: seq<string>, c: bool, t: string)
    ensures Flatten(ss + When(c, t)) == Flatten(ss) + Line(c, t)
  {
    if c {
      assert (ss + [t])[..|ss|] == ss;
    } else {
      assert ss + When(c, t) == ss;
      AppendEmpty(Flatten(ss));
    }
  }

  lemma {:induction false} FlattenEmpty(ss: seq<string>)
    ensures Flatten(ss) == "" <==> forall k :: 0 <= k < |ss| ==> ss[k] == ""
  {
    if ss != [] {
      var init := ss[..|ss| - 1];
      FlattenEmpty(init);
      assert forall k :: 0 <= k < |init| ==> init[k] == ss[k];
    }
  }

  predicate IsDigit(c: char) {
    '0' <= c <= '9'
  }

  function DigitValue(c: char): (d: int)
    requires IsDigit(c)
    ensures 0 <= d <= 9
  {
    c as int - '0' as int
  }

  function DigitChar(d: int): (c: char)
    requires 0 <= d <= 9
    ensures IsDigit(c) && DigitValue(c) == d
  {
    ('0' as int + d) as char
  }

  /** A canonical decimal numeral: digits only, and no leading zero unless it is the single digit 0. */
  predicate Canonical(s: string) {
    && |s| > 0
    && (forall k :: 0 <= k < |s| ==> IsDigit(s[k]))
    && (|s| == 1 || s[0] != '0')
  }

  /** Decimal digits of a natural number, as JavaScript's template literals print it. */
  function NatToString(n: nat): (s: string)
    ensures n < 10 <==> |s| == 1
  {
    if n < 10 then [DigitChar(n)] else NatToString(n / 10) + [DigitChar(n % 10)]
  }

  /** The printed digits form a canonical numeral: no leading zero. */
  lemma {:induction false} NatToStringCanonical(n: nat)
    ensures Canonical(NatToString(n))
  {
    if n >= 10 {
      NatToStringCanonical(n / 10);
      var s := NatToString(n);
      assert s[..|s| - 1] == NatToString(n / 10);
    }
  }

  /** The value a numeral denotes, each character read as its distance from '0' (for digits, their value). */
  function DigitsValue(s: string): int
  {
    if s == [] then 0 else 10 * DigitsValue(s[..|s| - 1]) + (s[|s| - 1] as int - '0' as int)
  }

  lemma {:induction false} NatToStringValue(n: nat)
    ensures DigitsValue(NatToString(n)) == n
  {
    NatToStringCanonical(n);
    if n >= 10 {
      NatToStringValue(n / 10);
      var s := NatToString(n);
      assert s[..|s| - 1] == NatToString(n / 10);
    }
  }

  /** The value of a numeral of at most two digits. */
  lemma ShortDigitsValue(s: string)
    requires |s| <= 2 && forall k :: 0 <= k < |s| ==> IsDigit(s[k])
    ensures |s| == 0 ==> DigitsValue(s) == 0
    ensures |s| == 1 ==> DigitsValue(s) == DigitValue(s[0])
    ensures |s| == 2 ==> DigitsValue(s) == 10 * DigitValue(s[0]) + DigitValue(s[1])
  {
    if |s| == 1 {
      assert s[..0] == [];
    } else if |s| == 2 {
      assert s[..1][..0] == [];
    }
  }

  /** A numeral whose first digit is not zero denotes a positive number. */
  lemma {:induction false} LeadingDigitPositive(s: string)
    requires |s| > 0 && (forall k :: 0 <= k < |s| ==> IsDigit(s[k])) && s[0] != '0'
    ensures DigitsValue(s) > 0
  {
    if |s| > 1 {
      LeadingDigitPositive(s[..|s| - 1]);
    } else {
      assert s[..0] == [];
    }
  }

  /** The printed digits are the only canonical numeral for their number. */
  lemma {:induction false} CanonicalUnique(s: string, n: nat)
    requires Canonical(s) && DigitsValue(s) == n
    ensures s == NatToString(n)
  {
    var init := s[..|s| - 1];
    var d := DigitValue(s[|s| - 1]);
    if |s| == 1 {
      assert init == [];
      assert DigitChar(d) == s[0];
    } else {
      assert init[0] == s[0];
      LeadingDigitPositive(init);
      CanonicalUnique(init, DigitsValue(init));
      NatToStringCanonical(n);
      assert n / 10 == DigitsValue(init) && n % 10 == d;
      assert DigitChar(d) == s[|s| - 1];
      assert s == init + [s[|s| - 1]];
    }
  }

  /** An integer in decimal, with a leading minus sign when negative. */
  function IntToString(i: int): (s: string)
    ensures |s| > 0
  {
    if i < 0 then "-" + NatToString(-i) else NatToString(i)
  }

  /** The text of an integer is the canonical numeral of its magnitude, after a minus sign when negative. */
  lemma IntToStringDenotes(i: int)
    ensures var s := IntToString(i);
            i >= 0 ==> Canonical(s) && DigitsValue(s) == i
    ensures var s := IntToString(i);
            i < 0 ==> s[0] == '-' && Canonical(s[1..]) && DigitsValue(s[1..]) == -i
  {
    if i < 0 {
      NatToStringCanonical(-i);
      NatToStringValue(-i);
      assert IntToString(i)[1..] == NatToString(-i);
    } else {
      NatToStringCanonical(i);
      NatToStringValue(i);
    }
  }

  /** The characters `parseInt` skips at the front: JavaScript's white space and line terminators. */
  predicate IsJsSpace(c: char) {
    || c == '\t' || c == '\U{000B}' || c == '\U{000C}' || c == ' ' || c == '\U{00A0}' || c == '\U{FEFF}'
    || c == '\n' || c == '\r' || c == '\U{2028}' || c == '\U{2029}'
    || c == '\U{1680}' || ('\U{2000}' <= c <= '\U{200A}') || c == '\U{202F}' || c == '\U{205F}' || c == '\U{3000}'
  }

  /** s without its leading white space. */
  function TrimStart(s: string): string
    decreases |s|
  {
    if s != [] && IsJsSpace(s[0]) then TrimStart(s[1..]) else s
  }

  /** Trimming drops exactly the white space at the front: the rest is a suffix that starts with none. */
  lemma {:induction false} TrimStartDrops(s: string)
    ensures var t := TrimStart(s);
            && |t| <= |s| && t == s[|s| - |t|..]
            && (forall k :: 0 <= k < |s| - |t| ==> IsJsSpace(s[k]))
            && (t != [] ==> !IsJsSpace(t[0]))
    decreases |s|
  {
    if s != [] && IsJsSpace(s[0]) {
      TrimStartDrops(s[1..]);
    }
  }

  /** The longest prefix of s made of decimal digits. */
  function LeadingDigits(s: string): string
    decreases |s|
  {
    if s != [] && IsDigit(s[0]) then [s[0]] + LeadingDigits(s[1..]) else []
  }

  /** The leading digits are a prefix of digits that the next character, if any, does not extend. */
  lemma {:induction false} LeadingDigitsPrefix(s: string)
    ensures var z := LeadingDigits(s);
            && |z| <= |s| && z == s[..|z|]
            && (forall k :: 0 <= k < |z| ==> IsDigit(z[k]))
            && (|z| < |s| ==> !IsDigit(s[|z|]))
    decreases |s|
  {
    if s != [] && IsDigit(s[0]) {
      LeadingDigitsPrefix(s[1..]);
    }
  }

  lemma AppendAssoc(a: string, b: string, c: string)
    ensures (a + b) + c == a + (b + c)
  {
  }

  lemma AppendEmpty(s: string)
    ensures s + "" == s
  {
  }

  /** Array.prototype.includes: x is an element of xs, searched from the front. */
  predicate Includes<T(==)>(xs: seq<T>, x: T)
    decreases |xs|
  {
    xs != [] && (xs[0] == x || Includes(xs[1..], x))
  }

  lemma {:induction false} IncludesIn<T>(xs: seq<T>, x: T)
    ensures Includes(xs, x) <==> x in xs
    decreases |xs|
  {
    if xs != [] {
      IncludesIn(xs[1..], x);
      assert xs == [xs[0]] + xs[1..];
    }
  }

  /** String.prototype.includes: p occurs somewhere in s. */
  predicate Contains(s: string, p: string)
    decreases |s|
  {
    |p| <= |s| && (s[..|p|] == p || Contains(s[1..], p))
  }

  /** p occurs in s starting at position i. */
  predicate OccursAt(s: string, p: string, i: int) {
    0 <= i <= |s| - |p| && s[i..i + |p|] == p
  }

  /** The search succeeds exactly when p starts at some position of s. */
  lemma {:induction false} ContainsAt(s: string, p: string)
    ensures Contains(s, p) <==> exists i :: OccursAt(s, p, i)
    decreases |s|
  {
    if |p| <= |s| {
      if s[..|p|] == p {
        assert OccursAt(s, p, 0);
      } else {
        var t := s[1..];
        ContainsAt(t, p);
        if Contains(t, p) {
          var i :| OccursAt(t, p, i);
          assert s[i + 1..i + 1 + |p|] == t[i..i + |p|];
          assert OccursAt(s, p, i + 1);
        } else {
          forall i | 0 < i <= |s| - |p|
            ensures !OccursAt(s, p, i)
          {
            assert t[i - 1..i - 1 + |p|] == s[i..i + |p|];
            assert !OccursAt(t, p, i - 1);
          }
          assert !OccursAt(s, p, 0);
        }
      }
    }
  }

  lemma {:induction false} ContainsMiddle(a: string, p: string, b: string)
    ensures Contains(a + p + b, p)
    decreases |a|
  {
    var s := a + p + b;
    if a == [] {
      assert s[..|p|] == p;
    } else {
      ContainsMiddle(a[1..], p, b);
      assert s[1..] == a[1..] + p + b;
    }
  }

  lemma {:induction false} ContainsExtend(s: string, p: string, t: string)
    requires Contains(s, p)
    ensures Contains(s + t, p)
    decreases |s|
  {
    if s[..|p|] == p {
      assert (s + t)[..|p|] == p;
    } else {
      ContainsExtend(s[1..], p, t);
      assert (s + t)[1..] == s[1..] + t;
    }
  }

  lemma {:induction false} ContainsPrepend(a: string, s: string, p: string)
    requires Contains(s, p)
    ensures Contains(a + s, p)
    decreases |a|
  {
    if a == [] {
      assert a + s == s;
    } else {
      ContainsPrepend(a[1..], s, p);
      assert (a + s)[1..] == a[1..] + s;
    }
  }

  /** A string that some part contains is contained in the concatenation of the parts. */
  lemma {:induction false} FlattenContains(ss: seq<string>, k: int, p: string)
    requires 0 <= k < |ss| && Contains(ss[k], p)
    ensures Contains(Flatten(ss), p)
  {
    var init := ss[..|ss| - 1];
    if k == |ss| - 1 {
      ContainsPrepend(Flatten(init), ss[k], p);
    } else {
      assert init[k] == ss[k];
      FlattenContains(init, k, p);
      ContainsExtend(Flatten(init), p, ss[|ss| - 1]);
    }
  }
}
