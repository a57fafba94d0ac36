/** Strings as the database orders them, and zero-padded decimal numbering. */
module Text {

  /** Strict lexicographic order by character code. */
  predicate Less(a: string, b: string) {
    b != [] && (a == [] || a[0] < b[0] || (a[0] == b[0] && Less(a[1..], b[1..])))
  }

  lemma {:induction false} LessTotal(a: string, b: string)
    ensures a == b || Less(a, b) || Less(b, a)
    ensures !(Less(a, b) && (Less(b, a) || a == b))
  {
    if a != [] && b != [] && a[0] == b[0] {
      LessTotal(a[1..], b[1..]);
      assert a == [a[0]] + a[1..] && b == [b[0]] + b[1..];
    }
  }

  lemma {:induction false} LessTransitive(a: string, b: string, c: string)
    requires Less(a, b) && Less(b, c)
    ensures Less(a, c)
  {
    if a != [] && a[0] == b[0] && b[0] == c[0] {
      LessTransitive(a[1..], b[1..], c[1..]);
    }
  }

  lemma {:induction false} LessAfterPrefix(prefix: string, a: string, b: string)
    ensures Less(prefix + a, prefix + b) <==> Less(a, b)
  {
    if prefix == [] {
      assert prefix + a == a && prefix + b == b;
    } else {
      LessAfterPrefix(prefix[1..], a, b);
      assert (prefix + a)[1..] == prefix[1..] + a && (prefix + b)[1..] == prefix[1..] + b;
    }
  }

  /** Strictly ascending: sorted and without repetition. */
  ghost predicate Ascending(xs: seq<string>) {
    forall i, j :: 0 <= i < j < |xs| ==> Less(xs[i], xs[j])
  }

  function Insert(x: string, xs: seq<string>): seq<string> {
    if xs == [] then [x]
    else if x == xs[0] then xs
    else if Less(x, xs[0]) then [x] + xs
    else [xs[0]] + Insert(x, xs[1..])
  }

  /** The distinct strings of a sequence in ascending order. */
  function SortedNames(xs: seq<string>): seq<string> {
    if xs == [] then [] else Insert(xs[0], SortedNames(xs[1..]))
  }

  lemma {:induction false} InsertAscending(x: string, xs: seq<string>)
    requires Ascending(xs)
    ensures Ascending(Insert(x, xs))
    ensures forall y :: y in Insert(x, xs) <==> y == x || y in xs
  {
    if xs != [] && x != xs[0] {
      LessTotal(x, xs[0]);
      if Less(x, xs[0]) {
        forall i | 0 < i < |xs| ensures Less(x, xs[i]) {
          LessTransitive(x, xs[0], xs[i]);
        }
      } else {
        var rest := xs[1..];
        InsertAscending(x, rest);
        var ins := Insert(x, rest);
        forall i | 0 <= i < |ins| ensures Less(xs[0], ins[i]) {
          assert ins[i] in ins;
          if ins[i] != x {
            var k :| 0 <= k < |rest| && rest[k] == ins[i];
            assert xs[k + 1] == rest[k];
          }
        }
        assert xs == [xs[0]] + rest;
      }
    }
  }

  lemma {:induction false} SortedNamesAscending(xs: seq<string>)
    ensures Ascending(SortedNames(xs))
    ensures forall y :: y in SortedNames(xs) <==> y in xs
  {
    if xs != [] {
      SortedNamesAscending(xs[1..]);
      InsertAscending(xs[0], SortedNames(xs[1..]));
      assert xs == [xs[0]] + xs[1..];
    }
  }

  // ---------------------------------------------------------------- numbering

  const DIGITS := "0123456789"

  /** A number in decimal, padded with zeros to three digits (`:03d`). */
  function Pad3(n: nat): (s: string)
    ensures |s| == 3 <==> n < 1000
    ensures |s| >= 3
  {
    if n < 1000 then [DIGITS[n / 100], DIGITS[n / 10 % 10], DIGITS[n % 10]]
    else Pad3(n / 10) + [DIGITS[n % 10]]
  }

  lemma DigitsDistinct(a: nat, b: nat)
    requires a < 10 && b < 10
    ensures DIGITS[a] == DIGITS[b] <==> a == b
    ensures DIGITS[a] < DIGITS[b] <==> a < b
  {}

  lemma ThreeDigits(a: nat)
    requires a < 1000
    ensures a == 100 * (a / 100) + 10 * (a / 10 % 10) + a % 10
    ensures a / 100 < 10
  {
    assert a / 10 / 10 == a / 100;
  }

  lemma {:induction false} Pad3Injective(a: nat, b: nat)
    requires Pad3(a) == Pad3(b)
    ensures a == b
  {
    var s, t := Pad3(a), Pad3(b);
    if a < 1000 {
      assert b < 1000;
      assert s[0] == t[0] && s[1] == t[1] && s[2] == t[2];
      DigitsDistinct(a / 100, b / 100);
      DigitsDistinct(a / 10 % 10, b / 10 % 10);
      DigitsDistinct(a % 10, b % 10);
      ThreeDigits(a);
      ThreeDigits(b);
    } else {
      assert b >= 1000;
      assert s[|s| - 1] == DIGITS[a % 10] && t[|t| - 1] == DIGITS[b % 10];
      assert s[..|s| - 1] == Pad3(a / 10) && t[..|t| - 1] == Pad3(b / 10);
      DigitsDistinct(a % 10, b % 10);
      Pad3Injective(a / 10, b / 10);
    }
  }

  lemma LessByThree(s: string, t: string)
    requires |s| == |t| == 3
    requires s[0] < t[0] || (s[0] == t[0] && (s[1] < t[1] || (s[1] == t[1] && s[2] < t[2])))
    ensures Less(s, t)
  {
    assert s[1..][0] == s[1] && t[1..][0] == t[1];
    assert s[1..][1..][0] == s[2] && t[1..][1..][0] == t[2];
  }

  /** Below one thousand, string order is numeric order. */
  lemma {:induction false} Pad3Ordered(a: nat, b: nat)
    requires a < b < 1000
    ensures Less(Pad3(a), Pad3(b))
  {
    DigitsDistinct(a / 100, b / 100);
    DigitsDistinct(a / 10 % 10, b / 10 % 10);
    DigitsDistinct(a % 10, b % 10);
    ThreeDigits(a);
    ThreeDigits(b);
    hide Less;
    LessByThree(Pad3(a), Pad3(b));
  }

  function Pow10(k: nat): (p: nat)
    ensures p >= 1
  {
    if k == 0 then 1 else 10 * Pow10(k - 1)
  }

  lemma Thousand()
    ensures Pow10(3) == 1000
  {
    assert Pow10(1) == 10;
    assert Pow10(2) == 100;
  }

  /** A number below a power of ten has no more digits than the power has zeros, and at least three. */
  lemma {:induction false} Pad3Length(n: nat, k: nat)
    requires n < Pow10(k) && k >= 3
    ensures |Pad3(n)| <= k
  {
    Thousand();
    if n >= 1000 {
      Pad3Length(n / 10, k - 1);
    }
  }

  lemma Seventeen()
    ensures Pow10(17) >= 1000
  {
    Thousand();
    PowersGrow(3, 17);
  }

  lemma {:induction false} PowersGrow(j: nat, k: nat)
    requires j <= k
    ensures Pow10(j) <= Pow10(k)
    decreases k
  {
    if j < k {
      PowersGrow(j, k - 1);
    }
  }
}
