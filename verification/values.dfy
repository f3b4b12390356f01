/** Value types shared by every page of the ROI dashboard: optional values,
    numeric inputs, the caller's role, and the decimal text that the pages
    write into field paths and URL parameters. */
module Values {

  datatype Option<+T> = None | Some(value: T)

  /** A numeric input or stored amount. `Blank` is the empty input `""` or an
      absent value; `Val(n)` is a number. The parse of the input text itself
      is abstracted: a form input already holds the number it denotes. */
  datatype Num = Blank | Val(n: int)

  /** `Number(x || 0)`: a blank or absent amount counts as zero. */
  function Norm(x: Num): int
  {
    match x
    case Blank => 0
    case Val(n) => n
  }

  /** JavaScript truthiness of an amount: `""`, `undefined` and `0` are falsy. */
  predicate Truthy(x: Num)
  {
    x.Val? && x.n != 0
  }

  /** `x > 0` on an amount; a blank or absent value is never positive. */
  predicate Positive(x: Num)
  {
    x.Val? && x.n > 0
  }

  /** The caller's role. `OtherRole` is any other role and also the state
      where no user is known yet. */
  datatype Role = Owner | Staff | OtherRole

  // ----- decimal text -------------------------------------------------------

  predicate IsDigit(c: char)
  {
    '0' <= c <= '9'
  }

  predicate AllDigits(s: string)
  {
    forall i | 0 <= i < |s| :: IsDigit(s[i])
  }

  function DigitChar(d: nat): (c: char)
    requires d < 10
    ensures IsDigit(c)
  {
    (48 + d) as char
  }

  function DigitValue(c: char): (d: nat)
    requires IsDigit(c)
    ensures d < 10
  {
    c as int - 48
  }

  /** The decimal text of `n`, as a template literal renders a number. */
  function NatText(n: nat): (s: string)
    ensures |s| > 0 && AllDigits(s)
    ensures n < 10 <==> |s| == 1
    decreases n
  {
    if n < 10 then [DigitChar(n)] else NatText(n / 10) + [DigitChar(n % 10)]
  }

  /** The number a non-empty string of digits denotes (leading zeros allowed). */
  function DigitsValue(s: string): nat
    requires AllDigits(s)
  {
    if |s| == 0 then 0 else DigitsValue(s[..|s| - 1]) * 10 + DigitValue(s[|s| - 1])
  }

  /** Reading back the decimal text of a number gives the number. */
  lemma {:induction false} DigitsValueOfNatText(n: nat)
    ensures DigitsValue(NatText(n)) == n
    decreases n
  {
    if n >= 10 {
      var s := NatText(n);
      assert s[..|s| - 1] == NatText(n / 10);
      DigitsValueOfNatText(n / 10);
    }
  }

  /** Decimal text of an integer, with a leading minus sign when negative. */
  function IntText(n: int): (s: string)
    ensures |s| > 0
  {
    if n < 0 then "-" + NatText(-n) else NatText(n)
  }

  /** `Number(s)` on a URL parameter, restricted to integers: the empty
      string is 0, an optional minus sign followed by digits is that
      integer, anything else is NaN (`None`). */
  function JsNumber(s: string): (r: Option<int>)
    ensures r.Some? <==> AllDigits(s) || (|s| > 1 && s[0] == '-' && AllDigits(s[1..]))
    ensures s == "" ==> r == Some(0)
    ensures AllDigits(s) ==> r == Some(DigitsValue(s))
    ensures |s| > 1 && s[0] == '-' && AllDigits(s[1..]) ==> r == Some(0 - DigitsValue(s[1..]))
  {
    if s == "" then Some(0)
    else if AllDigits(s) then Some(DigitsValue(s))
    else if s[0] == '-' && |s| > 1 && AllDigits(s[1..]) then Some(0 - DigitsValue(s[1..]))
    else None
  }

  /** `Number(String(n)) == n` for every integer. */
  lemma JsNumberOfIntText(n: int)
    ensures JsNumber(IntText(n)) == Some(n)
  {
    if n < 0 {
      JsNumberOfNegative(-n);
    } else {
      DigitsValueOfNatText(n);
    }
  }

  lemma JsNumberOfNegative(m: nat)
    requires m > 0
    ensures JsNumber("-" + NatText(m)) == Some(0 - m)
  {
    var s := "-" + NatText(m);
    assert !AllDigits(s) by {
      assert !IsDigit(s[0]);
    }
    assert s[1..] == NatText(m);
    DigitsValueOfNatText(m);
  }

  // ----- searching text -----------------------------------------------------

  /** Position of the first `c` in `s`, or `|s|` when there is none. */
  function IndexOf(s: string, c: char): (i: nat)
    ensures i <= |s|
    ensures c !in s[..i]
    ensures i < |s| ==> s[i] == c
  {
    if |s| == 0 then 0
    else if s[0] == c then 0
    else
      var j := IndexOf(s[1..], c);
      assert s[1..][..j] == s[1..j + 1];
      assert s[..j + 1] == [s[0]] + s[1..j + 1];
      1 + j
  }

  /** The first `c` in `a + [c] + b` is the one right after `a`. */
  lemma IndexOfAfter(a: string, c: char, b: string)
    requires c !in a
    ensures IndexOf(a + [c] + b, c) == |a|
  {
    var s := a + [c] + b;
    var i := IndexOf(s, c);
    assert s[..|a|] == a;
    assert s[|a|] == c;
  }

  /** A string without `c` has its "first `c`" at its end. */
  lemma IndexOfAbsent(s: string, c: char)
    requires c !in s
    ensures IndexOf(s, c) == |s|
  {
  }

  predicate HasPrefix(s: string, p: string)
  {
    |p| <= |s| && s[..|p|] == p
  }

  // ----- counting -----------------------------------------------------------

  /** How many times `x` occurs in `s`. */
  function Count<T(==)>(s: seq<T>, x: T): nat
  {
    if |s| == 0 then 0 else Count(s[..|s| - 1], x) + if s[|s| - 1] == x then 1 else 0
  }

  lemma {:induction false} CountConcat<T>(a: seq<T>, b: seq<T>, x: T)
    ensures Count(a + b, x) == Count(a, x) + Count(b, x)
  {
    if |b| > 0 {
      assert (a + b)[..|a + b| - 1] == a + b[..|b| - 1];
      CountConcat(a, b[..|b| - 1], x);
    } else {
      assert a + b == a;
    }
  }

  lemma CountOne<T>(a: T, x: T)
    ensures Count([a], x) == if a == x then 1 else 0
  {
    assert [a][..0] == [];
  }

  lemma CountPair<T>(a: T, b: T, x: T)
    ensures Count([a, b], x) == (if a == x then 1 else 0) + (if b == x then 1 else 0)
  {
    assert [a, b][..1] == [a];
    CountOne(a, x);
  }

  /** A value occurs in a sequence exactly when it is counted there. */
  lemma {:induction false} CountPositive<T>(s: seq<T>, x: T)
    ensures Count(s, x) > 0 <==> x in s
  {
    if |s| > 0 {
      CountPositive(s[..|s| - 1], x);
      assert s == s[..|s| - 1] + [s[|s| - 1]];
    }
  }

  /** A value found at exactly one position is counted once. */
  lemma {:induction false} CountUnique<T>(s: seq<T>, x: T, i: nat)
    requires i < |s| && s[i] == x
    requires forall j | 0 <= j < |s| && j != i :: s[j] != x
    ensures Count(s, x) == 1
  {
    var init := s[..|s| - 1];
    if i == |s| - 1 {
      CountPositive(init, x);
    } else {
      CountUnique(init, x, i);
    }
  }

  /** Dropping the last element of a concatenation with a non-empty right
      part drops it from the right part. */
  lemma InitOfConcat<T>(a: seq<T>, b: seq<T>)
    ensures |b| > 0 ==> (a + b)[..|a + b| - 1] == a + b[..|b| - 1]
    ensures |b| == 0 ==> a + b == a
  {
    if |b| > 0 {
      assert (a + b)[..|a + b| - 1] == a + b[..|b| - 1];
    } else {
      assert a + b == a;
    }
  }

  /** Taking out the last element of `a` and a matching element of a
      permutation `b` leaves permutations of each other. */
  lemma MultisetRemove<T>(a: seq<T>, b: seq<T>, j: nat)
    requires |a| > 0 && j < |b| && b[j] == a[|a| - 1]
    requires multiset(a) == multiset(b)
    ensures b == b[..j] + [b[j]] + b[j + 1..]
    ensures multiset(a[..|a| - 1]) == multiset(b[..j] + b[j + 1..])
  {
    var x := b[j];
    assert a == a[..|a| - 1] + [x];
    assert b == b[..j] + [x] + b[j + 1..];
    assert multiset(a) == multiset(a[..|a| - 1]) + multiset{x};
    assert multiset(b) == multiset(b[..j]) + multiset{x} + multiset(b[j + 1..]);
    assert multiset(b[..j] + b[j + 1..]) == multiset(b[..j]) + multiset(b[j + 1..]);
    assert multiset(a[..|a| - 1]) == multiset(a) - multiset{x};
    assert multiset(b[..j] + b[j + 1..]) == multiset(b) - multiset{x};
  }
}
