/**
 * The few functions of the Kotlin standard library that the app's core relies on,
 * written out so that the model can reason about them: `take`, `joinToString`,
 * `firstOrNull`, `filter`, `mapNotNull`, `indexOf`/`substringAfter`, `Int.toString()`,
 * `Char.isWhitespace()`, `trim()` and `isBlank()`.
 */
module KotlinStd {
  import opened Wrappers

  // ---------------------------------------------------------------- take

  /** `take(n)`: the first `n` elements, or all of them when there are fewer. */
  function Take<T>(s: seq<T>, n: nat): (r: seq<T>)
    ensures |r| == if |s| < n then |s| else n
    ensures r == s[..|r|]
  {
    if |s| <= n then s else s[..n]
  }

  // ---------------------------------------------------------------- joinToString

  /** The separator `joinToString()` uses when none is given. */
  const JoinSeparator: string := ", "

  /** The total length of the parts. */
  function SumLengths(parts: seq<string>): nat
  {
    if |parts| == 0 then 0 else |parts[0]| + SumLengths(parts[1..])
  }

  /**
   * `joinToString()` with the default separator ", ": the parts in order, one separator
   * between each two neighbours and none at either end.
   */
  function Join(parts: seq<string>): (r: string)
    ensures |parts| == 0 ==> r == ""
    ensures |parts| > 0 ==> |r| == SumLengths(parts) + |JoinSeparator| * (|parts| - 1)
    ensures |parts| > 0 ==> r[..|parts[0]|] == parts[0]
  {
    if |parts| == 0 then ""
    else if |parts| == 1 then parts[0]
    else parts[0] + JoinSeparator + Join(parts[1..])
  }

  /** Joining one more part appends a separator and that part. */
  lemma {:induction false} JoinSnoc(parts: seq<string>, p: string)
    requires |parts| > 0
    ensures Join(parts + [p]) == Join(parts) + JoinSeparator + p
    decreases |parts|
  {
    if |parts| == 1 {
      assert parts + [p] == [parts[0], p];
      assert (parts + [p])[1..] == [p];
    } else {
      assert (parts + [p])[1..] == parts[1..] + [p];
      JoinSnoc(parts[1..], p);
    }
  }

  // ---------------------------------------------------------------- firstOrNull / filter / mapNotNull

  /** The index of the element `firstOrNull { p(it) }` returns, or `None` when it returns null. */
  function FirstIndex<T>(s: seq<T>, p: T -> bool): (r: Option<nat>)
    ensures r.Some? ==> r.value < |s| && p(s[r.value])
    ensures r.Some? ==> forall j :: 0 <= j < r.value ==> !p(s[j])
    ensures r.None? ==> forall j :: 0 <= j < |s| ==> !p(s[j])
  {
    if |s| == 0 then None
    else if p(s[0]) then Some(0)
    else match FirstIndex(s[1..], p)
      case None => None
      case Some(i) => Some(i + 1)
  }

  /** `filter { p(it) }`: the elements satisfying `p`, in their original order. */
  function Filter<T>(s: seq<T>, p: T -> bool): (r: seq<T>)
    ensures |r| <= |s|
    ensures forall x :: x in r ==> x in s && p(x)
    ensures forall x :: x in s && p(x) ==> x in r
  {
    if |s| == 0 then []
    else (if p(s[0]) then [s[0]] else []) + Filter(s[1..], p)
  }

  /** Filtering a sequence extended at its end extends the filtered sequence the same way. */
  lemma {:induction false} FilterSnoc<T>(s: seq<T>, x: T, p: T -> bool)
    ensures Filter(s + [x], p) == Filter(s, p) + (if p(x) then [x] else [])
  {
    if |s| == 0 {
      assert s + [x] == [x];
    } else {
      assert (s + [x])[1..] == s[1..] + [x];
      FilterSnoc(s[1..], x, p);
    }
  }

  /** Filtering distributes over concatenation. */
  lemma {:induction false} FilterConcat<T>(s: seq<T>, t: seq<T>, p: T -> bool)
    ensures Filter(s + t, p) == Filter(s, p) + Filter(t, p)
  {
    if |s| == 0 {
      assert s + t == t;
    } else {
      assert (s + t)[1..] == s[1..] + t;
      FilterConcat(s[1..], t, p);
    }
  }

  /** Filtering twice by the same predicate is filtering once. */
  lemma {:induction false} FilterIdempotent<T>(s: seq<T>, p: T -> bool)
    ensures Filter(Filter(s, p), p) == Filter(s, p)
  {
    if |s| > 0 {
      FilterIdempotent(s[1..], p);
      var f := Filter(s, p);
      if p(s[0]) {
        assert f[0] == s[0] && f[1..] == Filter(s[1..], p);
        assert Filter(f, p) == [s[0]] + Filter(Filter(s[1..], p), p);
      } else {
        assert f == Filter(s[1..], p);
      }
    }
  }

  /** Nothing is left when no element satisfies the predicate. */
  lemma {:induction false} FilterNone<T>(s: seq<T>, p: T -> bool)
    requires forall x :: x in s ==> !p(x)
    ensures Filter(s, p) == []
  {
    if |s| > 0 {
      assert s[0] in s;
      assert forall x :: x in s[1..] ==> x in s;
      FilterNone(s[1..], p);
    }
  }

  /** Nothing is dropped when every element satisfies the predicate. */
  lemma {:induction false} FilterAll<T>(s: seq<T>, p: T -> bool)
    requires forall x :: x in s ==> p(x)
    ensures Filter(s, p) == s
  {
    if |s| > 0 {
      assert s[0] in s;
      assert forall x :: x in s[1..] ==> x in s;
      FilterAll(s[1..], p);
      assert s == [s[0]] + s[1..];
    }
  }

  /** The arguments on which `f` is not null. */
  function Defined<A, B>(f: A -> Option<B>): A -> bool
  {
    (x: A) => f(x).Some?
  }

  /**
   * `mapNotNull { f(it) }`: the non-null images, in the order of their arguments, one per
   * argument on which `f` is not null.
   */
  function MapNotNull<A, B>(s: seq<A>, f: A -> Option<B>): (r: seq<B>)
    ensures |r| <= |s|
    ensures forall y :: y in r ==> exists x :: x in s && f(x) == Some(y)
    ensures forall x :: x in s && f(x).Some? ==> f(x).value in r
    ensures |r| == |Filter(s, Defined(f))|
    ensures forall i :: 0 <= i < |r| ==> f(Filter(s, Defined(f))[i]) == Some(r[i])
  {
    if |s| == 0 then []
    else
      var rest := MapNotNull(s[1..], f);
      assert forall x :: x in s[1..] ==> x in s;
      var kept := Filter(s[1..], Defined(f));
      match f(s[0])
      case None =>
        assert Filter(s, Defined(f)) == kept;
        rest
      case Some(y) =>
        assert Filter(s, Defined(f)) == [s[0]] + kept;
        ImagesCons(s[0], kept, y, rest, f);
        [y] + rest
  }

  /** Prepending an argument and its image keeps a pointwise image relation. */
  lemma ImagesCons<A, B>(x: A, xs: seq<A>, y: B, ys: seq<B>, f: A -> Option<B>)
    requires f(x) == Some(y) && |xs| == |ys|
    requires forall i :: 0 <= i < |ys| ==> f(xs[i]) == Some(ys[i])
    ensures forall i :: 0 <= i < |ys| + 1 ==> f(([x] + xs)[i]) == Some(([y] + ys)[i])
  {
    forall i | 0 <= i < |ys| + 1 ensures f(([x] + xs)[i]) == Some(([y] + ys)[i]) {
      if i > 0 {
        assert ([x] + xs)[i] == xs[i - 1] && ([y] + ys)[i] == ys[i - 1];
      }
    }
  }

  /** `map { f(it) }`. */
  function Map<A, B>(s: seq<A>, f: A -> B): (r: seq<B>)
    ensures |r| == |s|
    ensures forall i :: 0 <= i < |s| ==> r[i] == f(s[i])
  {
    seq(|s|, i requires 0 <= i < |s| => f(s[i]))
  }

  // ---------------------------------------------------------------- indexOf / substringAfter

  /** `d` occurs in `s` starting at index `i`. */
  predicate OccursAt(s: string, d: string, i: nat)
  {
    i + |d| <= |s| && s[i..i + |d|] == d
  }

  /** `indexOf(d, startIndex = from)`: the first occurrence of `d` at or after `from`. */
  function IndexOfFrom(s: string, d: string, from: nat): (r: Option<nat>)
    requires from <= |s|
    ensures r.Some? ==> from <= r.value && OccursAt(s, d, r.value)
    ensures r.Some? ==> forall j :: from <= j < r.value ==> !OccursAt(s, d, j)
    ensures r.None? ==> forall j :: from <= j <= |s| ==> !OccursAt(s, d, j)
    decreases |s| - from
  {
    if OccursAt(s, d, from) then Some(from)
    else if from == |s| then None
    else IndexOfFrom(s, d, from + 1)
  }

  /** `indexOf(d)`; `None` stands for Kotlin's -1. */
  function IndexOf(s: string, d: string): Option<nat>
  {
    IndexOfFrom(s, d, 0)
  }

  /**
   * `substringAfter(d)`: the text after the first occurrence of `d`, or the whole
   * string when `d` does not occur in it.
   */
  function SubstringAfter(s: string, d: string): (r: string)
    ensures (forall j :: 0 <= j <= |s| ==> !OccursAt(s, d, j)) ==> r == s
    ensures forall i :: 0 <= i <= |s| && OccursAt(s, d, i) && (forall j :: 0 <= j < i ==> !OccursAt(s, d, j))
                ==> r == s[i + |d|..]
  {
    match IndexOf(s, d)
    case None => s
    case Some(i) => s[i + |d|..]
  }

  // ---------------------------------------------------------------- Int.toString()

  predicate IsDigit(c: char)
  {
    '0' <= c <= '9'
  }

  /** The character of a decimal digit. */
  function DigitChar(d: nat): (c: char)
    requires d < 10
    ensures IsDigit(c) && DigitOf(c) == d
  {
    ('0' as int + d) as char
  }

  /** The value of a digit character. */
  function DigitOf(c: char): nat
    requires IsDigit(c)
  {
    c as int - '0' as int
  }

  /** The number a string of decimal digits denotes, most significant first. */
  function DigitsValue(s: string): nat
    requires forall i :: 0 <= i < |s| ==> IsDigit(s[i])
  {
    if |s| == 0 then 0 else DigitsValue(s[..|s| - 1]) * 10 + DigitOf(s[|s| - 1])
  }

  /** The number an optional minus sign followed by decimal digits denotes. */
  function DecimalValue(s: string): int
    requires |s| > 0 && (s[0] == '-' || IsDigit(s[0]))
    requires forall i :: 1 <= i < |s| ==> IsDigit(s[i])
  {
    if s[0] == '-' then -(DigitsValue(s[1..]) as int) else DigitsValue(s) as int
  }

  /** Decimal digits of a non-negative number, most significant first. */
  function NatToString(n: nat): (r: string)
    ensures |r| >= 1
    ensures forall i :: 0 <= i < |r| ==> IsDigit(r[i])
    ensures DigitsValue(r) == n
    decreases n
  {
    if n < 10 then [DigitChar(n)]
    else
      var r := NatToString(n / 10) + [DigitChar(n % 10)];
      assert r[..|r| - 1] == NatToString(n / 10);
      r
  }

  /**
   * `Int.toString()` (and string templates `"$n"`): a minus sign exactly for a negative
   * number, then its decimal digits; read back, the text is `n`.
   */
  function IntToString(n: int): (r: string)
    ensures |r| >= 1 && (r[0] == '-' <==> n < 0)
    ensures forall i :: 0 <= i < |r| ==> IsDigit(r[i]) || (i == 0 && r[i] == '-')
    ensures DecimalValue(r) == n
  {
    if n < 0 then
      var r := "-" + NatToString(-n);
      assert r[1..] == NatToString(-n);
      r
    else NatToString(n)
  }

  /** Distinct numbers have distinct decimal texts. */
  lemma IntToStringInjective(a: int, b: int)
    requires IntToString(a) == IntToString(b)
    ensures a == b
  {
    assert DecimalValue(IntToString(a)) == DecimalValue(IntToString(b));
  }

  // ---------------------------------------------------------------- isWhitespace / trim / isBlank

  /**
   * `Char.isWhitespace()` on the JVM: `Character.isWhitespace` or `Character.isSpaceChar`,
   * i.e. the control characters U+0009..U+000D and U+001C..U+001F and the Unicode
   * space, line and paragraph separators.
   */
  predicate IsWhitespace(c: char)
  {
    ('\U{9}' <= c <= '\U{D}') || ('\U{1C}' <= c <= '\U{20}')
    || c == '\U{A0}' || c == '\U{1680}' || ('\U{2000}' <= c <= '\U{200A}')
    || c == '\U{2028}' || c == '\U{2029}' || c == '\U{202F}' || c == '\U{205F}' || c == '\U{3000}'
  }

  /** `isBlank()`: every character is whitespace (true of the empty string). */
  predicate IsBlank(s: string)
  {
    forall i :: 0 <= i < |s| ==> IsWhitespace(s[i])
  }

  /** Where `trim()`'s start index stops: the first non-whitespace position at or after `i`. */
  function TrimStartIndex(s: string, i: nat): (k: nat)
    requires i <= |s|
    ensures i <= k <= |s|
    ensures forall j :: i <= j < k ==> IsWhitespace(s[j])
    ensures k < |s| ==> !IsWhitespace(s[k])
    decreases |s| - i
  {
    if i < |s| && IsWhitespace(s[i]) then TrimStartIndex(s, i + 1) else i
  }

  /**
   * Where `trim()`'s end index stops, scanning back from `e` over whitespace but never
   * below `lo`: one past the last non-whitespace position of `s[lo..e]`, or `lo`.
   */
  function TrimEndIndex(s: string, lo: nat, e: nat): (k: nat)
    requires lo <= e <= |s|
    ensures lo <= k <= e
    ensures forall j :: k <= j < e ==> IsWhitespace(s[j])
    ensures k > lo ==> !IsWhitespace(s[k - 1])
    decreases e
  {
    if e > lo && IsWhitespace(s[e - 1]) then TrimEndIndex(s, lo, e - 1) else e
  }

  /**
   * `trim()`: a start index moves forward over whitespace, then an end index moves back
   * over whitespace without passing it, and what lies between is kept.
   */
  function Trim(s: string): (r: string)
    ensures |r| <= |s|
    ensures |r| > 0 ==> !IsWhitespace(r[0]) && !IsWhitespace(r[|r| - 1])
  {
    var a := TrimStartIndex(s, 0);
    s[a..TrimEndIndex(s, a, |s|)]
  }

  /**
   * `trim()` splits `s` into blank leading text, the trimmed text and blank trailing
   * text; the trimmed text neither starts nor ends with whitespace.
   */
  lemma TrimIsSlice(s: string)
    ensures |Trim(s)| > 0 ==> !IsWhitespace(Trim(s)[0]) && !IsWhitespace(Trim(s)[|Trim(s)| - 1])
    ensures var a := TrimStartIndex(s, 0);
            a + |Trim(s)| <= |s| &&
            (forall i :: 0 <= i < a ==> IsWhitespace(s[i])) &&
            (forall k :: 0 <= k < |Trim(s)| ==> Trim(s)[k] == s[a + k]) &&
            (forall i :: a + |Trim(s)| <= i < |s| ==> IsWhitespace(s[i]))
  {
    var a := TrimStartIndex(s, 0);
    var e := TrimEndIndex(s, a, |s|);
    assert Trim(s) == s[a..e];
  }

  /** `trim()` leaves nothing exactly when the string `isBlank()`. */
  lemma TrimEmptyIffBlank(s: string)
    ensures Trim(s) == [] <==> IsBlank(s)
  {
    var a := TrimStartIndex(s, 0);
    var e := TrimEndIndex(s, a, |s|);
    if Trim(s) == [] {
      assert e == a;
    } else if a < |s| {
      assert !IsWhitespace(s[a]);
    }
  }

  /** A trimmed string that is not empty is not blank either. */
  lemma TrimmedNotBlank(s: string)
    requires Trim(s) != []
    ensures !IsBlank(Trim(s))
  {
    assert !IsWhitespace(Trim(s)[0]);
  }
}
