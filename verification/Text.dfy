/** Strings: white space, splitting, and decimal digits. */
module Text {
  import opened Common

  /** char.IsWhiteSpace. */
  predicate IsSpace(c: char) { c == ' ' || '\t' <= c <= '\r' || IsWideSpace(c) }

  predicate IsWideSpace(c: char) {
    || c == '\U{85}' || c == '\U{a0}' || c == '\U{1680}' || '\U{2000}' <= c <= '\U{200a}'
    || c == '\U{2028}' || c == '\U{2029}' || c == '\U{202f}' || c == '\U{205f}' || c == '\U{3000}'
  }

  predicate IsBlank(s: string) { forall i :: 0 <= i < |s| ==> IsSpace(s[i]) }

  function TrimLeft(s: string): (t: string)
    ensures |t| <= |s|
    ensures t != [] ==> !IsSpace(t[0])
  {
    if s != [] && IsSpace(s[0]) then TrimLeft(s[1..]) else s
  }

  function TrimRight(s: string): (t: string)
    ensures |t| <= |s| && t == s[..|t|]
    ensures t != [] ==> !IsSpace(t[|t| - 1])
  {
    if s != [] && IsSpace(s[|s| - 1]) then TrimRight(s[..|s| - 1]) else s
  }

  function Trim(s: string): (t: string)
    ensures |t| <= |s|
  {
    TrimRight(TrimLeft(s))
  }

  /** No white space at either end. */
  predicate Tidy(s: string) { s == [] || (!IsSpace(s[0]) && !IsSpace(s[|s| - 1])) }

  lemma TidyTrims(s: string)
    requires Tidy(s)
    ensures TrimLeft(s) == s && TrimRight(s) == s && Trim(s) == s
  {}

  predicate Free(s: string, c: char) { c !in s }

  /** Pieces between separators; always at least one. */
  function Split(s: string, sep: char): (parts: seq<string>)
    ensures parts != []
  {
    if s == [] then [[]]
    else
      var rest := Split(s[1..], sep);
      if s[0] == sep then [[]] + rest else [[s[0]] + rest[0]] + rest[1..]
  }

  function LastIndexOf(s: string, c: char): (i: int)
    ensures -1 <= i < |s|
    ensures i >= 0 ==> s[i] == c
    ensures forall k :: i < k < |s| ==> s[k] != c
  {
    if s == [] then -1
    else if s[|s| - 1] == c then |s| - 1 else LastIndexOf(s[..|s| - 1], c)
  }

  lemma {:induction false} SplitFree(s: string, sep: char)
    requires Free(s, sep)
    ensures Split(s, sep) == [s]
  {
    if s != [] {
      SplitFree(s[1..], sep);
      assert [s[0]] + s[1..] == s;
    }
  }

  lemma {:induction false} SplitJoin(a: string, b: string, sep: char)
    requires Free(a, sep)
    ensures Split(a + [sep] + b, sep) == [a] + Split(b, sep)
  {
    var s := a + [sep] + b;
    if a == [] {
      assert s == [sep] + b && s[1..] == b;
    } else {
      SplitJoin(a[1..], b, sep);
      assert s[1..] == a[1..] + [sep] + b;
      assert [a[0]] + a[1..] == a;
    }
  }

  lemma {:induction false} LastIndexJoin(a: string, b: string, sep: char)
    requires Free(b, sep)
    ensures LastIndexOf(a + [sep] + b, sep) == |a|
  {
    var s := a + [sep] + b;
    var n := |s| - 1;
    if b != [] {
      assert s[n] == b[|b| - 1];
      assert s[..n] == a + [sep] + b[..|b| - 1];
      LastIndexJoin(a, b[..|b| - 1], sep);
    } else {
      assert s[n] == sep;
    }
  }

  // ----- ordinal order ----------------------------------------------------------------------

  /** Ordinal string comparison: by first differing character, then by length. */
  predicate Before(a: string, b: string) {
    b != [] && (a == [] || a[0] < b[0] || (a[0] == b[0] && Before(a[1..], b[1..])))
  }

  lemma {:induction false} BeforeIsTotal(a: string, b: string)
    ensures a != b ==> (Before(a, b) <==> !Before(b, a))
    ensures !Before(a, a)
  {
    if a != [] && b != [] {
      BeforeIsTotal(a[1..], b[1..]);
      if a[0] == b[0] && a[1..] == b[1..] {
        assert a == [a[0]] + a[1..] && b == [b[0]] + b[1..];
      }
    }
    if a != [] {
      BeforeIsTotal(a[1..], a[1..]);
    }
  }

  lemma {:induction false} BeforeIsTransitive(a: string, b: string, c: string)
    requires Before(a, b) && Before(b, c)
    ensures Before(a, c)
  {
    if a != [] && a[0] == b[0] && b[0] == c[0] {
      BeforeIsTransitive(a[1..], b[1..], c[1..]);
    }
  }

  // ----- decimal digits ---------------------------------------------------------------------

  predicate IsDigit(c: char) { '0' <= c <= '9' }

  function Digit(d: nat): (c: char)
    requires d < 10
    ensures IsDigit(c)
  {
    (d + '0' as int) as char
  }

  function DigitValue(c: char): Option<nat> {
    if IsDigit(c) then Some((c as int) - ('0' as int)) else None
  }

  function Decimal(n: nat): (s: string)
    ensures s != [] && forall i :: 0 <= i < |s| ==> IsDigit(s[i])
  {
    if n < 10 then [Digit(n)] else Decimal(n / 10) + [Digit(n % 10)]
  }

  function DigitsValue(s: string): Option<nat> {
    if s == [] then Some(0)
    else
      var head, last := DigitsValue(s[..|s| - 1]), DigitValue(s[|s| - 1]);
      if head.None? || last.None? then None else Some(head.value * 10 + last.value)
  }

  lemma DigitRoundTrip(d: nat)
    requires d < 10
    ensures DigitValue(Digit(d)) == Some(d)
  {}

  lemma DigitsSnoc(s: string, d: nat)
    requires d < 10 && DigitsValue(s).Some?
    ensures DigitsValue(s + [Digit(d)]) == Some(DigitsValue(s).value * 10 + d)
  {
    hide Digit, DigitValue;
    DigitRoundTrip(d);
    assert (s + [Digit(d)])[..|s|] == s;
  }

  lemma {:induction false} DecimalValue(n: nat)
    ensures DigitsValue(Decimal(n)) == Some(n)
  {
    hide Digit, DigitValue, DigitsValue;
    EmptyDigits();
    if n < 10 {
      DigitsSnoc([], n);
      assert [] + [Digit(n)] == [Digit(n)];
    } else {
      DecimalValue(n / 10);
      DigitsSnoc(Decimal(n / 10), n % 10);
    }
  }

  lemma EmptyDigits()
    ensures DigitsValue([]) == Some(0)
  {}
}
