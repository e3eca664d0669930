/**
 Decimal block numbers and dotted identifiers.

 Redis hash fields and the manual publisher's block list are decimal strings, and
 row identifiers are dot-joined parts. Both are used as keys, so what matters is
 that distinct values have distinct texts.
 */
module Decimal {
  import opened Prelude

  const UINT64_LIMIT: nat := 0x1_0000_0000_0000_0000

  predicate IsDigit(c: char) {
    '0' <= c <= '9'
  }

  predicate AllDigits(s: string) {
    forall i :: 0 <= i < |s| ==> IsDigit(s[i])
  }

  function DigitOf(d: nat): (c: char)
    requires d < 10
    ensures IsDigit(c)
  {
    ('0' as int + d) as char
  }

  function ValueOf(c: char): (d: nat)
    requires IsDigit(c)
    ensures d < 10 && DigitOf(d) == c
  {
    c as int - '0' as int
  }

  /** `fmt.Sprintf("%d", n)`. */
  function Show(n: nat): (s: string)
    ensures |s| > 0 && AllDigits(s)
    ensures n > 0 ==> s[0] != '0'
  {
    if n < 10 then [DigitOf(n)] else Show(n / 10) + [DigitOf(n % 10)]
  }

  /** Which text that is: the digits of the number, most significant first. */
  lemma ShowDigits(n: nat, d: nat)
    requires d < 10
    ensures Show(d) == ["0123456789"[d]]
    ensures n > 0 ==> Show(10 * n + d) == Show(n) + ["0123456789"[d]]
  {
  }

  /** The number a string of digits stands for, most significant digit first. */
  function Value(s: string): nat
    requires AllDigits(s)
  {
    if s == "" then 0 else 10 * Value(s[..|s| - 1]) + ValueOf(s[|s| - 1])
  }

  /** `strconv.ParseUint(s, 10, 64)`: no sign, no separators, leading zeros accepted. */
  function ParseUint(s: string): Result<nat> {
    if s == "" || !AllDigits(s) then Failure
    else if Value(s) >= UINT64_LIMIT then Failure
    else Success(Value(s))
  }

  /** No superfluous leading zero. */
  predicate Canonical(s: string) {
    |s| == 1 || (|s| > 1 && s[0] != '0')
  }

  lemma {:induction false} ValueOfShow(n: nat)
    ensures Value(Show(n)) == n
  {
    if n >= 10 {
      var front := Show(n / 10);
      ValueOfShow(n / 10);
      assert Show(n)[..|Show(n)| - 1] == front;
    } else {
      assert Show(n)[..0] == "";
    }
  }

  /** Parsing what was printed gives the number back, for every uint64. */
  lemma ParseAfterShow(n: nat)
    requires n < UINT64_LIMIT
    ensures ParseUint(Show(n)) == Success(n)
  {
    ValueOfShow(n);
  }

  lemma ShowInjective(m: nat, n: nat)
    ensures Show(m) == Show(n) ==> m == n
  {
    ValueOfShow(m);
    ValueOfShow(n);
  }

  lemma {:induction false} ShowIsCanonical(n: nat)
    ensures Canonical(Show(n))
  {
    if n >= 10 {
      assert |Show(n)| > 1;
    }
  }

  lemma {:induction false} PositiveWhenCanonical(s: string)
    requires s != "" && AllDigits(s) && s[0] != '0'
    ensures Value(s) > 0
  {
    var front := s[..|s| - 1];
    if |s| == 1 {
      assert front == "";
    } else {
      PositiveWhenCanonical(front);
    }
  }

  lemma {:induction false} ShowOfValue(s: string)
    requires s != "" && AllDigits(s) && Canonical(s)
    ensures Show(Value(s)) == s
  {
    var front := s[..|s| - 1];
    if |s| == 1 {
      assert front == "" && Value(front) == 0;
    } else {
      assert front[0] == s[0];
      PositiveWhenCanonical(front);
      ShowOfValue(front);
      assert Value(s) / 10 == Value(front);
      assert s == front + [s[|s| - 1]];
    }
  }

  /** Printing what was parsed gives the text back exactly for canonical texts. */
  lemma ShowAfterParse(s: string)
    requires ParseUint(s).Success?
    ensures Show(ParseUint(s).value) == s <==> Canonical(s)
  {
    if Canonical(s) {
      ShowOfValue(s);
    } else {
      ShowIsCanonical(Value(s));
    }
  }

  /** The text after k zeros. */
  function ZerosBefore(k: nat, s: string): string {
    if k == 0 then s else "0" + ZerosBefore(k - 1, s)
  }

  lemma {:induction false} LeadingZero(s: string)
    requires AllDigits(s)
    ensures AllDigits("0" + s) && Value("0" + s) == Value(s)
  {
    var text := "0" + s;
    if s == "" {
      assert text[..0] == "";
    } else {
      var front := s[..|s| - 1];
      LeadingZero(front);
      assert text[..|text| - 1] == "0" + front;
    }
  }

  lemma {:induction false} LeadingZeros(k: nat, s: string)
    requires s != "" && AllDigits(s)
    ensures ZerosBefore(k, s) != "" && AllDigits(ZerosBefore(k, s)) && Value(ZerosBefore(k, s)) == Value(s)
  {
    if k > 0 {
      LeadingZeros(k - 1, s);
      LeadingZero(ZerosBefore(k - 1, s));
    }
  }

  lemma {:induction false} WithoutZeros(s: string) returns (k: nat)
    requires s != "" && AllDigits(s)
    ensures s == ZerosBefore(k, Show(Value(s)))
  {
    if Canonical(s) {
      ShowOfValue(s);
      k := 0;
    } else {
      var rest := s[1..];
      k := WithoutZeros(rest);
      LeadingZero(rest);
      assert s == "0" + rest;
      k := k + 1;
    }
  }

  /** The texts that parse, and to what: the decimal texts of all uint64, after any number of zeros. */
  lemma ParsesExactly(s: string, n: nat)
    ensures ParseUint(s) == Success(n) <==> n < 18446744073709551616 && exists k: nat :: s == ZerosBefore(k, Show(n))
  {
    if ParseUint(s) == Success(n) {
      var k := WithoutZeros(s);
    }
    if k: nat :| s == ZerosBefore(k, Show(n)) {
      LeadingZeros(k, Show(n));
      ValueOfShow(n);
    }
  }

  // ----- Dotted identifiers

  predicate DotFree(s: string) {
    forall i :: 0 <= i < |s| ==> s[i] != '.'
  }

  predicate AllDotFree(parts: seq<string>) {
    forall i :: 0 <= i < |parts| ==> DotFree(parts[i])
  }

  function Dotted(parts: seq<string>): string
    requires |parts| > 0
  {
    if |parts| == 1 then parts[0] else parts[0] + "." + Dotted(parts[1..])
  }

  lemma ShowIsDotFree(n: nat)
    ensures DotFree(Show(n))
  {
    assert AllDigits(Show(n));
  }

  /** Appending a suffix to an identifier is one more part. */
  lemma {:induction false} DottedSnoc(parts: seq<string>, last: string)
    requires |parts| > 0
    ensures Dotted(parts + [last]) == Dotted(parts) + "." + last
  {
    if |parts| == 1 {
      assert (parts + [last])[1..] == [last];
    } else {
      assert (parts + [last])[1..] == parts[1..] + [last];
      DottedSnoc(parts[1..], last);
    }
  }

  lemma FirstDot(head: string, rest: string)
    requires DotFree(head)
    ensures (head + "." + rest)[|head|] == '.'
    ensures DotFree((head + "." + rest)[..|head|])
  {
  }

  lemma SameHead(a: string, restA: string, b: string, restB: string)
    requires DotFree(a) && DotFree(b)
    requires a + "." + restA == b + "." + restB
    ensures a == b && restA == restB
  {
    var whole := a + "." + restA;
    assert whole[|a|] == '.' && whole[|b|] == '.';
    assert |a| == |b| by {
      FirstDot(a, restA);
      FirstDot(b, restB);
    }
    assert a == whole[..|a|] && b == whole[..|b|];
    assert restA == whole[|a| + 1..] && restB == whole[|b| + 1..];
  }

  lemma SinglePartIsDotFree(parts: seq<string>)
    requires |parts| > 0 && AllDotFree(parts)
    ensures DotFree(Dotted(parts)) <==> |parts| == 1
  {
    assert DotFree(parts[0]);
    if |parts| > 1 {
      FirstDot(parts[0], Dotted(parts[1..]));
    }
  }

  /** Dotted identifiers with dot-free parts are equal only when all their parts are. */
  lemma {:induction false} DottedInjective(a: seq<string>, b: seq<string>)
    requires |a| > 0 && |b| > 0 && AllDotFree(a) && AllDotFree(b)
    requires Dotted(a) == Dotted(b)
    ensures a == b
  {
    SinglePartIsDotFree(a);
    SinglePartIsDotFree(b);
    if |a| == 1 {
      assert a[0] == b[0];
    } else {
      SameHead(a[0], Dotted(a[1..]), b[0], Dotted(b[1..]));
      DottedInjective(a[1..], b[1..]);
      assert a == [a[0]] + a[1..] && b == [b[0]] + b[1..];
    }
  }
}
