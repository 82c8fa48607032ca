/**
 * The text of an outbound job's dedupe key, `seq:<runId>:step:<orderIndex>`, and the
 * fact the unique index needs: two keys are the same text only for the same run and step.
 */
module DedupeKeys {
  import opened Prelude

  const DIGITS: string := "0123456789"

  predicate IsDigit(c: char) { '0' <= c <= '9' }

  /** Decimal text of a number, as template strings print it. */
  function Decimal(n: nat): (s: string)
    ensures |s| > 0 && forall c :: c in s ==> IsDigit(c)
  {
    if n < 10 then [DIGITS[n]] else Decimal(n / 10) + [DIGITS[n % 10]]
  }

  function DigitsValue(s: string): int {
    if s == [] then 0 else 10 * DigitsValue(s[..|s| - 1]) + (s[|s| - 1] as int - '0' as int)
  }

  lemma {:induction false} DecimalReadsBack(n: nat)
    ensures DigitsValue(Decimal(n)) == n
  {
    if n >= 10 {
      DecimalReadsBack(n / 10);
      var s := Decimal(n);
      assert s[..|s| - 1] == Decimal(n / 10);
    }
  }

  function IntText(i: int): (s: string)
    ensures forall c :: c in s ==> IsDigit(c) || c == '-'
  {
    if i < 0 then "-" + Decimal(-i) else Decimal(i)
  }

  /** An absent number is printed as nothing. */
  function OptionalIntText(n: Option<int>): string {
    if n.Some? then IntText(n.value) else ""
  }

  /** Reads such a text again. */
  function ParseOptionalInt(text: string): Option<int> {
    if text == "" then None
    else if text[0] == '-' then Some(-DigitsValue(text[1..]))
    else Some(DigitsValue(text))
  }

  lemma OptionalIntReadsBack(n: Option<int>)
    ensures ParseOptionalInt(OptionalIntText(n)) == n
  {
    if n.Some? {
      var size: nat := if n.value < 0 then -n.value else n.value;
      DecimalReadsBack(size);
      assert Decimal(size)[0] in Decimal(size);
      assert n.value < 0 ==> IntText(n.value)[1..] == Decimal(size);
    }
  }

  lemma IntTextInjective(i: int, j: int)
    ensures IntText(i) == IntText(j) <==> i == j
  {
    DecimalReadsBack(if i < 0 then -i else i);
    DecimalReadsBack(if j < 0 then -j else j);
    if IntText(i) == IntText(j) {
      assert i >= 0 ==> Decimal(i)[0] in Decimal(i);
      assert j >= 0 ==> Decimal(j)[0] in Decimal(j);
      assert i < 0 <==> j < 0;
      if i < 0 { assert IntText(i)[1..] == Decimal(-i) && IntText(j)[1..] == Decimal(-j); }
    }
  }

  function DedupeKey(runId: string, orderIndex: int): string {
    "seq:" + runId + ":step:" + IntText(orderIndex)
  }

  /** Cutting at the last colon is unambiguous when no colon follows it. */
  lemma CutAtLastColon(a: string, d: string, b: string, e: string)
    requires ':' !in d && ':' !in e
    requires a + ":" + d == b + ":" + e
    ensures a == b && d == e
  {
    var s := a + ":" + d;
    assert s == b + ":" + e;
    assert s[|a|] == ':' && s[|b|] == ':';
    forall k | |a| < k < |s| ensures s[k] != ':' { assert s[k] == d[k - |a| - 1]; }
    forall k | |b| < k < |s| ensures s[k] != ':' { assert s[k] == e[k - |b| - 1]; }
    assert |a| == |b|;
    assert a == s[..|a|] && b == s[..|b|];
    assert d == s[|a| + 1..] && e == s[|b| + 1..];
  }

  lemma DedupeKeyInjective(r: string, i: int, q: string, j: int)
    ensures DedupeKey(r, i) == DedupeKey(q, j) <==> r == q && i == j
  {
    if DedupeKey(r, i) == DedupeKey(q, j) {
      var a, b := "seq:" + r + ":step", "seq:" + q + ":step";
      assert DedupeKey(r, i) == a + ":" + IntText(i);
      assert DedupeKey(q, j) == b + ":" + IntText(j);
      CutAtLastColon(a, IntText(i), b, IntText(j));
      assert |r| == |q|;
      assert r == a[4..4 + |r|] && q == b[4..4 + |q|];
      IntTextInjective(i, j);
    }
  }
}
