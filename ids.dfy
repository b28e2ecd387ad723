/**
 * Record identifiers. In the application an id is `number | string`: the
 * CRUD operations match ids with `===`, which never equates a number with a
 * string, while the enrolment workflows and the pages compare
 * `id.toString()`, which does. Both comparisons are kept apart here.
 */
module Ids {

  datatype Id = Num(n: int) | Str(s: string)

  function DigitChar(d: nat): (c: char)
    requires d < 10
    ensures '0' <= c <= '9'
  {
    (48 + d) as char
  }

  /** Decimal rendering of a natural number, most significant digit first, without leading zeros. */
  function NatText(n: nat): (r: string)
    ensures |r| >= 1
    ensures |r| == 1 <==> n < 10
    ensures forall i :: 0 <= i < |r| ==> '0' <= r[i] <= '9'
  {
    if n < 10 then [DigitChar(n)] else NatText(n / 10) + [DigitChar(n % 10)]
  }

  /** `Number.prototype.toString()` on an integral number. */
  function IntText(n: int): string
  {
    if n < 0 then "-" + NatText(-n) else NatText(n)
  }

  /** `id.toString()`. */
  function IdText(id: Id): string
  {
    match id
    case Num(n) => IntText(n)
    case Str(s) => s
  }

  /** `a.toString() === b.toString()`. */
  predicate SameText(a: Id, b: Id)
  {
    IdText(a) == IdText(b)
  }

  /** `!id`: the falsy ids are the number 0 and the empty string. */
  predicate Falsy(id: Id)
  {
    id == Num(0) || id == Str("")
  }

  lemma {:induction false} NatTextInjective(a: nat, b: nat)
    requires NatText(a) == NatText(b)
    ensures a == b
  {
    if a >= 10 && b >= 10 {
      var ta, tb := NatText(a / 10), NatText(b / 10);
      assert NatText(a) == ta + [DigitChar(a % 10)];
      assert NatText(b) == tb + [DigitChar(b % 10)];
      assert |ta| == |tb|;
      assert NatText(a)[|ta|] == DigitChar(a % 10) && NatText(b)[|tb|] == DigitChar(b % 10);
      assert NatText(a)[..|ta|] == ta && NatText(b)[..|tb|] == tb;
      NatTextInjective(a / 10, b / 10);
    } else {
      assert NatText(a)[0] == DigitChar(a) || NatText(b)[0] == DigitChar(b);
    }
  }

  lemma IntTextInjective(a: int, b: int)
    requires IntText(a) == IntText(b)
    ensures a == b
  {
    // A minus sign would have to face a digit.
    if a < 0 {
      assert IntText(a)[0] == '-';
      assert b < 0;
      assert NatText(-a) == IntText(a)[1..] && NatText(-b) == IntText(b)[1..];
      NatTextInjective(-a, -b);
    } else {
      assert IntText(a)[0] != '-';
      assert b >= 0;
      NatTextInjective(a, b);
    }
  }

  /** Between two numbers, or between two strings, `toString` equality is `===`. */
  lemma SameTextWithinKind(a: Id, b: Id)
    requires a.Num? == b.Num?
    ensures SameText(a, b) <==> a == b
  {
    if a.Num? && SameText(a, b) {
      IntTextInjective(a.n, b.n);
    }
  }

  /** Across kinds the two comparisons differ: 7 and "7" are the same text but not `===`. */
  lemma TextConflatesKinds()
    ensures SameText(Num(7), Str("7")) && Num(7) != Str("7")
  {
    assert NatText(7) == ['7'];
  }
}
