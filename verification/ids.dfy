/** External identifiers. Every row is addressed by `String(externalId)`, the
    JavaScript string conversion of whatever the platform put in the payload's
    `id` member. */
module Ids {

  /** The JSON values an `id` member is seen to hold. */
  datatype JsonId = Num(n: int) | Str(s: string) | NullId | Missing

  function Digit(d: nat): (c: char)
    requires d < 10
    ensures '0' <= c <= '9'
  {
    (d + '0' as int) as char
  }

  /** The number a digit string denotes, read left to right: each further
      digit multiplies the value so far by ten and adds itself. */
  function DigitsValue(s: string): int
    decreases |s|
  {
    if |s| == 0 then 0
    else DigitsValue(s[..|s| - 1]) * 10 + (s[|s| - 1] as int - '0' as int)
  }

  /** A digit string in the form `String` writes a natural number: only
      digits, and no leading zero unless the number is zero itself. */
  predicate Canonical(s: string) {
    && |s| >= 1
    && (forall i :: 0 <= i < |s| ==> '0' <= s[i] <= '9')
    && (s[0] == '0' ==> |s| == 1)
  }

  /** Decimal notation of a natural number, most significant digit first:
      a canonical digit string that reads back as `n`. */
  function NatToString(n: nat): (r: string)
    ensures Canonical(r)
    ensures DigitsValue(r) == n
    ensures n < 10 <==> |r| == 1
    decreases n
  {
    if n < 10 then [Digit(n)]
    else
      var prefix := NatToString(n / 10);
      var r := prefix + [Digit(n % 10)];
      assert r[..|r| - 1] == prefix;
      r
  }

  /** `String(n)` for an integral JavaScript number. */
  function IntToString(n: int): (r: string)
    ensures |r| >= 1
    ensures r[0] == '-' <==> n < 0
  {
    if n < 0 then "-" + NatToString(-n) else NatToString(n)
  }

  /** `String(x)`: the external id every upsert is keyed by. */
  function IdString(x: JsonId): (r: string)
    ensures x.Num? ==> |r| >= 1 && (r[0] == '-' <==> x.n < 0)
    ensures x.Num? ==> forall i :: 1 <= i < |r| ==> '0' <= r[i] <= '9'
    ensures x.Num? && x.n >= 0 ==> DigitsValue(r) == x.n
    ensures x.Num? && x.n < 0 ==> DigitsValue(r[1..]) == -x.n
    ensures x.Str? ==> r == x.s
  {
    match x
    case Num(n) => IntToString(n)
    case Str(s) => s
    case NullId => "null"
    case Missing => "undefined"
  }

  /** Different natural numbers are written differently: each text reads
      back as its number. */
  lemma NatToStringInjective(a: nat, b: nat)
    requires NatToString(a) == NatToString(b)
    ensures a == b
  {
    assert a == DigitsValue(NatToString(a)) && b == DigitsValue(NatToString(b));
  }

  /** Two numeric ids share a key only when they are the same number. */
  lemma NumericKeysInjective(a: int, b: int)
    requires IdString(Num(a)) == IdString(Num(b))
    ensures a == b
  {
    var sa, sb := IdString(Num(a)), IdString(Num(b));
    assert (a < 0) == (b < 0) by {
      assert sa[0] == sb[0];
    }
  }

  /** Every canonical digit string is the decimal notation of the number
      it denotes. */
  lemma {:induction false} CanonicalIsNotation(s: string)
    requires Canonical(s)
    ensures DigitsValue(s) >= 0
    ensures NatToString(DigitsValue(s)) == s
    decreases |s|
  {
    var last := s[|s| - 1] as int - '0' as int;
    if |s| == 1 {
      assert DigitsValue(s) == DigitsValue([]) * 10 + last;
      assert NatToString(last) == [Digit(last)];
    } else {
      var prefix := s[..|s| - 1];
      assert Canonical(prefix) by {
        assert prefix[0] == s[0];
      }
      CanonicalIsNotation(prefix);
      var v := DigitsValue(prefix);
      assert v >= 1;
      var n := v * 10 + last;
      assert n / 10 == v && n % 10 == last;
      assert NatToString(n) == NatToString(v) + [Digit(last)];
      assert s == prefix + [s[|s| - 1]];
    }
  }

  /** A numeric id and its decimal text address the same row: for every
      text id written as a canonical digit string, the payloads carrying
      the text (`{"id": "9001"}`) and the number it denotes
      (`{"id": 9001}`) update one row. */
  lemma NumberAndTextShareKey(s: string)
    requires Canonical(s)
    ensures DigitsValue(s) >= 0
    ensures IdString(Str(s)) == IdString(Num(DigitsValue(s)))
  {
    CanonicalIsNotation(s);
  }
}
