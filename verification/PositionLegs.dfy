/** Open option legs and when a long leg protects a short one (schemas/position_state.py). */
module PositionLegs {
  import opened Wrappers
  import opened Vocabulary

  /** A decimal number carries the text it prints as; the text fixes the value, not the other way round. */
  datatype DecimalFields = Decimal(text: string, value: real)

  type Decimal = d: DecimalFields | d.value == DecimalValue(d.text)
    witness Decimal("", 0.0)

  function DecimalValue(text: string): real {
    var e := IndexOf(text, 'E');
    var mantissa := text[..e];
    var exponent := if e < |text| then SignedDigits(text[e + 1..]) else 0;
    var point := IndexOf(mantissa, '.');
    var places := if point < |mantissa| then |mantissa| - point - 1 else 0;
    Scaled(SignedDigits(mantissa) as real, exponent - places)
  }

  function IndexOf(s: string, c: char): (i: nat)
    ensures i <= |s|
  {
    if s == [] || s[0] == c then 0 else 1 + IndexOf(s[1..], c)
  }

  function SignedDigits(s: string): int {
    var n: int := Digits(s, 0);
    if s != [] && s[0] == '-' then -n else n
  }

  /** Reads the digits of `s` left to right and skips every other character (the point and the sign). */
  function Digits(s: string, acc: nat): nat
    decreases |s|
  {
    if s == [] then acc
    else if '0' <= s[0] <= '9' then Digits(s[1..], 10 * acc + (s[0] as int - '0' as int))
    else Digits(s[1..], acc)
  }

  /** `x` times ten to the power `n`. */
  function Scaled(x: real, n: int): real
    decreases if n < 0 then -n else n
  {
    if n == 0 then x else if n > 0 then Scaled(10.0 * x, n - 1) else Scaled(x / 10.0, n + 1)
  }

  datatype LegFields = Leg(
    underlying: Underlying,
    symbol: string,
    expiration: string,
    optionType: OptionType,
    strike: Decimal,
    side: LegSide,
    contracts: nat,
    averagePrice: Option<Decimal>
  )

  /** A leg holds at least one contract. */
  type PositionLeg = l: LegFields | l.contracts > 0
    witness Leg(XSP, "", "", PUT, Decimal("", 0.0), LONG, 1, None)

  predicate IsShort(l: PositionLeg) { l.side == SHORT }

  predicate IsLong(l: PositionLeg) { l.side == LONG }

  predicate SameSeries(a: PositionLeg, b: PositionLeg) {
    a.underlying == b.underlying && a.expiration == b.expiration && a.optionType == b.optionType
  }

  predicate IsProtectiveLongFor(short: PositionLeg, long: PositionLeg) {
    && SameSeries(short, long)
    && if short.optionType == PUT then long.strike.value < short.strike.value
       else long.strike.value > short.strike.value
  }

  /** Smaller rank means fewer strikes are left to protect the short. */
  function ConstraintRank(short: PositionLeg): real {
    if short.optionType == PUT then short.strike.value else -short.strike.value
  }

  /** Inside one series, whatever protects a more constrained short also protects a less constrained one. */
  lemma EligibilityIsNested(a: PositionLeg, b: PositionLeg, long: PositionLeg)
    requires SameSeries(a, b) && ConstraintRank(a) <= ConstraintRank(b)
    requires IsProtectiveLongFor(a, long)
    ensures IsProtectiveLongFor(b, long)
  {
  }
}
