/** Whole lots, balances and the JST calendar shared by the sizing and risk code. */
module Lots {
  import opened Reals

  datatype Balance = Balance(currency: string, available: real)

  /** math.Floor(raw/lot) * lot */
  function FloorToLots(raw: real, lot: real): real
    requires lot > 0.0
  {
    (raw / lot).Floor as real * lot
  }

  /** Rounding loses less than one lot and never rounds up. */
  lemma {:induction false} FloorBounds(raw: real, lot: real)
    requires lot > 0.0
    ensures raw - lot < FloorToLots(raw, lot) <= raw
    ensures FloorToLots(raw, lot) > 0.0 <==> raw >= lot
  {
    var q := raw / lot;
    assert q * lot == raw;
    var n := q.Floor as real;
    PartOfLot(raw, q, n, FloorToLots(raw, lot), lot);
    LotSigns(raw, q, n, FloorToLots(raw, lot), lot);
  }

  lemma {:induction false} PartOfLot(raw: real, q: real, n: real, whole: real, lot: real)
    requires lot > 0.0 && n <= q < n + 1.0 && raw == q * lot && whole == n * lot
    ensures raw - lot < whole <= raw
  {
    DifferenceTimes(q, n, lot);
    Fraction(q - n, lot, (q - n) * lot);
  }

  lemma {:induction false} DifferenceTimes(x: real, y: real, k: real)
    ensures (x - y) * k == x * k - y * k
  {}

  lemma {:induction false} Fraction(d: real, lot: real, part: real)
    requires lot > 0.0 && 0.0 <= d < 1.0 && part == d * lot
    ensures 0.0 <= part < lot
  {
    ProductNonNegative(d, lot);
    var rest := 1.0 - d;
    PositiveProduct(rest, lot);
    assert rest * lot == lot - part;
  }

  lemma {:induction false} LotSigns(raw: real, q: real, n: real, whole: real, lot: real)
    requires lot > 0.0 && raw == q * lot && whole == n * lot && (n > 0.0 <==> q >= 1.0)
    ensures whole > 0.0 <==> raw >= lot
  {
    Scaled(0.0, n, lot);
    Scaled(1.0, q, lot);
  }

  function LotsOf(n: int, lot: real): real {
    n as real * lot
  }

  ghost predicate WholeLots(x: real, lot: real) {
    exists n: int :: x == LotsOf(n, lot)
  }

  lemma {:induction false} FloorIsWhole(raw: real, lot: real)
    requires lot > 0.0
    ensures WholeLots(FloorToLots(raw, lot), lot)
  {
    assert FloorToLots(raw, lot) == LotsOf((raw / lot).Floor, lot);
  }

  const NANOS_PER_HOUR := 3_600_000_000_000

  const NANOS_PER_DAY := 24 * NANOS_PER_HOUR

  /** Calendar day in Japan of an instant given in Unix nanoseconds. */
  function JstDay(t: int): int {
    (t + 9 * NANOS_PER_HOUR) / NANOS_PER_DAY
  }
}
