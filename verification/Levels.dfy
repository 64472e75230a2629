/** Price and quantity ticks (src/orderbook/level.rs), over exact decimals. */
module Levels {
  import opened Arithmetic
  import opened Options

  const TICK_SCALE := 100_000_000
  /** Ticks per unit in the last place of a price printed with two decimals. */
  const PRICE_GRID := 1_000_000
  /** Ticks per unit in the last place of a quantity printed with four decimals. */
  const QUANTITY_GRID := 10_000

  /** A number as text: `mantissa / 10^places`, or text that is not a number. */
  datatype Numeral = Decimal(mantissa: int, places: nat) | Malformed

  function Pow10(n: nat): (r: nat)
    ensures r > 0
  {
    if n == 0 then 1 else 10 * Pow10(n - 1)
  }

  /** Nearest integer to `num / den`; a negative value saturates at zero. */
  function Nearest(num: int, den: nat): nat
    requires den > 0
  {
    if num <= 0 then 0 else (2 * num + den) / (2 * den)
  }

  /** Parse a price or a quantity into ticks. */
  function ParseTicks(s: Numeral): Option<nat> {
    if s.Malformed? then None else Some(Nearest(s.mantissa * TICK_SCALE, Pow10(s.places)))
  }

  function PrintPrice(ticks: nat): Numeral {
    Decimal(Nearest(ticks, PRICE_GRID), 2)
  }

  function PrintQuantity(ticks: nat): Numeral {
    Decimal(Nearest(ticks, QUANTITY_GRID), 4)
  }

  lemma Pow10Values()
    ensures Pow10(2) == 100 && Pow10(4) == 10_000
  {
    assert Pow10(1) == 10;
    assert Pow10(3) == 1_000;
  }

  /** Printing a price with two decimals and parsing it back is the identity exactly on the grid. */
  lemma PriceRoundTrip(ticks: nat)
    ensures ParseTicks(PrintPrice(ticks)) == Some(ticks) <==> ticks % PRICE_GRID == 0
  {
    Pow10Values();
    var m := Nearest(ticks, PRICE_GRID);
    assert Nearest(m * TICK_SCALE, 100) == m * PRICE_GRID;
    if ticks % PRICE_GRID == 0 { assert ticks == PRICE_GRID * (ticks / PRICE_GRID); }
  }

  /** The same for quantities, which are printed with four decimals. */
  lemma QuantityRoundTrip(ticks: nat)
    ensures ParseTicks(PrintQuantity(ticks)) == Some(ticks) <==> ticks % QUANTITY_GRID == 0
  {
    Pow10Values();
    var m := Nearest(ticks, QUANTITY_GRID);
    assert Nearest(m * TICK_SCALE, 10_000) == m * QUANTITY_GRID;
    if ticks % QUANTITY_GRID == 0 { assert ticks == QUANTITY_GRID * (ticks / QUANTITY_GRID); }
  }

  lemma {:induction false} Pow10Splits(a: nat, b: nat)
    ensures Pow10(a + b) == Pow10(a) * Pow10(b)
  {
    if a > 0 {
      Pow10Splits(a - 1, b);
      assert Pow10(a + b) == 10 * Pow10(a - 1 + b);
    }
  }

  /** With at most eight decimals no rounding takes place: numerals denoting equal numbers
      parse to equal ticks, and numerals denoting different numbers to different ticks. */
  lemma ParseExact(m: nat, places: nat)
    requires places <= 8
    ensures ParseTicks(Decimal(m, places)) == Some(m * Pow10(8 - places))
  {
    Pow10Splits(8 - places, places);
    assert Pow10(8) == TICK_SCALE by { Pow10Values(); Pow10Splits(4, 4); }
    var d, k := Pow10(places), m * Pow10(8 - places);
    assert m * TICK_SCALE == k * d;
    NearestOfMultiple(k, d);
  }

  lemma NearestOfMultiple(k: nat, d: nat)
    requires d > 0
    ensures Nearest(k * d, d) == k
  {
    if k > 0 {
      assert k * d > 0;
      assert 2 * (k * d) + d == (2 * d) * k + d;
      assert ((2 * d) * k + d) / (2 * d) == k by { QuotientOf(2 * d, k, d); }
    }
  }

  /** Parsing rounds to the nearest tick, and a negative number to zero. */
  lemma ParseIsNearest(m: int, places: nat)
    ensures var ticks := ParseTicks(Decimal(m, places)).value;
      && (m <= 0 ==> ticks == 0)
      && (m > 0 ==> 0 - Pow10(places) <= 2 * (ticks * Pow10(places) - m * TICK_SCALE) <= Pow10(places))
  {
    if m > 0 { NearestIsNearest(m * TICK_SCALE, Pow10(places)); }
  }

  lemma NearestIsNearest(num: nat, den: nat)
    requires num > 0 && den > 0
    ensures 0 - den <= 2 * (Nearest(num, den) * den - num) <= den
  {
    var q, r := Nearest(num, den), (2 * num + den) % (2 * den);
    assert 2 * num + den == (2 * den) * q + r;
    assert (2 * den) * q == 2 * (q * den);
  }

  /** Ticks as text, to the last of eight decimals. */
  function Exact(ticks: nat): Numeral {
    Decimal(ticks, 8)
  }

  lemma ExactParses(ticks: nat)
    ensures ParseTicks(Exact(ticks)) == Some(ticks)
  {
    ParseExact(ticks, 8);
  }
}
