/** The Indian currency bands used by every `formatCurrency`: crore
    (10,000,000) and lakh (100,000). Only the band and the exact scaled value
    are modelled; the `toFixed` digits are kept as a number, the rounding and
    `toLocaleString` are not. */
module Money {

  const Crore: int := 10000000
  const Lakh: int := 100000

  datatype Band = Cr | L | Raw

  /** The displayed amount: its band, the amount divided by the band's unit,
      and the number of digits `toFixed` would print for Cr and L. */
  datatype Amount = Amount(band: Band, scaled: real, digits: nat)

  function Unit(b: Band): (u: int)
    ensures u > 0
  {
    match b
    case Cr => Crore
    case L => Lakh
    case Raw => 1
  }

  function Rank(b: Band): nat
  {
    match b
    case Raw => 0
    case L => 1
    case Cr => 2
  }

  /** The `if (x >= 10000000) ... if (x >= 100000) ... else` chain. */
  function Format(amount: int, digits: nat): (r: Amount)
    ensures r.band == Cr <==> amount >= Crore
    ensures r.band == L <==> Lakh <= amount < Crore
    ensures r.band == Raw <==> amount < Lakh
    ensures r.scaled * Unit(r.band) as real == amount as real
    ensures r.digits == digits
  {
    if amount >= Crore then Amount(Cr, amount as real / Crore as real, digits)
    else if amount >= Lakh then Amount(L, amount as real / Lakh as real, digits)
    else Amount(Raw, amount as real, digits)
  }

  /** A larger amount never falls in a smaller band. */
  lemma BandMonotone(a: int, b: int, digits: nat)
    requires a <= b
    ensures Rank(Format(a, digits).band) <= Rank(Format(b, digits).band)
  {
  }

  /** A lakh figure lies in [1, 100) and a crore figure is at least 1, so no
      band ever shows a figure below one unit. */
  lemma ScaledBounds(amount: int, digits: nat)
    ensures var r := Format(amount, digits);
      (r.band == L ==> 1.0 <= r.scaled < 100.0) && (r.band == Cr ==> 1.0 <= r.scaled)
  {
  }
}
