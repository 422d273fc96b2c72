/// Price extraction: every `£\s*(\d{1,5})` of a card's text is read as an
/// integer, the cheapest one is the card's price, and only prices inside the
/// configured band go on.
module Prices {
  import opened Options
  import opened Text

  /** TARGET_PRICE_MIN: the cheapest price, in pounds, that is still reported. */
  const TargetPriceMin: nat := 50

  /** TARGET_PRICE_MAX: the dearest price, in pounds, that is still reported. */
  const TargetPriceMax: nat := 500

  /** The quantifier `{1,5}`: a price has at most five digits. */
  const MaxPriceDigits: nat := 5

  /** The largest price five digits can write. */
  const MaxPrice: nat := 99999

  /** One match of the price pattern: the integer read and where the match ends. */
  datatype PriceMatch = PriceMatch(value: nat, end: nat)

  /** One attempt of `£\s*(\d{1,5})` at position `i`: the pound sign, optional
      whitespace, then greedily up to five digits. */
  function PriceAt(t: string, i: nat): (m: Option<PriceMatch>)
    requires i <= |t|
    ensures m.Some? <==>
      i < |t| && t[i] == Pound && SkipSpaces(t, i + 1) < |t| && IsDigit(t[SkipSpaces(t, i + 1)])
    ensures m.Some? ==> i < m.value.end <= |t| && m.value.value <= MaxPrice
  {
    if i < |t| && t[i] == Pound then
      var j := SkipSpaces(t, i + 1);
      var k := DigitRunEnd(t, j);
      var end := if k <= j + MaxPriceDigits then k else j + MaxPriceDigits;
      if j < end then
        Pow10Monotone(end - j, MaxPriceDigits);
        Some(PriceMatch(DigitsValue(t[j..end]), end))
      else
        None
    else
      None
  }

  /** `re.finditer` over the price pattern from position `i`: the integers of
      all non-overlapping matches, left to right. */
  function ScanPrices(t: string, i: nat): (prices: seq<nat>)
    requires i <= |t|
    ensures forall p :: p in prices ==> p <= MaxPrice
    decreases |t| - i
  {
    if i == |t| then
      []
    else
      match PriceAt(t, i)
      case Some(m) => [m.value] + ScanPrices(t, m.end)
      case None => ScanPrices(t, i + 1)
  }

  /** What a match reads: after the pound sign and the whitespace that follows
      it, the longest run of at most five digits, whose decimal value is the price. */
  lemma PriceAtReads(t: string, i: nat)
    requires i <= |t| && PriceAt(t, i).Some?
    ensures
      var m := PriceAt(t, i).value;
      exists j :: i < j < m.end && AllSpace(t[i + 1..j]) && AllDigits(t[j..m.end])
        && m.end - j <= MaxPriceDigits && m.value == DigitsValue(t[j..m.end])
        && (m.end - j == MaxPriceDigits || m.end == |t| || !IsDigit(t[m.end]))
  {
    var j := SkipSpaces(t, i + 1);
    assert AllSpace(t[i + 1..j]) && AllDigits(t[j..PriceAt(t, i).value.end]);
  }

  /** The pattern matches at `k` and reads the price `p` there. */
  predicate ReadsPrice(t: string, k: nat, p: nat) {
    k <= |t| && PriceAt(t, k).Some? && PriceAt(t, k).value.value == p
  }

  /** A match covers only the pound sign, whitespace and digits, so no other
      match starts inside it. */
  lemma NoMatchInsideMatch(t: string, i: nat, k: nat)
    requires i <= |t| && PriceAt(t, i).Some?
    requires i < k < PriceAt(t, i).value.end
    ensures PriceAt(t, k).None?
  {
    var j := SkipSpaces(t, i + 1);
    assert k < j ==> IsSpace(t[k]);
    assert j <= k ==> IsDigit(t[k]) by {
      var d := DigitRunEnd(t, j);
      assert PriceAt(t, i).value.end <= d;
    }
  }

  /** Every price of the scan is read by a match at some position from `i` on. */
  lemma {:induction false} ScanPricesSound(t: string, i: nat, p: nat)
    requires i <= |t| && p in ScanPrices(t, i)
    ensures exists k :: i <= k < |t| && ReadsPrice(t, k, p)
    decreases |t| - i
  {
    var m := PriceAt(t, i);
    if m.None? {
      ScanPricesSound(t, i + 1, p);
    } else if p != m.value.value {
      assert ScanPrices(t, i) == [m.value.value] + ScanPrices(t, m.value.end);
      ScanPricesSound(t, m.value.end, p);
    } else {
      assert ReadsPrice(t, i, p);
    }
  }

  /** Every match from `i` on contributes its price to the scan. */
  lemma {:induction false} ScanPricesComplete(t: string, i: nat, k: nat, p: nat)
    requires i <= k < |t| && ReadsPrice(t, k, p)
    ensures p in ScanPrices(t, i)
    decreases |t| - i
  {
    var m := PriceAt(t, i);
    if m.None? {
      ScanPricesComplete(t, i + 1, k, p);
    } else if k != i {
      if k < m.value.end {
        NoMatchInsideMatch(t, i, k);
      }
      assert ScanPrices(t, i) == [m.value.value] + ScanPrices(t, m.value.end);
      ScanPricesComplete(t, m.value.end, k, p);
    }
  }

  /** A price is in the scan exactly when the pattern matches at some position
      from `i` on and reads that price there. */
  lemma ScanPricesValues(t: string, i: nat, p: nat)
    requires i <= |t|
    ensures p in ScanPrices(t, i) <==> exists k :: i <= k < |t| && ReadsPrice(t, k, p)
  {
    if p in ScanPrices(t, i) {
      ScanPricesSound(t, i, p);
    }
    if k :| i <= k < |t| && ReadsPrice(t, k, p) {
      ScanPricesComplete(t, i, k, p);
    }
  }

  /** The scan finds nothing exactly when the pattern matches at no position. */
  lemma {:induction false} ScanPricesEmpty(t: string, i: nat)
    requires i <= |t|
    ensures ScanPrices(t, i) == [] <==> forall k :: i <= k < |t| ==> PriceAt(t, k).None?
    decreases |t| - i
  {
    if i < |t| && PriceAt(t, i).None? {
      ScanPricesEmpty(t, i + 1);
    }
  }

  /** The loop of seascanner.py that appends every price match to `prices`. */
  method ExtractPrices(t: string) returns (prices: seq<nat>)
    ensures prices == ScanPrices(t, 0)
  {
    prices := [];
    var i := 0;
    while i < |t|
      invariant i <= |t|
      invariant prices + ScanPrices(t, i) == ScanPrices(t, 0)
      decreases |t| - i
    {
      match PriceAt(t, i)
      case Some(m) =>
        prices := prices + [m.value];
        i := m.end;
      case None =>
        i := i + 1;
    }
  }

  /** Python's `min()` over a non-empty list of prices. */
  function MinPrice(prices: seq<nat>): (best: nat)
    requires |prices| > 0
    ensures best in prices
    ensures forall p :: p in prices ==> best <= p
  {
    if |prices| == 1 then
      prices[0]
    else
      var rest := MinPrice(prices[1..]);
      assert forall p :: p in prices ==> p == prices[0] || p in prices[1..];
      if prices[0] <= rest then prices[0] else rest
  }

  /** The band filter: a card is dropped when its price is below the minimum or above the maximum. */
  predicate InBand(price: int) {
    !(price < TargetPriceMin || price > TargetPriceMax)
  }

  /** Both ends of the band are kept, and the prices just outside them are not. */
  lemma BandEdges(price: int)
    ensures InBand(price) <==> 50 <= price <= 500
    ensures InBand(50) && InBand(500) && !InBand(49) && !InBand(501)
  {
  }
}
