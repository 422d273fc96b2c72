/// The per-card body of `scrape_seascanner`: from one card's text to a listing,
/// or to the reason the card is skipped.
module Cards {
  import opened Options
  import opened Text
  import opened Prices
  import opened Fields

  /** One listing as the scraper reports it. */
  datatype Listing = Listing(
    price: nat,
    ship: string,
    date: string,
    duration: string,
    departure: string,
    arrival: string)

  /** What one card comes to: skipped for want of a price, skipped for a price
      outside the band, or a listing that goes on to the dedup check. */
  datatype CardOutcome =
    | NoPrice
    | OutOfBand(best: nat)
    | Qualified(listing: Listing)

  /** The card's outcome, as a function of its text. */
  function Classify(t: string): CardOutcome {
    var prices := ScanPrices(t, 0);
    if prices == [] then
      NoPrice
    else
      var best := MinPrice(prices);
      if !InBand(best) then
        OutOfBand(best)
      else
        Qualified(Listing(best, ShipName(t), DateText(t), DurationText(t), DeparturePort(t), ArrivalPort(t)))
  }

  /** Price scan, cheapest price, band filter, then the optional fields. */
  method ReadCard(t: string) returns (outcome: CardOutcome)
    ensures outcome == Classify(t)
  {
    var prices := ExtractPrices(t);
    if |prices| == 0 {
      return NoPrice;
    }
    var best := MinPrice(prices);
    if best < TargetPriceMin || best > TargetPriceMax {
      return OutOfBand(best);
    }
    var listing := ReadFields(t, best);
    outcome := Qualified(listing);
  }

  /** Every optional field set to its default and overwritten only when its
      pattern matches. */
  method ReadFields(t: string, price: nat) returns (listing: Listing)
    ensures listing == Listing(price, ShipName(t), DateText(t), DurationText(t), DeparturePort(t), ArrivalPort(t))
  {
    var ship := DefaultShip;
    var shipMatch := Search(ShipLabel, t);
    if shipMatch.Some? {
      ship := Strip(shipMatch.value.group);
    }

    var date := UnknownDate;
    var dateMatch := Search(DateLabel, t);
    if dateMatch.Some? {
      date := Strip(dateMatch.value.group);
    }

    var duration := DefaultDuration;
    var durationMatch := Search(DurationLabel, t);
    if durationMatch.Some? {
      duration := durationMatch.value.group;
    }

    var departure := UnknownPort;
    var departureMatch := Search(DepartureLabel, t);
    if departureMatch.Some? {
      departure := PortNames.CleanPortName(departureMatch.value.group);
    }

    var arrival := UnknownPort;
    var arrivalMatch := Search(ArrivalLabel, t);
    if arrivalMatch.Some? {
      arrival := PortNames.CleanPortName(arrivalMatch.value.group);
    }

    listing := Listing(price, ship, date, duration, departure, arrival);
  }

  /** A card is skipped for want of a price exactly when the price pattern
      matches nowhere in its text. */
  lemma NoPriceIffNoMatch(t: string)
    ensures Classify(t) == NoPrice <==> forall k :: 0 <= k < |t| ==> PriceAt(t, k).None?
  {
    ScanPricesEmpty(t, 0);
  }

  /** A text without a pound sign is always skipped. */
  lemma NoPoundSkipped(t: string)
    requires forall k :: 0 <= k < |t| ==> t[k] != Pound
    ensures Classify(t) == NoPrice
  {
    NoPriceIffNoMatch(t);
  }

  /** A listing's price is one of the card's prices, no dearer than any of
      them, within the band, and at most five digits long. */
  lemma QualifiedPrice(t: string)
    requires Classify(t).Qualified?
    ensures var p := Classify(t).listing.price;
      && p in ScanPrices(t, 0)
      && (forall q :: q in ScanPrices(t, 0) ==> p <= q)
      && TargetPriceMin <= p <= TargetPriceMax
      && p <= MaxPrice
  {
  }

  /** A listing's price is written on the card: some match of the price
      pattern reads it, and every match reads a price at least as high. */
  lemma QualifiedPriceIsCheapestWritten(t: string)
    requires Classify(t).Qualified?
    ensures var p := Classify(t).listing.price;
      && (exists k :: 0 <= k < |t| && ReadsPrice(t, k, p))
      && (forall k, q :: 0 <= k < |t| && ReadsPrice(t, k, q) ==> p <= q)
  {
    var p := Classify(t).listing.price;
    QualifiedPrice(t);
    ScanPricesValues(t, 0, p);
    forall k, q | 0 <= k < |t| && ReadsPrice(t, k, q) ensures p <= q {
      ScanPricesValues(t, 0, q);
    }
  }

  /** Whether a card is kept depends on its prices alone: the optional fields
      never cause a skip. */
  lemma OnlyPricesDecide(t1: string, t2: string)
    requires ScanPrices(t1, 0) == ScanPrices(t2, 0)
    ensures Classify(t1).Qualified? <==> Classify(t2).Qualified?
    ensures Classify(t1).Qualified? ==> Classify(t1).listing.price == Classify(t2).listing.price
  {
  }
}
