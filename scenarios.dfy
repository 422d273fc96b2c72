/// Two sample cards worked through the model: one that carries only a price
/// and a duration, and the same card without its price.
module CardScenarios {
  import opened Options
  import opened Text
  import opened Prices
  import opened Fields
  import opened Cards

  /** "£180 Duration 7 nights". */
  const Card: string := "\U{A3}180 Duration 7 nights"

  /** Where the letters that labels start with occur in the sample card. */
  lemma CardLetters()
    ensures forall k :: 1 <= k < |Card| ==> Card[k] != Pound
    ensures forall k :: 0 <= k < |Card| && Lower(Card[k]) == 's' ==> k == 21
    ensures forall k :: 0 <= k < |Card| && Lower(Card[k]) == 'd' ==> k == 5
    ensures forall k :: 0 <= k < |Card| && Lower(Card[k]) == 'a' ==> k == 8
    ensures Card[6] == 'u' && Card[9] == 't'
  {
  }

  /** The sample card's only price is 180. */
  lemma CardPrices()
    ensures ScanPrices(Card, 0) == [180]
  {
    var t := Card;
    CardLetters();
    assert SkipSpaces(t, 1) == 1;
    assert DigitRunEnd(t, 1) == 4;
    assert t[1..4] == "180";
    assert DigitsValue("180") == 180;
    assert PriceAt(t, 0) == Some(PriceMatch(180, 4));
    ScanPricesEmpty(t, 4);
  }

  /** The sample card carries no ship, date, departure or arrival label. */
  lemma CardLacksLabel(f: Label)
    requires f != DurationLabel
    ensures forall k :: 0 <= k <= |Card| ==> !WordAt(Card, k, LabelWord(f))
  {
    CardLetters();
    forall k | 0 <= k <= |Card| ensures !WordAt(Card, k, LabelWord(f)) {
      NotWordAt(Card, k, LabelWord(f));
    }
  }

  /** The duration pattern does not match before the label, five characters in. */
  lemma CardDurationNotBefore()
    ensures forall k :: 0 <= k < 5 ==> GroupAt(DurationLabel, Card, k).None?
  {
    CardLetters();
    forall k | 0 <= k < 5 ensures !WordAt(Card, k, "duration") {
      NotWordAt(Card, k, "duration");
    }
  }

  /** At the label the duration pattern captures "7 nights". */
  lemma CardDurationGroup()
    ensures GroupAt(DurationLabel, Card, 5) == Some("7 nights")
  {
    CardDurationWords();
    CardDurationRuns();
    var t := Card;
    assert Lower(t[21]) == 's';
    assert t[14..22] == "7 nights";
  }

  /** The sample card spells "Duration" at 5 and "night" at 16. */
  lemma CardDurationWords()
    ensures WordAt(Card, 5, "duration") && WordAt(Card, 16, "night")
  {
  }

  /** Between the words: one space, the digit 7, one space. */
  lemma CardDurationRuns()
    ensures SkipSpaces(Card, 13) == 14 && DigitRunEnd(Card, 14) == 15 && SkipSpaces(Card, 15) == 16
  {
    var t := Card;
    assert IsSpace(t[13]) && !IsSpace(t[14]);
    assert IsDigit(t[14]) && !IsDigit(t[15]);
    assert IsSpace(t[15]) && !IsSpace(t[16]);
  }

  lemma CardDuration()
    ensures DurationText(Card) == "7 nights"
  {
    CardDurationNotBefore();
    CardDurationGroup();
    SearchFindsFirst(DurationLabel, Card, 5, "7 nights");
  }

  /** The sample card names no ship, so the ship keeps its default. */
  lemma CardShipDefault()
    ensures ShipName(Card) == DefaultShip
  {
    CardLacksLabel(ShipLabel);
    UnlabelledFieldKeepsDefault(ShipLabel, Card);
  }

  /** The sample card gives no date, so the date keeps its default. */
  lemma CardDateDefault()
    ensures DateText(Card) == UnknownDate
  {
    CardLacksLabel(DateLabel);
    UnlabelledFieldKeepsDefault(DateLabel, Card);
  }

  /** The sample card names no departure port, so it keeps its default. */
  lemma CardDepartureDefault()
    ensures DeparturePort(Card) == UnknownPort
  {
    CardLacksLabel(DepartureLabel);
    UnlabelledFieldKeepsDefault(DepartureLabel, Card);
  }

  /** The sample card names no arrival port, so it keeps its default. */
  lemma CardArrivalDefault()
    ensures ArrivalPort(Card) == UnknownPort
  {
    CardLacksLabel(ArrivalLabel);
    UnlabelledFieldKeepsDefault(ArrivalLabel, Card);
  }

  /** A card with a price and a duration but no other label still yields a
      listing, with every other field at its default. */
  lemma GracefulDegradation()
    ensures Classify(Card) == Qualified(Listing(180, DefaultShip, UnknownDate, "7 nights", UnknownPort, UnknownPort))
  {
    CardPrices();
    assert MinPrice([180]) == 180;
    CardShipDefault();
    CardDateDefault();
    CardDuration();
    CardDepartureDefault();
    CardArrivalDefault();
  }

  /** The same card without its price is skipped. */
  lemma NoPriceScenario()
    ensures Classify("Duration 7 nights") == NoPrice
  {
    NoPoundSkipped("Duration 7 nights");
  }
}
