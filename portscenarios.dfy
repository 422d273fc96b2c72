/// Two port texts worked through `clean_port_name`: one that carries a label
/// and a ship prefix, and one that carries a stop count.
module PortScenarios {
  import opened Options
  import opened Text
  import opened PortNames

  /** The port that is left over. */
  const Port: string := "Yokohama"

  /** The ship prefix: "Ship", the ship's name, and the dash that ends it. */
  const ShipText: string := "Ship MSC Bellissima - "

  /** The text after the keyword pass: " Ship MSC Bellissima - Yokohama". */
  const NoLabel: string := " " + ShipText + Port

  /** "Departure Ship MSC Bellissima - Yokohama": the text found after a
      departure label, with the ship prefix in it. */
  const Bellissima: string := "Departure" + NoLabel

  /** A port name followed by a stop count. */
  const WithStops: string := "Tokyo 2 stops"

  /** A keyword cannot start where neither "de", "ar" nor "vi" does. */
  lemma NoKeywordAt(t: string, k: nat)
    requires k <= |t|
    requires k + 1 < |t| ==>
      && (Lower(t[k]) != 'd' || Lower(t[k + 1]) != 'e')
      && (Lower(t[k]) != 'a' || Lower(t[k + 1]) != 'r')
      && (Lower(t[k]) != 'v' || Lower(t[k + 1]) != 'i')
    ensures MatchEnd(Keywords, t, k).None?
  {
    NotWordAt(t, k, "departure");
    NotWordAt(t, k, "arrival");
    NotWordAt(t, k, "view full itinerary");
  }

  /** The ship prefix cannot start at a character other than "s" or "S". */
  lemma NoShipPrefixAt(t: string, k: nat)
    requires k <= |t|
    requires k < |t| ==> Lower(t[k]) != 's'
    ensures MatchEnd(ShipPrefix, t, k).None?
  {
    if k < |t| {
      assert Lower(t[k + 0]) != "s"[0];
      assert Lower(t[k + 0]) != "ship"[0];
    }
  }

  /** A stop count cannot start at a character other than a digit. */
  lemma NoStopCountAt(t: string, k: nat)
    requires k <= |t|
    requires k < |t| ==> !IsDigit(t[k])
    ensures MatchEnd(StopCount, t, k).None?
  {
    assert DigitRunEnd(t, k) == k;
  }

  /** A leading keyword followed by text in which no keyword starts is all the
      keyword pass removes. */
  lemma KeywordPassDropsLabel(t: string, e: nat)
    requires e <= |t| && MatchEnd(Keywords, t, 0) == Some(e)
    requires forall k :: e <= k < |t| ==> Lower(t[k]) != 'd' && Lower(t[k]) != 'r' && Lower(t[k]) != 'v'
    ensures RemoveAll(Keywords, t, 0) == t[e..]
  {
    forall k | e <= k < |t| ensures MatchEnd(Keywords, t, k).None? {
      NoKeywordAt(t, k);
    }
    RemoveAllNoMatch(Keywords, t, e);
  }

  /** A text with no "d", "r", "v", dash or colon goes through the first three
      deletions unchanged. */
  lemma PlainTextPasses(t: string)
    requires forall k :: 0 <= k < |t| ==>
      Lower(t[k]) != 'd' && Lower(t[k]) != 'r' && Lower(t[k]) != 'v' && !IsPunct(t[k])
    ensures RemoveAll(Keywords, t, 0) == t
    ensures RemoveAll(ShipPrefix, t, 0) == t
    ensures RemoveAll(Punctuation, t, 0) == t
  {
    forall k | 0 <= k < |t|
      ensures MatchEnd(Keywords, t, k).None? && MatchEnd(ShipPrefix, t, k).None?
    {
      NoKeywordAt(t, k);
      ShipPrefixNeedsDash(t, k);
    }
    RemoveAllNoMatch(Keywords, t, 0);
    RemoveAllNoMatch(ShipPrefix, t, 0);
    RemoveAllNoMatch(Punctuation, t, 0);
    assert t[0..] == t;
  }

  /** A text without digits goes through the stop-count deletion unchanged. */
  lemma NoDigitsPass(t: string)
    requires forall k :: 0 <= k < |t| ==> !IsDigit(t[k])
    ensures RemoveAll(StopCount, t, 0) == t
  {
    forall k | 0 <= k < |t| ensures MatchEnd(StopCount, t, k).None? {
      NoStopCountAt(t, k);
    }
    RemoveAllNoMatch(StopCount, t, 0);
    assert t[0..] == t;
  }

  /** Every dash goes, not only the first: "a-b-c" becomes "abc". */
  lemma RemoveEveryDash()
    ensures RemoveAll(Punctuation, "a-b-c", 0) == "abc"
  {
    var t := "a-b-c";
    RemoveAllDropsNextMatch(Punctuation, t, 0, 1, 2);
    RemoveAllDropsNextMatch(Punctuation, t, 2, 3, 4);
    RemoveAllNoMatch(Punctuation, t, 4);
  }

  /** The first dash from `a` is the one at `d` when none lies between. */
  lemma FirstDashAt(t: string, a: nat, d: nat)
    requires a <= d < |t| && IsDash(t[d])
    requires forall k :: a <= k < d ==> !IsDash(t[k])
    ensures FirstDash(t, a) == Some(d)
  {
  }

  /** The letters of the port. */
  lemma PortLetters()
    ensures forall k :: 0 <= k < |Port| ==>
      && Lower(Port[k]) != 'd' && Lower(Port[k]) != 'r' && Lower(Port[k]) != 'v' && Lower(Port[k]) != 's'
      && !IsPunct(Port[k]) && !IsDigit(Port[k]) && !IsSpace(Port[k])
  {
  }

  /** The letters of the ship prefix. */
  lemma ShipTextLetters()
    ensures forall k :: 0 <= k < |ShipText| ==>
      Lower(ShipText[k]) != 'd' && Lower(ShipText[k]) != 'r' && Lower(ShipText[k]) != 'v'
    ensures forall k :: 0 <= k < 20 ==> !IsDash(ShipText[k])
    ensures IsDash(ShipText[20]) && IsSpace(ShipText[21]) && IsSpace(ShipText[4])
    ensures WordAt(ShipText, 0, "ship") && Lower(ShipText[1]) == 'h'
  {
  }

  /** The keyword pass deletes the leading "Departure" and nothing else. */
  lemma BellissimaKeywords()
    ensures RemoveAll(Keywords, Bellissima, 0) == NoLabel
  {
    var t := Bellissima;
    PortLetters();
    ShipTextLetters();
    assert WordAt(t, 0, "departure");
    forall k | 9 <= k < |t| ensures Lower(t[k]) != 'd' && Lower(t[k]) != 'r' && Lower(t[k]) != 'v' {
      if k >= 10 && k < 32 {
        assert t[k] == ShipText[k - 10];
      } else if k >= 32 {
        assert t[k] == Port[k - 32];
      }
    }
    KeywordPassDropsLabel(t, 9);
    assert t[9..] == NoLabel;
  }

  /** "Ship MSC Bellissima - " is a ship prefix, starting at 1 and ending at 23. */
  lemma NoLabelShipPrefix()
    ensures MatchEnd(ShipPrefix, NoLabel, 1) == Some(23)
    ensures !WordBoundary(NoLabel, 0)
  {
    var t := NoLabel;
    ShipTextLetters();
    forall k | 5 <= k < 21 ensures !IsDash(t[k]) {
      assert t[k] == ShipText[k - 1];
    }
    assert t[21] == ShipText[20];
    FirstDashAt(t, 5, 21);
    assert SkipSpaces(t, 22) == 23 by {
      PortLetters();
      assert t[22] == ShipText[21] && t[23] == Port[0];
    }
    assert WordAt(t, 1, "ship") by {
      forall k | 0 <= k < 4 ensures Lower(t[1 + k]) == "ship"[k] {
        assert t[1 + k] == ShipText[k];
      }
    }
    assert t[5] == ShipText[4];
    assert SkipSpaces(t, 2) == 2 by {
      assert t[2] == ShipText[1];
    }
  }

  /** After the ship prefix no other one starts. */
  lemma NoLabelTail()
    ensures forall k :: 23 <= k <= |NoLabel| ==> MatchEnd(ShipPrefix, NoLabel, k).None?
    ensures NoLabel[..1] == " " && NoLabel[23..] == Port
  {
    var t := NoLabel;
    PortLetters();
    forall k | 23 <= k <= |t| ensures MatchEnd(ShipPrefix, t, k).None? {
      if k < |t| {
        assert t[k] == Port[k - 23];
      }
      NoShipPrefixAt(t, k);
    }
  }

  /** The ship-prefix pass deletes "Ship MSC Bellissima - " and keeps the rest. */
  lemma BellissimaShipPrefix()
    ensures RemoveAll(ShipPrefix, NoLabel, 0) == " " + Port
  {
    NoLabelShipPrefix();
    RemoveAllDropsNextMatch(ShipPrefix, NoLabel, 0, 1, 23);
    NoLabelTail();
    RemoveAllNoMatch(ShipPrefix, NoLabel, 23);
  }

  /** What is left goes through the last passes unchanged and strips to the port. */
  lemma PortPasses()
    ensures RemoveAll(Punctuation, " " + Port, 0) == " " + Port
    ensures RemoveAll(StopCount, " " + Port, 0) == " " + Port
    ensures !LoneS(" " + Port)
    ensures Strip(" " + Port) == Port
  {
    var t := " " + Port;
    PortLetters();
    forall k | 0 <= k < |t| ensures !IsPunct(t[k]) && !IsDigit(t[k]) {
      if k > 0 {
        assert t[k] == Port[k - 1];
      }
    }
    RemoveAllNoMatch(Punctuation, t, 0);
    assert t[0..] == t;
    NoDigitsPass(t);
    assert SkipSpaces(t, 0) == 1 && t[1] == Port[0];
    assert TrailingStart(t, |t|) == |t| by {
      assert t[|t| - 1] == Port[|Port| - 1];
    }
    assert t[1..] == Port;
  }

  /** The label and the ship prefix are removed and only the port is left. */
  lemma CleanBellissima()
    ensures CleanPortName(Bellissima) == Port
  {
    BellissimaKeywords();
    BellissimaShipPrefix();
    PortPasses();
  }

  /** Where the letters that matter occur in `WithStops`. */
  lemma WithStopsLetters()
    ensures forall k :: 0 <= k < |WithStops| ==>
      Lower(WithStops[k]) != 'd' && Lower(WithStops[k]) != 'r' && Lower(WithStops[k]) != 'v'
      && !IsPunct(WithStops[k])
    ensures forall k :: 0 <= k < |WithStops| && IsDigit(WithStops[k]) ==> k == 6
  {
  }

  /** The stop-count pass deletes "2 stops" and keeps "Tokyo ". */
  lemma WithStopsStopCount()
    ensures RemoveAll(StopCount, WithStops, 0) == WithStops[..6]
  {
    var t := WithStops;
    WithStopsLetters();
    forall k | 0 <= k < 6 ensures MatchEnd(StopCount, t, k).None? {
      NoStopCountAt(t, k);
    }
    assert DigitRunEnd(t, 6) == 7 && SkipSpaces(t, 7) == 8;
    assert WordAt(t, 8, "stop") && Lower(t[12]) == 's';
    RemoveAllDropsNextMatch(StopCount, t, 0, 6, 13);
  }

  /** The first three deletions leave `WithStops` as it is. */
  lemma WithStopsFirstPasses()
    ensures RemoveAll(Keywords, WithStops, 0) == WithStops
    ensures RemoveAll(ShipPrefix, WithStops, 0) == WithStops
    ensures RemoveAll(Punctuation, WithStops, 0) == WithStops
  {
    WithStopsLetters();
    PlainTextPasses(WithStops);
  }

  /** "Tokyo " is no lone "s" and strips to "Tokyo". */
  lemma TokyoSpaceStrips()
    ensures !LoneS(WithStops[..6]) && Strip(WithStops[..6]) == "Tokyo"
  {
    var r := WithStops[..6];
    assert SkipSpaces(r, 0) == 0 && r[0] != 's';
    assert TrailingStart(r, |r|) == 5;
    assert r[..5] == "Tokyo";
  }

  /** The stop count is removed and only the port is left. */
  lemma CleanWithStops()
    ensures CleanPortName(WithStops) == "Tokyo"
  {
    WithStopsFirstPasses();
    WithStopsStopCount();
    TokyoSpaceStrips();
  }
}
