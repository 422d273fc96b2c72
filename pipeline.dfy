/// The card loop of `scrape_seascanner` and the save gate of the script's main
/// block: dedup against the history list, record new identities, count them,
/// and write the history back only when something was added.
module Pipeline {
  import opened Options
  import opened Prices
  import opened Cards
  import opened Identity

  /** The identity of a listing: its price, date and ship only. */
  function ListingId(l: Listing): Token {
    UniqueId(l.price, l.date, l.ship)
  }

  /** The duration and the ports play no part in a listing's identity. */
  lemma ListingIdIgnoresOtherFields(l1: Listing, l2: Listing)
    requires l1.price == l2.price && l1.date == l2.date && l1.ship == l2.ship
    ensures ListingId(l1) == ListingId(l2)
  {
  }

  /** The identity a card contributes, if it survives extraction and the band filter. */
  function CardId(t: string): Option<Token> {
    match Classify(t)
    case Qualified(l) => Some(ListingId(l))
    case _ => None
  }

  /** The state a run carries: the history list and the listings notified so far. */
  datatype RunState = RunState(history: seq<Token>, sent: seq<Listing>)

  /** One card: a qualified listing whose identity is new is notified and its
      identity appended; every other card leaves the state as it is. */
  function Step(s: RunState, t: string): RunState {
    match Classify(t)
    case Qualified(l) =>
      if ListingId(l) in s.history then s
      else RunState(s.history + [ListingId(l)], s.sent + [l])
    case _ => s
  }

  /** A card without a price match, or whose cheapest price is outside the
      band, changes neither the history nor the notifications. */
  lemma SkippedCardChangesNothing(s: RunState, t: string)
    ensures (forall k :: 0 <= k < |t| ==> PriceAt(t, k).None?) ==> Step(s, t) == s
    ensures ScanPrices(t, 0) != [] && !InBand(MinPrice(ScanPrices(t, 0))) ==> Step(s, t) == s
  {
    NoPriceIffNoMatch(t);
  }

  /** The cards processed in order. */
  function Run(s: RunState, cards: seq<string>): RunState
    decreases |cards|
  {
    if cards == [] then s else Step(Run(s, cards[..|cards| - 1]), cards[|cards| - 1])
  }

  /** A run only appends, and it appends one identity for every notification. */
  lemma {:induction false} RunGrows(s: RunState, cards: seq<string>)
    ensures var r := Run(s, cards);
      && s.history <= r.history
      && s.sent <= r.sent
      && |r.history| - |s.history| == |r.sent| - |s.sent|
    decreases |cards|
  {
    if cards != [] {
      RunGrows(s, cards[..|cards| - 1]);
    }
  }

  /** After a run, every qualified card's identity is in the history. */
  lemma {:induction false} RunRecordsEveryCard(s: RunState, cards: seq<string>)
    ensures forall k :: 0 <= k < |cards| && CardId(cards[k]).Some? ==> CardId(cards[k]).value in Run(s, cards).history
    decreases |cards|
  {
    if cards != [] {
      var init := cards[..|cards| - 1];
      RunRecordsEveryCard(s, init);
      RunGrows(Run(s, init), [cards[|cards| - 1]]);
      assert [cards[|cards| - 1]][..0] == [];
      forall k | 0 <= k < |cards| && CardId(cards[k]).Some?
        ensures CardId(cards[k]).value in Run(s, cards).history
      {
        if k < |cards| - 1 {
          assert cards[k] == init[k];
        }
      }
    }
  }

  /** When every qualified card's identity is already in the history, a run
      changes nothing. */
  lemma {:induction false} RunQuietWhenAllSeen(s: RunState, cards: seq<string>)
    requires forall k :: 0 <= k < |cards| && CardId(cards[k]).Some? ==> CardId(cards[k]).value in s.history
    ensures Run(s, cards) == s
    decreases |cards|
  {
    if cards != [] {
      var init := cards[..|cards| - 1];
      assert forall k :: 0 <= k < |init| ==> init[k] == cards[k];
      RunQuietWhenAllSeen(s, init);
    }
  }

  /** Running the same cards again from the history the first run produced
      adds nothing and notifies nothing. */
  lemma RerunIsQuiet(h: seq<Token>, cards: seq<string>)
    ensures var first := Run(RunState(h, []), cards).history;
      Run(RunState(first, []), cards) == RunState(first, [])
  {
    var first := Run(RunState(h, []), cards).history;
    RunRecordsEveryCard(RunState(h, []), cards);
    RunQuietWhenAllSeen(RunState(first, []), cards);
  }

  /** One card adds to the history at most its own identity. */
  lemma StepHistoryContents(s: RunState, t: string, id: Token)
    ensures id in Step(s, t).history <==> id in s.history || CardId(t) == Some(id)
  {
  }

  /** The identities in the final history are the initial ones and those of
      the qualified cards, whatever the order of the cards. */
  lemma {:induction false} RunHistoryContents(s: RunState, cards: seq<string>, id: Token)
    ensures id in Run(s, cards).history <==>
      id in s.history || exists k :: 0 <= k < |cards| && CardId(cards[k]) == Some(id)
    decreases |cards|
  {
    if cards != [] {
      var init := cards[..|cards| - 1];
      RunHistoryContents(s, init, id);
      StepHistoryContents(Run(s, init), cards[|cards| - 1], id);
      if exists k :: 0 <= k < |init| && CardId(init[k]) == Some(id) {
        var k :| 0 <= k < |init| && CardId(init[k]) == Some(id);
        assert CardId(cards[k]) == Some(id);
      }
      if exists k :: 0 <= k < |cards| && CardId(cards[k]) == Some(id) {
        var k :| 0 <= k < |cards| && CardId(cards[k]) == Some(id);
        if k < |cards| - 1 {
          assert CardId(init[k]) == Some(id);
        }
      }
    }
  }

  predicate NoDuplicates(h: seq<Token>) {
    forall i, j :: 0 <= i < j < |h| ==> h[i] != h[j]
  }

  /** A history without repeats stays without repeats. */
  lemma {:induction false} RunKeepsNoDuplicates(s: RunState, cards: seq<string>)
    requires NoDuplicates(s.history)
    ensures NoDuplicates(Run(s, cards).history)
    decreases |cards|
  {
    if cards != [] {
      RunKeepsNoDuplicates(s, cards[..|cards| - 1]);
    }
  }

  /** Every notified listing is inside the price band and its identity is recorded. */
  lemma {:induction false} RunSentInBand(s: RunState, cards: seq<string>)
    ensures var r := Run(s, cards);
      forall k :: |s.sent| <= k < |r.sent| ==> InBand(r.sent[k].price) && ListingId(r.sent[k]) in r.history
    decreases |cards|
  {
    if cards != [] {
      var init := cards[..|cards| - 1];
      RunSentInBand(s, init);
      RunGrows(s, init);
      var t := cards[|cards| - 1];
      if Classify(t).Qualified? {
        QualifiedPrice(t);
      }
    }
  }

  /** The history list that `scrape_seascanner` appends to in place. */
  class History {
    var ids: seq<Token>

    constructor (loaded: seq<Token>)
      ensures ids == loaded
    {
      ids := loaded;
    }

    /** `history.append(unique_id)`. */
    method Append(id: Token)
      modifies this
      ensures ids == old(ids) + [id]
    {
      ids := ids + [id];
    }
  }

  /** The card loop: each card is read, filtered, and, when its identity is
      new, notified and recorded; the result is the number of new listings. */
  method ScrapeCards(cards: seq<string>, history: History) returns (newItemsCount: nat, sent: seq<Listing>)
    modifies history
    ensures RunState(history.ids, sent) == Run(RunState(old(history.ids), []), cards)
    ensures old(history.ids) <= history.ids
    ensures newItemsCount == |sent| == |history.ids| - |old(history.ids)|
  {
    ghost var start := RunState(history.ids, []);
    newItemsCount, sent := 0, [];
    var i := 0;
    while i < |cards|
      invariant i <= |cards|
      invariant RunState(history.ids, sent) == Run(start, cards[..i])
      invariant newItemsCount == |sent|
    {
      assert cards[..i + 1][..i] == cards[..i];
      var outcome := ReadCard(cards[i]);
      if outcome.Qualified? {
        var listing := outcome.listing;
        var id := UniqueId(listing.price, listing.date, listing.ship);
        if id !in history.ids {
          sent := sent + [listing];
          history.Append(id);
          newItemsCount := newItemsCount + 1;
        }
      }
      i := i + 1;
    }
    assert cards[..i] == cards;
    RunGrows(start, cards);
  }

  /** What the history file holds at start-up. */
  datatype StoredHistory = Missing | Unreadable | Parsed(ids: seq<Token>)

  /** `load_history`: a missing or unreadable file gives an empty history. */
  function LoadHistory(f: StoredHistory): seq<Token> {
    match f
    case Parsed(ids) => ids
    case _ => []
  }

  /** The main block: load, scrape, and save only when something new was found;
      `saved` is what is written back, `None` when the file is left alone. */
  method RunMonitor(stored: StoredHistory, cards: seq<string>) returns (newCount: nat, saved: Option<seq<Token>>)
    ensures var loaded := LoadHistory(stored);
      var r := Run(RunState(loaded, []), cards);
      && newCount == |r.sent| == |r.history| - |loaded|
      && (saved.Some? <==> newCount > 0)
      && (saved.Some? ==> saved.value == r.history && loaded <= saved.value)
  {
    var current := new History(LoadHistory(stored));
    var sent;
    newCount, sent := ScrapeCards(cards, current);
    if newCount > 0 {
      saved := Some(current.ids);
    } else {
      saved := None;
    }
  }
}
