# Seascanner monitor: extraction and dedup core

This project models the part of the Seascanner monitor (`seascanner.py`) that
turns the text of each cruise-listing card into a listing, filters it by price,
deduplicates it against the history of already-notified listings and decides
whether the history file is written back.

- **Prices** (`prices.dfy`): every `£\s*(\d{1,5})` in a card's text is read as an
  integer (`re.finditer`), the cheapest one is the card's price, and a card goes on
  only when that price is between `TARGET_PRICE_MIN` = 50 and `TARGET_PRICE_MAX` = 500,
  both ends included. `ExtractPrices` is the source's append loop, proved equal to
  the scanning function `ScanPrices`.
- **Fields** (`fields.dfy`): ship, date, duration, departure and arrival are each
  searched for on their own (`re.search`, leftmost match) and each starts at a fixed
  default: "MSC Cruise", "未知日期", "", "未知", "未知". Each regular expression is
  modelled as its own scanner; the lazy group `(.*?)` is `LazyUntil`, the least end
  at which the pattern's look-ahead (or the year `202\d`) holds without crossing a
  newline.
- **Port names** (`portnames.dfy`): `clean_port_name` as four `re.sub` deletions
  (keywords, the "Ship … -" prefix, dashes and colons, stop counts), then the rule
  that a lone "s" becomes empty, then `strip()`.
- **Identity** (`identity.dfy`): `get_unique_id` builds the key
  `f"{price}-{date}-{ship}"` and hashes it.
- **Cards** (`cards.dfy`): `Classify` gives a card's outcome (no price, price
  outside the band, or a listing); `ReadCard` is the source's per-card body, with
  its early `continue`s and its default-then-overwrite assignments.
- **Pipeline** (`pipeline.dfy`): the history list is a `History` object that the
  card loop `ScrapeCards` appends to in place while counting new items; `Run` is the
  same loop as a fold over the cards, and the lemmas about it give append-only
  growth, the count, idempotent re-runs and order-independence of the recorded
  identities. `RunMonitor` is the main block: load, scrape, save only when the count
  is positive.
- **Scenarios** (`scenarios.dfy`, `portscenarios.dfy`): the card "£180 Duration
  7 nights" yields a listing at £180 with the other fields at their defaults, and
  without its price it is skipped; `clean_port_name` turns
  "Departure Ship MSC Bellissima - Yokohama" into "Yokohama" and "Tokyo 2 stops"
  into "Tokyo".

Notifications are modelled as an event log: `sent` holds the listings that
`send_discord_notify` would be called with, one per new identity.

The history is a list, and a listing is new when its identity is not a member of
that list. The price band is inclusive at both ends: 50 and 500 are both kept.

The identity key is not injective. The separator `-` is not escaped, so
`(1, "a-b", "c")` and `(1, "a", "b-c")` get the same key (`Identity.SeparatorCollision`).
Two listings whose dates or ship names contain `-` in this way are deduplicated as
one. Different prices always give different keys (`Identity.UniqueIdSeparatesPrices`);
the identities inherit this only because the model keeps the key itself in place of
its MD5 digest (see "Left out").

## Model

| member | source | states |
|---|---|---|
| `Text.Strip` | seascanner.py:68 | `str.strip()`: the result has no whitespace at either end, is empty exactly when the input is all whitespace, uses only characters of the input, and leaves text without surrounding whitespace unchanged |
| `Text.IsSpace` | seascanner.py:63-68 | defined by its body: the characters of Python's `str.isspace()`, which are both `\s` in `re` and what `strip()` removes |
| `Text.WordAt` | seascanner.py:63-66 | defined by its body: a literal matched with `re.IGNORECASE`, as ASCII case folding (see "Left out") |
| `Text.StripRemovesOnlyEdges` | seascanner.py:68 | the result of `strip()` is a slice of the input with only whitespace before and after it, so nothing inside the text is removed |
| `Text.DecimalRoundTrip` | seascanner.py:45 | the decimal text of the price read back as digits gives the price again |
| `Text.Decimal` | seascanner.py:45 | `str(price)`: a non-empty run of digits that starts with `0` exactly when the price is 0, so there are no leading zeros; `DecimalRoundTrip` reads it back |
| `Text.DigitsValue` | seascanner.py:157 | `int(m.group(1))` on a run of digits: the value is below 10 to the power of the run's length; `DecimalRoundTrip` relates it to `Decimal` |
| `Prices.PriceAt` | seascanner.py:156 | the price pattern matches at `i` exactly when there is a `£`, optional whitespace and then a digit; a match ends after `i` and reads a value of at most 99999; `PriceAtReads` gives the value read |
| `Prices.PriceAtReads` | seascanner.py:156-157 | a match reads, after the `£` and the whitespace that follows it, the longest run of at most five digits, and the price is that run's decimal value |
| `Prices.NoMatchInsideMatch` | seascanner.py:156 | no match starts inside another one, since a match holds only whitespace and digits after its `£` |
| `Prices.ScanPrices` | seascanner.py:155-157 | every price found by the scan is at most 99999 (1 to 5 digits); `ScanPricesValues` says which prices it holds |
| `Prices.ScanPricesSound` | seascanner.py:155-157 | every price the scan yields is read by a match of the pattern at some position |
| `Prices.ScanPricesComplete` | seascanner.py:155-157 | the price read by any match of the pattern is among those the scan yields |
| `Prices.ScanPricesValues` | seascanner.py:155-157 | a price is in the scan exactly when a match of the pattern at some position reads it |
| `Prices.ScanPricesEmpty` | seascanner.py:155-160 | the scan finds no price exactly when the price pattern matches at no position |
| `Prices.ExtractPrices` | seascanner.py:155-157 | the append loop over the matches yields exactly the list of prices the scan finds |
| `Prices.MinPrice` | seascanner.py:162 | the chosen price is one of the prices and no greater than any of them |
| `Prices.InBand` | seascanner.py:165-166 | defined by its body, the negation of the source's skip condition; `BandEdges` states the band it keeps |
| `Prices.BandEdges` | seascanner.py:165-166 | a price is kept exactly when 50 <= price <= 500: 50 and 500 are kept, 49 and 501 are not |
| `Fields.LazyUntil` | seascanner.py:169-190 | the lazy group ends at the least position where the stop condition holds and no newline lies before it; when there is none, the stop condition fails at every reachable position |
| `Fields.StopsAt` | seascanner.py:169-189 | defined by its body: where each lazy group may stop, namely the look-aheads `\s*Departure` or `\s*•` (ship), `Arrival` or `View` (departure) and `£`, `From` or `Price` (arrival), all ignoring case, and `202` followed by a digit (date) |
| `Fields.ShipGroupAt` | seascanner.py:169 | defined by its body: `Ship`, whitespace, then the lazy group up to the first `\s*Departure` or `\s*•`; `GroupNeedsLabel` states that it needs the label |
| `Fields.DateGroupAt` | seascanner.py:174 | defined by its body: `Date`, whitespace, then the lazy group up to and including the first `202` and a digit; `GroupNeedsLabel` states that it needs the label |
| `Fields.DurationGroupAt` | seascanner.py:179 | defined by its body: `Duration`, optional whitespace, digits, optional whitespace, `night` and an optional `s`; `CardScenarios.CardDurationGroup` shows it capturing "7 nights" |
| `Fields.DepartureGroupAt` | seascanner.py:184 | defined by its body: `Departure` then the lazy group up to the first `Arrival` or `View`; `GroupNeedsLabel` states that it needs the label |
| `Fields.ArrivalGroupAt` | seascanner.py:189 | defined by its body: `Arrival` then the lazy group up to the first `£`, `From` or `Price`; `GroupNeedsLabel` states that it needs the label |
| `Fields.LeftmostMatch` | seascanner.py:169-192 | `re.search`: the returned position is the leftmost one at which the pattern matches, with the group captured there, and no earlier position matches; none is returned exactly when it matches nowhere |
| `Fields.Search` | seascanner.py:169-189 | defined as `LeftmostMatch` over the field's pattern across the whole card text; `SearchFindsFirst` and `UnlabelledFieldNotFound` state it |
| `Fields.LeftmostMatchIsFirst` | seascanner.py:169-192 | when the pattern matches at `i` and at no earlier position, the search returns `i` and the group captured there |
| `Fields.SearchFindsFirst` | seascanner.py:169-192 | a field's search returns the first position where its pattern matches, with that group |
| `Fields.GroupNeedsLabel` | seascanner.py:170-190 | every field pattern matches only where its label word ("Ship", "Date", "Duration", "Departure", "Arrival", any case) starts |
| `Fields.UnlabelledFieldNotFound` | seascanner.py:169-192 | a field whose label is never written is not found |
| `Fields.UnlabelledFieldKeepsDefault` | seascanner.py:169-192 | when a field's label never occurs, its pattern does not match and the field keeps its default ("MSC Cruise", "未知日期", "", "未知", "未知") |
| `Fields.ShipName` | seascanner.py:168-171 | defined by its body: the stripped group of the first match, or "MSC Cruise"; `UnlabelledFieldKeepsDefault` states the default |
| `Fields.DateText` | seascanner.py:173-176 | defined by its body: the stripped group of the first match, or "未知日期"; `UnlabelledFieldKeepsDefault` states the default |
| `Fields.DurationText` | seascanner.py:178-181 | defined by its body: the group of the first match, or ""; `CardScenarios.CardDuration` shows a match |
| `Fields.DeparturePort` | seascanner.py:183-186 | defined by its body: the cleaned group of the first match, or "未知"; `UnlabelledFieldKeepsDefault` states the default |
| `Fields.ArrivalPort` | seascanner.py:188-191 | defined by its body: the cleaned group of the first match, or "未知"; `UnlabelledFieldKeepsDefault` states the default |
| `PortNames.RemoveAll` | seascanner.py:63-66 | a deletion pass never lengthens the text and keeps only characters of its input; `RemoveAllKeepsUnmatched`, `RemoveAllDropsNextMatch` and `RemoveAllNoMatch` together fix the result match by match, from every scan position |
| `PortNames.KeywordEnd` | seascanner.py:63 | defined by its body: "Departure", "Arrival" or "View full itinerary" in any case; `PortScenarios.NoKeywordAt` states where none starts |
| `PortNames.ShipTailEnd` | seascanner.py:64 | a match of `Ship\s+[^\-–]+\s*[-–]\s*` ends after it starts; `ShipTailNeedsDash` states that it needs a dash |
| `PortNames.ShipPrefixEnd` | seascanner.py:64 | a match of the ship prefix, with or without the leading `s\s+`, ends after it starts; `ShipPrefixNeedsDash` states that it needs a dash |
| `PortNames.WordBoundary` | seascanner.py:64 | defined by its body: `\b`, a word character on exactly one side of the position |
| `PortNames.StopCountEnd` | seascanner.py:66 | defined by its body: digits, optional whitespace, `stop` and an optional `s`; `PortScenarios.NoStopCountAt` states that it needs a digit |
| `PortNames.RemoveAllKeepsUnmatched` | seascanner.py:63-66 | from a scan position up to the next match start, the text is kept, in order |
| `PortNames.RemoveAllDropsNextMatch` | seascanner.py:63-66 | from any scan position, the next match is deleted, the text between the position and the match is kept, and the pass resumes where the match ends |
| `PortNames.RemoveAllNoMatch` | seascanner.py:63-66 | a pass whose pattern matches nowhere leaves the text unchanged |
| `PortNames.RemovePunctuationComplete` | seascanner.py:65 | after the third pass no `-`, `–` or `:` remains |
| `PortNames.LoneS` | seascanner.py:67 | defined by its body: the whole text is one `s` with only whitespace around it; `StripToS` relates it to `strip()` |
| `PortNames.ShipPrefixNeedsDash` | seascanner.py:64 | the ship-prefix pattern cannot match in text without a dash |
| `PortNames.StripToS` | seascanner.py:67-68 | a text that strips to exactly "s" is one the lone-"s" substitution empties |
| `PortNames.CleanPortName` | seascanner.py:61-68 | the cleaned name has no surrounding whitespace, contains no `-`, `–` or `:`, uses only characters of the input, and is never exactly "s" |
| `PortNames.CleanInputUnchanged` | seascanner.py:61-68 | text with no keyword, dash, colon or stop count, no surrounding whitespace and other than "s" is returned unchanged |
| `PortNames.CleanTokyo` | seascanner.py:61-68 | "Tokyo" is returned unchanged |
| `PortScenarios.NoKeywordAt` | seascanner.py:63 | no keyword starts where neither "de", "ar" nor "vi" does |
| `PortScenarios.NoShipPrefixAt` | seascanner.py:64 | no ship prefix starts at a character other than `s` or `S` |
| `PortScenarios.NoStopCountAt` | seascanner.py:66 | no stop count starts at a character other than a digit |
| `PortScenarios.PlainTextPasses` | seascanner.py:63-65 | a text with no `d`, `r`, `v`, dash or colon goes through the first three deletions unchanged |
| `PortScenarios.RemoveEveryDash` | seascanner.py:65 | every dash is deleted, not only the first: "a-b-c" becomes "abc" |
| `PortScenarios.CleanBellissima` | seascanner.py:61-68 | "Departure Ship MSC Bellissima - Yokohama" gives "Yokohama": the label and the ship prefix are removed |
| `PortScenarios.CleanWithStops` | seascanner.py:61-68 | "Tokyo 2 stops" gives "Tokyo": the stop count is removed and the space before it stripped |
| `Identity.UniqueIdSeparatesPrices` | seascanner.py:43-46 | two keys that are equal have equal prices |
| `Identity.DistinctPricesDistinctIds` | seascanner.py:43-46 | the listings (100, "12 March 2025", "Spectrum") and (101, "12 March 2025", "Spectrum") have different identities |
| `Identity.SeparatorCollision` | seascanner.py:45 | the distinct triples (1, "a-b", "c") and (1, "a", "b-c") get the same identity |
| `Identity.RawKey` | seascanner.py:45 | defined by its body: the decimal price, `-`, the date, `-`, the ship; `UniqueIdSeparatesPrices` and `SeparatorCollision` state what it separates |
| `Identity.Digest` | seascanner.py:46 | the key itself in place of its MD5 digest (see "Left out") |
| `Identity.UniqueId` | seascanner.py:43-46 | defined as the digest of the key; `UniqueIdSeparatesPrices` and `DistinctPricesDistinctIds` state it |
| `Cards.ReadCard` | seascanner.py:155-166 | the per-card body (price loop, minimum, band filter, then the fields) yields exactly the card's outcome |
| `Cards.ReadFields` | seascanner.py:168-191 | each field starts at its default and is overwritten with the group (stripped for ship and date, cleaned for the ports) only when its search matches; the result is the listing of the field functions |
| `Cards.Classify` | seascanner.py:155-191 | defined by its body: skipped with no price, skipped when the cheapest is outside the band, else the listing; `ReadCard` and the lemmas below state it |
| `Cards.NoPriceIffNoMatch` | seascanner.py:155-160 | a card is skipped for want of a price exactly when the price pattern matches nowhere in it |
| `Cards.NoPoundSkipped` | seascanner.py:155-160 | a card without a `£` is skipped |
| `Cards.QualifiedPrice` | seascanner.py:162-166 | a listing's price is one of the card's prices, the least of them, within 50..500 and at most 99999 |
| `Cards.QualifiedPriceIsCheapestWritten` | seascanner.py:155-166 | a listing's price is read by some match of `£\s*(\d{1,5})` on the card, and every such match reads a price at least as high |
| `Cards.OnlyPricesDecide` | seascanner.py:159-192 | two cards with the same prices are both kept or both skipped, at the same price: a missing optional field never skips a card |
| `CardScenarios.GracefulDegradation` | seascanner.py:155-191 | "£180 Duration 7 nights" yields a listing at 180 with duration "7 nights" and every other field at its default |
| `CardScenarios.NoPriceScenario` | seascanner.py:155-160 | "Duration 7 nights" is skipped |
| `Pipeline.ListingIdIgnoresOtherFields` | seascanner.py:195 | listings equal in price, date and ship have the same identity, whatever their duration and ports |
| `Pipeline.ListingId` | seascanner.py:195 | defined by its body: `get_unique_id(best_price, date_info, ship_name)`; `ListingIdIgnoresOtherFields` states what it depends on |
| `Pipeline.CardId` | seascanner.py:155-195 | defined by its body: the identity of the card's listing, none for a skipped card |
| `Pipeline.Step` | seascanner.py:195-218 | defined by its body: a listing whose identity is new is notified and its identity appended, anything else leaves the state alone; `SkippedCardChangesNothing` and `StepHistoryContents` state it |
| `Pipeline.SkippedCardChangesNothing` | seascanner.py:159-166 | a card with no price match, or whose cheapest price is outside the band, changes neither the history nor the notifications |
| `Pipeline.StepHistoryContents` | seascanner.py:195-218 | an identity is in the history after one card exactly when it was there before or is that card's identity |
| `Pipeline.Run` | seascanner.py:146-218 | defined as `Step` over the cards in order; the `Run…` lemmas state it |
| `Pipeline.RunGrows` | seascanner.py:197-218 | the initial history and notifications are prefixes of the final ones, and the history grows by exactly the number of notifications |
| `Pipeline.RunRecordsEveryCard` | seascanner.py:195-218 | after a run, the identity of every kept card is in the history |
| `Pipeline.RunQuietWhenAllSeen` | seascanner.py:197-199 | when every kept card's identity is already in the history, a run changes nothing |
| `Pipeline.RerunIsQuiet` | seascanner.py:197-218 | running the same cards again from the history of the first run adds nothing and notifies nothing |
| `Pipeline.RunHistoryContents` | seascanner.py:195-218 | an identity is in the final history exactly when it was there at the start or belongs to one of the kept cards, whatever their order |
| `Pipeline.RunKeepsNoDuplicates` | seascanner.py:197-218 | a history without repeated identities stays without them |
| `Pipeline.RunSentInBand` | seascanner.py:165-218 | every notified listing has a price within 50..500 and its identity recorded |
| `Pipeline.History.Append` | seascanner.py:217 | the identity is added at the end of the list and nothing else changes |
| `Pipeline.LoadHistory` | seascanner.py:25-33 | defined by its body: the parsed list, or the empty list for a missing or unreadable file; `RunMonitor` states it |
| `Pipeline.ScrapeCards` | seascanner.py:146-229 | the card loop leaves the history and the notifications as the fold over the cards gives them, the old history a prefix of the new, and returns the number of new listings, equal to the growth of the history |
| `Pipeline.RunMonitor` | seascanner.py:231-241 | a missing or unreadable file gives an empty history; the count is the growth of the history; the history is written back exactly when the count is positive, and then it extends the loaded one |

## Left out

- Browser automation (`seascanner.py:73-135`: Chrome set-up, cookie banners, scrolling and "Show more"): it is I/O with wall-clock sleeps.
- The HTML parsing and the four-parent climb that finds each card's text (`seascanner.py:139-152`): the cards are an input sequence of strings.
- `send_discord_notify` (`seascanner.py:48-59`): network I/O; a notification is the listing appended to `sent`, and its success or failure does not matter to the loop.
- Message formatting and console output (`seascanner.py:202-212` and the `print` calls): presentation only.
- `load_history` and `save_history` file and JSON I/O (`seascanner.py:25-41`): loading is `LoadHistory` over an already-read `StoredHistory`; a JSON file that parses to something other than a list, and a failing save, are not modelled.
- MD5 (`seascanner.py:46`): `Identity.Digest` keeps the key itself in place of its hex digest, so the model treats the hash as injective and does not capture hash collisions.
- The `try`/`except` around the scrape (`seascanner.py:220-227`): nothing in the modelled per-card body raises; a failure of the page loader is not modelled.
- `\d` is modelled as the ASCII digits `0`-`9`; other Unicode decimal digits, which Python's `re` also accepts, are not.
- `re.IGNORECASE` is modelled as ASCII case folding; non-ASCII characters that Python also equates with an ASCII letter (such as `ſ` with `s`) do not match.
- `\b` is modelled with ASCII word characters; a non-ASCII letter next to "Ship" counts as a non-word character.
- `PortNames.CleanPortName`: its contract states what every result is like (no surrounding whitespace, no dash or colon, never "s"). Each pass is fixed match by match by the `RemoveAll…` lemmas, and the whole pipeline is worked through on two texts in `PortScenarios`. No closed-form statement of what the keyword, ship-prefix and stop-count passes remove from an arbitrary input is given.
