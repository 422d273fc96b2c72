/// The optional fields of a card: each is searched for on its own with a
/// leftmost `re.search`, and each keeps a fixed default when its pattern does
/// not match.
module Fields {
  import opened Options
  import opened Text
  import PortNames

  /** The ship name kept when no ship label is found. */
  const DefaultShip: string := "MSC Cruise"

  /** "未知日期" ("unknown date"): the date kept when no date label is found. */
  const UnknownDate: string := "\U{672A}\U{77E5}\U{65E5}\U{671F}"

  /** The duration kept when no duration label is found. */
  const DefaultDuration: string := ""

  /** "未知" ("unknown"): the port kept when no departure or arrival label is found. */
  const UnknownPort: string := "\U{672A}\U{77E5}"

  /** What ends the lazy `(.*?)` group of each pattern. */
  datatype Stop =
    | BeforeDeparture   // ship:      (?=\s*Departure|\s*•)
    | BeforeYear        // date:      202\d
    | BeforeArrival     // departure: (?=Arrival|View)
    | BeforePrice       // arrival:   (?=£|From|Price)

  predicate StopsAt(s: Stop, t: string, g: nat)
    requires g <= |t|
  {
    match s
    case BeforeDeparture =>
      var j := SkipSpaces(t, g);
      WordAt(t, j, "departure") || WordAt(t, j, [Bullet])
    case BeforeYear => WordAt(t, g, "202") && g + 3 < |t| && IsDigit(t[g + 3])
    case BeforeArrival => WordAt(t, g, "arrival") || WordAt(t, g, "view")
    case BeforePrice => WordAt(t, g, [Pound]) || WordAt(t, g, "from") || WordAt(t, g, "price")
  }

  /** No newline between `g` and `h`: `.` never matches one. */
  predicate NoNewline(t: string, g: nat, h: nat)
    requires g <= h <= |t|
  {
    forall k :: g <= k < h ==> t[k] != '\n'
  }

  /** The lazy `(.*?)` starting at `g`: the least end `h` at which `s` holds,
      without crossing a newline. */
  function LazyUntil(s: Stop, t: string, g: nat): (r: Option<nat>)
    requires g <= |t|
    ensures r.Some? ==>
      && g <= r.value <= |t|
      && StopsAt(s, t, r.value)
      && NoNewline(t, g, r.value)
      && forall k :: g <= k < r.value ==> !StopsAt(s, t, k)
    ensures r.None? ==> forall h :: g <= h <= |t| && NoNewline(t, g, h) ==> !StopsAt(s, t, h)
    decreases |t| - g
  {
    if StopsAt(s, t, g) then
      Some(g)
    else if g < |t| && t[g] != '\n' then
      LazyUntil(s, t, g + 1)
    else
      None
  }

  /** The five optional-field patterns. */
  datatype Label =
    | ShipLabel        // Ship\s+(.*?)(?=\s*Departure|\s*•)
    | DateLabel        // Date\s+(.*?202\d)
    | DurationLabel    // Duration\s*(\d+\s*nights?)
    | DepartureLabel   // Departure(.*?)(?=Arrival|View)
    | ArrivalLabel     // Arrival(.*?)(?=£|From|Price)

  /** `Ship\s+(.*?)(?=\s*Departure|\s*•)` at `i`: the greedy `\s+` never has to give
      whitespace back, since neither the group nor the look-ahead can use it. */
  function ShipGroupAt(t: string, i: nat): Option<string>
    requires i <= |t|
  {
    if WordAt(t, i, "ship") && SkipSpaces(t, i + 4) > i + 4 then
      var e := SkipSpaces(t, i + 4);
      match LazyUntil(BeforeDeparture, t, e)
      case Some(h) => Some(t[e..h])
      case None => None
    else None
  }

  /** `Date\s+(.*?202\d)` at `i`. */
  function DateGroupAt(t: string, i: nat): Option<string>
    requires i <= |t|
  {
    if WordAt(t, i, "date") && SkipSpaces(t, i + 4) > i + 4 then
      var e := SkipSpaces(t, i + 4);
      match LazyUntil(BeforeYear, t, e)
      case Some(h) => Some(t[e..h + 4])
      case None => None
    else None
  }

  /** `Duration\s*(\d+\s*nights?)` at `i`: the group keeps the unit as written. */
  function DurationGroupAt(t: string, i: nat): Option<string>
    requires i <= |t|
  {
    if WordAt(t, i, "duration") then
      var e := SkipSpaces(t, i + 8);
      var d := DigitRunEnd(t, e);
      var w := SkipSpaces(t, d);
      if d > e && WordAt(t, w, "night") then
        Some(t[e..if w + 5 < |t| && Lower(t[w + 5]) == 's' then w + 6 else w + 5])
      else None
    else None
  }

  /** `Departure(.*?)(?=Arrival|View)` at `i`. */
  function DepartureGroupAt(t: string, i: nat): Option<string>
    requires i <= |t|
  {
    if WordAt(t, i, "departure") then
      match LazyUntil(BeforeArrival, t, i + 9)
      case Some(h) => Some(t[i + 9..h])
      case None => None
    else None
  }

  /** `Arrival(.*?)(?=£|From|Price)` at `i`. */
  function ArrivalGroupAt(t: string, i: nat): Option<string>
    requires i <= |t|
  {
    if WordAt(t, i, "arrival") then
      match LazyUntil(BeforePrice, t, i + 7)
      case Some(h) => Some(t[i + 7..h])
      case None => None
    else None
  }

  /** The group captured by a match of `f`'s pattern that starts at `i`, ignoring case. */
  function GroupAt(f: Label, t: string, i: nat): Option<string>
    requires i <= |t|
  {
    match f
    case ShipLabel => ShipGroupAt(t, i)
    case DateLabel => DateGroupAt(t, i)
    case DurationLabel => DurationGroupAt(t, i)
    case DepartureLabel => DepartureGroupAt(t, i)
    case ArrivalLabel => ArrivalGroupAt(t, i)
  }

  /** A match: where it starts and the group it captured. */
  datatype Found = Found(at: nat, group: string)

  /** `re.search`: the leftmost position from `i` to `n` at which `matchAt` succeeds. */
  function LeftmostMatch(matchAt: nat -> Option<string>, n: nat, i: nat): (r: Option<Found>)
    requires i <= n
    ensures r.Some? ==>
      && i <= r.value.at <= n
      && matchAt(r.value.at) == Some(r.value.group)
      && forall k :: i <= k < r.value.at ==> matchAt(k).None?
    ensures r.None? ==> forall k :: i <= k <= n ==> matchAt(k).None?
    decreases n - i
  {
    var g := matchAt(i);
    if g.Some? then Some(Found(i, g.value))
    else if i < n then LeftmostMatch(matchAt, n, i + 1)
    else None
  }

  /** `f`'s pattern tried at each position of `t`. */
  function Matcher(f: Label, t: string): nat -> Option<string> {
    (k: nat) => if k <= |t| then GroupAt(f, t, k) else None
  }

  /** `re.search` of `f`'s pattern over the whole text. */
  function Search(f: Label, t: string): Option<Found> {
    LeftmostMatch(Matcher(f, t), |t|, 0)
  }

  /** `ship_name`: the stripped group, or the default. */
  function ShipName(t: string): string {
    match Search(ShipLabel, t)
    case Some(m) => Strip(m.group)
    case None => DefaultShip
  }

  /** `date_info`: the stripped group, or the "unknown date" sentinel. */
  function DateText(t: string): string {
    match Search(DateLabel, t)
    case Some(m) => Strip(m.group)
    case None => UnknownDate
  }

  /** `duration`: the group as captured, or the empty string. */
  function DurationText(t: string): string {
    match Search(DurationLabel, t)
    case Some(m) => m.group
    case None => DefaultDuration
  }

  /** `departure`: the cleaned group, or the "unknown" sentinel. */
  function DeparturePort(t: string): string {
    match Search(DepartureLabel, t)
    case Some(m) => PortNames.CleanPortName(m.group)
    case None => UnknownPort
  }

  /** `arrival`: the cleaned group, or the "unknown" sentinel. */
  function ArrivalPort(t: string): string {
    match Search(ArrivalLabel, t)
    case Some(m) => PortNames.CleanPortName(m.group)
    case None => UnknownPort
  }

  /** The literal every match of `f` starts with. */
  function LabelWord(f: Label): string {
    match f
    case ShipLabel => "ship"
    case DateLabel => "date"
    case DurationLabel => "duration"
    case DepartureLabel => "departure"
    case ArrivalLabel => "arrival"
  }

  /** A pattern matches only where its label is written. */
  lemma GroupNeedsLabel(f: Label, t: string, i: nat)
    requires i <= |t|
    requires GroupAt(f, t, i).Some?
    ensures WordAt(t, i, LabelWord(f))
  {
  }

  /** A text in which a label is never written has no match of that field's pattern. */
  lemma UnlabelledFieldNotFound(f: Label, t: string)
    requires forall k :: 0 <= k <= |t| ==> !WordAt(t, k, LabelWord(f))
    ensures Search(f, t).None?
  {
    var r := Search(f, t);
    if r.Some? {
      GroupNeedsLabel(f, t, r.value.at);
      assert false;
    }
  }

  /** Hence each field of such a text keeps its default. */
  lemma UnlabelledFieldKeepsDefault(f: Label, t: string)
    requires forall k :: 0 <= k <= |t| ==> !WordAt(t, k, LabelWord(f))
    ensures f == ShipLabel ==> ShipName(t) == DefaultShip
    ensures f == DateLabel ==> DateText(t) == UnknownDate
    ensures f == DurationLabel ==> DurationText(t) == DefaultDuration
    ensures f == DepartureLabel ==> DeparturePort(t) == UnknownPort
    ensures f == ArrivalLabel ==> ArrivalPort(t) == UnknownPort
  {
    UnlabelledFieldNotFound(f, t);
  }

  /** The leftmost match is the first position where the matcher succeeds. */
  lemma LeftmostMatchIsFirst(matchAt: nat -> Option<string>, n: nat, i: nat)
    requires i <= n && matchAt(i).Some?
    requires forall k :: 0 <= k < i ==> matchAt(k).None?
    ensures LeftmostMatch(matchAt, n, 0) == Some(Found(i, matchAt(i).value))
  {
    var r := LeftmostMatch(matchAt, n, 0);
    assert r.Some? && r.value.at <= i;
  }

  /** The search reports the first position where the pattern matches. */
  lemma SearchFindsFirst(f: Label, t: string, i: nat, group: string)
    requires i <= |t| && GroupAt(f, t, i) == Some(group)
    requires forall k :: 0 <= k < i ==> GroupAt(f, t, k).None?
    ensures Search(f, t) == Some(Found(i, group))
  {
    LeftmostMatchIsFirst(Matcher(f, t), |t|, i);
  }
}
