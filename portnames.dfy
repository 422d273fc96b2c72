/// `clean_port_name`: the fixed pipeline of substitutions that turns the text
/// found between two labels into a bare port name.
module PortNames {
  import opened Options
  import opened Text

  const EnDash: char := '\U{2013}'

  /** The class `[-–]`. */
  predicate IsDash(c: char) {
    c == '-' || c == EnDash
  }

  /** The class `[-–:]`. */
  predicate IsPunct(c: char) {
    IsDash(c) || c == ':'
  }

  /** The four patterns that `clean_port_name` deletes, in the order it deletes them. */
  datatype Pattern =
    | Keywords      // Departure|Arrival|View full itinerary   (ignoring case)
    | ShipPrefix    // \b(s\s+)?Ship\s+[^\-–]+\s*[-–]\s*      (ignoring case)
    | Punctuation   // [-–:]
    | StopCount     // \d+\s*stops?                            (ignoring case)

  function KeywordEnd(t: string, p: nat): (r: Option<nat>)
    requires p <= |t|
  {
    if WordAt(t, p, "departure") then Some(p + 9)
    else if WordAt(t, p, "arrival") then Some(p + 7)
    else if WordAt(t, p, "view full itinerary") then Some(p + 19)
    else None
  }

  /** `\b` at position `p`: a word character on exactly one side. */
  predicate WordBoundary(t: string, p: nat)
    requires p <= |t|
  {
    (p > 0 && IsWordChar(t[p - 1])) != (p < |t| && IsWordChar(t[p]))
  }

  /** The first dash at or after `a`. */
  function FirstDash(t: string, a: nat): (r: Option<nat>)
    requires a <= |t|
    ensures r.Some? ==> a <= r.value < |t| && IsDash(t[r.value])
    ensures r.Some? ==> forall k :: a <= k < r.value ==> !IsDash(t[k])
    ensures r.None? ==> forall k :: a <= k < |t| ==> !IsDash(t[k])
    decreases |t| - a
  {
    if a == |t| then None
    else if IsDash(t[a]) then Some(a)
    else FirstDash(t, a + 1)
  }

  /** `Ship\s+[^\-–]+\s*[-–]\s*` at `s`. The greedy `[^\-–]+` runs to the first
      dash, so a match needs whitespace right after "Ship" and at least two
      characters before that dash; it then takes the whitespace after the dash. */
  function ShipTailEnd(t: string, s: nat): (r: Option<nat>)
    requires s <= |t|
    ensures r.Some? ==> s < r.value <= |t|
  {
    if WordAt(t, s, "ship") && s + 4 < |t| && IsSpace(t[s + 4]) then
      match FirstDash(t, s + 4)
      case Some(d) => if d >= s + 6 then Some(SkipSpaces(t, d + 1)) else None
      case None => None
    else
      None
  }

  /** `\b(s\s+)?Ship…` at `p`: the optional group is tried first, and dropped if the rest fails with it. */
  function ShipPrefixEnd(t: string, p: nat): (r: Option<nat>)
    requires p <= |t|
    ensures r.Some? ==> p < r.value <= |t|
  {
    if !WordBoundary(t, p) then
      None
    else
      var withS :=
        if WordAt(t, p, "s") && SkipSpaces(t, p + 1) > p + 1 then ShipTailEnd(t, SkipSpaces(t, p + 1)) else None;
      if withS.Some? then withS else ShipTailEnd(t, p)
  }

  /** `\d+\s*stops?` at `p`. */
  function StopCountEnd(t: string, p: nat): (r: Option<nat>)
    requires p <= |t|
  {
    var d := DigitRunEnd(t, p);
    var w := SkipSpaces(t, d);
    if d > p && WordAt(t, w, "stop") then
      Some(if w + 4 < |t| && Lower(t[w + 4]) == 's' then w + 5 else w + 4)
    else
      None
  }

  /** Where a match of `pat` that starts at `p` ends; every pattern matches at least one character. */
  function MatchEnd(pat: Pattern, t: string, p: nat): (r: Option<nat>)
    requires p <= |t|
    ensures r.Some? ==> p < r.value <= |t|
  {
    match pat
    case Keywords => KeywordEnd(t, p)
    case ShipPrefix => ShipPrefixEnd(t, p)
    case Punctuation => if p < |t| && IsPunct(t[p]) then Some(p + 1) else None
    case StopCount => StopCountEnd(t, p)
  }

  /** `re.sub(pat, "", t)` from position `p`: left to right, each match is
      deleted and the scan resumes after it; other characters are kept. */
  function RemoveAll(pat: Pattern, t: string, p: nat): (r: string)
    requires p <= |t|
    ensures |r| <= |t| - p
    ensures forall c :: c in r ==> c in t
    decreases |t| - p
  {
    if p == |t| then
      []
    else
      match MatchEnd(pat, t, p)
      case Some(q) => RemoveAll(pat, t, q)
      case None => [t[p]] + RemoveAll(pat, t, p + 1)
  }

  /** Where `pat` matches nowhere, the substitution changes nothing. */
  lemma {:induction false} RemoveAllNoMatch(pat: Pattern, t: string, p: nat)
    requires p <= |t|
    requires forall k :: p <= k < |t| ==> MatchEnd(pat, t, k).None?
    ensures RemoveAll(pat, t, p) == t[p..]
    decreases |t| - p
  {
    if p < |t| {
      RemoveAllNoMatch(pat, t, p + 1);
      assert t[p..] == [t[p]] + t[p + 1..];
    }
  }

  /** Characters at which no match starts are kept, in order. */
  lemma {:induction false} RemoveAllKeepsUnmatched(pat: Pattern, t: string, p: nat, s: nat)
    requires p <= s <= |t|
    requires forall k :: p <= k < s ==> MatchEnd(pat, t, k).None?
    ensures RemoveAll(pat, t, p) == t[p..s] + RemoveAll(pat, t, s)
    decreases s - p
  {
    if p < s {
      RemoveAllKeepsUnmatched(pat, t, p + 1, s);
      assert t[p..s] == [t[p]] + t[p + 1..s];
    }
  }

  /** The next match from a scan position is deleted: the text from that
      position up to the match is kept, and the scan goes on from where the
      match ends. */
  lemma RemoveAllDropsNextMatch(pat: Pattern, t: string, p: nat, s: nat, q: nat)
    requires p <= s < |t| && MatchEnd(pat, t, s) == Some(q)
    requires forall k :: p <= k < s ==> MatchEnd(pat, t, k).None?
    ensures RemoveAll(pat, t, p) == t[p..s] + RemoveAll(pat, t, q)
  {
    RemoveAllKeepsUnmatched(pat, t, p, s);
  }

  /** After the third substitution no dash or colon is left. */
  lemma {:induction false} RemovePunctuationComplete(t: string, p: nat)
    requires p <= |t|
    ensures forall c :: c in RemoveAll(Punctuation, t, p) ==> !IsPunct(c)
    decreases |t| - p
  {
    if p < |t| {
      RemovePunctuationComplete(t, p + 1);
    }
  }

  /** The tail of the ship prefix ends in a dash, so text without dashes has none. */
  lemma ShipTailNeedsDash(t: string, s: nat)
    requires s <= |t|
    requires forall k :: 0 <= k < |t| ==> !IsDash(t[k])
    ensures ShipTailEnd(t, s).None?
  {
  }

  /** Hence text without dashes has no ship prefix either. */
  lemma ShipPrefixNeedsDash(t: string, p: nat)
    requires p <= |t|
    requires forall k :: 0 <= k < |t| ==> !IsDash(t[k])
    ensures MatchEnd(ShipPrefix, t, p).None?
  {
    ShipTailNeedsDash(t, p);
    if p + 1 <= |t| {
      ShipTailNeedsDash(t, SkipSpaces(t, p + 1));
    }
  }

  /** `^\s*s\s*$`: the whole text is one lower-case "s" with only whitespace around it. */
  predicate LoneS(t: string) {
    var a := SkipSpaces(t, 0);
    a < |t| && t[a] == 's' && SkipSpaces(t, a + 1) == |t|
  }

  /** Stripping leaves exactly "s" only from a text that the fifth substitution empties. */
  lemma StripToS(t: string)
    ensures Strip(t) == "s" ==> LoneS(t)
  {
    if Strip(t) == "s" {
      var a := SkipSpaces(t, 0);
      var b := TrailingStart(t, |t|);
      assert a < b && t[a..b] == "s";
      assert b == a + 1;
    }
  }

  /** `clean_port_name`. */
  function CleanPortName(t: string): (r: string)
    ensures |r| > 0 ==> !IsSpace(r[0]) && !IsSpace(r[|r| - 1])
    ensures forall c :: c in r ==> !IsPunct(c) && c in t
    ensures r != "s"
  {
    var noKeywords := RemoveAll(Keywords, t, 0);
    var noShip := RemoveAll(ShipPrefix, noKeywords, 0);
    var noPunct := RemoveAll(Punctuation, noShip, 0);
    var noStops := RemoveAll(StopCount, noPunct, 0);
    var noLoneS := if LoneS(noStops) then "" else noStops;
    RemovePunctuationComplete(noShip, 0);
    StripToS(noLoneS);
    Strip(noLoneS)
  }

  /** Text with no keyword, dash, colon or stop count, no whitespace at either
      end, and other than "s", comes back unchanged. */
  lemma CleanInputUnchanged(t: string)
    requires forall k :: 0 <= k < |t| ==> KeywordEnd(t, k).None? && StopCountEnd(t, k).None? && !IsPunct(t[k])
    requires |t| > 0 ==> !IsSpace(t[0]) && !IsSpace(t[|t| - 1])
    requires t != "s"
    ensures CleanPortName(t) == t
  {
    RemoveAllNoMatch(Keywords, t, 0);
    assert t[0..] == t;
    forall k | 0 <= k < |t| ensures MatchEnd(ShipPrefix, t, k).None? {
      ShipPrefixNeedsDash(t, k);
    }
    RemoveAllNoMatch(ShipPrefix, t, 0);
    RemoveAllNoMatch(Punctuation, t, 0);
    RemoveAllNoMatch(StopCount, t, 0);
  }

  /** "Tokyo" is already clean. */
  lemma CleanTokyo()
    ensures CleanPortName("Tokyo") == "Tokyo"
  {
    var t := "Tokyo";
    forall k | 0 <= k < |t| ensures KeywordEnd(t, k).None? && StopCountEnd(t, k).None? && !IsPunct(t[k]) {
      assert !IsDigit(t[k]);
    }
    CleanInputUnchanged(t);
  }
}
