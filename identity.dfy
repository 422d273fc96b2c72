/// `get_unique_id`: the dedup key of a listing, made from its price, date and
/// ship only.
module Identity {
  import opened Text

  /** A persisted identity. */
  type Token = string

  /** The string that `get_unique_id` hashes: `f"{price}-{date}-{ship}"`. */
  function RawKey(price: nat, date: string, ship: string): string {
    Decimal(price) + "-" + date + "-" + ship
  }

  /** Stands for the MD5 hex digest of the key; the model keeps the key itself,
      i.e. treats the digest as injective. */
  function Digest(key: string): Token {
    key
  }

  function UniqueId(price: nat, date: string, ship: string): Token {
    Digest(RawKey(price, date, ship))
  }

  /** In a key, the price's digits end at the first '-'. */
  lemma DashEndsDigits(digits: string, rest: string)
    requires AllDigits(digits) && |rest| > 0 && rest[0] == '-'
    ensures (digits + rest)[|digits|] == '-'
    ensures forall k :: 0 <= k < |digits| ==> (digits + rest)[k] != '-'
  {
  }

  /** Two listings with different prices never share an identity: the price's
      digits run up to the first '-' of the key. */
  lemma UniqueIdSeparatesPrices(p1: nat, d1: string, s1: string, p2: nat, d2: string, s2: string)
    requires UniqueId(p1, d1, s1) == UniqueId(p2, d2, s2)
    ensures p1 == p2
  {
    var a, b := Decimal(p1), Decimal(p2);
    var key1, key2 := RawKey(p1, d1, s1), RawKey(p2, d2, s2);
    assert key1 == a + ("-" + d1 + "-" + s1);
    assert key2 == b + ("-" + d2 + "-" + s2);
    DashEndsDigits(a, "-" + d1 + "-" + s1);
    DashEndsDigits(b, "-" + d2 + "-" + s2);
    if |a| != |b| {
      assert false;
    }
    assert a == key1[..|a|] && b == key2[..|b|];
    DecimalRoundTrip(p1);
    DecimalRoundTrip(p2);
  }

  /** Neighbouring prices on the same sailing get distinct identities. */
  lemma DistinctPricesDistinctIds()
    ensures UniqueId(100, "12 March 2025", "Spectrum") != UniqueId(101, "12 March 2025", "Spectrum")
  {
    if UniqueId(100, "12 March 2025", "Spectrum") == UniqueId(101, "12 March 2025", "Spectrum") {
      UniqueIdSeparatesPrices(100, "12 March 2025", "Spectrum", 101, "12 March 2025", "Spectrum");
    }
  }

  /** The separator is not escaped, so a '-' inside the date or the ship name
      lets two different (date, ship) pairs share an identity. */
  lemma SeparatorCollision()
    ensures ("a-b", "c") != ("a", "b-c")
    ensures UniqueId(1, "a-b", "c") == UniqueId(1, "a", "b-c")
  {
    assert Decimal(1) == "1";
  }
}
