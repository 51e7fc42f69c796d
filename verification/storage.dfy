/** The device key-value store (AsyncStorage), the two credential keys,
    and the decimal rendering of numeric ids used to build per-entity keys
    such as `debt_status_<id>`. */
module Storage {
  import opened Wrappers

  const AccessTokenKey: string := "access_token"
  const RefreshTokenKey: string := "refresh_token"

  /** `getItem` on a plain dictionary: `null` (None) for a missing key. */
  function Lookup(items: map<string, string>, key: string): (r: Option<string>)
    ensures r.Some? <==> key in items
    ensures r.Some? ==> r.value == items[key]
  {
    if key in items then Some(items[key]) else None
  }

  /** JavaScript truthiness of a value read from storage: `null` and `""` are falsy. */
  predicate Truthy(v: Option<string>)
  {
    v.Some? && v.value != ""
  }

  /** The persistent store, shared by every part of the app. Writes and
      removes are awaited one after the other, so the model is sequential. */
  class KeyValueStore {
    var items: map<string, string>

    constructor (initial: map<string, string>)
      ensures items == initial
    {
      items := initial;
    }

    method GetItem(key: string) returns (v: Option<string>)
      ensures v == Lookup(items, key)
    {
      v := if key in items then Some(items[key]) else None;
    }

    method SetItem(key: string, value: string)
      modifies this
      ensures items == old(items)[key := value]
    {
      items := items[key := value];
    }

    /** Removing an absent key is not an error. */
    method RemoveItem(key: string)
      modifies this
      ensures items == old(items) - {key}
    {
      items := items - {key};
    }
  }

  function DigitChar(d: nat): (c: char)
    requires d < 10
    ensures '0' <= c <= '9' && c as int - '0' as int == d
  {
    "0123456789"[d]
  }

  /** Decimal notation of a natural number, as `${n}` prints it. */
  function NatToDecimal(n: nat): (s: string)
    ensures 1 <= |s|
    ensures forall i :: 0 <= i < |s| ==> '0' <= s[i] <= '9'
    ensures n < 10 <==> |s| == 1
    decreases n
  {
    if n < 10 then [DigitChar(n)] else NatToDecimal(n / 10) + [DigitChar(n % 10)]
  }

  /** Decimal notation of an integer id, with a leading '-' when negative. */
  function IntToDecimal(i: int): (s: string)
    ensures 1 <= |s|
    ensures (s[0] == '-') <==> i < 0
  {
    if i < 0 then "-" + NatToDecimal(-i) else NatToDecimal(i)
  }

  lemma {:induction false} NatToDecimalInjective(a: nat, b: nat)
    requires NatToDecimal(a) == NatToDecimal(b)
    ensures a == b
    decreases a
  {
    var s := NatToDecimal(a);
    if a >= 10 && b >= 10 {
      assert NatToDecimal(a / 10) == s[..|s| - 1] == NatToDecimal(b / 10);
      NatToDecimalInjective(a / 10, b / 10);
      assert DigitChar(a % 10) == s[|s| - 1] == DigitChar(b % 10);
    }
  }

  /** Distinct ids give distinct decimal strings. */
  lemma IntToDecimalInjective(a: int, b: int)
    requires IntToDecimal(a) == IntToDecimal(b)
    ensures a == b
  {
    if a < 0 {
      assert IntToDecimal(a)[1..] == NatToDecimal(-a);
      assert IntToDecimal(b)[1..] == NatToDecimal(-b);
      NatToDecimalInjective(-a, -b);
    } else {
      NatToDecimalInjective(a, b);
    }
  }

  /** The key `<prefix><id>` of a per-entity cache entry. */
  function EntityKey(prefix: string, id: int): string
  {
    prefix + IntToDecimal(id)
  }

  /** Two entities of the same kind never share a cache key. */
  lemma EntityKeyInjective(prefix: string, a: int, b: int)
    requires EntityKey(prefix, a) == EntityKey(prefix, b)
    ensures a == b
  {
    assert EntityKey(prefix, a)[|prefix|..] == IntToDecimal(a);
    assert EntityKey(prefix, b)[|prefix|..] == IntToDecimal(b);
    IntToDecimalInjective(a, b);
  }
}
