/** `getToken`: the access token of the access-only variant, read with
    every storage failure turned into `null`. */
module GetToken {
  import opened Wrappers
  import opened Storage

  /** `readFails` stands for a rejected `AsyncStorage.getItem`. The
      method never throws and changes nothing. */
  method GetToken(store: KeyValueStore, readFails: bool) returns (t: Option<string>)
    ensures readFails ==> t == None
    ensures !readFails ==> (t.Some? <==> AccessTokenKey in store.items)
    ensures !readFails && t.Some? ==> t.value == store.items[AccessTokenKey]
  {
    if readFails {
      return None;
    }
    t := store.GetItem(AccessTokenKey);
  }
}
