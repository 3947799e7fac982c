/**
 * The token store: one opaque session token kept in the browser's key/value
 * storage under a single well-known key. Every storage call may throw; the
 * store swallows the error (a throwing `getItem` reads as "no token", a
 * throwing `setItem` or `removeItem` leaves the storage as it was).
 */
module TokenStore {
  import opened Common

  /** The storage key under which the session token lives. */
  const TokenKey: string := "chatera-token"

  /** `getItem(TokenKey)`: the stored token, or none when the key is absent. */
  function Read(items: map<string, string>): Option<string>
  {
    if TokenKey in items then Some(items[TokenKey]) else None
  }

  /** What `getToken` returns: the stored token, or none when reading throws. */
  function ReadResult(items: map<string, string>, fails: bool): Option<string>
  {
    if fails then None else Read(items)
  }

  /** The storage after `setToken(token)`; unchanged when writing throws. */
  function StoreResult(items: map<string, string>, token: string, fails: bool): map<string, string>
  {
    if fails then items else items[TokenKey := token]
  }

  /** The storage after `removeToken()`; unchanged when removing throws. */
  function RemoveResult(items: map<string, string>, fails: bool): map<string, string>
  {
    if fails then items else items - {TokenKey}
  }

  /** `setToken(t)` followed by a working `getToken()` gives back `t`. */
  lemma SetThenGet(items: map<string, string>, token: string)
    ensures ReadResult(StoreResult(items, token, false), false) == Some(token)
  {
  }

  /** A failing storage call changes nothing, and a failing read yields no token. */
  lemma FailuresAreSwallowed(items: map<string, string>, token: string)
    ensures StoreResult(items, token, true) == items
    ensures RemoveResult(items, true) == items
    ensures ReadResult(items, true) == None
  {
  }

  /** A working `removeToken()` leaves no token behind; on an empty store it is a no-op. */
  lemma RemoveClears(items: map<string, string>)
    ensures Read(RemoveResult(items, false)) == None
    ensures Read(items) == None ==> RemoveResult(items, false) == items
  {
  }

  /** Removing twice is the same as removing once. */
  lemma RemoveIdempotent(items: map<string, string>, f1: bool, f2: bool)
    ensures RemoveResult(RemoveResult(items, f1), f2) == RemoveResult(items, f1 && f2)
  {
  }

  /** Token operations touch no other storage key. */
  lemma OtherKeysUntouched(items: map<string, string>, token: string, fs: bool, fr: bool, k: string)
    requires k != TokenKey
    ensures k in StoreResult(items, token, fs) <==> k in items
    ensures k in RemoveResult(items, fr) <==> k in items
    ensures k in items ==> StoreResult(items, token, fs)[k] == items[k] && RemoveResult(items, fr)[k] == items[k]
  {
  }

  /** The storage object; `items` is the key/value storage it wraps. */
  class TokenStorage {
    var items: map<string, string>

    constructor (initial: map<string, string>)
      ensures items == initial
    {
      items := initial;
    }

    /** Persist `token`; a throwing write is swallowed. */
    method SetToken(token: string, fails: bool)
      modifies this
      ensures items == StoreResult(old(items), token, fails)
    {
      if !fails {
        items := items[TokenKey := token];
      }
    }

    /** The persisted token; none when absent or when reading throws. */
    method GetToken(fails: bool) returns (r: Option<string>)
      ensures r == ReadResult(items, fails)
    {
      if fails {
        r := None;
      } else if TokenKey in items {
        r := Some(items[TokenKey]);
      } else {
        r := None;
      }
    }

    /** Delete the persisted token; a throwing delete is swallowed. */
    method RemoveToken(fails: bool)
      modifies this
      ensures items == RemoveResult(old(items), fails)
    {
      if !fails {
        items := items - {TokenKey};
      }
    }
  }
}
