/** The per-QQ BotKey table (`user_bind` in the database) and the
    authorization header built from it. */
module Credentials {
  import opened Wrappers
  import opened PyText

  /** `get_user_bot_key`: the key bound to `qq`, or None. */
  function Lookup(keys: map<string, string>, qq: string): (r: Option<string>)
    ensures r.Some? <==> qq in keys
    ensures r.Some? ==> r.value == keys[qq]
  {
    if qq in keys then Some(keys[qq]) else None
  }

  /** `_build_auth_headers`: `{"Authorization": "BotKey <key>"}` when `qq` has a
      non-empty key, and `{}` otherwise. */
  function AuthHeaders(keys: map<string, string>, qq: string): (h: map<string, string>)
    ensures h == map[] <==> qq !in keys || keys[qq] == ""
    ensures h != map[] ==> h == map["Authorization" := "BotKey " + keys[qq]]
  {
    match Lookup(keys, qq)
    case Some(key) =>
      if key != "" then
        var h := map["Authorization" := "BotKey " + key];
        assert "Authorization" in h;
        h
      else map[]
    case None => map[]
  }

  /** The table itself, updated in place by `set_user_bot_key`. */
  class CredentialStore {
    var keys: map<string, string>

    /** A table in which no QQ is bound yet. */
    constructor ()
      ensures keys == map[]
    {
      keys := map[];
    }

    /** `set_user_bot_key`: insert or overwrite the key of `qq`; other QQs keep theirs. */
    method Set(qq: string, key: string)
      modifies this
      ensures keys == old(keys)[qq := key]
      ensures Lookup(keys, qq) == Some(key)
      ensures forall other :: other != qq ==> Lookup(keys, other) == Lookup(old(keys), other)
    {
      keys := keys[qq := key];
    }

    /** `get_user_bot_key`: read the key of `qq`; the table is left as it is. */
    method Get(qq: string) returns (r: Option<string>)
      ensures r == Lookup(keys, qq)
    {
      r := if qq in keys then Some(keys[qq]) else None;
    }
  }

  /** After binding `k1` and then `k2` to one QQ the table answers `k2`, and every
      other QQ still answers what it answered before. */
  lemma SetTwice(keys: map<string, string>, qq: string, k1: string, k2: string, other: string)
    requires other != qq
    ensures Lookup(keys[qq := k1][qq := k2], qq) == Some(k2)
    ensures Lookup(keys[qq := k1][qq := k2], other) == Lookup(keys, other)
  {
  }

  /** A QQ that was never bound has no key and gets no header. */
  lemma NeverSet(qq: string)
    ensures Lookup(map[], qq) == None
    ensures AuthHeaders(map[], qq) == map[]
  {
  }
}
