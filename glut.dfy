/**
 * Token lease locks on stored values (glut/locks.go).
 *
 * A value is addressed by (component, name). Lock, SetLocked, DelLocked and
 * Unlock are single conditional writes on the stored record; the boolean
 * they return means "this call created, changed or deleted the record" (a
 * write that leaves every field as it was is not a modification). The clock
 * is the parameter `now`; the store's own errors are not modelled.
 */
module Glut {
  import opened Common

  /** A lock token is an object id; 0 stands for the zero id. */
  type Token = nat
  type Bytes = seq<bv8>

  datatype Key = Key(component: string, name: string)

  /** A stored value: its data, the lock deadline and the lock holder. */
  datatype Value = Value(data: Option<Bytes>, locked: Option<int>, token: Option<Token>)

  const InvalidToken: string := "invalid token"

  /** What every write of this module keeps true of a stored value. */
  predicate WellFormed(v: Value) {
    && (v.token.None? <==> v.locked.None?)
    && (v.token.Some? ==> v.token.value != 0)
  }

  /** The filter of Lock's second write: unlocked, lock timed out, or ours. */
  predicate Acquirable(v: Value, token: Token, now: int) {
    || v.token.None?
    || (v.locked.Some? && v.locked.value < now)
    || v.token == Some(token)
  }

  /** The filter of SetLocked, GetLocked, DelLocked and Unlock. */
  predicate HeldBy(v: Value, token: Token) {
    v.token == Some(token)
  }

  /** A lock held by one token and not yet past its deadline cannot be taken by another. */
  lemma HeldLockExcludesOthers(v: Value, holder: Token, other: Token, now: int)
    requires v.token == Some(holder) && v.locked.Some? && now <= v.locked.value
    requires other != holder
    ensures !Acquirable(v, other, now)
  {
  }

  class LockStore {
    var values: map<Key, Value>

    ghost predicate Valid()
      reads this
    {
      forall k :: k in values ==> WellFormed(values[k])
    }

    constructor ()
      ensures Valid() && values == map[]
    {
      values := map[];
    }

    /**
     * Lock creates the value locked by `token` when it does not exist, and
     * otherwise takes the lock when it is free, timed out or already ours.
     */
    method Lock(component: string, name: string, token: Token, timeout: int, now: int)
      returns (r: Result<bool, string>)
      requires Valid()
      modifies this
      ensures Valid()
      ensures token == 0 ==> r == Err(InvalidToken) && values == old(values)
      ensures token != 0 && Key(component, name) !in old(values) ==>
        && r == Ok(true)
        && values == old(values)[Key(component, name) := Value(None, Some(now + timeout), Some(token))]
      ensures token != 0 && Key(component, name) in old(values) ==>
        var v := old(values)[Key(component, name)];
        var v' := v.(locked := Some(now + timeout), token := Some(token));
        if Acquirable(v, token, now) then
          values == old(values)[Key(component, name) := v'] && r == Ok(v' != v)
        else
          values == old(values) && r == Ok(false)
    {
      if token == 0 {
        return Err(InvalidToken);
      }
      var key := Key(component, name);
      var locked := now + timeout;

      // init value (upsert with set-on-insert)
      var upserted := false;
      if key !in values {
        values := values[key := Value(None, Some(locked), Some(token))];
        upserted := true;
      }

      // lock value
      var modified := false;
      var v := values[key];
      if Acquirable(v, token, now) {
        var v' := v.(locked := Some(locked), token := Some(token));
        modified := v' != v;
        values := values[key := v'];
      }

      r := Ok(upserted || modified);
    }

    /** SetLocked replaces the data of a value held by `token`; expiry is not checked. */
    method SetLocked(component: string, name: string, data: Option<Bytes>, token: Token)
      returns (r: Result<bool, string>)
      requires Valid()
      modifies this
      ensures Valid()
      ensures token == 0 ==> r == Err(InvalidToken) && values == old(values)
      ensures token != 0 ==>
        var key := Key(component, name);
        if key in old(values) && HeldBy(old(values)[key], token) then
          && values == old(values)[key := old(values)[key].(data := data)]
          && r == Ok(old(values)[key].data != data)
        else
          values == old(values) && r == Ok(false)
    {
      if token == 0 {
        return Err(InvalidToken);
      }
      var key := Key(component, name);
      if key in values && HeldBy(values[key], token) {
        var v := values[key];
        values := values[key := v.(data := data)];
        return Ok(v.data != data);
      }
      r := Ok(false);
    }

    /** GetLocked returns the data of a value only when it is held by `token`. */
    method GetLocked(component: string, name: string, token: Token)
      returns (data: Option<Bytes>, loaded: bool)
      ensures loaded <==> Key(component, name) in values && HeldBy(values[Key(component, name)], token)
      ensures loaded ==> data == values[Key(component, name)].data
      ensures !loaded ==> data == None
    {
      var key := Key(component, name);
      if key in values && HeldBy(values[key], token) {
        return values[key].data, true;
      }
      return None, false;
    }

    /** DelLocked removes a value only when it is held by `token`. */
    method DelLocked(component: string, name: string, token: Token)
      returns (r: Result<bool, string>)
      requires Valid()
      modifies this
      ensures Valid()
      ensures token == 0 ==> r == Err(InvalidToken) && values == old(values)
      ensures token != 0 ==>
        var key := Key(component, name);
        if key in old(values) && HeldBy(old(values)[key], token) then
          values == old(values) - {key} && |values| == |old(values)| - 1 && r == Ok(true)
        else
          values == old(values) && r == Ok(false)
    {
      if token == 0 {
        return Err(InvalidToken);
      }
      var key := Key(component, name);
      if key in values && HeldBy(values[key], token) {
        values := values - {key};
        return Ok(true);
      }
      r := Ok(false);
    }

    /** Unlock clears the deadline and the token of a value held by `token`, keeping its data. */
    method Unlock(component: string, name: string, token: Token)
      returns (r: Result<bool, string>)
      requires Valid()
      modifies this
      ensures Valid()
      ensures token == 0 ==> r == Err(InvalidToken) && values == old(values)
      ensures token != 0 ==>
        var key := Key(component, name);
        if key in old(values) && HeldBy(old(values)[key], token) then
          && values == old(values)[key := Value(old(values)[key].data, None, None)]
          && r == Ok(true)
        else
          values == old(values) && r == Ok(false)
    {
      if token == 0 {
        return Err(InvalidToken);
      }
      var key := Key(component, name);
      if key in values && HeldBy(values[key], token) {
        values := values[key := Value(values[key].data, None, None)];
        return Ok(true);
      }
      r := Ok(false);
    }
  }
}
