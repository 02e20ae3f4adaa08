/** The expiring key-value store that sold-out flags and refresh tokens share, and the service that
    keeps both in it. */
module Cache {
  import opened Durations
  import opened Tables

  // ---- The store's contract ----

  datatype Value = Truth | Text(text: string)
  datatype Entry = Entry(value: Value, expiresAt: Option<nat>)

  type Store = map<string, Entry>

  predicate LiveAt(entry: Entry, now: nat) {
    entry.expiresAt.Some? ==> now < entry.expiresAt.value
  }

  function Lookup(store: Store, key: string, now: nat): Option<Value> {
    if key in store && LiveAt(store[key], now) then Some(store[key].value) else None
  }

  /** The service passes lifetimes in milliseconds; the store wants whole seconds. No lifetime, or
      zero, means none is passed on and the entry does not expire. */
  function TtlInSeconds(ttl: Option<nat>): Option<nat> {
    if ttl.None? || ttl.value == 0 then None else Some(ttl.value / SECONDS)
  }

  function NewEntry(value: Value, ttl: Option<nat>, now: nat): Entry {
    Entry(value, match TtlInSeconds(ttl) case None => None case Some(t) => Some(now + t * SECONDS))
  }

  class CacheManager {
    var entries: Store

    constructor ()
      ensures entries == map[]
    {
      entries := map[];
    }

    method Set(key: string, value: Value, ttl: Option<nat>, now: nat)
      modifies this
      ensures entries == old(entries)[key := Entry(value, if ttl.Some? then Some(now + ttl.value * SECONDS) else None)]
    {
      entries := entries[key := Entry(value, if ttl.Some? then Some(now + ttl.value * SECONDS) else None)];
    }

    method Get(key: string, now: nat) returns (value: Option<Value>)
      ensures value == Lookup(entries, key, now)
    {
      value := if key in entries && LiveAt(entries[key], now) then Some(entries[key].value) else None;
    }

    method Del(key: string)
      modifies this
      ensures entries == old(entries) - {key}
    {
      entries := entries - {key};
    }
  }

  // ---- The service ----

  /** How a call to a remote store goes: it works, it does not arrive, or only its reply is lost. */
  datatype Link = Works | Lost | ReplyLost

  datatype Error =
    | FailedToGetRefreshToken | FailedToSetRefreshToken | FailedToDeleteRefreshToken
    | FailedToAddQueue | FailedToFindTicket | TicketNotFound | FailedToReserveTicket
    | FailedToCreateReservation | FailedToCreateEvent | NotLocked | Unavailable

  datatype Reply<+T> = Ok(value: T) | Err(error: Error)

  const SOLD_OUT := "sold-out-"

  function SoldOutKey(t: Id): string { SOLD_OUT + t.text }

  /** The lifetime of a flag, as passed to `Set`. */
  const FLAG_LIFETIME: Option<nat> := Some(24 * HOURS)

  class RedisService {
    const cacheManager: CacheManager

    constructor (cacheManager: CacheManager)
      ensures this.cacheManager == cacheManager
    {
      this.cacheManager := cacheManager;
    }

    method SetEntry(key: string, value: Value, ttl: Option<nat>, now: nat, link: Link) returns (reply: Reply<()>)
      modifies cacheManager
      ensures !link.Lost? ==> cacheManager.entries == old(cacheManager.entries)[key := Entry(value,
        if ttl.None? || ttl.value == 0 then None else Some(now + ttl.value / 1000 * 1000))]
      ensures cacheManager.entries
           == if link.Lost? then old(cacheManager.entries) else old(cacheManager.entries)[key := NewEntry(value, ttl, now)]
      ensures reply == if link.Works? then Ok(()) else Err(Unavailable)
    {
      var ttlInSecond := if ttl.Some? && ttl.value != 0 then Some(ttl.value / SECONDS) else None;
      if !link.Lost? {
        cacheManager.Set(key, value, ttlInSecond, now);
      }
      reply := if link.Works? then Ok(()) else Err(Unavailable);
    }

    method GetEntry(key: string, now: nat, link: Link) returns (reply: Reply<Option<Value>>)
      ensures reply == if link.Works? then Ok(Lookup(cacheManager.entries, key, now)) else Err(Unavailable)
    {
      var value := cacheManager.Get(key, now);
      reply := if link.Works? then Ok(value) else Err(Unavailable);
    }

    method DelEntry(key: string, link: Link) returns (reply: Reply<()>)
      modifies cacheManager
      ensures cacheManager.entries == if link.Lost? then old(cacheManager.entries) else old(cacheManager.entries) - {key}
      ensures reply == if link.Works? then Ok(()) else Err(Unavailable)
    {
      if !link.Lost? {
        cacheManager.Del(key);
      }
      reply := if link.Works? then Ok(()) else Err(Unavailable);
    }

    method SetTicketSoldOut(t: Id, now: nat, link: Link) returns (reply: Reply<()>)
      modifies cacheManager
      ensures !link.Lost? ==>
        cacheManager.entries == old(cacheManager.entries)["sold-out-" + t.text := Entry(Truth, Some(now + 86400000))]
      ensures cacheManager.entries == if link.Lost? then old(cacheManager.entries)
                                      else old(cacheManager.entries)[SoldOutKey(t) := Entry(Truth, Some(now + FLAG_TTL))]
      ensures reply == if link.Works? then Ok(()) else Err(Unavailable)
    {
      reply := SetEntry(SoldOutKey(t), Truth, FLAG_LIFETIME, now, link);
    }

    method GetTicketSoldOut(t: Id, now: nat, link: Link) returns (reply: Reply<bool>)
      ensures reply.Ok? ==> var key := "sold-out-" + t.text;
        reply.value <==>
          && key in cacheManager.entries
          && (cacheManager.entries[key].expiresAt.Some? ==> now < cacheManager.entries[key].expiresAt.value)
      ensures reply == if link.Works? then Ok(Lookup(cacheManager.entries, SoldOutKey(t), now).Some?) else Err(Unavailable)
    {
      var found := GetEntry(SoldOutKey(t), now, link);
      reply := match found case Ok(v) => Ok(v.Some?) case Err(e) => Err(e);
    }

    method DeleteTicketSoldOut(t: Id, link: Link) returns (reply: Reply<()>)
      modifies cacheManager
      ensures !link.Lost? ==> cacheManager.entries == old(cacheManager.entries) - {"sold-out-" + t.text}
      ensures cacheManager.entries
           == if link.Lost? then old(cacheManager.entries) else old(cacheManager.entries) - {SoldOutKey(t)}
      ensures reply == if link.Works? then Ok(()) else Err(Unavailable)
    {
      reply := DelEntry(SoldOutKey(t), link);
    }

    method GetRefreshToken(id: string, now: nat, link: Link) returns (reply: Reply<Option<Value>>)
      ensures reply == if link.Works? then Ok(Lookup(cacheManager.entries, id, now)) else Err(FailedToGetRefreshToken)
    {
      reply := GetEntry(id, now, link);
      if reply.Err? {
        reply := Err(FailedToGetRefreshToken);
      }
    }

    method SetRefreshToken(id: string, token: string, ttl: Option<nat>, now: nat, link: Link) returns (reply: Reply<()>)
      modifies cacheManager
      ensures cacheManager.entries == if link.Lost? then old(cacheManager.entries)
                                      else old(cacheManager.entries)[id := NewEntry(Text(token), ttl, now)]
      ensures reply == if link.Works? then Ok(()) else Err(FailedToSetRefreshToken)
    {
      reply := SetEntry(id, Text(token), ttl, now, link);
      if reply.Err? {
        reply := Err(FailedToSetRefreshToken);
      }
    }

    method DeleteRefreshToken(id: string, link: Link) returns (reply: Reply<()>)
      modifies cacheManager
      ensures cacheManager.entries == if link.Lost? then old(cacheManager.entries) else old(cacheManager.entries) - {id}
      ensures reply == if link.Works? then Ok(()) else Err(FailedToDeleteRefreshToken)
    {
      reply := DelEntry(id, link);
      if reply.Err? {
        reply := Err(FailedToDeleteRefreshToken);
      }
    }
  }

  // ---- Two maps in one store ----

  /** Flag keys and token keys never meet exactly when neither prefix begins the other. */
  lemma KeysNeverMeet(prefix: string)
    ensures (forall t: Id, u: string :: SoldOutKey(t) != prefix + u)
       <==> !(prefix <= SOLD_OUT) && !(SOLD_OUT <= prefix)
  {
    if prefix <= SOLD_OUT {
      assert SoldOutKey(Id("")) == prefix + SOLD_OUT[|prefix|..];
    } else if SOLD_OUT <= prefix {
      assert SoldOutKey(Id(prefix[|SOLD_OUT|..])) == prefix + "";
    } else {
      forall t: Id, u: string ensures SoldOutKey(t) != prefix + u {
        KeysDiffer(t, prefix, u);
      }
    }
  }

  lemma KeysDiffer(t: Id, prefix: string, u: string)
    requires !(prefix <= SOLD_OUT) && !(SOLD_OUT <= prefix)
    ensures SoldOutKey(t) != prefix + u
  {
    var m := Min(|prefix|, |SOLD_OUT|);
    assert exists i: nat :: i < m && prefix[i] != SOLD_OUT[i] by {
      if |prefix| <= |SOLD_OUT| {
        assert prefix != SOLD_OUT[..|prefix|];
      } else {
        assert SOLD_OUT != prefix[..|SOLD_OUT|];
      }
    }
    var i: nat :| i < m && prefix[i] != SOLD_OUT[i];
    assert SoldOutKey(t)[i] == SOLD_OUT[i] && (prefix + u)[i] == prefix[i];
  }
}
