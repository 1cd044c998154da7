/**
 * The key-value store behind RedisService, reduced to the three commands the
 * services use: SETEX (`set` with `ex:`), GET and DEL. A record written with
 * a time-to-live expires at an absolute time; GET no longer sees it from
 * then on. Whether the server can be reached is part of the store's state.
 */
module Store {
  import opened Wrappers

  datatype Entry = Entry(value: string, expiresAt: int)

  /** The connection to the server: up, or down with the message of
      Redis::CannotConnectError. */
  datatype Connection = Up | Down(message: string)

  /** What GET answers at time `now`: the value of a live record, or nil. */
  function Lookup(entries: map<string, Entry>, key: string, now: int): (v: Option<string>)
    ensures v.Some? <==> key in entries && now < entries[key].expiresAt
    ensures v.Some? ==> v.value == entries[key].value
  {
    if key in entries && now < entries[key].expiresAt then Some(entries[key].value) else None
  }

  /** The reply of a server that refuses SETEX with a non-positive expiry. */
  const INVALID_EXPIRE := "ERR invalid expire time in 'setex' command"

  /** Why a write failed: the server cannot be reached
      (Redis::CannotConnectError), or it refused the command
      (Redis::CommandError). */
  datatype WriteFailure = CannotConnect(message: string) | CommandRejected(message: string)

  /** The store after a successful `SETEX key ttl value` at time `now`: the
      record is readable from now until `now + ttl`, and not from then on. */
  function Written(entries: map<string, Entry>, key: string, value: string, ttl: int, now: int): (m: map<string, Entry>)
    requires ttl > 0
    ensures m.Keys == entries.Keys + {key}
    ensures forall k :: k in entries && k != key ==> k in m && m[k] == entries[k]
    ensures forall t :: Lookup(m, key, t) == (if t < now + ttl then Some(value) else None)
  {
    entries[key := Entry(value, now + ttl)]
  }

  class RedisStore {
    var entries: map<string, Entry>
    var connection: Connection

    constructor (connection: Connection)
      ensures entries == map[] && this.connection == connection
    {
      entries := map[];
      this.connection := connection;
    }

    /** `set(key, value, ex: ttl)`: SETEX writes the record with its expiry.
        It fails, writing nothing, when the server cannot be reached, or when
        the server refuses a time-to-live that is not positive. */
    method Set(key: string, value: string, ttl: int, now: int) returns (failure: Option<WriteFailure>)
      modifies this`entries
      ensures failure.Some? <==> connection.Down? || ttl <= 0
      ensures connection.Down? ==> failure == Some(CannotConnect(connection.message))
      ensures connection.Up? && ttl <= 0 ==> failure == Some(CommandRejected(INVALID_EXPIRE))
      ensures failure.Some? ==> entries == old(entries)
      ensures failure.None? ==> entries == Written(old(entries), key, value, ttl, now)
    {
      if connection.Down? {
        return Some(CannotConnect(connection.message));
      }
      if ttl <= 0 {
        return Some(CommandRejected(INVALID_EXPIRE));
      }
      entries := Written(entries, key, value, ttl, now);
      return None;
    }

    /** `get(key)`: the live value or nil; the store is not changed. */
    method Get(key: string, now: int) returns (reply: Option<string>, failure: Option<string>)
      ensures failure.Some? <==> connection.Down?
      ensures failure.Some? ==> failure.value == connection.message
      ensures failure.None? ==> reply == Lookup(entries, key, now)
    {
      if connection.Down? {
        return None, Some(connection.message);
      }
      return Lookup(entries, key, now), None;
    }

    /** `del(key)`: removes the record, whether it had expired or not. */
    method Del(key: string) returns (failure: Option<string>)
      modifies this`entries
      ensures failure.Some? <==> connection.Down?
      ensures failure.Some? ==> failure.value == connection.message && entries == old(entries)
      ensures failure.None? ==> entries == old(entries) - {key}
    {
      if connection.Down? {
        return Some(connection.message);
      }
      entries := entries - {key};
      return None;
    }
  }
}
