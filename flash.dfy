/**
 * `createFlashManager(cookieName, maxAge, debugLog)`: one-time messages kept in
 * memory between a redirect and the request that follows it. An entry is
 * stored under a random key that goes out as a cookie; the next request that
 * brings the cookie back consumes the entry. Storing a flash first sweeps the
 * entries older than `maxAge` milliseconds.
 *
 * The clock is a parameter (`now`, in milliseconds), and so is the random key
 * `setFlash` draws. The debug log is left out.
 */
module FlashStore {
  import opened Js
  import opened Wrappers
  import opened Http
  import Cookies

  datatype Entry = Entry(data: Flash, timestamp: int)

  type Store = map<string, Entry>

  /** An entry is outdated when its age is strictly greater than `maxAge`. */
  predicate Outdated(e: Entry, now: int, maxAge: int) {
    now - e.timestamp > maxAge
  }

  /** What the sweep leaves: exactly the entries that are not outdated, unchanged. */
  function Swept(flashes: Store, now: int, maxAge: int): Store {
    map k | k in flashes && !Outdated(flashes[k], now, maxAge) :: flashes[k]
  }

  /** What `setFlash` leaves: the sweep, then the new entry stamped `now`. */
  function Stored(flashes: Store, data: Flash, token: string, now: int, maxAge: int): Store {
    Swept(flashes, now, maxAge)[token := Entry(data, now)]
  }

  /** What the middleware takes out for a key: the entry's data, if there was one, and the store without the key. */
  function Consume(flashes: Store, key: string): (r: (Option<Flash>, Store))
    ensures r.1 == flashes - {key}
    ensures r.0.Some? <==> key in flashes
    ensures key in flashes ==> r.0 == Some(flashes[key].data)
  {
    (if key in flashes then Some(flashes[key].data) else None, flashes - {key})
  }

  /**
   * The JavaScript sweep as written: `for…in` over a Map iterator enumerates no
   * keys, so its body (whose age test subtracts the timestamp twice) never runs.
   */
  function SweptAsWritten(flashes: Store, now: int, maxAge: int): Store {
    flashes
  }

  class FlashManager {
    const cookieName: string
    const maxAge: int
    var flashes: Store

    constructor (cookieName: string, maxAge: int)
      ensures this.cookieName == cookieName && this.maxAge == maxAge && flashes == map[]
    {
      this.cookieName := cookieName;
      this.maxAge := maxAge;
      flashes := map[];
    }

    /** `cleanOldFlashes()` in the TypeScript tree: walk the entries, deleting the outdated ones. */
    method CleanOldFlashes(now: int)
      modifies this`flashes
      ensures flashes == Swept(old(flashes), now, maxAge)
    {
      ghost var start := flashes;
      var pending := flashes.Keys;
      while pending != {}
        invariant pending <= start.Keys
        invariant forall k :: k in flashes <==> k in start && (k in pending || !Outdated(start[k], now, maxAge))
        invariant forall k :: k in flashes ==> flashes[k] == start[k]
        decreases |pending|
      {
        var key :| key in pending;
        if now - flashes[key].timestamp > maxAge {
          flashes := flashes - {key};
        }
        pending := pending - {key};
      }
      assert flashes == Swept(start, now, maxAge);
    }

    /** `cleanOldFlashes()` in the JavaScript tree, as written: it deletes nothing. */
    method CleanOldFlashesAsWritten(now: int)
      modifies this`flashes
      ensures flashes == SweptAsWritten(old(flashes), now, maxAge)
    {
    }

    /**
     * `middleware(req, res, next)`: with no (or an empty) flash cookie nothing
     * happens; otherwise the key is deleted from the store and the cookie
     * cleared whether or not an entry was there, and an entry's data becomes
     * `req.flash`.
     */
    method Middleware(req: Request, reply: Reply)
      modifies this`flashes, req`flash, reply`effects
      ensures var key := Cookies.ExtractCookieSpec(req.cookieHeader, cookieName);
              if key.None? || key.value == "" then
                flashes == old(flashes) && req.flash == old(req.flash) && reply.effects == old(reply.effects)
              else
                var (found, rest) := Consume(old(flashes), key.value);
                && flashes == rest
                && req.flash == (if found.Some? then found else old(req.flash))
                && reply.effects == old(reply.effects) + [ClearCookie(cookieName)]
    {
      var key := Cookies.ExtractCookie(req.cookieHeader, cookieName);
      if key.None? || key.value == "" {
        return;
      }
      var entry := if key.value in flashes then Some(flashes[key.value]) else None;
      flashes := flashes - {key.value};
      reply.effects := reply.effects + [ClearCookie(cookieName)];
      if entry.Some? {
        req.flash := Some(entry.value.data);
      }
    }

    /** `setFlash(res, data)`: sweep, store the data under the new key stamped `now`, and send the key as the cookie. */
    method SetFlash(reply: Reply, data: Flash, token: string, now: int)
      modifies this`flashes, reply`effects
      ensures flashes == Stored(old(flashes), data, token, now, maxAge)
      ensures reply.effects == old(reply.effects) + [SetCookie(cookieName, token)]
    {
      CleanOldFlashes(now);
      flashes := flashes[token := Entry(data, now)];
      reply.effects := reply.effects + [SetCookie(cookieName, token)];
    }

    /** `setFlash` in the JavaScript tree, as written, with its sweep that deletes nothing. */
    method SetFlashAsWritten(reply: Reply, data: Flash, token: string, now: int)
      modifies this`flashes, reply`effects
      ensures flashes == SweptAsWritten(old(flashes), now, maxAge)[token := Entry(data, now)]
      ensures reply.effects == old(reply.effects) + [SetCookie(cookieName, token)]
    {
      CleanOldFlashesAsWritten(now);
      flashes := flashes[token := Entry(data, now)];
      reply.effects := reply.effects + [SetCookie(cookieName, token)];
    }
  }

  // ---------------------------------------------------------------------------
  // Properties of the store

  /** The sweep removes exactly the outdated entries and changes none of the others. */
  lemma SweptExactly(flashes: Store, now: int, maxAge: int, k: string)
    ensures k in Swept(flashes, now, maxAge) <==> k in flashes && now - flashes[k].timestamp <= maxAge
    ensures k in Swept(flashes, now, maxAge) ==> Swept(flashes, now, maxAge)[k] == flashes[k]
  {
  }

  /**
   * `setFlash` with a fresh key adds exactly one entry, the new one, stamped
   * `now`; every other surviving key keeps its entry.
   */
  lemma {:induction false} StoredAddsOne(flashes: Store, data: Flash, token: string, now: int, maxAge: int)
    requires token !in flashes
    ensures var r := Stored(flashes, data, token, now, maxAge);
            && r.Keys == Swept(flashes, now, maxAge).Keys + {token}
            && |r| == |Swept(flashes, now, maxAge)| + 1
            && r[token] == Entry(data, now)
            && (forall k :: k in r && k != token ==> r[k] == flashes[k] && !Outdated(flashes[k], now, maxAge))
  {
    var s := Swept(flashes, now, maxAge);
    assert token !in s;
    assert |s.Keys + {token}| == |s.Keys| + 1;
  }

  /** The sweep precedes the insert, so the new entry is there after the call even when `maxAge` is negative. */
  lemma NewEntryNotSwept(flashes: Store, data: Flash, token: string, now: int, maxAge: int)
    ensures token in Stored(flashes, data, token, now, maxAge)
    ensures Stored(flashes, data, token, now, maxAge)[token].data == data
  {
  }

  /**
   * Round trip: the next request that brings the cookie back reads the data,
   * and the store loses the entry, so a request after that finds nothing.
   */
  lemma {:induction false} ConsumeOnce(flashes: Store, data: Flash, token: string, now: int, maxAge: int)
    ensures var (found, rest) := Consume(Stored(flashes, data, token, now, maxAge), token);
            && found == Some(data)
            && Consume(rest, token).0 == None
            && rest == Swept(flashes, now, maxAge) - {token}
  {
    var s := Swept(flashes, now, maxAge);
    assert s[token := Entry(data, now)] - {token} == s - {token};
  }

  /** Consuming a key leaves every other key's entry alone. */
  lemma ConsumeTouchesOnlyKey(flashes: Store, key: string, other: string)
    requires other != key
    ensures other in Consume(flashes, key).1 <==> other in flashes
    ensures other in flashes ==> Consume(flashes, key).1[other] == flashes[other]
  {
  }

  /**
   * As written, the JavaScript sweep keeps an outdated entry that the
   * corrected sweep removes.
   */
  lemma OutdatedSurvivesAsWritten(flashes: Store, now: int, maxAge: int, key: string)
    requires key in flashes && Outdated(flashes[key], now, maxAge)
    ensures key in SweptAsWritten(flashes, now, maxAge)
    ensures key !in Swept(flashes, now, maxAge)
  {
  }
}
