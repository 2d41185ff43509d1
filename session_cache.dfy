/**
 * The session cache behind `getDat` (index.js:86-105) and its reset in `close`
 * (index.js:78-84). The cache is a map from key to session; the archive library's open is
 * an outcome supplied by the caller; what the gateway does to the outside world is recorded
 * as a sequence of effects, so that orderings can be stated.
 */
module SessionCache {
  import opened Wrappers
  import opened Externals

  /** The `temp` option the gateway passes with every open (index.js:23). */
  const TemporaryStorage := true

  /** The options object `Object.assign({}, this.datOptions, { key })`. */
  datatype OpenOptions = OpenOptions(temp: bool, key: Key)

  /** An externally visible step, in the order the gateway takes it. */
  datatype Effect =
    | OpenSession(dir: string, options: OpenOptions)   // Dat(dir, opts, cb) is called
    | StoreEntry(key: Key)                             // cache.set(key, dat)
    | JoinNetwork(key: Key)                            // dat.joinNetwork()
    | MetadataSynced(key: Key)                         // metadata.update callback ran
    | ServerClosed                                     // server.close callback ran
    | CacheReset                                       // cache.reset()

  /** What one `getDat` call delivers, the cache it leaves and the effects it takes. */
  datatype Acquired = Acquired(result: Result<Session, Error>, cache: map<Key, Session>, effects: seq<Effect>)

  /**
   * `getDat(key)`, with `outcome` the outcome the archive library would report if asked:
   * a cached session is returned as it is; otherwise the library is asked, its error is
   * passed on, or the new session is stored, joined to the network and delivered once its
   * metadata has been updated. A delivered session is the one cached under the key, a
   * failure leaves the cache as it was, and no call drops a key.
   */
  function Acquire(cache: map<Key, Session>, dir: string, key: Key, outcome: Result<Session, Error>): (a: Acquired)
    ensures a.result.Success? ==> key in a.cache && a.cache[key] == a.result.value
    ensures a.result.Failure? ==> a.cache == cache && a.result == outcome
    ensures cache.Keys <= a.cache.Keys
  {
    if key in cache then Acquired(Success(cache[key]), cache, [])
    else
      var open := OpenSession(dir, OpenOptions(TemporaryStorage, key));
      match outcome
      case Failure(e) => Acquired(Failure(e), cache, [open])
      case Success(s) =>
        Acquired(Success(s), cache[key := s], [open, StoreEntry(key), JoinNetwork(key), MetadataSynced(key)])
  }

  /** The library is asked to open a session exactly on a miss. */
  lemma AcquireOpensOnlyOnMiss(cache: map<Key, Session>, dir: string, key: Key, outcome: Result<Session, Error>)
    ensures var a := Acquire(cache, dir, key, outcome);
      (exists e :: e in a.effects && e.OpenSession?) <==> key !in cache
  {
    var a := Acquire(cache, dir, key, outcome);
    if key !in cache {
      assert a.effects[0].OpenSession?;
    }
  }

  /** A hit returns the cached session and changes nothing. */
  lemma AcquireHit(cache: map<Key, Session>, dir: string, key: Key, outcome: Result<Session, Error>)
    requires key in cache
    ensures Acquire(cache, dir, key, outcome) == Acquired(Success(cache[key]), cache, [])
  {
  }

  /** A failed open passes the library's error on and leaves the cache as it was. */
  lemma AcquireFailedOpen(cache: map<Key, Session>, dir: string, key: Key, e: Error)
    requires key !in cache
    ensures var a := Acquire(cache, dir, key, Failure(e));
      a.result == Failure(e) && a.cache == cache && a.effects == [OpenSession(dir, OpenOptions(true, key))]
  {
  }

  /**
   * A successful open stores the session under its key before it joins the network, and
   * delivers it only after the metadata update, which is the last effect.
   */
  lemma AcquireSuccessfulOpen(cache: map<Key, Session>, dir: string, key: Key, s: Session)
    requires key !in cache
    ensures var a := Acquire(cache, dir, key, Success(s));
      && a.result == Success(s)
      && a.cache == cache[key := s]
      && a.effects[0] == OpenSession(dir, OpenOptions(true, key))
      && a.effects[1] == StoreEntry(key) && a.effects[2] == JoinNetwork(key)
      && a.effects[|a.effects| - 1] == MetadataSynced(key)
  {
  }

  /** No call changes the entry of another key. */
  lemma AcquireKeepsOtherKeys(cache: map<Key, Session>, dir: string, key: Key, outcome: Result<Session, Error>, other: Key)
    requires other != key
    ensures var a := Acquire(cache, dir, key, outcome);
      (other in a.cache <==> other in cache) && (other in cache ==> a.cache[other] == cache[other])
  {
  }

  /** Once a session was delivered, the next call for its key gets the same one without an open. */
  lemma AcquireThenHit(cache: map<Key, Session>, dir: string, key: Key, first: Result<Session, Error>, second: Result<Session, Error>)
    requires Acquire(cache, dir, key, first).result.Success?
    ensures var a := Acquire(cache, dir, key, first);
      Acquire(a.cache, dir, key, second) == Acquired(a.result, a.cache, [])
  {
  }
}
