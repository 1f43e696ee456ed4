/**
 * The peerstore's cache interface and the no-op cache used when caching is
 * disabled. The interface's methods are the member functions of `Cache`;
 * the only implementation in view is `NoopCache`, which holds nothing: its
 * reads always miss and its writes are discarded. `zero` is the zero value
 * of the value type, which Go supplies implicitly.
 */
module PeerstoreCache {
  datatype Cache<K, V> = NoopCache(zero: V)
  {
    /** `Get`: the zero value and a miss. */
    function Get(key: K): (r: (V, bool))
      ensures r.0 == zero && !r.1
    {
      (zero, false)
    }

    /** `Add`: discarded; the cache is left as it was. */
    function Add(key: K, value: V): (c: Cache<K, V>)
      ensures c == this
    {
      this
    }

    /** `Remove`: there is nothing to remove; the cache is left as it was. */
    function Remove(key: K): (c: Cache<K, V>)
      ensures c == this
    {
      this
    }

    /** `Contains`: never. */
    function Contains(key: K): (r: bool)
      ensures !r
    {
      false
    }

    /** `Peek`: the zero value and a miss, like `Get`. */
    function Peek(key: K): (r: (V, bool))
      ensures r.0 == zero && !r.1
    {
      (zero, false)
    }

    /** `Keys`: no keys (Go: a nil slice). */
    function Keys(): (r: seq<K>)
      ensures |r| == 0
    {
      []
    }
  }

  /** A write to the cache. */
  datatype Write<K, V> = AddWrite(key: K, value: V) | RemoveWrite(key: K)

  /** The cache after a sequence of writes. */
  function ApplyWrites<K, V>(c: Cache<K, V>, writes: seq<Write<K, V>>): Cache<K, V>
  {
    if writes == [] then c
    else
      var w := writes[|writes| - 1];
      var before := ApplyWrites(c, writes[..|writes| - 1]);
      match w
      case AddWrite(k, v) => before.Add(k, v)
      case RemoveWrite(k) => before.Remove(k)
  }

  /**
   * Writes have no observable effect: after any sequence of `Add` and
   * `Remove` calls, every read still misses and there are no keys.
   */
  lemma {:induction false} WritesUnobservable<K, V>(c: Cache<K, V>, writes: seq<Write<K, V>>, key: K)
    ensures ApplyWrites(c, writes) == c
    ensures ApplyWrites(c, writes).Get(key) == (c.zero, false)
    ensures ApplyWrites(c, writes).Peek(key) == (c.zero, false)
    ensures !ApplyWrites(c, writes).Contains(key)
    ensures ApplyWrites(c, writes).Keys() == []
  {
    if writes != [] {
      WritesUnobservable(c, writes[..|writes| - 1], key);
    }
  }

  /** In particular, a key just added is still missing. */
  lemma AddedKeyMisses<K, V>(c: Cache<K, V>, key: K, value: V)
    ensures c.Add(key, value).Get(key) == (c.zero, false)
    ensures !c.Add(key, value).Contains(key)
    ensures c.Add(key, value).Peek(key) == c.Get(key)
  {
  }
}
