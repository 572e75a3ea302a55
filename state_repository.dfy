/**
 * ConcurrentMapStateRepository: a named, in-memory key/value store of event-sourced state
 * that delegates to a ConcurrentMap. The map is modelled as a `map<string, V>` field that
 * every mutating operation reassigns; calls are taken one at a time.
 */
module StateRepository {
  import opened Wrappers

  /** The message of the NullPointerException raised by requireNonNull for a missing name. */
  const NameMustNotBeNull := "Parameter 'name' must not be null"
  /** The message of the NullPointerException raised by requireNonNull for a missing map. */
  const MapMustNotBeNull := "Parameter 'map' must not be null"

  /**
   * The delegate map handed to the repository: its entries, and whether its class also
   * implements AutoCloseable (a ChronicleMap does, a ConcurrentHashMap does not).
   */
  datatype DelegateMap<V> = DelegateMap(entries: map<string, V>, autoCloseable: bool)

  /** `ofNullable(map.get(key))`: the value stored under `key`, or empty. */
  function Lookup<V>(m: map<string, V>, key: string): (r: Option<V>)
    ensures r.Some? <==> key in m
    ensures r.Some? ==> m[key] == r.value
  {
    if key in m then Some(m[key]) else None
  }

  class ConcurrentMapStateRepository<V> {
    const name: string
    var concurrentMap: map<string, V>
    const autoCloseable: bool
    /** How often close() has been called on the delegate map. */
    var delegateCloseCalls: nat

    /** The two-argument constructor, given a name and a map that are both present. */
    constructor(name: string, delegate: DelegateMap<V>)
      ensures this.name == name
      ensures concurrentMap == delegate.entries && autoCloseable == delegate.autoCloseable
      ensures delegateCloseCalls == 0
    {
      this.name := name;
      concurrentMap := delegate.entries;
      autoCloseable := delegate.autoCloseable;
      delegateCloseCalls := 0;
    }

    /** The one-argument constructor: a fresh, empty ConcurrentHashMap, which is not AutoCloseable. */
    constructor WithConcurrentHashMap(name: string)
      ensures this.name == name
      ensures concurrentMap == map[] && !autoCloseable
      ensures delegateCloseCalls == 0
    {
      this.name := name;
      concurrentMap := map[];
      autoCloseable := false;
      delegateCloseCalls := 0;
    }

    /**
     * The two-argument constructor as Java callers see it: a null name or a null map
     * (`None` here) makes requireNonNull throw, the name being checked first.
     */
    static method Create(name: Option<string>, delegate: Option<DelegateMap<V>>)
      returns (r: Result<ConcurrentMapStateRepository<V>, string>)
      ensures r.Failure? <==> name.None? || delegate.None?
      ensures name.None? ==> r == Failure(NameMustNotBeNull)
      ensures name.Some? && delegate.None? ==> r == Failure(MapMustNotBeNull)
      ensures r.Success? ==> fresh(r.value) && r.value.name == name.value
                             && r.value.concurrentMap == delegate.value.entries
                             && r.value.autoCloseable == delegate.value.autoCloseable
                             && r.value.delegateCloseCalls == 0
    {
      if name.None? {
        return Failure(NameMustNotBeNull);
      }
      if delegate.None? {
        return Failure(MapMustNotBeNull);
      }
      var repository := new ConcurrentMapStateRepository(name.value, delegate.value);
      return Success(repository);
    }

    /** get(key): the stored value, or empty when the key is absent. */
    function Get(key: string): (r: Option<V>)
      reads this
      ensures r.Some? <==> key in concurrentMap
      ensures r.Some? ==> concurrentMap[key] == r.value
    {
      Lookup(concurrentMap, key)
    }

    /** keySet(): exactly the keys for which get returns a value. */
    function KeySet(): (r: set<string>)
      reads this
      ensures forall key :: key in r <==> Get(key).Some?
    {
      concurrentMap.Keys
    }

    /** size(): the number of keys in keySet(). */
    function Size(): (r: nat)
      reads this
      ensures r == |KeySet()|
      ensures r == 0 <==> KeySet() == {}
    {
      |concurrentMap|
    }

    /**
     * compute(key, f): f sees the key and its current value (empty when absent); a
     * present result is stored under the key and returned, an absent one (Java's null)
     * removes the key and compute returns empty. No other key changes.
     */
    method Compute(key: string, f: (string, Option<V>) -> Option<V>) returns (r: Option<V>)
      modifies this
      ensures r == f(key, Lookup(old(concurrentMap), key))
      ensures Get(key) == r
      ensures r.None? ==> concurrentMap == old(concurrentMap) - {key}
      ensures r.Some? ==> concurrentMap == old(concurrentMap)[key := r.value]
      ensures forall k :: k != key ==> Get(k) == Lookup(old(concurrentMap), k)
      ensures delegateCloseCalls == old(delegateCloseCalls)
    {
      r := f(key, Lookup(concurrentMap, key));
      if r.None? {
        concurrentMap := concurrentMap - {key};
      } else {
        concurrentMap := concurrentMap[key := r.value];
      }
    }

    /** put(key, value): stores the value and returns the one it replaced, or empty. */
    method Put(key: string, value: V) returns (previous: Option<V>)
      modifies this
      ensures previous == Lookup(old(concurrentMap), key)
      ensures concurrentMap == old(concurrentMap)[key := value]
      ensures Get(key) == Some(value)
      ensures forall k :: k != key ==> Get(k) == Lookup(old(concurrentMap), k)
      ensures delegateCloseCalls == old(delegateCloseCalls)
    {
      previous := Lookup(concurrentMap, key);
      concurrentMap := concurrentMap[key := value];
    }

    /** remove(key): drops the key and returns the value it had, or empty. */
    method Remove(key: string) returns (previous: Option<V>)
      modifies this
      ensures previous == Lookup(old(concurrentMap), key)
      ensures concurrentMap == old(concurrentMap) - {key}
      ensures Get(key) == None
      ensures forall k :: k != key ==> Get(k) == Lookup(old(concurrentMap), k)
      ensures delegateCloseCalls == old(delegateCloseCalls)
    {
      previous := Lookup(concurrentMap, key);
      concurrentMap := concurrentMap - {key};
    }

    /** clear(): afterwards no key is present and the size is 0. */
    method Clear()
      modifies this
      ensures concurrentMap == map[]
      ensures Size() == 0 && KeySet() == {}
      ensures delegateCloseCalls == old(delegateCloseCalls)
    {
      concurrentMap := map[];
    }

    /** close(): closes the delegate map when it is AutoCloseable, and does nothing else. */
    method Close()
      modifies this
      ensures concurrentMap == old(concurrentMap)
      ensures delegateCloseCalls == old(delegateCloseCalls) + (if autoCloseable then 1 else 0)
    {
      if autoCloseable {
        delegateCloseCalls := delegateCloseCalls + 1;
      }
    }
  }
}
