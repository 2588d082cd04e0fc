/** The in-memory TTL cache: a key -> item store whose items carry an absolute
    expiration time. There is no sweeper; an expired item is removed only when
    a Get finds it. Time is an integer count of nanoseconds supplied by the
    caller in place of the wall clock. */
module TtlCache {
  import opened Wrappers

  datatype CacheItem<V> = CacheItem(response: V, expiration: int)

  type Items<V> = map<string, CacheItem<V>>

  /** `now.After(expiration)`: strictly later, so an item is still live at
      the very instant it expires. */
  predicate Expired<V>(item: CacheItem<V>, now: int)
  {
    now > item.expiration
  }

  /** Set, on the map: the item for `key` is replaced wholesale and expires
      `duration` after `now`; every other key keeps its item. */
  function Put<V>(data: Items<V>, key: string, value: V, duration: int, now: int): (data': Items<V>)
    ensures data'.Keys == data.Keys + {key}
    ensures data'[key].response == value && data'[key].expiration == now + duration
    ensures forall k :: k in data && k != key ==> data'[k] == data[k]
  {
    data[key := CacheItem(value, now + duration)]
  }

  /** The answer of a Get and the map it leaves behind. */
  datatype Loaded<V> = Loaded(response: Option<V>, data: Items<V>)

  /** Get, on the map: a live item answers its response and leaves the map as
      it was; an expired item answers nothing and is deleted; an absent key
      answers nothing and changes nothing. */
  function Lookup<V>(data: Items<V>, key: string, now: int): (r: Loaded<V>)
    ensures r.response.Some? <==> key in data && !Expired(data[key], now)
    ensures r.response.Some? ==> r.response.value == data[key].response && r.data == data
    ensures key !in data ==> r.data == data
    ensures key in data && Expired(data[key], now) ==> r.data.Keys == data.Keys - {key}
    ensures forall k :: k in r.data ==> k in data && r.data[k] == data[k]
  {
    if key !in data then Loaded(None, data)
    else if Expired(data[key], now) then Loaded(None, data - {key})
    else Loaded(Some(data[key].response), data)
  }

  /** Whatever was stored before, a Set followed by a Get of the same key no
      later than `duration` after the Set is a hit on the new value; one any
      later is a miss that deletes the key. */
  lemma PutThenLookup<V>(data: Items<V>, key: string, value: V, duration: int, setAt: int, getAt: int)
    ensures var stored := Put(data, key, value, duration, setAt);
      if getAt <= setAt + duration then Lookup(stored, key, getAt) == Loaded(Some(value), stored)
      else Lookup(stored, key, getAt) == Loaded(None, data - {key})
  {
  }

  /** Lazy eviction is idempotent: a second Get at the same instant gives the
      same answer and leaves the map as the first one left it. */
  lemma LookupTwice<V>(data: Items<V>, key: string, now: int)
    ensures var first := Lookup(data, key, now);
      Lookup(first.data, key, now) == first
  {
  }

  /** A Set or a Get of one key never touches the item of another key. */
  lemma OtherKeysUntouched<V>(data: Items<V>, key: string, other: string, value: V, duration: int, now: int)
    requires other != key
    ensures other in Put(data, key, value, duration, now) <==> other in data
    ensures other in Lookup(data, key, now).data <==> other in data
    ensures other in data ==>
      Put(data, key, value, duration, now)[other] == data[other] &&
      Lookup(data, key, now).data[other] == data[other]
  {
  }

  /** The cache object. Its map is the only state; the Go version guards it
      for concurrent use, which is not modelled. */
  class Cache<V> {
    var data: Items<V>

    /** NewCache: an empty cache. */
    constructor ()
      ensures data == map[]
    {
      data := map[];
    }

    method Set(key: string, value: V, duration: int, now: int)
      modifies this
      ensures data == Put(old(data), key, value, duration, now)
    {
      data := data[key := CacheItem(value, now + duration)];
    }

    method Get(key: string, now: int) returns (response: Option<V>)
      modifies this
      ensures Loaded(response, data) == Lookup(old(data), key, now)
    {
      if key !in data {
        return None;
      }
      var item := data[key];
      if now > item.expiration {
        data := data - {key};
        return None;
      }
      return Some(item.response);
    }
  }
}
