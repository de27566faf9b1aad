/**
 * One cache group: a map from key to (value, expiry instant) with a sliding
 * TTL, a get-or-load path through the group's Getter, explicit Set and Del,
 * and the periodic sweep of expired entries.
 *
 * Instants and durations are integers (nanoseconds); every operation that
 * reads the clock takes the instant as the parameter `now`.
 */
module GroupStore {
  import opened Wrappers

  /** The stored value of one key and the instant after which it is expired. */
  datatype Entry<V> = Entry(val: V, ttlTime: int)

  type Store<V> = map<string, Entry<V>>

  /**
   * The errors a group reports: "<key> not found", "cache expired", and an
   * error returned by the Getter, passed on unchanged.
   */
  datatype Error = NotFound(key: string) | CacheExpired | GetterFailed(reason: string)

  datatype Result<V> = Ok(value: V) | Err(error: Error)

  /** The notice a deletion sends to the propagation worker. */
  datatype DeleteEvent = DeleteEvent(group: string, key: string)

  /**
   * What one run of a Getter does: the Sink.Set calls it makes, in order,
   * and the error it returns (None for nil). The Getter is code outside the
   * group, so each call to Group.Get is told what that call's run does.
   */
  datatype Load<V> = Load(sets: seq<(string, V)>, err: Option<string>)

  /** The state of a group's map after an operation, with what the operation reports. */
  datatype Step<V> = Step(result: Result<V>, data: Store<V>)

  /** Expiry is strict: an entry read exactly at its ttlTime is still live. */
  predicate Expired<V>(e: Entry<V>, now: int) {
    now > e.ttlTime
  }

  predicate Hit<V>(d: Store<V>, key: string, now: int) {
    key in d && !Expired(d[key], now)
  }

  /**
   * The unexported `get`: a miss reports NotFound and changes nothing; an
   * expired entry is removed and reported as CacheExpired; a live entry is
   * returned and its expiry slides to now + ttl.
   */
  function Read<V>(d: Store<V>, key: string, now: int, ttl: int): (s: Step<V>)
    ensures s.result.Ok? <==> Hit(d, key, now)
    ensures s.result.Ok? ==> s.result.value == d[key].val && key in s.data
                             && s.data[key] == Entry(d[key].val, now + ttl)
    ensures s.result == Err(NotFound(key)) <==> key !in d
    ensures s.result == Err(CacheExpired) <==> key in d && Expired(d[key], now)
    ensures key in s.data <==> s.result.Ok?
    ensures forall k :: k != key ==> (k in s.data <==> k in d)
    ensures forall k :: k != key && k in d ==> s.data[k] == d[k]
  {
    if key !in d then Step(Err(NotFound(key)), d)
    else if Expired(d[key], now) then Step(Err(CacheExpired), d - {key})
    else Step(Ok(d[key].val), d[key := Entry(d[key].val, now + ttl)])
  }

  /** The Sink: Set stores val under key, expiring ttl after now. */
  function Write<V>(d: Store<V>, key: string, val: V, now: int, ttl: int): (r: Store<V>)
    ensures key in r && r[key] == Entry(val, now + ttl)
    ensures forall k :: k != key ==> (k in r <==> k in d)
    ensures forall k :: k != key && k in d ==> r[k] == d[k]
  {
    d[key := Entry(val, now + ttl)]
  }

  /** The map after a Getter's Set calls, applied in order. */
  function ApplySets<V>(d: Store<V>, sets: seq<(string, V)>, now: int, ttl: int): Store<V>
    decreases |sets|
  {
    if sets == [] then d else ApplySets(Write(d, sets[0].0, sets[0].1, now, ttl), sets[1..], now, ttl)
  }

  predicate SetsKey<V>(sets: seq<(string, V)>, key: string) {
    exists i :: 0 <= i < |sets| && sets[i].0 == key
  }

  /** The value of the last Set call for key. */
  function LastSet<V>(sets: seq<(string, V)>, key: string): V
    requires SetsKey(sets, key)
    decreases |sets|
  {
    if SetsKey(sets[1..], key) then LastSet(sets[1..], key) else sets[0].1
  }

  /**
   * After a Getter's Set calls, a key holds the last value set for it with
   * a fresh expiry, or its old entry if no call named it.
   */
  lemma {:induction false} ApplySetsAt<V>(d: Store<V>, sets: seq<(string, V)>, now: int, ttl: int, key: string)
    ensures key in ApplySets(d, sets, now, ttl) <==> key in d || SetsKey(sets, key)
    ensures SetsKey(sets, key) ==> ApplySets(d, sets, now, ttl)[key] == Entry(LastSet(sets, key), now + ttl)
    ensures !SetsKey(sets, key) && key in d ==> ApplySets(d, sets, now, ttl)[key] == d[key]
    decreases |sets|
  {
    if sets != [] {
      var d' := Write(d, sets[0].0, sets[0].1, now, ttl);
      ApplySetsAt(d', sets[1..], now, ttl, key);
      if SetsKey(sets, key) && !SetsKey(sets[1..], key) {
        forall j | 1 <= j < |sets| ensures sets[j].0 != key {
          assert sets[j] == sets[1..][j - 1];
        }
      }
      if SetsKey(sets[1..], key) {
        var i :| 0 <= i < |sets[1..]| && sets[1..][i].0 == key;
        assert sets[i + 1].0 == key;
      }
      if sets[0].0 == key {
        assert SetsKey(sets, key);
      }
    }
  }

  /**
   * The exported Get: a live hit is returned without running the Getter;
   * otherwise the Getter runs, its Set calls land in the map, and then
   * either its error is returned unchanged or the key is read again.
   */
  function GetOrLoad<V>(d: Store<V>, key: string, now: int, ttl: int, load: Load<V>): (s: Step<V>)
    ensures Hit(d, key, now) ==> s.result == Ok(d[key].val) && s.data == Write(d, key, d[key].val, now, ttl)
    ensures !Hit(d, key, now) && load.err.Some? ==>
              s.result == Err(GetterFailed(load.err.value)) && s.data == ApplySets(d - {key}, load.sets, now, ttl)
    ensures !Hit(d, key, now) && load.err.None? && !SetsKey(load.sets, key) ==> s.result == Err(NotFound(key))
    ensures !Hit(d, key, now) && load.err.None? && SetsKey(load.sets, key) && ttl >= 0 ==>
              s.result == Ok(LastSet(load.sets, key))
    ensures !Hit(d, key, now) && load.err.None? && SetsKey(load.sets, key) && ttl < 0 ==>
              s.result == Err(CacheExpired)
    // what stays cached after a load that returned nil
    ensures !Hit(d, key, now) && load.err.None? && (ttl >= 0 || !SetsKey(load.sets, key)) ==>
              s.data == ApplySets(d - {key}, load.sets, now, ttl)
    ensures !Hit(d, key, now) && load.err.None? && SetsKey(load.sets, key) && ttl < 0 ==>
              s.data == ApplySets(d - {key}, load.sets, now, ttl) - {key}
    ensures !Hit(d, key, now) && load.err.None? && SetsKey(load.sets, key) && ttl >= 0 ==>
              Hit(s.data, key, now) && s.data[key].val == LastSet(load.sets, key)
  {
    var first := Read(d, key, now, ttl);
    if first.result.Ok? then first
    else
      assert first.data == d - {key};
      var loaded := ApplySets(first.data, load.sets, now, ttl);
      if load.err.Some? then Step(Err(GetterFailed(load.err.value)), loaded)
      else
        ApplySetsAt(first.data, load.sets, now, ttl, key);
        assert SetsKey(load.sets, key) ==> loaded[key := Entry(loaded[key].val, now + ttl)] == loaded;
        Read(loaded, key, now, ttl)
  }

  /** ttlCleanUp: drop every expired entry, keep every other one as it is. */
  function Sweep<V>(d: Store<V>, now: int): (r: Store<V>)
    ensures forall k :: k in r <==> k in d && !Expired(d[k], now)
    ensures forall k :: k in r ==> r[k] == d[k]
  {
    map k | k in d && !Expired(d[k], now) :: d[k]
  }

  /**
   * The lazy check in get and the sweep agree on expiry: sweeping just
   * before a read changes nothing the read returns, except that an expired
   * key is then reported as not found rather than as expired; and sweeping
   * then reading leaves the same map as reading then sweeping.
   */
  lemma SweepThenRead<V>(d: Store<V>, key: string, now: int, ttl: int)
    requires ttl >= 0
    ensures Read(d, key, now, ttl).result.Ok? ==> Read(Sweep(d, now), key, now, ttl).result == Read(d, key, now, ttl).result
    ensures !Read(d, key, now, ttl).result.Ok? ==> Read(Sweep(d, now), key, now, ttl).result == Err(NotFound(key))
    ensures Read(Sweep(d, now), key, now, ttl).data == Sweep(Read(d, key, now, ttl).data, now)
  {
  }

  /** Sweeping twice at one instant is sweeping once. */
  lemma SweepIdempotent<V>(d: Store<V>, now: int)
    ensures Sweep(Sweep(d, now), now) == Sweep(d, now)
  {
  }

  /** The results of successive reads of one key at the given instants. */
  function ReadSeries<V>(d: Store<V>, key: string, times: seq<int>, ttl: int): (rs: seq<Result<V>>)
    ensures |rs| == |times|
    decreases |times|
  {
    if times == [] then []
    else
      var s := Read(d, key, times[0], ttl);
      [s.result] + ReadSeries(s.data, key, times[1..], ttl)
  }

  /** Each read comes no later than one ttl after the one before it. */
  predicate WithinWindow(times: seq<int>, ttl: int) {
    forall i :: 0 <= i < |times| - 1 ==> times[i + 1] <= times[i] + ttl
  }

  /**
   * Sliding TTL: a live entry that is read again within one ttl of every
   * previous read never expires, and every read returns its value.
   */
  lemma {:induction false} SlidingTtl<V>(d: Store<V>, key: string, times: seq<int>, ttl: int)
    requires |times| > 0 && key in d && times[0] <= d[key].ttlTime
    requires WithinWindow(times, ttl)
    ensures forall i :: 0 <= i < |times| ==> ReadSeries(d, key, times, ttl)[i] == Ok(d[key].val)
    decreases |times|
  {
    var s := Read(d, key, times[0], ttl);
    var rest := times[1..];
    if rest != [] {
      assert times[1] <= times[0] + ttl;
      assert WithinWindow(rest, ttl) by {
        forall i | 0 <= i < |rest| - 1 ensures rest[i + 1] <= rest[i] + ttl {
          assert rest[i + 1] == times[i + 2] && rest[i] == times[i + 1];
        }
      }
      SlidingTtl(s.data, key, rest, ttl);
    }
    var rs := ReadSeries(d, key, times, ttl);
    forall i | 0 <= i < |times| ensures rs[i] == Ok(d[key].val) {
      if i > 0 {
        assert rs[i] == ReadSeries(s.data, key, rest, ttl)[i - 1];
      }
    }
  }

  /**
   * A read more than one ttl after the previous read (or the Set) finds the
   * entry expired and removes it.
   */
  lemma IdleEntryExpires<V>(d: Store<V>, key: string, val: V, t0: int, t1: int, ttl: int)
    requires t1 > t0 + ttl
    ensures Read(Write(d, key, val, t0, ttl), key, t1, ttl) == Step(Err(CacheExpired), Write(d, key, val, t0, ttl) - {key})
  {
  }

  /**
   * A Getter that sets the key only on its first run: the first Get returns
   * that value; a Get after more than one idle ttl runs the Getter again,
   * which sets nothing, and reports the key as not found.
   */
  lemma LoadOnceThenIdle<V>(key: string, val: V, t0: int, t1: int, ttl: int)
    requires ttl >= 0 && t1 > t0 + ttl
    ensures GetOrLoad(map[], key, t0, ttl, Load([(key, val)], None)).result == Ok(val)
    ensures GetOrLoad(GetOrLoad(map[], key, t0, ttl, Load([(key, val)], None)).data, key, t1, ttl, Load([], None)).result
            == Err(NotFound(key))
  {
    assert [(key, val)][0].0 == key;
    assert [(key, val)][1..] == [];
    var empty: Store<V> := map[];
    assert empty - {key} == empty;
    var loaded := ApplySets(empty, [(key, val)], t0, ttl);
    assert loaded == ApplySets(Write(empty, key, val, t0, ttl), [], t0, ttl);
    assert loaded == map[key := Entry(val, t0 + ttl)];
    var first := GetOrLoad(empty, key, t0, ttl, Load([(key, val)], None));
    assert first == Read(loaded, key, t0, ttl);
    assert first.data == map[key := Entry(val, t0 + ttl)];
  }

  /** The channel a group's Del sends on, modelled as the queue of events not yet received. */
  class EventQueue {
    var events: seq<DeleteEvent>

    constructor ()
      ensures events == []
    {
      events := [];
    }
  }

  class Group<V> {
    const name: string
    var data: Store<V>
    const defttl: int
    const deleteChan: EventQueue?
    /** The keys the Getter has been run for, in order; kept for contracts only. */
    ghost var getterCalls: seq<string>

    /** newGroup: an empty map. */
    constructor (name: string, defttl: int, deleteChan: EventQueue?)
      ensures this.name == name && this.defttl == defttl && this.deleteChan == deleteChan
      ensures data == map[] && getterCalls == []
    {
      this.name := name;
      this.defttl := defttl;
      this.deleteChan := deleteChan;
      data := map[];
      getterCalls := [];
    }

    /** The unexported get. */
    method GetCached(key: string, now: int) returns (r: Result<V>)
      modifies this`data
      ensures Step(r, data) == Read(old(data), key, now, defttl)
    {
      if key !in data {
        return Err(NotFound(key));
      }
      var e := data[key];
      if Expired(e, now) {
        data := data - {key};
        return Err(CacheExpired);
      }
      e := e.(ttlTime := now + defttl);
      data := data[key := e];
      r := Ok(e.val);
    }

    /** Set, the Sink the Getter writes through. */
    method Set(key: string, val: V, now: int)
      modifies this`data
      ensures data == Write(old(data), key, val, now, defttl)
    {
      data := data[key := Entry(val, now + defttl)];
    }

    /**
     * Get: a hit is returned as is; on a miss the Getter runs (its Set calls
     * are replayed from `load`), and its error, if any, is returned
     * unchanged; otherwise the key is read once more.
     */
    method Get(key: string, now: int, load: Load<V>) returns (r: Result<V>)
      modifies this`data, this`getterCalls
      ensures Step(r, data) == GetOrLoad(old(data), key, now, defttl, load)
      ensures getterCalls == old(getterCalls) + (if Hit(old(data), key, now) then [] else [key])
    {
      r := GetCached(key, now);
      if r.Ok? {
        return;
      }
      getterCalls := getterCalls + [key];
      ghost var missed := data;
      var i := 0;
      while i < |load.sets|
        invariant 0 <= i <= |load.sets|
        invariant getterCalls == old(getterCalls) + [key]
        invariant ApplySets(data, load.sets[i..], now, defttl) == ApplySets(missed, load.sets, now, defttl)
      {
        assert load.sets[i..][1..] == load.sets[i + 1..];
        Set(load.sets[i].0, load.sets[i].1, now);
        i := i + 1;
      }
      assert load.sets[i..] == [];
      if load.err.Some? {
        return Err(GetterFailed(load.err.value));
      }
      r := GetCached(key, now);
    }

    /**
     * Del: the key is gone whether or not it was there, and exactly one
     * event naming this group and the key is queued. Sending on a nil
     * channel blocks forever, so a group must be wired to a queue.
     */
    method Del(key: string)
      requires deleteChan != null
      modifies this`data, deleteChan`events
      ensures data == old(data) - {key}
      ensures deleteChan.events == old(deleteChan.events) + [DeleteEvent(name, key)]
    {
      data := data - {key};
      deleteChan.events := deleteChan.events + [DeleteEvent(name, key)];
    }

    /** ttlCleanUp: one pass over the map deleting every expired entry. */
    method TtlCleanUp(now: int)
      modifies this`data
      ensures data == Sweep(old(data), now)
    {
      var keys := data.Keys;
      while keys != {}
        invariant keys <= old(data).Keys
        invariant data.Keys <= old(data).Keys
        invariant forall k :: k in data ==> data[k] == old(data)[k]
        invariant forall k :: k in keys ==> k in data
        invariant forall k :: k in old(data) && k !in keys ==> (k in data <==> !Expired(old(data)[k], now))
        decreases keys
      {
        var k :| k in keys;
        if Expired(data[k], now) {
          data := data - {k};
        }
        keys := keys - {k};
      }
      assert data.Keys == Sweep(old(data), now).Keys;
    }
  }

  /** A Getter that sets its key fills a miss, and Get returns what it set. */
  method GetterFillsMiss() returns (r: Result<string>)
    ensures r == Ok("value for missingKey")
  {
    var g := new Group<string>("testGroup", 60_000_000_000, null);
    r := g.Get("missingKey", 0, Load([("missingKey", "value for missingKey")], None));
    assert SetsKey([("missingKey", "value for missingKey")], "missingKey");
    assert g.getterCalls == ["missingKey"];
  }

  /**
   * Get fills the key, Del removes it and queues one event, and the next Get
   * runs the Getter again, which sets nothing this time.
   */
  method DeleteQueuesOneEvent() returns (first: Result<string>, second: Result<string>, events: seq<DeleteEvent>)
    ensures first == Ok("value for testKey")
    ensures second == Err(NotFound("testKey"))
    ensures events == [DeleteEvent("testGroup", "testKey")]
  {
    var q := new EventQueue();
    var g := new Group<string>("testGroup", 60_000_000_000, q);
    first := g.Get("testKey", 0, Load([("testKey", "value for testKey")], None));
    assert SetsKey([("testKey", "value for testKey")], "testKey");
    g.Del("testKey");
    second := g.Get("testKey", 1, Load([], None));
    assert g.getterCalls == ["testKey", "testKey"];
    events := q.events;
  }
}
