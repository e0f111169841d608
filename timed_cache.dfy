/** A mapping whose keys delete themselves a fixed time after they were last
    inserted (`TimedCache` in utils/containers.py).

    Every insertion arms a deletion task for its key; inserting the key again
    cancels that task and arms a new one, so the timer restarts. The asyncio
    event loop is replaced by a logical clock `now`, a table `pending` of the
    tasks that are armed and not cancelled, and an explicit step `Fire` in
    which the loop runs one due task. */
module TimedCaches {
  import opened Results
  import opened Sequences

  /** The exceptions the cache raises. */
  datatype CacheError = KeyError | AttributeError

  /** The timeout a cache gets when none is given: the default of `Create`. */
  const DefaultTimeout: int := 600

  // ---------------------------------------------------------------------------
  // Delay normalisation
  // ---------------------------------------------------------------------------

  /** A delay argument: a `timedelta` (given by its total seconds), a plain
      number of seconds, or `None`. */
  datatype Delay = Duration(total: int) | Seconds(n: int) | Absent

  /** Python's `x or fallback` on a number: zero is falsy. */
  function OrElse(x: int, fallback: int): (r: int) {
    if x != 0 then x else fallback
  }

  /** `_convert_delay` on a cache whose `timeout` is `fallback`: a duration
      becomes its seconds (even when zero), a nonzero number is kept, and
      zero or `None` falls back to the cache's timeout. */
  function ConvertDelay(d: Delay, fallback: int): (r: int)
    ensures d.Duration? ==> r == d.total
    ensures d.Seconds? && d.n != 0 ==> r == d.n
    ensures d.Absent? || d == Seconds(0) ==> r == fallback
  {
    match d
    case Duration(s) => s
    case Seconds(n) => OrElse(n, fallback)
    case Absent => fallback
  }

  /** What `__init__` makes of its `timeout` argument. `_convert_delay` is
      called before `self.timeout` exists, so a falsy timeout (zero or
      `None`) raises `AttributeError` instead of falling back. */
  function InitialTimeout(d: Delay): (r: Result<int, CacheError>)
    ensures r.Err? <==> d.Absent? || d == Seconds(0)
    ensures r.Err? ==> r.error == AttributeError
    ensures r.Ok? ==> forall fallback :: ConvertDelay(d, fallback) == r.value
  {
    match d
    case Duration(s) => Ok(s)
    case Seconds(n) => if n != 0 then Ok(n) else Err(AttributeError)
    case Absent => Err(AttributeError)
  }

  /** The number of seconds the deletion task armed by `__setitem__` sleeps:
      the per-call delay is converted, and `_timed_del` sleeps for it unless
      it is zero, in which case it sleeps for the cache's timeout. */
  function EffectiveDelay(d: Delay, timeout: int): (r: int)
    ensures d.Duration? && d.total != 0 ==> r == d.total
    ensures d.Seconds? && d.n != 0 ==> r == d.n
    ensures d.Absent? || d == Seconds(0) || d == Duration(0) ==> r == timeout
  {
    OrElse(ConvertDelay(d, timeout), timeout)
  }

  /** `set` converts its delay once more before handing a number to
      `__setitem__`; the delay slept is the same as if the original delay
      had been given to `__setitem__` directly. */
  lemma SetConvertsOnceMore(d: Delay, timeout: int)
    ensures EffectiveDelay(Seconds(ConvertDelay(d, timeout)), timeout) == EffectiveDelay(d, timeout)
  {
  }

  // ---------------------------------------------------------------------------
  // Entries, tasks and the invariant that links them
  // ---------------------------------------------------------------------------

  /** Identifies an asyncio task created by the cache. */
  type TaskId = nat

  /** What `storage` holds for a key: the value and the task that will delete it. */
  datatype Entry<V> = Entry(value: V, task: TaskId)

  /** A sleeping deletion task: the key it will pop and the clock reading at
      which its sleep ends. */
  datatype Timer<K> = Timer(key: K, deadline: int)

  /** Every stored key owns the pending task its entry names, and every pending
      task belongs to the key whose entry names it. */
  ghost predicate Linked<K, V>(storage: map<K, Entry<V>>, pending: map<TaskId, Timer<K>>) {
    && (forall k :: k in storage ==> storage[k].task in pending && pending[storage[k].task].key == k)
    && (forall id :: id in pending ==> pending[id].key in storage && storage[pending[id].key].task == id)
  }

  /** Under the invariant no two pending tasks serve the same key, and a task
      that is not pending is named by no entry. */
  lemma UniqueOwner<K, V>(storage: map<K, Entry<V>>, pending: map<TaskId, Timer<K>>)
    requires Linked(storage, pending)
    ensures forall i, j :: i in pending && j in pending && pending[i].key == pending[j].key ==> i == j
    ensures forall k :: k in storage ==> storage[k].task in pending
  {
  }

  /** Under the invariant there are exactly as many pending tasks as stored keys. */
  lemma {:induction false} LinkedSizes<K, V>(storage: map<K, Entry<V>>, pending: map<TaskId, Timer<K>>)
    requires Linked(storage, pending)
    ensures |pending| == |storage|
    decreases |storage|
  {
    if storage == map[] {
      assert pending.Keys == {};
    } else {
      var k :| k in storage;
      var id := storage[k].task;
      var s' := storage - {k};
      var p' := pending - {id};
      assert s'.Keys == storage.Keys - {k};
      assert p'.Keys == pending.Keys - {id};
      assert Linked(s', p');
      LinkedSizes(s', p');
    }
  }

  /** Cancelling a stored key's task and removing the key keeps the invariant. */
  lemma CancelKeepsLinked<K, V>(storage: map<K, Entry<V>>, pending: map<TaskId, Timer<K>>, key: K)
    requires Linked(storage, pending)
    requires key in storage
    ensures Linked(storage - {key}, pending - {storage[key].task})
  {
  }

  /** Arming a fresh task for an absent key and storing the key with it keeps the invariant. */
  lemma ArmKeepsLinked<K, V>(storage: map<K, Entry<V>>, pending: map<TaskId, Timer<K>>,
                             key: K, value: V, id: TaskId, deadline: int)
    requires Linked(storage, pending)
    requires key !in storage && id !in pending
    ensures Linked(storage[key := Entry(value, id)], pending[id := Timer(key, deadline)])
  {
  }

  /** The values of a storage map, with the tasks left out. */
  function Values<K, V>(storage: map<K, Entry<V>>): (m: map<K, V>) {
    map k | k in storage :: storage[k].value
  }

  /** Removing a key from the storage removes it from the values. */
  lemma ValuesRemove<K, V>(storage: map<K, Entry<V>>, key: K)
    ensures Values(storage - {key}) == Values(storage) - {key}
  {
  }

  /** Storing an entry under a key stores its value under that key. */
  lemma ValuesUpdate<K, V>(storage: map<K, Entry<V>>, key: K, e: Entry<V>)
    ensures Values(storage[key := e]) == Values(storage)[key := e.value]
  {
  }

  /** Storing under a key overrides whatever removing the key did first. */
  lemma RemoveThenStore<K, W>(m: map<K, W>, key: K, w: W)
    ensures (m - {key})[key := w] == m[key := w]
  {
  }

  // ---------------------------------------------------------------------------
  // The cache
  // ---------------------------------------------------------------------------

  class TimedCache<K(==), V> {
    /** `self.timeout`: the default delay, in seconds. */
    const timeout: int
    /** `self.storage`: key to value and deletion task. */
    var storage: map<K, Entry<V>>
    /** The insertion order of `storage`, which a Python dict keeps. */
    var order: seq<K>
    /** The deletion tasks that are armed and not cancelled. */
    var pending: map<TaskId, Timer<K>>
    /** The event loop's clock. */
    var now: int
    /** The next task id the event loop hands out. */
    var nextId: TaskId

    ghost predicate Valid()
      reads this
    {
      && Linked(storage, pending)
      && Enumerates(order, storage.Keys)
      && (forall id :: id in pending ==> id < nextId)
    }

    /** The mapping the cache presents: key to value, tasks hidden. */
    function Contents(): (m: map<K, V>)
      reads this
    {
      Values(storage)
    }

    /** A cache with an already normalised timeout, empty and with no task armed. */
    constructor (timeout: int)
      ensures Valid()
      ensures this.timeout == timeout
      ensures storage == map[] && order == [] && pending == map[]
      ensures now == 0 && nextId == 0
    {
      this.timeout := timeout;
      storage := map[];
      order := [];
      pending := map[];
      now := 0;
      nextId := 0;
    }

    /** `TimedCache(timeout=...)`: fails with `AttributeError` on a falsy timeout. */
    static method Create(timeout: Delay := Seconds(DefaultTimeout)) returns (r: Result<TimedCache<K, V>, CacheError>)
      ensures r.Err? <==> InitialTimeout(timeout).Err?
      ensures r.Err? ==> r.error == AttributeError
      ensures r.Ok? ==> fresh(r.value) && r.value.Valid()
      ensures r.Ok? ==> r.value.timeout == InitialTimeout(timeout).value
      ensures r.Ok? ==> r.value.Contents() == map[] && r.value.pending == map[]
    {
      var t := InitialTimeout(timeout);
      if t.Err? {
        return Err(t.error);
      }
      var c := new TimedCache<K, V>(t.value);
      return Ok(c);
    }

    /** Cancels the task of a stored key and removes the key: the pop with
        cancel in `__setitem__`, and `__delitem__` once the key is known to
        be present. */
    method Drop(key: K)
      requires Valid()
      requires key in storage
      modifies this
      ensures Valid()
      ensures Contents() == old(Contents()) - {key}
      ensures storage == old(storage) - {key}
      ensures pending == old(pending) - {old(storage)[key].task}
      ensures order == Without(old(order), key)
      ensures now == old(now) && nextId == old(nextId)
    {
      CancelKeepsLinked(storage, pending, key);
      EnumeratesWithout(order, storage.Keys, key);
      ValuesRemove(storage, key);
      pending := pending - {storage[key].task};
      storage := storage - {key};
      order := Without(order, key);
    }

    /** Creates the deletion task for an absent key and stores the key with
        it, at the end of the insertion order. */
    method Arm(key: K, value: V, deadline: int)
      requires Valid()
      requires key !in storage
      modifies this
      ensures Valid()
      ensures Contents() == old(Contents())[key := value]
      ensures storage == old(storage)[key := Entry(value, old(nextId))]
      ensures pending == old(pending)[old(nextId) := Timer(key, deadline)]
      ensures order == old(order) + [key]
      ensures now == old(now) && nextId == old(nextId) + 1
    {
      var id := nextId;
      ArmKeepsLinked(storage, pending, key, value, id, deadline);
      EnumeratesAppend(order, storage.Keys, key);
      ValuesUpdate(storage, key, Entry(value, id));
      nextId := nextId + 1;
      pending := pending[id := Timer(key, deadline)];
      storage := storage[key := Entry(value, id)];
      order := order + [key];
    }

    /** `self[key] = value` (with `timeout=` when called with a delay): the
        key's old task, if any, is cancelled; a new task is armed to delete
        the key once the effective delay has passed; the key moves to the
        end of the insertion order. */
    method SetItem(key: K, value: V, delay: Delay := Absent)
      requires Valid()
      modifies this
      ensures Valid()
      ensures Contents() == old(Contents())[key := value]
      ensures storage == old(storage)[key := Entry(value, old(nextId))]
      ensures pending == (if key in old(storage) then old(pending) - {old(storage)[key].task} else old(pending))
                         [old(nextId) := Timer(key, old(now) + EffectiveDelay(delay, timeout))]
      ensures order == Without(old(order), key) + [key]
      ensures now == old(now) && nextId == old(nextId) + 1
    {
      if key in storage {
        RemoveThenStore(storage, key, Entry(value, nextId));
        RemoveThenStore(Contents(), key, value);
        Drop(key);
      }
      var perCall := ConvertDelay(delay, timeout);
      Arm(key, value, now + OrElse(perCall, timeout));
    }

    /** `set(key, value, timeout)`: converts the delay, stores through
        `SetItem` and returns the value. */
    method Set(key: K, value: V, delay: Delay := Absent) returns (r: V)
      requires Valid()
      modifies this
      ensures Valid()
      ensures r == value
      ensures Contents() == old(Contents())[key := value]
      ensures storage == old(storage)[key := Entry(value, old(nextId))]
      ensures pending == (if key in old(storage) then old(pending) - {old(storage)[key].task} else old(pending))
                         [old(nextId) := Timer(key, old(now) + EffectiveDelay(delay, timeout))]
      ensures order == Without(old(order), key) + [key]
      ensures now == old(now) && nextId == old(nextId) + 1
    {
      SetConvertsOnceMore(delay, timeout);
      SetItem(key, value, Seconds(ConvertDelay(delay, timeout)));
      r := value;
    }

    /** `del self[key]`: `KeyError` and no change when the key is absent;
        otherwise the key's task is cancelled and exactly that key removed. */
    method DelItem(key: K) returns (r: Result<(), CacheError>)
      requires Valid()
      modifies this
      ensures Valid()
      ensures r.Err? <==> key !in old(storage)
      ensures r.Err? ==> r.error == KeyError
      ensures r.Err? ==> storage == old(storage) && pending == old(pending) && order == old(order)
      ensures r.Ok? ==> Contents() == old(Contents()) - {key}
      ensures r.Ok? ==>
        && storage == old(storage) - {key}
        && pending == old(pending) - {old(storage)[key].task}
        && order == Without(old(order), key)
      ensures now == old(now) && nextId == old(nextId)
    {
      if key !in storage {
        return Err(KeyError);
      }
      Drop(key);
      r := Ok(());
    }

    /** `get(key, default)`: the stored value when the key is present (the
        stored pair is always truthy, so a falsy value is returned too),
        the default otherwise; never raises. */
    function Get(key: K, default: Option<V> := None): (r: Option<V>)
      reads this
      ensures key in Contents() ==> r == Some(Contents()[key])
      ensures key !in Contents() ==> r == default
    {
      if key in storage then Some(storage[key].value) else default
    }

    /** `self[key]`: the stored value, or `KeyError` when the key is absent. */
    function GetItem(key: K): (r: Result<V, CacheError>)
      reads this
      ensures r.Ok? <==> key in Contents()
      ensures r.Ok? ==> r.value == Contents()[key]
      ensures r.Err? ==> r.error == KeyError
    {
      if key in storage then Ok(storage[key].value) else Err(KeyError)
    }

    /** `iter(self)`: the keys of a snapshot taken at call time, each stored
        key once. The body yields them in `order`, the insertion order that
        `SetItem` and `Drop` state; the contract states which keys appear. */
    function Iter(): (r: seq<K>)
      reads this
      requires Valid()
      ensures Distinct(r)
      ensures forall i :: 0 <= i < |r| ==> r[i] in Contents()
      ensures forall k :: k in Contents() ==> k in r
    {
      order
    }

    /** `len(self)`: the number of stored keys, which is also the number of
        keys iteration yields and the number of armed tasks. */
    function Len(): (n: nat)
      reads this
      requires Valid()
      ensures n == |Contents()|
      ensures n == |Iter()|
      ensures n == |pending|
    {
      LinkedSizes(storage, pending);
      EnumeratesCard(order, storage.Keys);
      assert Contents().Keys == storage.Keys;
      |storage|
    }

    /** The event loop's clock moves forward; nothing else changes. */
    method Advance(dt: nat)
      requires Valid()
      modifies this
      ensures Valid()
      ensures now == old(now) + dt
      ensures storage == old(storage) && pending == old(pending) && order == old(order)
      ensures nextId == old(nextId)
    {
      now := now + dt;
    }

    /** The event loop runs task `id` if it is pending and its sleep is over:
        `_timed_del` pops the task's key. A cancelled, finished or unknown
        task, or one still sleeping, does nothing. The pop always finds the
        key, and the entry it removes is the one that armed this task. */
    method Fire(id: TaskId) returns (ran: bool)
      requires Valid()
      modifies this
      ensures Valid()
      ensures ran <==> id in old(pending) && old(pending)[id].deadline <= old(now)
      ensures ran ==>
        var k := old(pending)[id].key;
        && k in old(storage) && old(storage)[k].task == id
        && Contents() == old(Contents()) - {k}
        && storage == old(storage) - {k}
        && pending == old(pending) - {id}
        && order == Without(old(order), k)
      ensures !ran ==> storage == old(storage) && pending == old(pending) && order == old(order)
      ensures now == old(now) && nextId == old(nextId)
    {
      ran := id in pending && pending[id].deadline <= now;
      if ran {
        Drop(pending[id].key);
      }
    }
  }
}
