# TimedCache and NestedNamespace, modelled in Dafny

This project models the two containers of `utils/containers.py`:

- **`TimedCache`**, a mutable mapping whose keys delete themselves a fixed time after they were last inserted. Every insertion arms a deletion task for the key. Inserting the key again cancels that task and arms a new one, so the timer restarts. The class `TimedCaches.TimedCache` keeps the source's `storage` (key to value and task), the dict's insertion order, the table of deletion tasks that are armed and not cancelled, and a logical clock. The event loop running a due task is the explicit step `Fire`; the clock moves with `Advance`.
- **`NestedNamespace`**, which turns a JSON-like dict into attribute objects. Dict values become nested namespaces. A list holding dicts becomes a single namespace collected from the first pair of each dict item. Every other value passes through unchanged. A key named `self` is a second value for the `self` parameter of `__init__` and `_prepare_`, so it raises `TypeError`: at the top level, in a nested dict, and as the first key of a list's first dict item (the later items go through `setattr`, which accepts it). The spec functions `Convert`, `Construct`, `Step` and `ListLoop` define the result. The methods `Prepare`, `PrepareValue`, `PrepareList` and `New` follow the source's loops (with its `counter`) and are proved equal to them.

The central invariant of the cache is `TimedCaches.Linked`. Every stored key owns exactly one pending task, and every pending task belongs to the key whose entry names it. Overwriting and deleting cancel first, so this invariant holds. Because of it, the pop in `_timed_del` always finds its key, and the entry it removes is the one that armed the task. A cancelled or stale task removes nothing.

Files: `results.dfy` (Option and Result), `sequences.dfy` (sequences without repetitions, used for the dict's key order), `timed_cache.dfy`, `nested_namespace.dfy`, and `scenarios.dfy` (client methods that exercise the model: expiry, timer reset, delete then reuse, size, shrinking, snapshot, construction, lists of dicts, nesting, a key named `self`).

Behaviour of the code that the model keeps:
- Construction with timeout `0` or `None` raises `AttributeError`. It does not fall back to 600: `_convert_delay` reads `self.timeout` before `__init__` assigns it.
- A negative timeout is not rejected.
- A firing task does not re-check that it still owns the key. The code relies on cancellation alone, and the model proves that this is enough.
- `get` returns a stored falsy value. The stored `(value, task)` pair is always truthy, so `get` does not treat a falsy value as absent.
- Iteration yields keys, not `(key, value)` pairs.

## Model

| member | source | states |
|---|---|---|
| `TimedCaches.ConvertDelay` | utils/containers.py:41-50 | a `timedelta` becomes its seconds even when zero; a nonzero number is kept; zero or `None` fall back to the cache's timeout |
| `TimedCaches.InitialTimeout` | utils/containers.py:52-55 | construction fails with `AttributeError` exactly when the timeout is `None` or zero; otherwise the timeout is the converted value, whatever the fallback |
| `TimedCaches.EffectiveDelay` | utils/containers.py:59-67 | the deletion task sleeps the per-call delay when it is nonzero, else the cache's timeout (also for a zero `timedelta`) |
| `TimedCaches.SetConvertsOnceMore` | utils/containers.py:79-83 | the extra conversion in `set` does not change the delay slept |
| `TimedCaches.UniqueOwner` | utils/containers.py:63-72 | under the invariant, no two pending tasks serve the same key, and every stored key's task is pending |
| `TimedCaches.LinkedSizes` | utils/containers.py:63-72 | under the invariant there are exactly as many pending tasks as stored keys |
| `TimedCaches.CancelKeepsLinked` | utils/containers.py:70-72 | cancelling a stored key's task and removing the key keeps the invariant |
| `TimedCaches.ArmKeepsLinked` | utils/containers.py:67-68 | arming a fresh task for an absent key and storing the key with it keeps the invariant |
| `TimedCaches.TimedCache.constructor` | utils/containers.py:52-57 | a cache with the given timeout, empty, with no task armed |
| `TimedCaches.TimedCache.Create` | utils/containers.py:52-57 | `TimedCache(timeout=...)` fails with `AttributeError` exactly when `InitialTimeout` does; otherwise an empty valid cache with that timeout; the timeout defaults to 600 |
| `TimedCaches.TimedCache.Drop` | utils/containers.py:64-65 | pop with cancel: the key's task leaves the pending table and exactly that key leaves storage, values and key order |
| `TimedCaches.TimedCache.Arm` | utils/containers.py:67-68 | a task with a fresh id is armed for the key with the given deadline, and the key is stored with it, last in key order |
| `TimedCaches.TimedCache.SetItem` | utils/containers.py:63-68 | stores the value under the key and changes no other key; cancels the key's old task; arms one new task due at now plus the effective delay; moves the key to the end of the order; keeps the invariant |
| `TimedCaches.TimedCache.Set` | utils/containers.py:79-83 | as `SetItem` with the same delay, and returns the value |
| `TimedCaches.TimedCache.DelItem` | utils/containers.py:70-72 | `KeyError` and no state change for an absent key; otherwise cancels its task and removes exactly that key |
| `TimedCaches.TimedCache.Get` | utils/containers.py:74-77 | the stored value (falsy too) when the key is present, the default otherwise; never fails |
| `TimedCaches.TimedCache.GetItem` | utils/containers.py:85-86 | the stored value when present, `KeyError` exactly when absent |
| `TimedCaches.TimedCache.Iter` | utils/containers.py:88-89 | a snapshot sequence holding every stored key exactly once (the body keeps insertion order; the contract does not state it) |
| `TimedCaches.TimedCache.Len` | utils/containers.py:91-92 | the number of stored keys, equal to the number of keys iterated and of armed tasks |
| `TimedCaches.TimedCache.Advance` | utils/containers.py:61 | the event loop's clock moves forward; storage and tasks are unchanged |
| `TimedCaches.TimedCache.Fire` | utils/containers.py:59-61 | a task runs exactly when it is pending and due; its pop always finds its key, which is still owned by this task; exactly that key and task go; a cancelled, unknown or sleeping task changes nothing |
| `NestedNamespaces.SetAttr` | utils/containers.py:128 | `setattr` gives the key the new value, keeps every other attribute and keeps the first attribute's name |
| `NestedNamespaces.Collect` | utils/containers.py:113-115 | pairs each key with its converted value, position by position; fails exactly when some value fails, with the error of the first failing one |
| `NestedNamespaces.Construct` | utils/containers.py:107-130 | `NestedNamespace(**f)` raises `TypeError` when a key is `self`; otherwise it succeeds exactly when every value converts, and fails with the first failing value's error; attribute `i` is key `i` with its converted value; the source kept is `f` |
| `NestedNamespaces.Prepare` | utils/containers.py:112-130 | `_prepare_` raises `TypeError` for a key `self`; otherwise its in-place loop (with its `counter`) yields the converted value of every attribute, in order, or stops with the error of the first value that fails |
| `NestedNamespaces.PrepareValue` | utils/containers.py:114-128 | the loop body of `_prepare_` for one value gives exactly its converted value or error: a dict nests through `__init__`, a list goes through the inner loop, anything else is kept |
| `NestedNamespaces.PrepareList` | utils/containers.py:116-128 | the inner loop over a list's items (with its `counter`) ends with exactly what `ConvertList` defines: the list kept when it holds no dict, `IndexError` at an empty dict item, `TypeError` when the first dict item starts with `self`, the collected namespace otherwise |
| `NestedNamespaces.New` | utils/containers.py:107-110 | `__init__` builds exactly the namespace `Construct` defines, and raises exactly its error |
| `NestedNamespaces.PassThrough` | utils/containers.py:113-118 | a value that is not a dict, or a list holding no dict, is kept unchanged |
| `NestedNamespaces.LoopSkips` | utils/containers.py:118-119 | non-dict list items leave the inner loop's state as it was |
| `NestedNamespaces.LoopFails` | utils/containers.py:119-127 | the inner loop fails exactly when some item is an empty dict or, before the first namespace is built, the first dict item starts with `self` |
| `NestedNamespaces.LoopErrors` | utils/containers.py:119-127 | the inner loop raises `TypeError` only for a first dict item starting with `self`, and `IndexError` only for an empty dict item |
| `NestedNamespaces.ListFails` | utils/containers.py:116-127 | a list value fails exactly when one of its items is an empty dict or its first dict item starts with `self`; with no `self` the error is `IndexError`, with no empty dict it is `TypeError` |
| `NestedNamespaces.LoopLookup` | utils/containers.py:125-128 | later dict items keep the namespace's source and first attribute name; each key ends holding the first value of the last item whose first key it is |
| `NestedNamespaces.ListNamespace` | utils/containers.py:116-128 | a list with dicts becomes one namespace; its first attribute is the first dict's first key and holds `str` of its first value unless a later item overwrites it; later items add their first pair unstringified, the last winning; its `to_dict` is only the stringified first pair |
| `NestedNamespaces.FirstItemIsConstructed` | utils/containers.py:121-123 | the namespace made from the first dict item is the one `__init__` builds from `{k: str(v)}`, and both raise `TypeError` for `k == "self"` |
| `NestedNamespaces.ToDictIsSource` | utils/containers.py:137-139 | `to_dict` returns the original mapping, with none of its values converted, and `to_dict` of the namespace nested for a dict value returns that dict |

## Left out

- The asyncio event loop, `get_event_loop`, `create_task`, the `loop` argument and real sleeping. The model uses task ids, a logical clock (`Advance`) and an explicit `Fire` step. Cancellation removes the task from the pending table. This stands for asyncio's guarantee that a cancelled sleeping task never resumes. The order and timing in which the loop runs due tasks is left to the caller of `Fire`.
- The `datetime` branch of `_convert_delay`. It depends on the wall clock and time zones. As written it is also broken: it uses `datetime.utcnow` without calling it, and it catches `ValueError` where a naive/aware mismatch raises `TypeError`.
- Float seconds from `timedelta.total_seconds()`. Delays are whole seconds.
- TimedCaches.TimedCache.Get: the default is an `Option`. `None` or `Some(d)` stands for `None` or a falsy default. A truthy non-`None` default makes the code return `default[0]` for an absent key, and the model does not capture this.
- TimedCaches.TimedCache.Iter: the contract says which keys are yielded, not in what order. The order is the `order` field, and the contracts of `SetItem`, `Drop` and `Arm` state how it changes.
- The `KeyError` that the pop in `_timed_del` would raise on a missing key is not modelled as a branch. `Fire` proves that the pop always finds its key.
- `__repr__` and `__str__` of both classes, and the exact text `str()` produces. `str` is a function parameter.
- The `MutableMapping` mixin methods (`__contains__`, `pop`, `update`, ...). They are inherited, not written in the source.
- `SimpleNamespace` internals: the name-mangled `__attrs` attribute that also appears among a namespace's attributes, and attribute access by name.
- Dict keys that are not strings, which make `**` and `setattr` raise `TypeError`. JSON keys are strings, so the key is its own `str()`.
- Namespaces are values. The `setattr` on the namespace made from a list's first dict item is an update of that value. That object is fresh and referenced only from `attrs[key]`, so there is no aliasing to capture.
