# go-cache in Dafny

A sequential model of winey-dev/go-cache, an in-process TTL key/value cache. The cache is split into named groups. Each group reloads a missing key through its Getter. Deletes are propagated to peer instances over HTTP.

Modules:

- `GroupStore` (group.go) models one group. Its map goes from key to `Entry(val, ttlTime)`, which is the source's `data` record. The group has a lazy expiry check with a sliding refresh (`get`), get-or-load through the Getter (`Get`), the Sink's `Set`, `Del` with its delete event, and the periodic sweep (`ttlCleanUp`).
  - The class `Group` holds the map as a field. Its methods update that field in place.
  - Each method is proved against a pure function on maps: `Read`, `Write`, `GetOrLoad` or `Sweep`.
  - Lemmas about those functions state what the source promises.
  - The delete channel is the class `EventQueue`. All groups of one cache share the same queue object.
- `CacheManager` (cache.go) models the manager:
  - `NewCache` normalises the configuration, filters the static peers, chooses which workers to start and creates the delete channel only when an HTTP server exists.
  - The group registry (`NewGroupWithTTL`, `NewGroup`, `GetGroup`).
  - One tick each of the sweep worker, the peer-discovery worker and the delete-propagation worker.
  - Peer resolution (`getCurrentPeers`) and the target list of `propagateDelete`.
  - Each loop in the source is a method with invariants, proved against a pure function.
- `CacheConfig` (config.go) is the configuration record. Go's `int` is the newtype `int64`.
- `Format` renders `%d` and parses it back. `Wrappers` provides `Option`.

Time is an integer instant passed in as `now`. Durations are integer nanoseconds, as in `time.Duration`. Go's `time.Duration(sec) * time.Second` is computed with explicit 64-bit wrap-around (`WrapInt64`). Below 2^63 ns the value is exact. For example, a setting of 2^55 seconds wraps to 0, and then no sweep worker starts (`OverflowedIntervalDisablesSweep`).

The Getter is code outside the group. What one of its runs does is given to `Group.Get` as a `Load`: the `Sink.Set` calls the run makes, in order, and the error it returns. This covers Getters that keep their own state, such as the counting Getters in group_test.go. The ghost field `getterCalls` records when `Get` runs the Getter.

Name resolution (`net.LookupHost`) and the host's own interface addresses (`getLocalIPs`) are inputs to `GetCurrentPeers` and `WatchHeadlessService`. A failed lookup is `None`.

Two behaviours of the code shape the model:

- Expiry is strict in both `get` (group.go:55) and `ttlCleanUp` (group.go:105): an entry expires only when `now > ttlTime`. An entry read or swept exactly at its `ttlTime` survives.
- `Del` sends on the group's channel without a check (group.go:96). Sending on a nil channel blocks forever, so `Group.Del` requires a wired queue (`deleteChan != null`).

## Model

| member | source | states |
|---|---|---|
| GroupStore.Read | group.go:45-68 | A missing key gives `NotFound(key)` and leaves the map unchanged. A key with `now > ttlTime` gives `CacheExpired` and is removed. At `now == ttlTime` the entry is still a hit. A hit returns the stored value and moves that key's expiry to `now + ttl`. No other key is touched. |
| GroupStore.Write | group.go:81-89 | Set stores `(val, now + ttl)` under the key, overwriting any old entry. Every other key is unchanged. |
| GroupStore.ApplySetsAt | group.go:74-77 | After the Getter's Set calls, a key is present iff it was present before or some call set it. It then holds the last value set for it with a fresh expiry, or else its old entry. |
| GroupStore.GetOrLoad | group.go:70-78 | A live hit returns the cached value and does not consult the Getter. On a miss, a Getter error is returned unchanged, and the Getter's Sets stay in the map. A Getter that did not set the key gives `NotFound(key)`. A Getter that set the key returns the last value set when `ttl >= 0`, and that value stays cached as a live hit at `now`. With a negative TTL the freshly set entry is already expired and is removed again. In every nil-error case the new map is the old map without the key, then the Getter's Sets, and with a negative TTL and a Getter that set the key, minus the key. |
| GroupStore.Sweep | group.go:100-109 | Removes exactly the entries with `now > ttlTime`. Every surviving entry keeps its value and its `ttlTime`. |
| GroupStore.SweepThenRead | group.go:55 | The sweep and `get` use the same expiry test. With a sweep just before a read at the same instant, a hit returns the same value, and `CacheExpired` becomes `NotFound`. For a non-negative TTL, sweeping then reading leaves the same map as reading then sweeping. |
| GroupStore.SweepIdempotent | group.go:104-108 | A second sweep at the same instant removes nothing more. |
| GroupStore.SlidingTtl | group.go:62-67 | Sliding TTL: a live entry read again within one ttl of each previous read never expires, and every read returns its value. |
| GroupStore.IdleEntryExpires | group.go:54-60 | A read more than one ttl after the Set reports `CacheExpired` and removes the key. |
| GroupStore.LoadOnceThenIdle | group_test.go:25-41 | Take a Getter that sets the key only on its first run. The first Get returns the value. A Get after more than one idle ttl reruns the Getter and reports not found. |
| GroupStore.GetterFillsMiss | group_test.go:11-23 | A Get on an empty group whose Getter sets the key returns the value set. |
| GroupStore.DeleteQueuesOneEvent | group_test.go:43-73 | Get loads the key, `Del` removes it and queues exactly one event `{group, key}`, and the next Get, whose Getter sets nothing, reports not found. |
| GroupStore.EventQueue.constructor | group.go:32 | A new delete channel holds no events. |
| GroupStore.Group.constructor | group.go:35-43 | newGroup: the given name, TTL and channel, with an empty map. |
| GroupStore.Group.GetCached | group.go:45-68 | The unexported `get` on the group's map equals `Read` of the old map. |
| GroupStore.Group.Set | group.go:81-89 | The map becomes `Write` of the old map. |
| GroupStore.Group.Get | group.go:70-78 | Result and new map equal `GetOrLoad` of the old map. The Getter runs (one entry appended to `getterCalls`) exactly when the first read is not a hit. |
| GroupStore.Group.Del | group.go:91-97 | The key is absent afterwards, whether or not it was present. Exactly one event `{name, key}` is appended to the shared queue. Requires a non-nil channel. |
| GroupStore.Group.TtlCleanUp | group.go:100-109 | The loop over the map leaves `Sweep` of the old map. |
| Format.ParseDecimalInverts | cache.go:266 | The `%d` rendering of the port reads back as the port, so distinct ports print differently. |
| CacheManager.PeerAddrPortInjective | cache.go:266 | Two peer addresses built from the same host with different ports differ. |
| CacheManager.WrapInt64 | cache.go:82 | 64-bit signed wrap-around: the result lies in the int64 range, equals the input when the input fits, and differs from it by a multiple of 2^64. |
| CacheManager.SecondsToDuration | cache.go:82 | `time.Duration(sec) * time.Second` is exactly `sec * 10^9` and positive for `0 < sec <= 9223372036`. The result always lies in the int64 range. |
| CacheManager.CleanupInterval | cache.go:79-83 | The sweep interval is 0 (disabled) for a setting `<= 0`, and `sec` seconds (non-zero) for a positive setting a Duration can hold. |
| CacheManager.WatchInterval | cache.go:85-89 | The discovery interval is one second for a setting `<= 0`, otherwise `sec` seconds, and always positive for a setting a Duration can hold. |
| CacheManager.HeadlessPort | cache.go:93-97 | A configured port below 4000 becomes 4567. Any other port is kept. The result is always at least 4000. |
| CacheManager.Without | cache.go:196-209 | An element is in the result iff it is in the first list and not in the second. The result is never longer than the first list. |
| CacheManager.WithoutConcat | cache.go:111-115 | Filtering distributes over concatenation, so the kept elements stay in their original order. |
| CacheManager.WithoutNothing | cache.go:111-115 | Filtering out elements that do not occur returns the list unchanged, in its original order. |
| CacheManager.Subtract | cache.go:111-115 | The append loop over `xs` with a membership test returns exactly `Without(xs, ys)`. |
| CacheManager.PeerDiffExample | cache.go:196-209 | Old peers `[A, B]` and new peers `[B, C]`: `A` is reported removed and `C` added. |
| CacheManager.StaticPeers | cache.go:109-116 | The own address is never in the starting peer list, and every listed peer was configured. Without a headless name and with an address, the list is the configured peers minus the own address, in order. Otherwise it is empty. |
| CacheManager.ListenAddr | cache.go:104-118 | With a headless name the listener is `":<port>"`. Without one, a server listens on the configured `Addr`. A listen address exists iff a server is created: headless name set, or peers and `Addr` both non-empty. |
| CacheManager.Workers | cache.go:99-126 | The sweeper starts iff the sweep interval is non-zero. The watcher starts iff a headless name is set. The delete worker and the HTTP server start iff a server is created. |
| CacheManager.AddrOnlyHasNoDeleteChannel | cache.go:104-126 | A configuration with an address but no peers and no headless name starts no server, no delete worker and no listener, so its delete channel is nil. |
| CacheManager.SweepIffPositive | cache.go:79-102 | For settings a Duration can hold, the sweeper runs exactly when `CacheCleanupIntervalSec > 0`. |
| CacheManager.OverflowedIntervalDisablesSweep | cache.go:82 | A setting of 2^55 seconds wraps to an interval of 0, and no sweeper starts. |
| CacheManager.Resolved | cache.go:253-268 | A peer is listed iff it is `addr + ":" + port` for some resolved address that is not a local IP. At most one peer is listed per resolved address. |
| CacheManager.ResolvedKeepsForeign | cache.go:262-267 | With no local address among the resolved ones, peer `i` is resolved address `i` with the port appended. |
| CacheManager.ResolvedConcat | cache.go:262-267 | Resolution distributes over concatenation, so peers come out in the lookup's order. |
| CacheManager.GetCurrentPeers | cache.go:253-268 | The loop returns `Resolved` of the lookup's answer, and no peers when the lookup fails. |
| CacheManager.PropagateDelete | cache.go:292-294 | One URL per peer, in peer-list order: `"http://" + peer + "/" + group + "/" + key`. |
| CacheManager.TargetRoundTrip | cache.go:294 | A target URL splits back into its peer, group and key when peer and group contain no `/`. |
| CacheManager.StaticPeersScenario | cache.go:74-152 | A cache at `a:1` configured with peers `a:1, b:2, c:3` keeps `b:2, c:3`. A registered group is found and an unregistered one is not. A delete in the group yields its event and one target URL per remaining peer. |
| CacheManager.Cache.Valid | cache.go:93-126 | The cache's invariant: the port is at least 4000, the watcher runs iff a headless name is set, a delete channel exists iff the delete worker runs, and every group shares the cache's delete channel. |
| CacheManager.Cache.constructor | cache.go:74-129 | NewCache: the normalised intervals and port, the static peers, and an empty registry. The worker set is `Workers(config)`. A fresh, empty delete channel exists iff a server is created. |
| CacheManager.Cache.NewGroupWithTTL | cache.go:135-141 | The name now maps to a fresh empty group with that TTL, wired to the cache's delete channel. Every other name is unchanged. Last registration wins. |
| CacheManager.Cache.NewGroup | cache.go:131-133 | As NewGroupWithTTL, with the one-hour default TTL. |
| CacheManager.Cache.GetGroup | cache.go:143-152 | Returns the group registered under the name, or nil for an unregistered name. |
| CacheManager.Cache.TtlCleanUp | cache.go:170-176 | Every registered group's map becomes `Sweep` of its old map at the same instant. Nothing else in the groups changes. |
| CacheManager.Cache.WatchHeadlessService | cache.go:191-213 | Reports removed = old peers not in the new list and added = new peers not in the old list, each in list order. The peer list then becomes exactly the newly resolved list. |
| CacheManager.Cache.DeleteEventWorker | cache.go:281-285 | Takes the oldest queued event (FIFO). Returns one target URL per current peer, in order. |

## Left out

- Goroutines, tickers, `sync.WaitGroup`, the context, the mutexes and `Close`: each worker's ticker body is one sequential step, and every operation is atomic. In the source, `get` takes its read lock and its write lock separately, so it is not atomic there.
- `net.LookupHost`, `net.Interfaces` and `getLocalIPs`: OS and network calls. Their results are inputs. The loopback exclusion inside `getLocalIPs` is therefore not modelled.
- The HTTP client in `propagateDelete`, timeouts and dropped errors: network I/O. Only the list of target URLs is modelled.
- cache_http.go (HTTP handlers, router, server start and shutdown) and `getGroupByName`, which nothing in the core calls. These are transport over the registry and the group map.
- `JSONMarshal` and `JSONMarshalIndent`: library serialisation.
- example/example.go: a demo program.
- Del on a cache built from an address alone, as example/example.go does, blocks forever in the source because its delete channel is nil (cache.go:120-121, group.go:96). The model rules that call out with `Group.Del`'s requires instead, and `AddrOnlyHasNoDeleteChannel` shows such a cache has no channel.
- Channel capacity: the unbuffered channel of `NewCache` makes `Del` wait for the worker. The model's queue never blocks.
- A ticker created with a non-positive interval panics in Go. A setting large enough to wrap to a negative Duration would start such a ticker. The model records only which workers start.
- The context passed to `Get` and to the Getter: it has no effect on the map.
- The Getter's own identity: the group does not store a Getter. Each call to `Group.Get` receives what that run of the Getter does.
- `time.Time` arithmetic: instants are unbounded integers, and `now + defttl` does not saturate.
- Each `time.Now()` inside `get`, `Set` and `Get`: one `Get` uses one instant throughout, including the Getter's `Set` calls.
- GetOrLoad: ensures `Ok` after a successful load for every `ttl >= 0`. In the source, the Getter's `Set` (group.go:84) and the second `get` (group.go:54-55) read the clock separately, so with `ttl == 0`, or any TTL shorter than the time between those two reads, the source's `Get` reports "cache expired" right after a successful load.
