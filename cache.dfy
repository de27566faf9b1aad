/**
 * The cache manager: configuration normalisation, the group registry, the
 * cache-wide TTL sweep, peer discovery (resolution, diffing, replacement)
 * and the target list of delete propagation. Each background worker's
 * ticker body is one sequential step; name resolution and the host's own
 * interface addresses are parameters.
 */
module CacheManager {
  import opened Wrappers
  import opened Format
  import opened CacheConfig
  import opened GroupStore

  // Durations are nanoseconds, as Go's time.Duration.
  const Second: int := 1_000_000_000
  const DefTTL: int := 3600 * Second                   // time.Hour
  const DefaultCacheClearInterval: int := 0             // no periodic sweep
  const DefaultHeadlessServiceWatchInterval: int := Second
  const MinHeadlessServicePort: int := 4000
  const DefaultHeadlessServicePort: int := 4567

  const MinInt64: int := -0x8000_0000_0000_0000
  const MaxInt64: int := 0x7FFF_FFFF_FFFF_FFFF
  /** The largest whole number of seconds a time.Duration can hold. */
  const MaxWholeSeconds: int := 9_223_372_036

  /** Go's signed 64-bit arithmetic: the result wraps around modulo 2^64. */
  function WrapInt64(x: int): (r: int)
    ensures MinInt64 <= r <= MaxInt64
    ensures MinInt64 <= x <= MaxInt64 ==> r == x
    ensures (x - r) % 0x1_0000_0000_0000_0000 == 0
  {
    (x - MinInt64) % 0x1_0000_0000_0000_0000 + MinInt64
  }

  /** time.Duration(sec) * time.Second, computed in 64 bits. */
  function SecondsToDuration(sec: int64): (d: int)
    ensures 0 < sec as int <= MaxWholeSeconds ==> d == sec as int * Second && d > 0
    ensures MinInt64 <= d <= MaxInt64
  {
    WrapInt64(sec as int * Second)
  }

  /** The sweep period: 0 (no sweep) for a setting <= 0, otherwise that many seconds. */
  function CleanupInterval(sec: int64): (d: int)
    ensures sec <= 0 ==> d == DefaultCacheClearInterval
    ensures 0 < sec as int <= MaxWholeSeconds ==> d == sec as int * Second && d != 0
  {
    if sec <= 0 then DefaultCacheClearInterval else SecondsToDuration(sec)
  }

  /** The discovery period: one second for a setting <= 0, otherwise that many seconds. */
  function WatchInterval(sec: int64): (d: int)
    ensures sec <= 0 ==> d == DefaultHeadlessServiceWatchInterval
    ensures 0 < sec as int <= MaxWholeSeconds ==> d == sec as int * Second
    ensures sec as int <= MaxWholeSeconds ==> d > 0
  {
    if sec <= 0 then DefaultHeadlessServiceWatchInterval else SecondsToDuration(sec)
  }

  /** A configured port below 4000 is replaced by 4567. */
  function HeadlessPort(port: int64): (p: nat)
    ensures p >= MinHeadlessServicePort
    ensures port as int >= MinHeadlessServicePort ==> p == port as int
    ensures port as int < MinHeadlessServicePort ==> p == DefaultHeadlessServicePort
  {
    if (port as int) < MinHeadlessServicePort then DefaultHeadlessServicePort else port as int
  }

  /** The elements of xs that are not in ys, in their order in xs. */
  function Without(xs: seq<string>, ys: seq<string>): (r: seq<string>)
    ensures forall x :: x in r <==> x in xs && x !in ys
    ensures |r| <= |xs|
    decreases |xs|
  {
    if xs == [] then []
    else
      var init, last := xs[..|xs| - 1], xs[|xs| - 1];
      assert xs == init + [last];
      Without(init, ys) + (if last in ys then [] else [last])
  }

  /** Removing elements that are absent keeps the sequence as it is, order included. */
  lemma {:induction false} WithoutNothing(xs: seq<string>, ys: seq<string>)
    requires forall x :: x in xs ==> x !in ys
    ensures Without(xs, ys) == xs
    decreases |xs|
  {
    if xs != [] {
      var init := xs[..|xs| - 1];
      assert xs == init + [xs[|xs| - 1]];
      WithoutNothing(init, ys);
    }
  }

  /** Filtering keeps order: it distributes over concatenation. */
  lemma {:induction false} WithoutConcat(a: seq<string>, b: seq<string>, ys: seq<string>)
    ensures Without(a + b, ys) == Without(a, ys) + Without(b, ys)
    decreases |b|
  {
    if b == [] {
      assert a + b == a;
    } else {
      var init, last := b[..|b| - 1], b[|b| - 1];
      assert (a + b)[..|a + b| - 1] == a + init;
      assert (a + b)[|a + b| - 1] == last;
      WithoutConcat(a, init, ys);
    }
  }

  /**
   * A loop that keeps the elements of xs not contained in ys: the static
   * peer filter (with ys the own address) and both halves of the peer diff.
   */
  method Subtract(xs: seq<string>, ys: seq<string>) returns (r: seq<string>)
    ensures r == Without(xs, ys)
  {
    r := [];
    for i := 0 to |xs|
      invariant r == Without(xs[..i], ys)
    {
      assert xs[..i + 1][..i] == xs[..i];
      if xs[i] !in ys {
        r := r + [xs[i]];
      }
    }
    assert xs[..|xs|] == xs;
  }

  /** The two sides of one discovery tick: peers that left and peers that joined. */
  lemma PeerDiffExample()
    ensures Without(["A", "B"], ["B", "C"]) == ["A"]
    ensures Without(["B", "C"], ["A", "B"]) == ["C"]
  {
  }

  /** Whether NewCache creates an HTTP server, and with it the delete channel. */
  predicate ServesHTTP(c: Config) {
    c.headlessServiceName != "" || (|c.peerAddresses| != 0 && c.addr != "")
  }

  /**
   * The peer list NewCache starts with: without a headless service, the
   * configured peers minus the own address; otherwise empty until the first
   * discovery tick.
   */
  function StaticPeers(c: Config): (r: seq<string>)
    ensures c.addr !in r
    ensures forall p :: p in r ==> p in c.peerAddresses
    ensures c.headlessServiceName == "" && c.addr != "" ==> r == Without(c.peerAddresses, [c.addr])
    ensures c.headlessServiceName != "" || c.addr == "" ==> r == []
  {
    if c.headlessServiceName == "" && |c.peerAddresses| != 0 && c.addr != "" then
      Without(c.peerAddresses, [c.addr])
    else []
  }

  /** The address the HTTP server listens on: ":<port>" for a headless service, else Addr, else none. */
  function ListenAddr(c: Config): (a: string)
    ensures c.headlessServiceName != "" ==> a == ":" + Decimal(HeadlessPort(c.headlessServicePort))
    ensures c.headlessServiceName == "" && ServesHTTP(c) ==> a == c.addr
    ensures a != "" <==> ServesHTTP(c)
  {
    if c.headlessServiceName != "" then ":" + Decimal(HeadlessPort(c.headlessServicePort))
    else if |c.peerAddresses| != 0 && c.addr != "" then c.addr
    else ""
  }

  /** The background goroutines NewCache starts. */
  datatype Worker = Sweeper | Watcher | DeletePropagator | HTTPServer

  function Workers(c: Config): (ws: set<Worker>)
    ensures Sweeper in ws <==> CleanupInterval(c.cacheCleanupIntervalSec) != 0
    ensures Watcher in ws <==> c.headlessServiceName != ""
    ensures DeletePropagator in ws <==> ServesHTTP(c)
    ensures HTTPServer in ws <==> ServesHTTP(c)
  {
    (if CleanupInterval(c.cacheCleanupIntervalSec) != 0 then {Sweeper} else {})
    + (if c.headlessServiceName != "" then {Watcher} else {})
    + (if ServesHTTP(c) then {DeletePropagator, HTTPServer} else {})
  }
  /**
   * A cache configured with an address alone, as example/example.go builds
   * one, starts no delete worker and so gets no delete channel: a Del on any
   * of its groups would block forever.
   */
  lemma AddrOnlyHasNoDeleteChannel(c: Config)
    requires c.headlessServiceName == "" && c.peerAddresses == []
    ensures !ServesHTTP(c)
    ensures DeletePropagator !in Workers(c) && HTTPServer !in Workers(c)
    ensures ListenAddr(c) == ""
  {
  }


  /** For every setting a Duration can hold, the sweep runs exactly when the setting is positive. */
  lemma SweepIffPositive(c: Config)
    requires c.cacheCleanupIntervalSec as int <= MaxWholeSeconds
    ensures Sweeper in Workers(c) <==> c.cacheCleanupIntervalSec > 0
  {
  }

  /** 2^55 seconds times 10^9 is a multiple of 2^64: the product wraps to 0 and no sweep runs. */
  lemma OverflowedIntervalDisablesSweep(c: Config)
    requires c.cacheCleanupIntervalSec as int == 0x80_0000_0000_0000
    ensures CleanupInterval(c.cacheCleanupIntervalSec) == 0 && Sweeper !in Workers(c)
  {
  }

  /** "<addr>:<port>", one resolved peer. */
  function PeerAddr(addr: string, port: nat): string {
    addr + ":" + Decimal(port)
  }

  /** Two peers built from one address with different ports differ. */
  lemma PeerAddrPortInjective(addr: string, p: nat, q: nat)
    requires PeerAddr(addr, p) == PeerAddr(addr, q)
    ensures p == q
  {
    var n := |addr| + 1;
    assert PeerAddr(addr, p)[n..] == Decimal(p);
    assert PeerAddr(addr, q)[n..] == Decimal(q);
    DecimalInjective(p, q);
  }

  /** The resolved addresses that are not the host's own, each with the port appended, in resolution order. */
  function Resolved(addrs: seq<string>, localIPs: set<string>, port: nat): (r: seq<string>)
    ensures |r| <= |addrs|
    ensures forall p :: p in r <==> exists a :: a in addrs && a !in localIPs && p == PeerAddr(a, port)
    decreases |addrs|
  {
    if addrs == [] then []
    else
      var init, last := addrs[..|addrs| - 1], addrs[|addrs| - 1];
      assert addrs == init + [last];
      Resolved(init, localIPs, port) + (if last in localIPs then [] else [PeerAddr(last, port)])
  }

  /** With no local address among them, every resolved address becomes a peer, at its own position. */
  lemma {:induction false} ResolvedKeepsForeign(addrs: seq<string>, localIPs: set<string>, port: nat)
    requires forall a :: a in addrs ==> a !in localIPs
    ensures |Resolved(addrs, localIPs, port)| == |addrs|
    ensures forall i :: 0 <= i < |addrs| ==> Resolved(addrs, localIPs, port)[i] == PeerAddr(addrs[i], port)
    decreases |addrs|
  {
    if addrs != [] {
      var init := addrs[..|addrs| - 1];
      assert addrs == init + [addrs[|addrs| - 1]];
      ResolvedKeepsForeign(init, localIPs, port);
    }
  }

  /** Resolution keeps the lookup's order: it distributes over concatenation. */
  lemma {:induction false} ResolvedConcat(a: seq<string>, b: seq<string>, localIPs: set<string>, port: nat)
    ensures Resolved(a + b, localIPs, port) == Resolved(a, localIPs, port) + Resolved(b, localIPs, port)
    decreases |b|
  {
    if b == [] {
      assert a + b == a;
    } else {
      var init, last := b[..|b| - 1], b[|b| - 1];
      assert (a + b)[..|a + b| - 1] == a + init;
      assert (a + b)[|a + b| - 1] == last;
      ResolvedConcat(a, init, localIPs, port);
    }
  }

  /** getCurrentPeers: a failed lookup yields no peers. */
  function CurrentPeers(lookup: Option<seq<string>>, localIPs: set<string>, port: nat): seq<string> {
    match lookup
    case None => []
    case Some(addrs) => Resolved(addrs, localIPs, port)
  }

  /** getCurrentPeers, with LookupHost's answer and the host's interface addresses as inputs. */
  method GetCurrentPeers(lookup: Option<seq<string>>, localIPs: set<string>, port: nat) returns (peers: seq<string>)
    ensures peers == CurrentPeers(lookup, localIPs, port)
  {
    if lookup.None? {
      return [];
    }
    var addrs := lookup.value;
    peers := [];
    for i := 0 to |addrs|
      invariant peers == Resolved(addrs[..i], localIPs, port)
    {
      assert addrs[..i + 1][..i] == addrs[..i];
      if addrs[i] !in localIPs {
        peers := peers + [PeerAddr(addrs[i], port)];
      }
    }
    assert addrs[..|addrs|] == addrs;
  }

  const Scheme: string := "http://"

  /** The URL a delete of key in group is sent to on one peer. */
  function TargetURL(peer: string, group: string, key: string): string {
    Scheme + peer + "/" + group + "/" + key
  }

  /** propagateDelete: one target per known peer, in peer-list order. */
  method PropagateDelete(peers: seq<string>, group: string, key: string) returns (urls: seq<string>)
    ensures |urls| == |peers|
    ensures forall i :: 0 <= i < |peers| ==> urls[i] == TargetURL(peers[i], group, key)
  {
    urls := [];
    for i := 0 to |peers|
      invariant |urls| == i
      invariant forall j :: 0 <= j < i ==> urls[j] == TargetURL(peers[j], group, key)
    {
      urls := urls + [TargetURL(peers[i], group, key)];
    }
  }

  /** The position of the first c in s. */
  function IndexOf(s: string, c: char): (r: Option<nat>)
    ensures r.Some? ==> r.value < |s| && s[r.value] == c && c !in s[..r.value]
    ensures r.None? ==> c !in s
    decreases |s|
  {
    if s == [] then None
    else if s[0] == c then Some(0)
    else match IndexOf(s[1..], c)
      case None => None
      case Some(i) => assert s[..i + 1] == [s[0]] + s[1..][..i]; Some(i + 1)
  }

  /** An inverse of TargetURL: splits a URL at the first two slashes after the scheme. */
  function ParseTarget(url: string): Option<(string, string, string)> {
    if |url| < |Scheme| || url[..|Scheme|] != Scheme then None
    else
      var rest := url[|Scheme|..];
      match IndexOf(rest, '/')
      case None => None
      case Some(i) =>
        var tail := rest[i + 1..];
        match IndexOf(tail, '/')
        case None => None
        case Some(j) => Some((rest[..i], tail[..j], tail[j + 1..]))
  }

  lemma FirstSlash(a: string, b: string)
    requires '/' !in a
    ensures IndexOf(a + "/" + b, '/') == Some(|a|)
  {
    var s := a + "/" + b;
    assert s[|a|] == '/';
    assert forall k :: 0 <= k < |a| ==> s[k] == a[k];
    var i := IndexOf(s, '/').value;
    assert forall k :: 0 <= k < i ==> s[..i][k] == s[k];
  }

  /** A target URL names its peer, group and key unambiguously when peer and group hold no '/'. */
  lemma TargetRoundTrip(peer: string, group: string, key: string)
    requires '/' !in peer && '/' !in group
    ensures ParseTarget(TargetURL(peer, group, key)) == Some((peer, group, key))
  {
    var url := TargetURL(peer, group, key);
    var tail := group + "/" + key;
    var rest := peer + "/" + tail;
    assert url == Scheme + rest;
    assert url[..|Scheme|] == Scheme && url[|Scheme|..] == rest;
    FirstSlash(peer, tail);
    assert rest[..|peer|] == peer && rest[|peer| + 1..] == tail;
    FirstSlash(group, key);
    assert tail[..|group|] == group && tail[|group| + 1..] == key;
  }

  class Cache<V> {
    const addr: string
    var peerAddresses: seq<string>
    const headlessServiceName: string
    const headlessServicePort: nat
    const ttlCleanupInterval: int
    const headlessServiceWatchInterval: int
    var groups: map<string, Group<V>>
    /** Present exactly when an HTTP server was created. */
    const deleteChan: EventQueue?
    const workers: set<Worker>

    ghost predicate Valid()
      reads this
    {
      && headlessServicePort >= MinHeadlessServicePort
      && (Watcher in workers <==> headlessServiceName != "")
      && (deleteChan != null <==> DeletePropagator in workers)
      && (forall g :: g in groups.Values ==> g.deleteChan == deleteChan)
    }

    /** NewCache. */
    constructor (config: Config)
      ensures Valid()
      ensures addr == ListenAddr(config)
      ensures peerAddresses == StaticPeers(config)
      ensures headlessServiceName == config.headlessServiceName
      ensures headlessServicePort == HeadlessPort(config.headlessServicePort)
      ensures ttlCleanupInterval == CleanupInterval(config.cacheCleanupIntervalSec)
      ensures headlessServiceWatchInterval == WatchInterval(config.headlessServiceWatchIntervalSec)
      ensures groups == map[]
      ensures workers == Workers(config)
      ensures deleteChan != null <==> ServesHTTP(config)
      ensures deleteChan != null ==> fresh(deleteChan) && deleteChan.events == []
    {
      var cleanup := if config.cacheCleanupIntervalSec <= 0 then DefaultCacheClearInterval
                     else SecondsToDuration(config.cacheCleanupIntervalSec);
      var watch := if config.headlessServiceWatchIntervalSec <= 0 then DefaultHeadlessServiceWatchInterval
                   else SecondsToDuration(config.headlessServiceWatchIntervalSec);
      var port := if (config.headlessServicePort as int) < MinHeadlessServicePort then DefaultHeadlessServicePort
                  else config.headlessServicePort as int;
      var ws: set<Worker> := {};
      if cleanup != 0 {
        ws := ws + {Sweeper};
      }
      var peers: seq<string> := [];
      var listen := "";
      var serves := false;
      if config.headlessServiceName != "" {
        ws := ws + {Watcher};
        listen := ":" + Decimal(port);
        serves := true;
      } else if |config.peerAddresses| != 0 && config.addr != "" {
        peers := Subtract(config.peerAddresses, [config.addr]);
        listen := config.addr;
        serves := true;
      }
      var q: EventQueue? := null;
      if serves {
        q := new EventQueue();
        ws := ws + {DeletePropagator, HTTPServer};
      }
      addr := listen;
      peerAddresses := peers;
      headlessServiceName := config.headlessServiceName;
      headlessServicePort := port;
      ttlCleanupInterval := cleanup;
      headlessServiceWatchInterval := watch;
      groups := map[];
      deleteChan := q;
      workers := ws;
    }

    /** NewGroupWithTTL: a fresh empty group wired to the shared delete channel; last registration wins. */
    method NewGroupWithTTL(name: string, ttl: int) returns (g: Group<V>)
      requires Valid()
      modifies this`groups
      ensures Valid()
      ensures fresh(g) && g.name == name && g.defttl == ttl && g.deleteChan == deleteChan
      ensures g.data == map[] && g.getterCalls == []
      ensures groups == old(groups)[name := g]
    {
      g := new Group(name, ttl, deleteChan);
      groups := groups[name := g];
    }

    /** NewGroup: NewGroupWithTTL with the default TTL of one hour. */
    method NewGroup(name: string) returns (g: Group<V>)
      requires Valid()
      modifies this`groups
      ensures Valid()
      ensures fresh(g) && g.name == name && g.defttl == DefTTL && g.deleteChan == deleteChan
      ensures g.data == map[] && g.getterCalls == []
      ensures groups == old(groups)[name := g]
    {
      g := NewGroupWithTTL(name, DefTTL);
    }

    /** GetGroup: the group last registered under name, or nil. */
    method GetGroup(name: string) returns (g: Group?<V>)
      ensures name in groups ==> g == groups[name]
      ensures name !in groups ==> g == null
    {
      if name !in groups {
        return null;
      }
      g := groups[name];
    }

    /** One tick of the sweep worker: every registered group is swept with the same instant. */
    method TtlCleanUp(now: int)
      modifies groups.Values
      ensures forall g :: g in groups.Values ==> g.data == Sweep(old(g.data), now)
      ensures forall g :: g in groups.Values ==> g.getterCalls == old(g.getterCalls)
    {
      var todo := groups.Values;
      while todo != {}
        invariant todo <= groups.Values
        invariant forall g :: g in groups.Values && g !in todo ==> g.data == Sweep(old(g.data), now)
        invariant forall g :: g in todo ==> g.data == old(g.data)
        invariant forall g :: g in groups.Values ==> g.getterCalls == old(g.getterCalls)
        decreases todo
      {
        var g :| g in todo;
        g.TtlCleanUp(now);
        todo := todo - {g};
      }
    }

    /**
     * One tick of the discovery worker: resolve the peers, report those that
     * left and those that joined, then replace the list wholesale.
     */
    method WatchHeadlessService(lookup: Option<seq<string>>, localIPs: set<string>)
      returns (removed: seq<string>, added: seq<string>)
      requires Valid() && Watcher in workers
      modifies this`peerAddresses
      ensures peerAddresses == CurrentPeers(lookup, localIPs, headlessServicePort)
      ensures removed == Without(old(peerAddresses), peerAddresses)
      ensures added == Without(peerAddresses, old(peerAddresses))
    {
      var newPeers := GetCurrentPeers(lookup, localIPs, headlessServicePort);
      removed := Subtract(peerAddresses, newPeers);
      added := Subtract(newPeers, peerAddresses);
      peerAddresses := newPeers;
    }

    /** One step of the propagation worker: take the oldest event and target every current peer. */
    method DeleteEventWorker() returns (event: DeleteEvent, urls: seq<string>)
      requires deleteChan != null && deleteChan.events != []
      modifies deleteChan`events
      ensures event == old(deleteChan.events[0]) && deleteChan.events == old(deleteChan.events[1..])
      ensures |urls| == |peerAddresses|
      ensures forall i :: 0 <= i < |peerAddresses| ==> urls[i] == TargetURL(peerAddresses[i], event.group, event.key)
    {
      event := deleteChan.events[0];
      deleteChan.events := deleteChan.events[1..];
      urls := PropagateDelete(peerAddresses, event.group, event.key);
    }
  }

  /**
   * A cache with static peers: its own address is dropped from the peer
   * list, groups share its delete channel, and a delete reaches every peer.
   */
  method StaticPeersScenario() returns (peers: seq<string>, found: bool, missing: bool, event: DeleteEvent, urls: seq<string>)
    ensures peers == ["b:2", "c:3"]
    ensures found && missing
    ensures event == DeleteEvent("users", "k")
    ensures urls == [TargetURL("b:2", "users", "k"), TargetURL("c:3", "users", "k")]
  {
    var c := new Cache<string>(Config("a:1", ["a:1", "b:2", "c:3"], "", 0, 0, 0));
    assert ["a:1", "b:2", "c:3"][..1] == ["a:1"];
    assert ["a:1", "b:2", "c:3"][..2] == ["a:1", "b:2"];
    assert ["a:1"][..0] == [];
    assert Without(["a:1"], ["a:1"]) == [];
    assert Without(["a:1", "b:2"], ["a:1"]) == ["b:2"];
    peers := c.peerAddresses;
    var g := c.NewGroup("users");
    var got := c.GetGroup("users");
    found := got == g;
    var none := c.GetGroup("orders");
    missing := none == null;
    g.Del("k");
    event, urls := c.DeleteEventWorker();
  }
}
