/**
 The per-key operation lock of the CSI request proxy: keys are taken all or
 none, every acquisition has its own token, and a key held for maxHoldMs or
 longer may be evicted by the next request. Eviction makes exclusion
 approximate; the theorems say how approximate.
 */
module OperationLocks {
  import opened Wrappers

  type Key = string

  datatype Entry = Entry(token: nat, acquiredAt: int, operation: string)

  datatype LockState = LockState(held: map<Key, Entry>, nextToken: nat)

  predicate IsStale(maxHoldMs: nat, entry: Entry, now: int) {
    maxHoldMs > 0 && now - entry.acquiredAt >= maxHoldMs
  }

  // A key is in the way of a request when somebody holds it and is not overdue.
  predicate InTheWay(maxHoldMs: nat, held: map<Key, Entry>, key: Key, now: int) {
    key in held && !IsStale(maxHoldMs, held[key], now)
  }

  predicate Blocked(maxHoldMs: nat, held: map<Key, Entry>, keys: seq<Key>, now: int) {
    exists key | key in keys :: InTheWay(maxHoldMs, held, key, now)
  }

  function Without(held: map<Key, Entry>, keys: seq<Key>): map<Key, Entry> {
    map key | key in held && key !in keys :: held[key]
  }

  function AllAt(keys: seq<Key>, entry: Entry): map<Key, Entry> {
    map key | key in keys :: entry
  }

  function Take(s: LockState, keys: seq<Key>, operation: string, now: int): LockState {
    LockState(s.held + AllAt(keys, Entry(s.nextToken, now, operation)), s.nextToken + 1)
  }

  function Drop(held: map<Key, Entry>, keys: seq<Key>, token: nat): map<Key, Entry> {
    map key | key in held && !(key in keys && held[key].token == token) :: held[key]
  }

  lemma WholePrefix(keys: seq<Key>)
    ensures keys[..|keys|] == keys
  {
  }

  lemma BlockedOneMore(maxHoldMs: nat, held: map<Key, Entry>, keys: seq<Key>, i: nat, now: int)
    requires i < |keys|
    ensures Blocked(maxHoldMs, held, keys[..i + 1], now)
       <==> Blocked(maxHoldMs, held, keys[..i], now) || InTheWay(maxHoldMs, held, keys[i], now)
    ensures InTheWay(maxHoldMs, held, keys[i], now) ==> Blocked(maxHoldMs, held, keys, now)
  {
    assert keys[..i + 1] == keys[..i] + [keys[i]];
  }

  lemma AllAtOneMore(base: map<Key, Entry>, keys: seq<Key>, i: nat, entry: Entry)
    requires i < |keys|
    ensures base + AllAt(keys[..i + 1], entry) == (base + AllAt(keys[..i], entry))[keys[i] := entry]
  {
    assert keys[..i + 1] == keys[..i] + [keys[i]];
  }

  class OperationLock {
    const maxHoldMs: nat
    var held: map<Key, Entry>
    var nextToken: nat

    constructor (maxHoldMs: nat)
      ensures this.maxHoldMs == maxHoldMs && State() == LockState(map[], 1)
    {
      this.maxHoldMs := maxHoldMs;
      held, nextToken := map[], 1;
    }

    function State(): LockState
      reads this
    {
      LockState(held, nextToken)
    }

    // `now` is the reading of the injected clock.
    method Acquire(keys: seq<Key>, operation: string, now: int) returns (token: Option<nat>)
      modifies this
      ensures token == None <==> Blocked(maxHoldMs, old(held), keys, now)
      ensures token == None ==> State() == old(State())
      ensures token.Some? ==> token.value == old(nextToken)
                              && State() == Take(old(State()), keys, operation, now)
    {
      for i := 0 to |keys|
        invariant State() == old(State())
        invariant !Blocked(maxHoldMs, held, keys[..i], now)
      {
        BlockedOneMore(maxHoldMs, held, keys, i, now);
        if keys[i] in held && !IsStale(maxHoldMs, held[keys[i]], now) {
          return None;
        }
      }
      WholePrefix(keys);
      for i := 0 to |keys|
        invariant held == Without(old(held), keys[..i])
        invariant nextToken == old(nextToken)
      {
        if keys[i] in held {
          held := held - {keys[i]};
        }
      }
      WholePrefix(keys);
      var mine := nextToken;
      nextToken := nextToken + 1;
      var entry := Entry(mine, now, operation);
      ghost var cleared := held;
      for i := 0 to |keys|
        invariant held == cleared + AllAt(keys[..i], entry)
        invariant nextToken == mine + 1
      {
        AllAtOneMore(cleared, keys, i, entry);
        held := held[keys[i] := entry];
      }
      WholePrefix(keys);
      token := Some(mine);
    }

    method Release(keys: seq<Key>, token: nat)
      modifies this`held
      ensures held == Drop(old(held), keys, token)
    {
      for i := 0 to |keys|
        invariant held == Drop(old(held), keys[..i], token)
      {
        if keys[i] in held && held[keys[i]].token == token {
          held := held - {keys[i]};
        }
      }
      assert keys[..|keys|] == keys;
    }

    method Has(key: Key) returns (r: bool)
      ensures r <==> key in held
    {
      r := key in held;
    }
  }

  // ---------------------------------------------------------------- runs ---

  // A granted request whose handler has not finished yet.
  datatype Grant = Grant(keys: seq<Key>, at: int)

  datatype Proxy = Proxy(lock: LockState, live: map<nat, Grant>, clock: int)

  datatype Event =
    | Request(keys: seq<Key>, operation: string, now: int)
    | Finish(token: nat)

  const INITIAL := Proxy(LockState(map[], 1), map[], 0)

  // The clock never runs backwards and a handler finishes at most once.
  predicate Enabled(s: Proxy, e: Event) {
    match e
    case Request(_, _, now) => s.clock <= now
    case Finish(token) => token in s.live
  }

  function Apply(maxHoldMs: nat, s: Proxy, e: Event): Proxy
    requires Enabled(s, e)
  {
    match e
    case Request(keys, operation, now) =>
      if Blocked(maxHoldMs, s.lock.held, keys, now) then s.(clock := now)
      else Proxy(Take(s.lock, keys, operation, now), s.live[s.lock.nextToken := Grant(keys, now)], now)
    case Finish(token) =>
      Proxy(s.lock.(held := Drop(s.lock.held, s.live[token].keys, token)), s.live - {token}, s.clock)
  }

  ghost predicate Runs(maxHoldMs: nat, s: Proxy, events: seq<Event>, t: Proxy)
    decreases |events|
  {
    if events == [] then s == t
    else Enabled(s, events[0]) && Runs(maxHoldMs, Apply(maxHoldMs, s, events[0]), events[1..], t)
  }

  ghost predicate Reachable(maxHoldMs: nat, s: Proxy) {
    exists events :: Runs(maxHoldMs, INITIAL, events, s)
  }

  predicate Holds(s: Proxy, token: nat, key: Key) {
    token in s.live && key in s.live[token].keys
  }

  // Either the handler still owns the lock entry, or its hold time is over.
  predicate OwnsOrOverdue(maxHoldMs: nat, s: Proxy, token: nat, key: Key)
    requires token in s.live
  {
    || (key in s.lock.held && s.lock.held[key].token == token)
    || (maxHoldMs > 0 && s.clock >= s.live[token].at + maxHoldMs)
  }

  ghost predicate Inv(maxHoldMs: nat, s: Proxy) {
    && (forall key | key in s.lock.held :: var e := s.lock.held[key];
          Holds(s, e.token, key) && s.live[e.token].at == e.acquiredAt)
    && (forall token | token in s.live :: token < s.lock.nextToken && s.live[token].at <= s.clock)
    && (forall token, key | Holds(s, token, key) :: OwnsOrOverdue(maxHoldMs, s, token, key))
    && (forall a, b, key | a < b && Holds(s, a, key) && Holds(s, b, key) ::
          maxHoldMs > 0 && s.live[b].at >= s.live[a].at + maxHoldMs)
  }

  // A step that grants nothing adds no pair of handlers.
  lemma StepKeepsSpacing(maxHoldMs: nat, s: Proxy, e: Event)
    requires Inv(maxHoldMs, s) && Enabled(s, e)
    requires e.Request? ==> Blocked(maxHoldMs, s.lock.held, e.keys, e.now)
    ensures var t := Apply(maxHoldMs, s, e);
            forall a, b, key | a < b && Holds(t, a, key) && Holds(t, b, key) ::
              maxHoldMs > 0 && t.live[b].at >= t.live[a].at + maxHoldMs
  {
    var t := Apply(maxHoldMs, s, e);
    forall a, b, key | a < b && Holds(t, a, key) && Holds(t, b, key)
      ensures maxHoldMs > 0 && t.live[b].at >= t.live[a].at + maxHoldMs
    {
      assert Holds(s, a, key) && Holds(s, b, key);
    }
  }

  lemma GrantKeepsSpacing(maxHoldMs: nat, s: Proxy, e: Event)
    requires Inv(maxHoldMs, s) && Enabled(s, e) && e.Request? && !Blocked(maxHoldMs, s.lock.held, e.keys, e.now)
    ensures var t := Apply(maxHoldMs, s, e);
            forall a, b, key | a < b && Holds(t, a, key) && Holds(t, b, key) ::
              maxHoldMs > 0 && t.live[b].at >= t.live[a].at + maxHoldMs
  {
    var t := Apply(maxHoldMs, s, e);
    forall a, b, key | a < b && Holds(t, a, key) && Holds(t, b, key)
      ensures maxHoldMs > 0 && t.live[b].at >= t.live[a].at + maxHoldMs
    {
      assert Holds(s, a, key);
      if b == s.lock.nextToken {
        assert OwnsOrOverdue(maxHoldMs, s, a, key);
        assert !InTheWay(maxHoldMs, s.lock.held, key, e.now);
      } else {
        assert Holds(s, b, key);
      }
    }
  }

  lemma GrantKeepsOwners(maxHoldMs: nat, s: Proxy, e: Event)
    requires Inv(maxHoldMs, s) && Enabled(s, e) && e.Request? && !Blocked(maxHoldMs, s.lock.held, e.keys, e.now)
    ensures var t := Apply(maxHoldMs, s, e);
            forall token, key | Holds(t, token, key) :: OwnsOrOverdue(maxHoldMs, t, token, key)
  {
    var t := Apply(maxHoldMs, s, e);
    forall token, key | Holds(t, token, key)
      ensures OwnsOrOverdue(maxHoldMs, t, token, key)
    {
      if token != s.lock.nextToken {
        assert Holds(s, token, key) && OwnsOrOverdue(maxHoldMs, s, token, key);
        if key in e.keys {
          assert !InTheWay(maxHoldMs, s.lock.held, key, e.now);
        }
      }
    }
  }

  lemma StepKeepsInv(maxHoldMs: nat, s: Proxy, e: Event)
    requires Inv(maxHoldMs, s) && Enabled(s, e)
    ensures Inv(maxHoldMs, Apply(maxHoldMs, s, e))
  {
    var t := Apply(maxHoldMs, s, e);
    match e
    case Request(keys, operation, now) =>
      if !Blocked(maxHoldMs, s.lock.held, keys, now) {
        GrantKeepsSpacing(maxHoldMs, s, e);
        GrantKeepsOwners(maxHoldMs, s, e);
      } else {
        StepKeepsSpacing(maxHoldMs, s, e);
        forall token, key | Holds(t, token, key)
          ensures OwnsOrOverdue(maxHoldMs, t, token, key)
        {
          assert Holds(s, token, key) && OwnsOrOverdue(maxHoldMs, s, token, key);
        }
      }
    case Finish(done) =>
      StepKeepsSpacing(maxHoldMs, s, e);
      forall token, key | Holds(t, token, key)
        ensures OwnsOrOverdue(maxHoldMs, t, token, key)
      {
        assert Holds(s, token, key) && OwnsOrOverdue(maxHoldMs, s, token, key);
      }
  }

  lemma {:induction false} RunKeepsInv(maxHoldMs: nat, s: Proxy, events: seq<Event>, t: Proxy)
    requires Inv(maxHoldMs, s) && Runs(maxHoldMs, s, events, t)
    ensures Inv(maxHoldMs, t)
    decreases |events|
  {
    if events != [] {
      StepKeepsInv(maxHoldMs, s, events[0]);
      RunKeepsInv(maxHoldMs, Apply(maxHoldMs, s, events[0]), events[1..], t);
    }
  }

  lemma ReachableInv(maxHoldMs: nat, s: Proxy)
    requires Reachable(maxHoldMs, s)
    ensures Inv(maxHoldMs, s)
  {
    var events :| Runs(maxHoldMs, INITIAL, events, s);
    RunKeepsInv(maxHoldMs, INITIAL, events, s);
  }

  // The unfinished handlers that were granted a key.
  function Holders(s: Proxy, key: Key): set<nat> {
    set token | token in s.live && key in s.live[token].keys
  }

  ghost predicate Spread(s: Proxy, tokens: set<nat>, gap: int) {
    exists oldest, newest | oldest in tokens && newest in tokens && oldest in s.live && newest in s.live ::
      s.live[newest].at - s.live[oldest].at >= gap
  }

  /**
   Bounded overlap: among n unfinished handlers of one key, the newest was
   granted at least (n-1) * maxHoldMs after the oldest; without eviction there
   is at most one.
   */
  lemma OverlapIsSpreadOut(maxHoldMs: nat, s: Proxy, key: Key)
    requires Reachable(maxHoldMs, s)
    ensures maxHoldMs == 0 ==> |Holders(s, key)| <= 1
    ensures Holders(s, key) != {} ==> Spread(s, Holders(s, key), (|Holders(s, key)| - 1) * maxHoldMs)
  {
    ReachableInv(maxHoldMs, s);
    if Holders(s, key) != {} {
      var oldest, newest := SpreadOf(maxHoldMs, s, key, Holders(s, key));
      if maxHoldMs == 0 && |Holders(s, key)| > 1 {
        TwoMembers(Holders(s, key), oldest);
        var other :| other in Holders(s, key) && other != oldest;
        assert Holds(s, oldest, key) && Holds(s, other, key);
        assert false;
      }
    }
  }

  lemma TwoMembers(tokens: set<nat>, a: nat)
    requires a in tokens && |tokens| > 1
    ensures exists b :: b in tokens && b != a
  {
    var others := tokens - {a};
    assert |others| == |tokens| - 1;
    var b :| b in others;
  }

  lemma Spaced(maxHoldMs: nat, s: Proxy, key: Key, a: nat, b: nat)
    requires Inv(maxHoldMs, s) && a < b && a in Holders(s, key) && b in Holders(s, key)
    ensures a in s.live && b in s.live && s.live[b].at >= s.live[a].at + maxHoldMs
  {
    assert Holds(s, a, key) && Holds(s, b, key);
  }

  lemma {:induction false} SpreadOf(maxHoldMs: nat, s: Proxy, key: Key, tokens: set<nat>)
    returns (oldest: nat, newest: nat)
    requires Inv(maxHoldMs, s) && tokens != {} && tokens <= Holders(s, key)
    ensures oldest in tokens && newest in tokens
    ensures forall token | token in tokens :: token <= newest
    ensures oldest in s.live && newest in s.live
    ensures s.live[newest].at - s.live[oldest].at >= (|tokens| - 1) * maxHoldMs
    decreases |tokens|
  {
    newest := Largest(tokens);
    var rest := tokens - {newest};
    if rest == {} {
      assert tokens == {newest};
      oldest := newest;
    } else {
      var second;
      oldest, second := SpreadOf(maxHoldMs, s, key, rest);
      Spaced(maxHoldMs, s, key, second, newest);
    }
  }

  lemma {:induction false} Largest(tokens: set<nat>) returns (m: nat)
    requires tokens != {}
    ensures m in tokens && forall token | token in tokens :: token <= m
    decreases |tokens|
  {
    var any :| any in tokens;
    m := any;
    if tokens != {any} {
      var other := Largest(tokens - {any});
      if other > any {
        m := other;
      }
      assert forall token | token in tokens :: token == any || token in tokens - {any};
    }
  }

  /** Plain mutual exclusion over all runs is available exactly when eviction is off. */
  lemma ExclusionIffNoEviction(maxHoldMs: nat)
    ensures (forall s, key | Reachable(maxHoldMs, s) :: |Holders(s, key)| <= 1) <==> maxHoldMs == 0
  {
    if maxHoldMs == 0 {
      forall s, key | Reachable(maxHoldMs, s) ensures |Holders(s, key)| <= 1 {
        OverlapIsSpreadOut(maxHoldMs, s, key);
      }
    } else {
      var t := EvictionOverlaps(maxHoldMs);
    }
  }

  // The overlap: a second request exactly maxHoldMs after the first.
  lemma EvictionOverlaps(maxHoldMs: nat) returns (t: Proxy)
    requires maxHoldMs > 0
    ensures Reachable(maxHoldMs, t) && |Holders(t, "k")| == 2
  {
    var first, second := Request(["k"], "", 0), Request(["k"], "", maxHoldMs);
    assert !Blocked(maxHoldMs, INITIAL.lock.held, ["k"], 0);
    var s := Apply(maxHoldMs, INITIAL, first);
    assert "k" in ["k"];
    assert s.lock.held["k"] == Entry(1, 0, "");
    assert !Blocked(maxHoldMs, s.lock.held, ["k"], maxHoldMs);
    t := Apply(maxHoldMs, s, second);
    TwoSteps(maxHoldMs, INITIAL, first, second);
    assert Holders(t, "k") == {1, 2};
  }

  lemma TwoSteps(maxHoldMs: nat, s: Proxy, first: Event, second: Event)
    requires Enabled(s, first) && Enabled(Apply(maxHoldMs, s, first), second)
    ensures Runs(maxHoldMs, s, [first, second], Apply(maxHoldMs, Apply(maxHoldMs, s, first), second))
  {
    assert [first, second][1..] == [second] && [second][1..] == [];
  }

  // The handler's hold time is over.
  predicate Overdue(maxHoldMs: nat, s: Proxy, token: nat, now: int)
    requires token in s.live
  {
    maxHoldMs > 0 && now >= s.live[token].at + maxHoldMs
  }

  /**
   Availability: once the hold time of every unfinished handler is over, any
   request is granted whatever its keys and however often others asked in the
   meantime.
   */
  lemma EventuallyAvailable(maxHoldMs: nat, s: Proxy, keys: seq<Key>, now: int)
    requires Reachable(maxHoldMs, s) && s.clock <= now
    requires forall token | token in s.live :: Overdue(maxHoldMs, s, token, now)
    ensures !Blocked(maxHoldMs, s.lock.held, keys, now)
  {
    BlockedByUnfinished(maxHoldMs, s, keys, now);
  }

  /**
   Exactly who blocks a request: some unfinished handler that still owns the
   lock entry of one of its keys and whose own hold time is not over.
   */
  lemma BlockedByUnfinished(maxHoldMs: nat, s: Proxy, keys: seq<Key>, now: int)
    requires Reachable(maxHoldMs, s)
    ensures Blocked(maxHoldMs, s.lock.held, keys, now)
       <==> exists key | key in keys :: key in s.lock.held && var token := s.lock.held[key].token;
              Holds(s, token, key) && !Overdue(maxHoldMs, s, token, now)
  {
    ReachableInv(maxHoldMs, s);
    forall key | key in s.lock.held
      ensures Holds(s, s.lock.held[key].token, key)
      ensures InTheWay(maxHoldMs, s.lock.held, key, now) <==> !Overdue(maxHoldMs, s, s.lock.held[key].token, now)
    {
    }
  }

  /**
   A finishing handler frees exactly the entries that still carry its own
   token: a successor that evicted it keeps every key.
   */
  lemma FinishSparesSuccessors(maxHoldMs: nat, s: Proxy, token: nat, key: Key)
    requires Reachable(maxHoldMs, s) && token in s.live
    ensures var t := Apply(maxHoldMs, s, Finish(token));
            (key in t.lock.held <==> key in s.lock.held && s.lock.held[key].token != token)
            && (key in t.lock.held ==> t.lock.held[key] == s.lock.held[key] && Holds(t, t.lock.held[key].token, key))
  {
    ReachableInv(maxHoldMs, s);
    if key in s.lock.held {
      assert Holds(s, s.lock.held[key].token, key);
    }
  }

  // -------------------------------------------------------- transparency ---

  datatype LockCall =
    | Acquire(keys: seq<Key>, operation: string, now: int)
    | Release(keys: seq<Key>, token: nat)

  function Call(maxHoldMs: nat, s: LockState, c: LockCall): LockState {
    match c
    case Acquire(keys, operation, now) =>
      if Blocked(maxHoldMs, s.held, keys, now) then s else Take(s, keys, operation, now)
    case Release(keys, token) => s.(held := Drop(s.held, keys, token))
  }

  function Calls(maxHoldMs: nat, s: LockState, calls: seq<LockCall>): LockState
    decreases |calls|
  {
    if calls == [] then s else Calls(maxHoldMs, Call(maxHoldMs, s, calls[0]), calls[1..])
  }

  ghost predicate Avoid(calls: seq<LockCall>, keys: seq<Key>) {
    forall c, key | c in calls && key in c.keys :: key !in keys
  }

  // A call on other keys acts on other entries only and cannot see extra ones.
  lemma FrameCall(maxHoldMs: nat, s: LockState, extra: map<Key, Entry>, c: LockCall)
    requires extra.Keys !! s.held.Keys && forall key | key in c.keys :: key !in extra
    ensures var t := s.(held := s.held + extra);
            var s' := Call(maxHoldMs, s, c);
            Call(maxHoldMs, t, c) == s'.(held := s'.held + extra) && extra.Keys !! s'.held.Keys
  {
    var t := s.(held := s.held + extra);
    match c
    case Acquire(keys, operation, now) =>
      assert forall key | key in keys ::
        InTheWay(maxHoldMs, s.held, key, now) == InTheWay(maxHoldMs, t.held, key, now);
    case Release(keys, token) =>
      assert Drop(s.held + extra, keys, token) == Drop(s.held, keys, token) + extra;
  }

  lemma {:induction false} FrameCalls(maxHoldMs: nat, s: LockState, extra: map<Key, Entry>, calls: seq<LockCall>)
    requires extra.Keys !! s.held.Keys
    requires forall c, key | c in calls && key in c.keys :: key !in extra
    ensures extra.Keys !! Calls(maxHoldMs, s, calls).held.Keys
    ensures Calls(maxHoldMs, s.(held := s.held + extra), calls)
         == Calls(maxHoldMs, s, calls).(held := Calls(maxHoldMs, s, calls).held + extra)
    decreases |calls|
  {
    if calls != [] {
      assert calls[0] in calls;
      FrameCall(maxHoldMs, s, extra, calls[0]);
      FrameCalls(maxHoldMs, Call(maxHoldMs, s, calls[0]), extra, calls[1..]);
    }
  }

  /**
   Transparency: acquiring keys and releasing them with the token received,
   with any calls on other keys in between, leaves the lock as if only those
   other calls had been made (a stale entry on the keys is gone, and one token
   number is used up).
   */
  lemma AcquireReleaseTransparent(maxHoldMs: nat, s: LockState, keys: seq<Key>, operation: string,
                                  now: int, others: seq<LockCall>)
    requires !Blocked(maxHoldMs, s.held, keys, now)
    requires Avoid(others, keys)
    ensures var during := Calls(maxHoldMs, Take(s, keys, operation, now), others);
            var without := Calls(maxHoldMs, LockState(s.held - (set key | key in keys), s.nextToken + 1), others);
            during.(held := Drop(during.held, keys, s.nextToken)) == without
  {
    var mine := AllAt(keys, Entry(s.nextToken, now, operation));
    var bare := LockState(s.held - (set key | key in keys), s.nextToken + 1);
    assert s.held + mine == bare.held + mine;
    FrameCalls(maxHoldMs, bare, mine, others);
    var without := Calls(maxHoldMs, bare, others);
    assert Drop(without.held + mine, keys, s.nextToken) == without.held;
  }

  // -------------------------------------------------------- request keys ---

  datatype Rpc =
    | CreateVolume(name: string)
    | DeleteVolume(volumeId: string)
    | ControllerExpandVolume(volumeId: string)
    | CreateSnapshot(name: string, sourceVolumeId: string)
    | DeleteSnapshot(snapshotId: string)
    | NodeStageVolume(volumeId: string)
    | NodeUnstageVolume(volumeId: string)
    | NodePublishVolume(volumeId: string)
    | NodeUnpublishVolume(volumeId: string)
    | NodeExpandVolume(volumeId: string)
    | NodeGetVolumeStats(volumeId: string)
    | OtherRpc(method_: string)

  function LockKeysFromRequest(rpc: Rpc): seq<Key> {
    match rpc
    case CreateVolume(name) => ["create_volume_name_" + name]
    case DeleteVolume(id) => ["volume_id_" + id]
    case ControllerExpandVolume(id) => ["volume_id_" + id]
    case CreateSnapshot(name, source) => ["create_snapshot_name_" + name, "volume_id_" + source]
    case DeleteSnapshot(id) => ["snapshot_id_" + id]
    case NodeStageVolume(id) => ["volume_id_" + id]
    case NodeUnstageVolume(id) => ["volume_id_" + id]
    case NodePublishVolume(id) => ["volume_id_" + id]
    case NodeUnpublishVolume(id) => ["volume_id_" + id]
    case NodeExpandVolume(id) => ["volume_id_" + id]
    case NodeGetVolumeStats(_) => []
    case OtherRpc(_) => []
  }

  // What a request is about, independently of how keys are spelt.
  datatype Subject =
    | VolumeName(name: string)
    | VolumeId(id: string)
    | SnapshotName(name: string)
    | SnapshotId(id: string)

  function Subjects(rpc: Rpc): set<Subject> {
    match rpc
    case CreateVolume(name) => {VolumeName(name)}
    case CreateSnapshot(name, source) => {SnapshotName(name), VolumeId(source)}
    case DeleteSnapshot(id) => {SnapshotId(id)}
    case NodeGetVolumeStats(_) => {}
    case OtherRpc(_) => {}
    case _ => {VolumeId(rpc.volumeId)}
  }

  function KeyOf(subject: Subject): Key {
    match subject
    case VolumeName(name) => "create_volume_name_" + name
    case VolumeId(id) => "volume_id_" + id
    case SnapshotName(name) => "create_snapshot_name_" + name
    case SnapshotId(id) => "snapshot_id_" + id
  }

  lemma PrefixCancels(prefix: string, a: string, b: string)
    requires prefix + a == prefix + b
    ensures a == b
  {
    assert (prefix + a)[|prefix|..] == a;
    assert (prefix + b)[|prefix|..] == b;
  }

  lemma KeyOfInjective(a: Subject, b: Subject)
    requires KeyOf(a) == KeyOf(b)
    ensures a == b
  {
    assert KeyOf(a)[0] == KeyOf(b)[0] && KeyOf(a)[7] == KeyOf(b)[7];
    match (a, b)
    case (VolumeName(x), VolumeName(y)) => PrefixCancels("create_volume_name_", x, y);
    case (VolumeId(x), VolumeId(y)) => PrefixCancels("volume_id_", x, y);
    case (SnapshotName(x), SnapshotName(y)) => PrefixCancels("create_snapshot_name_", x, y);
    case (SnapshotId(x), SnapshotId(y)) => PrefixCancels("snapshot_id_", x, y);
    case _ =>
  }

  /** Two requests contend for a lock key exactly when they are about a common subject. */
  lemma ContendIffCommonSubject(a: Rpc, b: Rpc)
    ensures (exists key :: key in LockKeysFromRequest(a) && key in LockKeysFromRequest(b))
       <==> Subjects(a) * Subjects(b) != {}
  {
    KeysAreSubjectKeys(a);
    KeysAreSubjectKeys(b);
    if key :| key in LockKeysFromRequest(a) && key in LockKeysFromRequest(b) {
      var x :| x in Subjects(a) && KeyOf(x) == key;
      var y :| y in Subjects(b) && KeyOf(y) == key;
      KeyOfInjective(x, y);
      assert x in Subjects(a) * Subjects(b);
    }
    if x :| x in Subjects(a) * Subjects(b) {
      assert KeyOf(x) in LockKeysFromRequest(a) && KeyOf(x) in LockKeysFromRequest(b);
    }
  }

  lemma KeysAreSubjectKeys(rpc: Rpc)
    ensures forall key :: key in LockKeysFromRequest(rpc) <==> exists x | x in Subjects(rpc) :: KeyOf(x) == key
  {
    match rpc
    case CreateSnapshot(name, source) =>
      assert SnapshotName(name) in Subjects(rpc) && VolumeId(source) in Subjects(rpc);
    case CreateVolume(name) => assert VolumeName(name) in Subjects(rpc);
    case DeleteSnapshot(id) => assert SnapshotId(id) in Subjects(rpc);
    case NodeGetVolumeStats(_) =>
    case OtherRpc(_) =>
    case _ => assert VolumeId(rpc.volumeId) in Subjects(rpc);
  }
}
