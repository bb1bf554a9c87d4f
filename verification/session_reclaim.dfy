/**
 Reclaiming the iSCSI sessions of a volume at unstage time. Commands are
 verified by asking for the state they should have changed, never by their
 exit code.
 */
module SessionReclaim {
  import opened Wrappers
  import opened Text
  import opened IscsiHost

  predicate Matches(l: Login, volumeId: string) {
    volumeId != "" && Includes(l.target, volumeId)
  }

  predicate IscsiadmUnusable(f: Fault) {
    f.Fails? && f.unusable
  }

  method FindIscsiSessionForVolumeId(sessions: seq<Login>, volumeId: string) returns (found: seq<Login>)
    ensures forall l :: l in found <==> l in sessions && volumeId != "" && Includes(l.target, volumeId)
  {
    found := [];
    if volumeId == "" {
      return;
    }
    for i := 0 to |sessions|
      invariant forall l :: l in found <==> l in sessions[..i] && Includes(l.target, volumeId)
    {
      assert sessions[..i + 1] == sessions[..i] + [sessions[i]];
      if Includes(sessions[i].target, volumeId) {
        found := found + [sessions[i]];
      }
    }
    assert sessions[..|sessions|] == sessions;
  }

  // A record delete follows, with nothing in between, an observation that its
  // session is absent, itself made after a logout of that session was tried.
  ghost predicate DeletedAfterLogout(log: seq<Event>, i: nat)
    requires i < |log|
  {
    log[i].TriedDelete? ==>
      && i >= 2
      && log[i - 1] == SawSession(log[i].iqn, log[i].portal, false)
      && (log[i - 2] == TriedLogout(log[i].iqn, log[i].portal)
          || (i >= 3 && log[i - 3] == TriedLogout(log[i].iqn, log[i].portal)))
  }

  // The observations and attempts made while reclaiming the listed sessions.
  ghost predicate Careful(log: seq<Event>, from: nat, volumeId: string) {
    forall i | from <= i < |log| :: CarefulAt(log, i, volumeId)
  }

  ghost predicate CarefulAt(log: seq<Event>, i: nat, volumeId: string)
    requires i < |log|
  {
    && DeletedAfterLogout(log, i)
    && (log[i].TriedLogout? ==> Includes(log[i].target, volumeId))
    && (log[i].TriedDelete? ==> Includes(log[i].iqn, volumeId))
  }

  // An extended log is careful if what it had was, and what it got is.
  lemma CarefulTogether(log: seq<Event>, more: seq<Event>, from: nat, volumeId: string)
    requires from <= |log| && log <= more && Careful(log, from, volumeId) && Careful(more, |log|, volumeId)
    ensures Careful(more, from, volumeId)
  {
    forall i | from <= i < |more| ensures CarefulAt(more, i, volumeId) {
      if i < |log| {
        assert CarefulAt(log, i, volumeId);
      }
    }
  }

  // What a host changed only by the driver keeps.
  ghost predicate OthersUntouched(w0: World, w1: World, volumeId: string) {
    && w1.sessions <= w0.sessions && w1.records <= w0.records
    && (forall l | l in w0.sessions && !Includes(l.target, volumeId) :: l in w1.sessions)
    && (forall r | r in w0.records && !Includes(r.iqn, volumeId) :: r in w1.records)
  }

  // One verified command changes nothing but its own target's state.
  ghost predicate OnlyTarget(w0: World, w1: World, kind: Step, target: string) {
    && w1.sessions <= w0.sessions && w1.records <= w0.records
    && (forall l | l in w0.sessions && (kind.DeleteStep? || l.target != target) :: l in w1.sessions)
    && (forall r | r in w0.records && (kind.LogoutStep? || r.iqn != target) :: r in w1.records)
  }

  datatype Step = LogoutStep | DeleteStep

  // ------------------------------------------- what the host's answers decide ---

  // Whether a part of the reclaim succeeded, and the host and the number of the
  // next command after it.
  datatype Progress = Progress(ok: bool, world: World, step: nat)

  predicate Present(host: Host, w: World, kind: Step, target: string, portal: string) {
    match kind
    case LogoutStep => exists l | l in w.sessions :: l.target == target && host.SessionAt(portal, l.portal)
    case DeleteStep => host.RecordsOf(w, target, portal) != {}
  }

  // Query number n is answered, and the answer is no.
  predicate SeenGone(host: Host, n: nat, w: World, kind: Step, target: string, portal: string) {
    host.FaultAt(n) == Fine && !Present(host, host.Env(n, w), kind, target, portal)
  }

  // The host after command number n. What it reports plays no part, only
  // whether it took effect.
  function Commanded(host: Host, n: nat, w: World, kind: Step, target: string, portal: string): World {
    var v := host.Env(n, w);
    if !TakesEffect(host.FaultAt(n)) then v
    else match kind
      case LogoutStep => v.(sessions := v.sessions - host.LoginsOf(v, target, portal))
      case DeleteStep => v.(records := v.records - host.RecordsOf(v, target, portal))
  }

  // A command and its one or two queries: it succeeds exactly when one of them
  // sees its state gone.
  function Verified(host: Host, n: nat, w: World, kind: Step, target: string, portal: string): Progress {
    var w1 := Commanded(host, n, w, kind, target, portal);
    var w2 := host.Env(n + 1, w1);
    if SeenGone(host, n + 1, w1, kind, target, portal) then Progress(true, w2, n + 2)
    else Progress(SeenGone(host, n + 2, w2, kind, target, portal), host.Env(n + 2, w2), n + 3)
  }

  // Two chances to see the state gone, and an unanswered query sees nothing.
  lemma VerifiedExactly(host: Host, n: nat, w: World, kind: Step, target: string, portal: string)
    ensures var w1 := Commanded(host, n, w, kind, target, portal);
            var w2 := host.Env(n + 1, w1);
            var w3 := host.Env(n + 2, w2);
            var p := Verified(host, n, w, kind, target, portal);
            var first := host.FaultAt(n + 1) == Fine && !Present(host, w2, kind, target, portal);
            var second := host.FaultAt(n + 2) == Fine && !Present(host, w3, kind, target, portal);
            p == if first then Progress(true, w2, n + 2) else Progress(second, w3, n + 3)
  {
  }

  function TargetCleared(host: Host, n: nat, w: World, target: string, portal: string): Progress {
    var p := Verified(host, n, w, LogoutStep, target, portal);
    if !p.ok then p else Verified(host, p.step, p.world, DeleteStep, target, portal)
  }

  // The first k matches, up to the first that is not cleared.
  function EachCleared(host: Host, n: nat, w: World, matches: seq<Login>, k: nat): Progress
    requires k <= |matches|
  {
    if k == 0 then Progress(true, w, n)
    else
      var p := EachCleared(host, n, w, matches, k - 1);
      if !p.ok then p else TargetCleared(host, p.step, p.world, matches[k - 1].target, matches[k - 1].portal)
  }

  // The second listing.
  function ListedClear(host: Host, n: nat, w: World, volumeId: string): Progress {
    var v := host.Env(n, w);
    Progress(host.FaultAt(n) == Fine && forall l | l in v.sessions :: !Matches(l, volumeId), v, n + 1)
  }

  // The records of the first k matches, up to the first that is not seen gone.
  function EachGone(host: Host, n: nat, w: World, matches: seq<Login>, k: nat): Progress
    requires k <= |matches|
  {
    if k == 0 then Progress(true, w, n)
    else
      var p, m := EachGone(host, n, w, matches, k - 1), matches[k - 1];
      if !p.ok then p
      else
        Progress(SeenGone(host, p.step, p.world, DeleteStep, m.target, m.portal), host.Env(p.step, p.world), p.step + 1)
  }

  // Everything after the first listing.
  predicate Succeeds(host: Host, n: nat, w: World, matches: seq<Login>, volumeId: string) {
    var p := EachCleared(host, n, w, matches, |matches|);
    var q := ListedClear(host, p.step, p.world, volumeId);
    p.ok && q.ok && EachGone(host, q.step, q.world, matches, |matches|).ok
  }

  lemma {:induction false} NotClearedStays(host: Host, n: nat, w: World, matches: seq<Login>, i: nat, k: nat)
    requires i <= k <= |matches| && !EachCleared(host, n, w, matches, i).ok
    ensures EachCleared(host, n, w, matches, k) == EachCleared(host, n, w, matches, i)
    decreases k
  {
    if i < k {
      NotClearedStays(host, n, w, matches, i, k - 1);
    }
  }

  lemma {:induction false} NotGoneStays(host: Host, n: nat, w: World, matches: seq<Login>, i: nat, k: nat)
    requires i <= k <= |matches| && !EachGone(host, n, w, matches, i).ok
    ensures EachGone(host, n, w, matches, k) == EachGone(host, n, w, matches, i)
    decreases k
  {
    if i < k {
      NotGoneStays(host, n, w, matches, i, k - 1);
    }
  }

  // --------------------------------------- commands that take effect suffice ---

  // Two commands, each followed by a query: the commands take effect, and the
  // queries are answered.
  predicate Effective(host: Host, n: nat) {
    && TakesEffect(host.FaultAt(n)) && host.FaultAt(n + 1) == Fine
    && TakesEffect(host.FaultAt(n + 2)) && host.FaultAt(n + 3) == Fine
  }

  predicate EffectiveTurn(host: Host, n: nat, i: nat) {
    Effective(host, n + 4 * i)
  }

  // A session the query finds is one the logout selects.
  ghost predicate Consistent(host: Host) {
    forall asked, listed | host.SessionAt(asked, listed) :: host.Selects(asked, listed)
  }

  function WithoutTarget(host: Host, w: World, target: string, portal: string): World {
    World(w.sessions - host.LoginsOf(w, target, portal), w.records - host.RecordsOf(w, target, portal))
  }

  lemma EffectiveTarget(host: Host, n: nat, w: World, target: string, portal: string)
    requires host.Quiet() && Consistent(host) && Effective(host, n)
    ensures TargetCleared(host, n, w, target, portal) == Progress(true, WithoutTarget(host, w, target, portal), n + 4)
  {
    QuietStep(host, n, w, LogoutStep, target, portal);
    var w1 := Commanded(host, n, w, LogoutStep, target, portal);
    QuietStep(host, n + 2, w1, DeleteStep, target, portal);
    assert host.RecordsOf(w1, target, portal) == host.RecordsOf(w, target, portal);
  }

  lemma QuietStep(host: Host, n: nat, w: World, kind: Step, target: string, portal: string)
    requires host.Quiet() && Consistent(host) && TakesEffect(host.FaultAt(n)) && host.FaultAt(n + 1) == Fine
    ensures Verified(host, n, w, kind, target, portal)
         == Progress(true, Commanded(host, n, w, kind, target, portal), n + 2)
  {
    assert forall m, v :: host.Env(m, v) == v;
  }

  // The first k matches are cleared in 4k commands.
  lemma {:induction false} EffectiveEach(host: Host, n: nat, w: World, matches: seq<Login>, k: nat)
    requires host.Quiet() && Consistent(host) && k <= |matches| && forall i | 0 <= i < k :: EffectiveTurn(host, n, i)
    ensures var p := EachCleared(host, n, w, matches, k);
            && p.ok && p.step == n + 4 * k && p.world.sessions <= w.sessions && p.world.records <= w.records
            && FirstCleared(host, p.world, matches, k)
  {
    if k > 0 {
      EffectiveEach(host, n, w, matches, k - 1);
      assert EffectiveTurn(host, n, k - 1);
      NextEffective(host, n, w, matches, k);
      OneMoreCleared(host, EachCleared(host, n, w, matches, k - 1).world, matches, k);
    }
  }

  lemma NextEffective(host: Host, n: nat, w: World, matches: seq<Login>, k: nat)
    requires host.Quiet() && Consistent(host) && 0 < k <= |matches|
    requires var q := EachCleared(host, n, w, matches, k - 1); q.ok && Effective(host, q.step)
    ensures var q, m := EachCleared(host, n, w, matches, k - 1), matches[k - 1];
            EachCleared(host, n, w, matches, k)
            == Progress(true, WithoutTarget(host, q.world, m.target, m.portal), q.step + 4)
  {
    var q, m := EachCleared(host, n, w, matches, k - 1), matches[k - 1];
    EffectiveTarget(host, q.step, q.world, m.target, m.portal);
  }

  // Nothing on the host is selected by one of the first k matches.
  predicate FirstCleared(host: Host, v: World, matches: seq<Login>, k: nat)
    requires k <= |matches|
  {
    forall i | 0 <= i < k ::
      && host.LoginsOf(v, matches[i].target, matches[i].portal) == {}
      && host.RecordsOf(v, matches[i].target, matches[i].portal) == {}
  }

  lemma OneMoreCleared(host: Host, v: World, matches: seq<Login>, k: nat)
    requires 0 < k <= |matches| && FirstCleared(host, v, matches, k - 1)
    ensures FirstCleared(host, WithoutTarget(host, v, matches[k - 1].target, matches[k - 1].portal), matches, k)
  {
    var p := WithoutTarget(host, v, matches[k - 1].target, matches[k - 1].portal);
    forall i | 0 <= i < k
      ensures host.LoginsOf(p, matches[i].target, matches[i].portal) == {}
      ensures host.RecordsOf(p, matches[i].target, matches[i].portal) == {}
    {
      if i < k - 1 {
        FewerSelected(host, v, p, matches[i].target, matches[i].portal);
      }
    }
  }

  lemma FewerSelected(host: Host, w: World, v: World, target: string, portal: string)
    requires v.sessions <= w.sessions && v.records <= w.records
    requires host.LoginsOf(w, target, portal) == {} && host.RecordsOf(w, target, portal) == {}
    ensures host.LoginsOf(v, target, portal) == {} && host.RecordsOf(v, target, portal) == {}
  {
    assert host.LoginsOf(v, target, portal) <= host.LoginsOf(w, target, portal);
    assert host.RecordsOf(v, target, portal) <= host.RecordsOf(w, target, portal);
  }

  lemma {:induction false} QuietEachGone(host: Host, n: nat, w: World, matches: seq<Login>, k: nat)
    requires host.Quiet() && k <= |matches| && forall m | n <= m < n + k :: host.FaultAt(m) == Fine
    requires forall i | 0 <= i < k :: host.RecordsOf(w, matches[i].target, matches[i].portal) == {}
    ensures EachGone(host, n, w, matches, k) == Progress(true, w, n + k)
  {
    if k > 0 {
      QuietEachGone(host, n, w, matches, k - 1);
      assert host.FaultAt(n + (k - 1)) == Fine && host.Env(n + (k - 1), w) == w;
    }
  }

  // Commands number n, n + 2, ... for `count` targets take effect, reported or
  // not, and every query from n + 1 on is answered.
  predicate AllEffective(host: Host, n: nat, count: nat) {
    && (forall i | 0 <= i < count :: EffectiveTurn(host, n, i))
    && (forall m | n + 4 * count <= m <= n + 5 * count :: host.FaultAt(m) == Fine)
  }

  lemma NoneLeft(host: Host, w: World, v: World, matches: seq<Login>, volumeId: string)
    requires v.sessions <= w.sessions && (forall portal :: host.Selects(portal, portal))
    requires forall l | l in w.sessions && Matches(l, volumeId) :: l in matches
    requires forall i | 0 <= i < |matches| :: host.LoginsOf(v, matches[i].target, matches[i].portal) == {}
    ensures forall l | l in v.sessions :: !Matches(l, volumeId)
  {
    NoneOfThese(host, v, matches);
  }

  lemma NoneOfThese(host: Host, v: World, matches: seq<Login>)
    requires forall portal :: host.Selects(portal, portal)
    requires forall i | 0 <= i < |matches| :: host.LoginsOf(v, matches[i].target, matches[i].portal) == {}
    ensures forall l | l in matches :: l !in v.sessions
  {
    forall l | l in matches ensures l !in v.sessions {
      var i :| 0 <= i < |matches| && matches[i] == l;
      var selected := host.LoginsOf(v, l.target, l.portal);
      assert forall x | x in v.sessions && x.target == l.target && host.Selects(l.portal, x.portal) :: x in selected;
    }
  }

  // ---------------------------------------------------- only its own target ---

  lemma QuietVerified(host: Host, n: nat, w: World, kind: Step, target: string, portal: string)
    requires host.Quiet()
    ensures var p := Verified(host, n, w, kind, target, portal);
            && OnlyTarget(w, p.world, kind, target)
            && (kind.DeleteStep? && p.ok ==> host.RecordsOf(p.world, target, portal) == {})
  {
    assert forall m, v :: host.Env(m, v) == v;
  }

  lemma QuietTarget(host: Host, n: nat, w: World, target: string, portal: string, volumeId: string)
    requires host.Quiet() && Includes(target, volumeId)
    ensures var p := TargetCleared(host, n, w, target, portal);
            OthersUntouched(w, p.world, volumeId) && (p.ok ==> host.RecordsOf(p.world, target, portal) == {})
  {
    QuietVerified(host, n, w, LogoutStep, target, portal);
    var p := Verified(host, n, w, LogoutStep, target, portal);
    QuietVerified(host, p.step, p.world, DeleteStep, target, portal);
  }

  lemma StillNone(host: Host, w: World, v: World, target: string, portal: string)
    requires v.records <= w.records && host.RecordsOf(w, target, portal) == {}
    ensures host.RecordsOf(v, target, portal) == {}
  {
    assert host.RecordsOf(v, target, portal) <= host.RecordsOf(w, target, portal);
  }

  lemma {:induction false} QuietEachCleared(host: Host, n: nat, w: World, matches: seq<Login>, k: nat, volumeId: string)
    requires host.Quiet() && k <= |matches| && forall l | l in matches :: Includes(l.target, volumeId)
    ensures var p := EachCleared(host, n, w, matches, k);
            && OthersUntouched(w, p.world, volumeId)
            && (p.ok ==> forall i | 0 <= i < k :: host.RecordsOf(p.world, matches[i].target, matches[i].portal) == {})
  {
    if k > 0 {
      QuietEachCleared(host, n, w, matches, k - 1, volumeId);
      var q, m := EachCleared(host, n, w, matches, k - 1), matches[k - 1];
      assert m in matches;
      if q.ok {
        QuietTarget(host, q.step, q.world, m.target, m.portal, volumeId);
        var p := TargetCleared(host, q.step, q.world, m.target, m.portal);
        forall i | 0 <= i < k - 1 ensures host.RecordsOf(p.world, matches[i].target, matches[i].portal) == {} {
          StillNone(host, q.world, p.world, matches[i].target, matches[i].portal);
        }
      }
    }
  }

  lemma FaultlessIsEffective(host: Host, n: nat, count: nat)
    requires forall m :: host.FaultAt(m) == Fine
    ensures AllEffective(host, n, count)
  {
  }

  /**
   Exit codes do not matter: on a quiet host, a reclaim whose commands took
   effect and whose queries were answered succeeds, whatever the commands
   reported.
   */
  lemma EffectiveCommandsSuffice(host: Host, n: nat, w: World, matches: seq<Login>, volumeId: string)
    requires host.Quiet() && Consistent(host) && (forall portal :: host.Selects(portal, portal))
    requires forall l :: l in matches <==> l in w.sessions && Matches(l, volumeId)
    requires AllEffective(host, n, |matches|)
    ensures Succeeds(host, n, w, matches, volumeId)
  {
    var k := |matches|;
    EffectiveEach(host, n, w, matches, k);
    var p := EachCleared(host, n, w, matches, k);
    NoneLeft(host, w, p.world, matches, volumeId);
    QuietChecks(host, p.step, p.world, matches, volumeId);
  }

  // The second listing and the record queries, once everything is gone.
  lemma QuietChecks(host: Host, n: nat, v: World, matches: seq<Login>, volumeId: string)
    requires host.Quiet() && FirstCleared(host, v, matches, |matches|)
    requires forall m | n <= m <= n + |matches| :: host.FaultAt(m) == Fine
    requires forall l | l in v.sessions :: !Matches(l, volumeId)
    ensures var q := ListedClear(host, n, v, volumeId);
            q.ok && EachGone(host, q.step, q.world, matches, |matches|).ok
  {
    assert host.Env(n, v) == v;
    QuietEachGone(host, n + 1, v, matches, |matches|);
  }

  datatype Reclaim = NothingToReclaim | Reclaimed(sessions: seq<Login>) | Rejected

  class Reclaimer {
    const host: Host

    constructor (host: Host)
      ensures this.host == host
    {
      this.host := host;
    }

    // Whether the state the step should clear is still there; an unanswered
    // query counts as "still there".
    method StillExists(kind: Step, target: string, portal: string) returns (still: bool)
      modifies host
      ensures host.step == old(host.step) + 1
      ensures host.world == old(host.Next())
      ensures exists e :: host.log == old(host.log) + [e]
                          && (e == QueryFailed || e == (if kind.LogoutStep? then SawSession(target, portal, still)
                                                        else SawRecord(target, portal, still)))
                          && (e == QueryFailed ==> still)
      ensures still == !SeenGone(host, old(host.step), old(host.world), kind, target, portal)
    {
      var answer;
      if kind == LogoutStep {
        answer := host.GetSession(target, portal);
      } else {
        answer := host.NodeDBEntryExists(target, portal);
      }
      still := answer == None || answer.value;
    }

    // No command fails, and a logout clears what a session query looks for.
    ghost predicate Faultless() {
      (forall n :: host.FaultAt(n) == Fine) && (forall portal :: host.Selects(portal, portal)) && Consistent(host)
    }

    // Runs one command, then asks, twice if need be, whether its state is gone.
    method RunVerified(kind: Step, target: string, portal: string) returns (cleared: bool)
      modifies host
      ensures Progress(cleared, host.world, host.step)
           == Verified(host, old(host.step), old(host.world), kind, target, portal)
      ensures |old(host.log)| < |host.log| <= |old(host.log)| + 3 && old(host.log) < host.log
      ensures var e := host.log[|old(host.log)|];
              if kind.LogoutStep? then e == TriedLogout(target, portal)
              else e.TriedDelete? && e.iqn == target && e.portal == portal
      ensures forall i | |old(host.log)| < i < |host.log| :: !host.log[i].TriedLogout? && !host.log[i].TriedDelete?
      ensures kind.LogoutStep? && cleared ==>
                |host.log| >= |old(host.log)| + 2 && host.log[|host.log| - 1] == SawSession(target, portal, false)
      ensures kind.DeleteStep? && cleared && host.Quiet() ==> host.RecordsOf(host.world, target, portal) == {}
      ensures host.Quiet() ==> OnlyTarget(old(host.world), host.world, kind, target)
      ensures host.Quiet() && Faultless() ==>
                cleared && (kind.LogoutStep? ==> host.LoginsOf(host.world, target, portal) == {})
    {
      if kind == LogoutStep {
        var _ := host.Logout(target, portal);
      } else {
        var _ := host.DeleteNodeDBEntry(target, portal);
      }
      ghost var w := host.world;
      assert host.Quiet() && Faultless() && kind.LogoutStep? ==>
        forall l | l in w.sessions && l.target == target :: !host.Selects(portal, l.portal);
      assert host.Quiet() && Faultless() && kind.DeleteStep? ==> host.RecordsOf(w, target, portal) == {};
      var still := StillExists(kind, target, portal);
      if !still {
        return true;
      }
      still := StillExists(kind, target, portal);
      cleared := !still;
    }

    // None of the target's own sessions and records may survive it silently.
    method LogoutAndDeleteTarget(target: string, portal: string) returns (cleared: bool)
      modifies host
      ensures Progress(cleared, host.world, host.step)
           == TargetCleared(host, old(host.step), old(host.world), target, portal)
      ensures old(host.log) < host.log
      ensures forall volumeId | Includes(target, volumeId) :: Careful(host.log, |old(host.log)|, volumeId)
      ensures host.Quiet() ==> forall volumeId | Includes(target, volumeId) ::
                OthersUntouched(old(host.world), host.world, volumeId)
      ensures host.Quiet() && cleared ==> host.RecordsOf(host.world, target, portal) == {}
      ensures host.Quiet() && Faultless() ==> cleared && host.LoginsOf(host.world, target, portal) == {}
    {
      cleared := RunVerified(LogoutStep, target, portal);
      if !cleared {
        return;
      }
      cleared := RunVerified(DeleteStep, target, portal);
    }

    // The loop over the matches.
    method ClearEach(matches: seq<Login>, volumeId: string) returns (cleared: bool)
      requires forall l | l in matches :: Includes(l.target, volumeId)
      modifies host
      ensures Progress(cleared, host.world, host.step)
           == EachCleared(host, old(host.step), old(host.world), matches, |matches|)
      ensures old(host.log) <= host.log && Careful(host.log, |old(host.log)|, volumeId)
    {
      ghost var n, w := host.step, host.world;
      for i := 0 to |matches|
        invariant Progress(true, host.world, host.step) == EachCleared(host, n, w, matches, i)
        invariant old(host.log) <= host.log && Careful(host.log, |old(host.log)|, volumeId)
      {
        var l := matches[i];
        assert l in matches;
        ghost var log := host.log;
        cleared := LogoutAndDeleteTarget(l.target, l.portal);
        CarefulTogether(log, host.log, |old(host.log)|, volumeId);
        if !cleared {
          NotClearedStays(host, n, w, matches, i + 1, |matches|);
          return false;
        }
      }
      cleared := true;
    }

    method ReclaimEach(matches: seq<Login>, volumeId: string) returns (cleared: bool)
      requires forall l | l in matches :: Includes(l.target, volumeId)
      modifies host
      ensures Progress(cleared, host.world, host.step)
           == EachCleared(host, old(host.step), old(host.world), matches, |matches|)
      ensures old(host.log) <= host.log && Careful(host.log, |old(host.log)|, volumeId)
      ensures host.Quiet() ==> OthersUntouched(old(host.world), host.world, volumeId)
      ensures host.Quiet() && cleared ==>
                forall l | l in matches :: host.RecordsOf(host.world, l.target, l.portal) == {}
      ensures host.Quiet() && Faultless() ==> cleared && forall l | l in matches :: l !in host.world.sessions
    {
      ghost var n, w := host.step, host.world;
      cleared := ClearEach(matches, volumeId);
      if host.Quiet() {
        QuietEachCleared(host, n, w, matches, |matches|, volumeId);
        if Faultless() {
          FaultlessIsEffective(host, n, |matches|);
          EffectiveEach(host, n, w, matches, |matches|);
          NoneOfThese(host, host.world, matches);
        }
      }
    }

    method NoneRemain(volumeId: string) returns (clear: bool)
      modifies host
      ensures Progress(clear, host.world, host.step) == ListedClear(host, old(host.step), old(host.world), volumeId)
      ensures old(host.log) <= host.log && Careful(host.log, |old(host.log)|, volumeId)
      ensures host.Quiet() ==> host.world == old(host.world)
      ensures clear ==> forall l | l in host.world.sessions :: !Matches(l, volumeId)
      ensures !clear ==>
                host.FaultAt(old(host.step)).Fails? || exists l | l in host.world.sessions :: Matches(l, volumeId)
    {
      var after, _ := host.GetSessions();
      if after == None {
        return false;
      }
      var remaining := FindIscsiSessionForVolumeId(after.value, volumeId);
      if |remaining| > 0 {
        assert remaining[0] in remaining;
        return false;
      }
      assert remaining == [];
      clear := true;
    }

    method RecordsGone(matches: seq<Login>, volumeId: string) returns (gone: bool)
      modifies host
      ensures Progress(gone, host.world, host.step)
           == EachGone(host, old(host.step), old(host.world), matches, |matches|)
      ensures old(host.log) <= host.log && Careful(host.log, |old(host.log)|, volumeId)
      ensures host.Quiet() ==> host.world == old(host.world)
      ensures host.Quiet() && gone ==> forall l | l in matches :: host.RecordsOf(host.world, l.target, l.portal) == {}
      ensures (host.Quiet() && Faultless()
               && forall l | l in matches :: host.RecordsOf(host.world, l.target, l.portal) == {}) ==> gone
    {
      ghost var n, w := host.step, host.world;
      for i := 0 to |matches|
        invariant Progress(true, host.world, host.step) == EachGone(host, n, w, matches, i)
        invariant old(host.log) <= host.log && Careful(host.log, |old(host.log)|, volumeId)
        invariant host.Quiet() ==> host.world == old(host.world)
        invariant host.Quiet() ==> forall j | 0 <= j < i ::
                    host.RecordsOf(host.world, matches[j].target, matches[j].portal) == {}
      {
        assert matches[i] in matches;
        ghost var log := host.log;
        var present := host.NodeDBEntryExists(matches[i].target, matches[i].portal);
        CarefulTogether(log, host.log, |old(host.log)|, volumeId);
        if present == None || present.value {
          NotGoneStays(host, n, w, matches, i + 1, |matches|);
          return false;
        }
      }
      gone := true;
    }

    // Everything after the first listing.
    method ReclaimMatches(matches: seq<Login>, volumeId: string) returns (ok: bool)
      requires volumeId != "" && forall l | l in matches :: Includes(l.target, volumeId)
      modifies host
      ensures ok == Succeeds(host, old(host.step), old(host.world), matches, volumeId)
      ensures old(host.log) <= host.log && Careful(host.log, |old(host.log)|, volumeId)
      ensures host.Quiet() ==> OthersUntouched(old(host.world), host.world, volumeId)
      ensures host.Quiet() && ok ==>
                && (forall l | l in host.world.sessions :: !Includes(l.target, volumeId))
                && (forall l | l in matches :: host.RecordsOf(host.world, l.target, l.portal) == {})
      ensures (host.Quiet() && Faultless()
               && forall l | l in old(host.world.sessions) && Matches(l, volumeId) :: l in matches) ==> ok
    {
      ghost var log0 := host.log;
      ok := ReclaimEach(matches, volumeId);
      if !ok {
        return;
      }
      ghost var log1 := host.log;
      ok := NoneRemain(volumeId);
      CarefulTogether(log1, host.log, |log0|, volumeId);
      if !ok {
        return;
      }
      ghost var log2 := host.log;
      ok := RecordsGone(matches, volumeId);
      CarefulTogether(log2, host.log, |log0|, volumeId);
    }

    /**
     Reclaim soundness. In every environment, commands go only to targets
     containing the volume id and a record is deleted only straight after its
     session was seen absent; nothing is tried without a matching session. On
     a host changed only by the driver, sessions and records of other targets
     are untouched whatever the result, and Reclaimed means that no session
     target contains the volume id and every matched node-DB record is gone.
     The outcome is decided by the answers to queries alone: commands that took
     effect suffice, whatever they reported. `seen` is the first session
     listing, `tried` the sessions to reclaim in the order they are.
     */
    method ReclaimDeadIscsiSession(volumeId: string, iscsiExpected: bool)
      returns (r: Reclaim, ghost seen: Option<set<Login>>, ghost tried: seq<Login>)
      modifies host
      ensures forall l :: l in tried <==> seen.Some? && l in seen.value && Matches(l, volumeId)
      ensures tried != [] ==>
                (r == Reclaimed(tried) <==> Succeeds(host, old(host.step) + 1, old(host.Next()), tried, volumeId))
      ensures (host.Quiet() && Consistent(host) && (forall portal :: host.Selects(portal, portal))
               && AllEffective(host, old(host.step) + 1, |tried|) && tried != []) ==> r == Reclaimed(tried)
      ensures old(host.log) < host.log && Careful(host.log, |old(host.log)|, volumeId)
      ensures host.log[|old(host.log)|] == if seen == None then QueryFailed else SawSessions(seen.value)
      ensures host.Quiet() && seen.Some? ==> seen.value == old(host.world.sessions)
      ensures r == NothingToReclaim <==>
                if seen == None then !iscsiExpected && IscsiadmUnusable(host.FaultAt(old(host.step)))
                else forall l | l in seen.value :: !Matches(l, volumeId)
      ensures r == NothingToReclaim ==> |host.log| == |old(host.log)| + 1
      ensures r.Reclaimed? ==>
                seen.Some? && r.sessions == tried
                && forall l :: l in r.sessions <==> l in seen.value && Matches(l, volumeId)
      ensures host.Quiet() ==> OthersUntouched(old(host.world), host.world, volumeId)
      ensures host.Quiet() && r.Reclaimed? ==>
                && (forall l | l in host.world.sessions :: !Includes(l.target, volumeId))
                && (forall l | l in r.sessions :: host.RecordsOf(host.world, l.target, l.portal) == {})
      ensures host.Quiet() && Faultless() ==> r != Rejected
    {
      seen, tried := None, [];
      var sessions, unusable := host.GetSessions();
      if sessions == None {
        if !iscsiExpected && unusable {
          return NothingToReclaim, None, [];
        }
        return Rejected, None, [];
      }
      seen := Some(set l | l in sessions.value);
      assert host.log[|old(host.log)|] == SawSessions(seen.value);
      var matches := FindIscsiSessionForVolumeId(sessions.value, volumeId);
      if |matches| < 1 {
        assert matches == [];
        return NothingToReclaim, seen, [];
      }
      tried := matches;
      ghost var n, w := host.step, host.world;
      assert matches[0] in matches;
      var ok := ReclaimMatches(matches, volumeId);
      if host.Quiet() && Consistent(host) && (forall portal :: host.Selects(portal, portal)) {
        if AllEffective(host, n, |matches|) {
          EffectiveCommandsSuffice(host, n, w, matches, volumeId);
        }
      }
      r := if ok then Reclaimed(matches) else Rejected;
    }
  }
}
