/**
 The stale-session reaper: every pass lists the iSCSI sessions, decides which
 are reapable, and logs out of those that have been so for long enough. The
 only thing a pass remembers is `staleSince`, so what makes it safe to destroy
 a session is a statement about whole runs of passes.
 */
module SessionReaper {
  import opened Wrappers
  import opened Text

  const STALE_DEVICE_STATES := ["offline", "transport-offline"]

  const DEFAULT_MIN_STALE_SECONDS := 120

  datatype SysfsRead = Unreadable | Read(state: string) | ReadThrew

  datatype MountRead = Mounted(mounted: bool) | MountThrew

  // A device line of a session, with the answers sysfs and the mount table
  // give when this pass asks about it. An empty disk name is a missing one.
  datatype Device = Device(disk: string, listedState: string, sysfs: SysfsRead, mount: MountRead)

  // A listed session (empty strings are missing fields), with the outcome the
  // logout would have in this pass; that of the record delete decides nothing.
  datatype Session = Session(target: string, persistentPortal: string, currentPortal: string,
                             devices: seq<Device>, logoutOk: bool)
  {
    function Portal(): string {
      if persistentPortal != "" then persistentPortal else currentPortal
    }

    predicate Identified() {
      target != "" && Portal() != ""
    }

    function Key(): string {
      target + "|" + Portal()
    }

    function Name(): Target {
      Target(target, Portal())
    }
  }

  datatype Target = Target(iqn: string, portal: string)

  // --------------------------------------------------- one session's state ---

  datatype DeviceInfo = DeviceInfo(states: map<string, string>, mounts: map<string, bool>)

  predicate Threw(d: Device) {
    d.disk != "" && d.sysfs.ReadThrew?
  }

  function Learn(info: DeviceInfo, d: Device): DeviceInfo {
    if d.disk == "" then info else
      DeviceInfo(
        if d.sysfs.Read? then info.states[d.disk := d.sysfs.state] else info.states,
        info.mounts[d.disk := if d.mount.Mounted? then d.mount.mounted else true])
  }

  function Learned(devices: seq<Device>): DeviceInfo {
    if devices == [] then DeviceInfo(map[], map[])
    else Learn(Learned(devices[..|devices| - 1]), devices[|devices| - 1])
  }

  // None: a device state reader threw, so the session cannot be evaluated.
  method CollectSessionDeviceInfo(devices: seq<Device>) returns (info: Option<DeviceInfo>)
    ensures info == None <==> exists d | d in devices :: Threw(d)
    ensures info.Some? ==> info.value == Learned(devices)
  {
    var known := DeviceInfo(map[], map[]);
    for i := 0 to |devices|
      invariant forall d | d in devices[..i] :: !Threw(d)
      invariant known == Learned(devices[..i])
    {
      assert devices[..i + 1] == devices[..i] + [devices[i]];
      var d := devices[i];
      if d.disk == "" {
        continue;
      }
      if d.sysfs.ReadThrew? {
        assert Threw(devices[i]);
        return None;
      }
      if d.sysfs.Read? {
        known := known.(states := known.states[d.disk := d.sysfs.state]);
      }
      known := known.(mounts := known.mounts[d.disk := if d.mount.Mounted? then d.mount.mounted else true]);
    }
    assert devices[..|devices|] == devices;
    info := Some(known);
  }

  function StateOf(info: DeviceInfo, d: Device): string {
    Lower(Trim(if d.disk in info.states then info.states[d.disk] else d.listedState))
  }

  predicate DeviceGone(info: DeviceInfo, d: Device) {
    && d.disk != ""
    && StateOf(info, d) in STALE_DEVICE_STATES
    && d.disk in info.mounts && !info.mounts[d.disk]
  }

  datatype DeviceSummary = Nameless | OfDisk(disk: string, state: string, mounted: bool)

  // What is logged of a device; it counts as mounted unless known not to be.
  predicate Shows(summary: DeviceSummary, info: DeviceInfo, d: Device) {
    if d.disk == "" then summary == Nameless
    else && summary.OfDisk? && summary.disk == d.disk && summary.state == StateOf(info, d)
         && (summary.mounted <==> d.disk !in info.mounts || info.mounts[d.disk])
  }

  method IsSessionReapable(devices: seq<Device>, info: DeviceInfo)
    returns (reapable: bool, summaries: seq<DeviceSummary>)
    ensures reapable <==> devices != [] && forall d | d in devices :: DeviceGone(info, d)
    ensures |summaries| == |devices|
    ensures forall i | 0 <= i < |devices| :: Shows(summaries[i], info, devices[i])
  {
    if |devices| == 0 {
      return false, [];
    }
    summaries := [];
    var allStale := true;
    for i := 0 to |devices|
      invariant |summaries| == i
      invariant forall j | 0 <= j < i :: Shows(summaries[j], info, devices[j])
      invariant allStale <==> forall k | 0 <= k < i :: DeviceGone(info, devices[k])
    {
      var d := devices[i];
      if d.disk == "" {
        allStale := false;
        summaries := summaries + [Nameless];
        continue;
      }
      var state := Lower(Trim(if d.disk in info.states then info.states[d.disk] else d.listedState));
      assert state == StateOf(info, d);
      var mounted := if d.disk in info.mounts then info.mounts[d.disk] else true;
      assert DeviceGone(info, d) <==> !mounted && state in STALE_DEVICE_STATES;
      summaries := summaries + [OfDisk(d.disk, state, mounted)];
      if mounted {
        allStale := false;
      }
      if state !in STALE_DEVICE_STATES {
        allStale := false;
      }
    }
    reapable := allStale;
  }

  // What a pass concludes about a session: evaluated, and every device gone.
  predicate Evaluated(devices: seq<Device>) {
    forall d | d in devices :: !Threw(d)
  }

  predicate Reapable(devices: seq<Device>) {
    Evaluated(devices) && devices != [] && forall d | d in devices :: DeviceGone(Learned(devices), d)
  }

  // The last device line naming a disk.
  ghost predicate LastAbout(devices: seq<Device>, j: nat, disk: string) {
    j < |devices| && devices[j].disk == disk && forall k | j < k < |devices| :: devices[k].disk != disk
  }

  lemma {:induction false} LearnedMountIsLast(devices: seq<Device>, j: nat, disk: string)
    requires disk != "" && LastAbout(devices, j, disk)
    ensures disk in Learned(devices).mounts
    ensures Learned(devices).mounts[disk] == (devices[j].mount != Mounted(false))
    ensures devices[j].sysfs.Read? ==> disk in Learned(devices).states
                                       && Learned(devices).states[disk] == devices[j].sysfs.state
  {
    var n := |devices|;
    if j < n - 1 {
      LearnedMountIsLast(devices[..n - 1], j, disk);
    }
  }

  lemma {:induction false} UnreadLearnsNothing(devices: seq<Device>, disk: string)
    requires forall d | d in devices && d.disk == disk :: !d.sysfs.Read?
    ensures disk !in Learned(devices).states
  {
    if devices != [] {
      UnreadLearnsNothing(devices[..|devices| - 1], disk);
    }
  }

  /**
   A session is reapable exactly when it has devices and each of them, by its
   own answers, is named, known to be unmounted, and offline (sysfs first, the
   listing when sysfs cannot be read). Disks are listed once per session.
   */
  lemma ReapableMeansAllGone(devices: seq<Device>)
    requires forall i, j | 0 <= i < j < |devices| :: devices[i].disk != devices[j].disk
    ensures Reapable(devices) <==>
            && devices != []
            && forall d | d in devices ::
                 && d.disk != ""
                 && d.mount == Mounted(false)
                 && !d.sysfs.ReadThrew?
                 && Lower(Trim(if d.sysfs.Read? then d.sysfs.state else d.listedState))
                    in {"offline", "transport-offline"}
  {
    forall i | 0 <= i < |devices| && devices[i].disk != ""
      ensures DeviceGone(Learned(devices), devices[i]) <==>
              devices[i].mount == Mounted(false)
              && Lower(Trim(if devices[i].sysfs.Read? then devices[i].sysfs.state else devices[i].listedState))
                 in {"offline", "transport-offline"}
    {
      LearnedMountIsLast(devices, i, devices[i].disk);
      if !devices[i].sysfs.Read? {
        UnreadLearnsNothing(devices, devices[i].disk);
      }
    }
  }

  // ---------------------------------------------------------------- a pass ---

  datatype Listing = EnumerationFailed | Listed(sessions: seq<Session>)

  datatype Command = Logout(target: Target) | DeleteNodeRecord(target: Target)

  datatype Summary = Summary(candidates: seq<Target>, reaped: seq<Target>, failed: seq<Target>,
                             skipped: seq<Target>, commands: seq<Command>)

  const NOTHING := Summary([], [], [], [], [])

  datatype Pass = Pass(staleSince: map<string, int>, current: set<string>, summary: Summary)

  predicate Candidate(s: Session) {
    s.Identified() && Reapable(s.devices)
  }

  function FirstSeen(staleSince: map<string, int>, key: string, now: int): int {
    if key in staleSince then staleSince[key] else now
  }

  function Visit(p: Pass, s: Session, minStale: int, now: int): Pass {
    var key, name := s.Key(), s.Name();
    if !s.Identified() || !Evaluated(s.devices) then p
    else if !Reapable(s.devices) then
      p.(staleSince := p.staleSince - {key}, summary := p.summary.(skipped := p.summary.skipped + [name]))
    else
      var first := FirstSeen(p.staleSince, key, now);
      var noted := Pass(p.staleSince[key := first], p.current + {key},
                        p.summary.(candidates := p.summary.candidates + [name]));
      if now - first < minStale then noted
      else
        var acted := noted.summary.(commands := p.summary.commands + [Logout(name), DeleteNodeRecord(name)]);
        if s.logoutOk
        then Pass(noted.staleSince - {key}, noted.current - {key}, acted.(reaped := acted.reaped + [name]))
        else noted.(summary := acted.(failed := acted.failed + [name]))
  }

  function Visits(staleSince: map<string, int>, sessions: seq<Session>, minStale: int, now: int): Pass {
    if sessions == [] then Pass(staleSince, {}, NOTHING)
    else Visit(Visits(staleSince, sessions[..|sessions| - 1], minStale, now), sessions[|sessions| - 1], minStale, now)
  }

  function Prune(p: Pass): Pass {
    p.(staleSince := map key | key in p.staleSince && key in p.current :: p.staleSince[key])
  }

  function Reconciled(staleSince: map<string, int>, listing: Listing, minStale: int, now: int): Pass {
    match listing
    case EnumerationFailed => Pass(staleSince, {}, NOTHING)
    case Listed(sessions) => Prune(Visits(staleSince, sessions, minStale, now))
  }

  class ISCSISessionReaper {
    const enabled: bool
    const minStaleSeconds: int
    var staleSince: map<string, int>
    var running: bool

    constructor (enabled: bool, minStaleSeconds: Option<int>)
      ensures this.enabled == enabled && staleSince == map[] && !running
      ensures this.minStaleSeconds
           == if minStaleSeconds.Some? then minStaleSeconds.value else DEFAULT_MIN_STALE_SECONDS
    {
      this.enabled := enabled;
      this.minStaleSeconds := if minStaleSeconds.Some? then minStaleSeconds.value else DEFAULT_MIN_STALE_SECONDS;
      staleSince, running := map[], false;
    }

    // Logs out and always tries to delete the node record; only the logout
    // decides the result.
    method ReapSession(s: Session) returns (ok: bool, commands: seq<Command>)
      ensures ok == s.logoutOk && commands == [Logout(s.Name()), DeleteNodeRecord(s.Name())]
    {
      ok := true;
      commands := [Logout(s.Name())];
      if !s.logoutOk {
        ok := false;
      }
      commands := commands + [DeleteNodeRecord(s.Name())];
    }

    // What is learned of the devices, and the verdict; None when they could not be
    // asked.
    method Judge(devices: seq<Device>) returns (reapable: Option<bool>)
      ensures reapable == if Evaluated(devices) then Some(Reapable(devices)) else None
    {
      var info := CollectSessionDeviceInfo(devices);
      if info == None {
        return None;
      }
      var verdict, summaries := IsSessionReapable(devices, info.value);
      reapable := Some(verdict);
    }

    method Reconcile(listing: Listing, now: int) returns (summary: Summary)
      modifies this`staleSince
      ensures !enabled ==> staleSince == old(staleSince) && summary == NOTHING
      ensures enabled ==> var p := Reconciled(old(staleSince), listing, minStaleSeconds, now);
                          staleSince == p.staleSince && summary == p.summary
    {
      summary := NOTHING;
      if !enabled || listing.EnumerationFailed? {
        return;
      }
      var sessions := listing.sessions;
      if |sessions| == 0 {
        staleSince := map[];
        return;
      }
      var current: set<string> := {};
      for i := 0 to |sessions|
        invariant Pass(staleSince, current, summary) == Visits(old(staleSince), sessions[..i], minStaleSeconds, now)
      {
        assert sessions[..i + 1][..i] == sessions[..i];
        var s := sessions[i];
        if !s.Identified() {
          continue;
        }
        var key := s.Key();
        var reapable := Judge(s.devices);
        if reapable == None {
          continue;
        }
        if !reapable.value {
          staleSince := staleSince - {key};
          summary := summary.(skipped := summary.skipped + [s.Name()]);
          continue;
        }
        current := current + {key};
        summary := summary.(candidates := summary.candidates + [s.Name()]);
        var firstSeen := now;
        if key in staleSince {
          firstSeen := staleSince[key];
        } else {
          staleSince := staleSince[key := firstSeen];
        }
        var staleFor := now - firstSeen;
        if staleFor < minStaleSeconds {
          continue;
        }
        var reaped, commands := ReapSession(s);
        summary := summary.(commands := summary.commands + commands);
        if reaped {
          staleSince := staleSince - {key};
          current := current - {key};
          summary := summary.(reaped := summary.reaped + [s.Name()]);
        } else {
          summary := summary.(failed := summary.failed + [s.Name()]);
        }
      }
      assert sessions[..|sessions|] == sessions;
      staleSince := map key | key in staleSince && key in current :: staleSince[key];
    }

    // The guard: a tick takes the run unless a pass is under way.
    method TryBegin() returns (mine: bool)
      modifies this`running
      ensures running && mine == !old(running)
    {
      mine := !running;
      running := true;
    }

    // Guarded so that passes never overlap: None when one is already running.
    method RunOnce(listing: Listing, now: int) returns (summary: Option<Summary>)
      modifies this
      ensures running == old(running)
      ensures old(running) ==> summary == None && staleSince == old(staleSince)
      ensures !old(running) ==> summary.Some?
      ensures !old(running) && !enabled ==> summary == Some(NOTHING) && staleSince == old(staleSince)
      ensures !old(running) && enabled ==>
                var p := Reconciled(old(staleSince), listing, minStaleSeconds, now);
                staleSince == p.staleSince && summary == Some(p.summary)
    {
      var mine := TryBegin();
      if !mine {
        return None;
      }
      var s := Reconcile(listing, now);
      summary := Some(s);
      running := false;
    }
  }

  // ------------------------------------------------------ per-pass theorems ---

  // Every key names at most one identified session of the listing.
  ghost predicate DistinctKeys(sessions: seq<Session>) {
    forall i, j | 0 <= i < j < |sessions| && sessions[i].Identified() && sessions[j].Identified() ::
      sessions[i].Key() != sessions[j].Key()
  }

  ghost predicate Sees(sessions: seq<Session>, key: string) {
    exists s | s in sessions :: Candidate(s) && s.Key() == key
  }

  predicate Due(s: Session, staleSince: map<string, int>, minStale: int, now: int) {
    Candidate(s) && now - FirstSeen(staleSince, s.Key(), now) >= minStale
  }

  /**
   Whom a command goes to: a listed session with a target and a portal, under the
   persistent portal when it has one.
   */
  lemma {:induction false} CommandsNameSessions(staleSince: map<string, int>, sessions: seq<Session>, minStale: int,
                                                now: int, c: Command)
    requires c in Visits(staleSince, sessions, minStale, now).summary.commands
    ensures exists s | s in sessions ::
              && s.target != "" && c.target.iqn == s.target && c.target.portal != ""
              && c.target.portal == (if s.persistentPortal != "" then s.persistentPortal else s.currentPortal)
  {
    if sessions != [] {
      var n := |sessions| - 1;
      var p := Visits(staleSince, sessions[..n], minStale, now);
      if c in p.summary.commands {
        CommandsNameSessions(staleSince, sessions[..n], minStale, now, c);
      } else {
        assert sessions[n] in sessions;
      }
    }
  }

  /**
   Every session with a target and a portal whose devices could be asked is a
   candidate or skipped, and none is both for the same visit; one that is skipped
   has no timer, whatever was known of its key.
   */
  lemma SkippedOrCandidate(p: Pass, s: Session, minStale: int, now: int)
    ensures var q := Visit(p, s, minStale, now);
            if s.target == "" || (s.persistentPortal == "" && s.currentPortal == "")
               || (exists d | d in s.devices :: Threw(d))
            then q == p
            else if Reapable(s.devices) then
              q.summary.candidates == p.summary.candidates + [s.Name()] && q.summary.skipped == p.summary.skipped
            else
              && q.summary == p.summary.(skipped := p.summary.skipped + [s.Name()])
              && s.Key() !in q.staleSince && q.current == p.current
  {
  }

  // What one session does to its own key, and to no other.
  lemma VisitOwnKey(p: Pass, s: Session, minStale: int, now: int, key: string)
    ensures var q := Visit(p, s, minStale, now);
            && (key != s.Key() ==> (key in q.staleSince <==> key in p.staleSince)
                                   && (key in q.staleSince ==> q.staleSince[key] == p.staleSince[key])
                                   && (key in q.current <==> key in p.current))
            && (Candidate(s) && !(Due(s, p.staleSince, minStale, now) && s.logoutOk) ==>
                  q.staleSince == p.staleSince[s.Key() := FirstSeen(p.staleSince, s.Key(), now)]
                  && q.current == p.current + {s.Key()})
  {
  }

  // A key the visited sessions do not own is as it was.
  lemma {:induction false} VisitsElsewhere(staleSince: map<string, int>, sessions: seq<Session>,
                                           minStale: int, now: int, key: string)
    requires forall s | s in sessions && s.Identified() :: s.Key() != key
    ensures var p := Visits(staleSince, sessions, minStale, now);
            && (key in p.staleSince <==> key in staleSince)
            && (key in staleSince ==> p.staleSince[key] == staleSince[key])
            && key !in p.current
  {
    if sessions != [] {
      VisitsElsewhere(staleSince, sessions[..|sessions| - 1], minStale, now, key);
    }
  }

  // What a listed session alone decides about its key.
  ghost predicate Decides(staleSince: map<string, int>, s: Session, minStale: int, now: int, q: Pass) {
    var key := s.Key();
    if !Candidate(s) then key !in q.current
    else if Due(s, staleSince, minStale, now) && s.logoutOk then key !in q.staleSince && key !in q.current
    else key in q.staleSince && key in q.current && q.staleSince[key] == FirstSeen(staleSince, key, now)
  }

  lemma {:induction false} VisitsDecide(staleSince: map<string, int>, sessions: seq<Session>, k: nat,
                                        minStale: int, now: int)
    requires DistinctKeys(sessions) && k < |sessions| && sessions[k].Identified()
    ensures Decides(staleSince, sessions[k], minStale, now, Visits(staleSince, sessions, minStale, now))
  {
    var n := |sessions| - 1;
    var init, last := sessions[..n], sessions[n];
    if k < n {
      VisitsDecide(staleSince, init, k, minStale, now);
      if last.Identified() {
        VisitOwnKey(Visits(staleSince, init, minStale, now), last, minStale, now, sessions[k].Key());
      }
    } else {
      VisitsElsewhere(staleSince, init, minStale, now, last.Key());
    }
  }

  /**
   After a listed pass the tracked keys are exactly those seen reapable in it
   and not reaped in it, each with the time it was already tracked under or
   the time of this pass.
   */
  lemma TrackedAfterPass(staleSince: map<string, int>, sessions: seq<Session>, minStale: int, now: int, key: string)
    requires DistinctKeys(sessions)
    ensures var p := Reconciled(staleSince, Listed(sessions), minStale, now);
            && (key in p.staleSince <==>
                  exists s | s in sessions :: Candidate(s) && s.Key() == key
                                              && !(Due(s, staleSince, minStale, now) && s.logoutOk))
            && (key in p.staleSince ==> p.staleSince[key] == FirstSeen(staleSince, key, now))
  {
    if k :| 0 <= k < |sessions| && sessions[k].Identified() && sessions[k].Key() == key {
      VisitsDecide(staleSince, sessions, k, minStale, now);
    } else {
      VisitsElsewhere(staleSince, sessions, minStale, now, key);
    }
  }

  // Exactly who is named in a pass summary, session by session.
  ghost predicate Named(sessions: seq<Session>, staleSince: map<string, int>, minStale: int, now: int,
                        t: Target, due: bool, logoutOk: bool)
  {
    exists s | s in sessions ::
      && Candidate(s) && s.Name() == t
      && (due ==> Due(s, staleSince, minStale, now) && s.logoutOk == logoutOk)
  }

  /**
   The summary is exact: candidates are the sessions seen reapable; reaped and
   failed split those that were also due, by the outcome of their logout (so
   the two are disjoint and both candidates); and commands go to due sessions
   only, always both.
   */
  lemma {:induction false} SummaryIsExact(staleSince: map<string, int>, sessions: seq<Session>,
                                          minStale: int, now: int, t: Target)
    requires DistinctKeys(sessions)
    ensures var m := Visits(staleSince, sessions, minStale, now).summary;
            && (t in m.candidates <==> Named(sessions, staleSince, minStale, now, t, false, false))
            && (t in m.reaped <==> Named(sessions, staleSince, minStale, now, t, true, true))
            && (t in m.failed <==> Named(sessions, staleSince, minStale, now, t, true, false))
            && (Logout(t) in m.commands <==> t in m.reaped || t in m.failed)
            && (DeleteNodeRecord(t) in m.commands <==> t in m.reaped || t in m.failed)
  {
    if sessions != [] {
      var n := |sessions| - 1;
      var init, last := sessions[..n], sessions[n];
      assert sessions == init + [last];
      SummaryIsExact(staleSince, init, minStale, now, t);
      VisitNames(Visits(staleSince, init, minStale, now), last, minStale, now, t);
      if last.Identified() {
        VisitsElsewhere(staleSince, init, minStale, now, last.Key());
      }
      NamedOneMore(init, last, staleSince, minStale, now, t, false, false);
      NamedOneMore(init, last, staleSince, minStale, now, t, true, true);
      NamedOneMore(init, last, staleSince, minStale, now, t, true, false);
    }
  }

  // What one visit adds to the summary.
  lemma VisitNames(p: Pass, s: Session, minStale: int, now: int, t: Target)
    ensures var m, m' := p.summary, Visit(p, s, minStale, now).summary;
            var due := Due(s, p.staleSince, minStale, now) && s.Name() == t;
            && (t in m'.candidates <==> t in m.candidates || (Candidate(s) && s.Name() == t))
            && (t in m'.reaped <==> t in m.reaped || (due && s.logoutOk))
            && (t in m'.failed <==> t in m.failed || (due && !s.logoutOk))
            && (Logout(t) in m'.commands <==> Logout(t) in m.commands || due)
            && (DeleteNodeRecord(t) in m'.commands <==> DeleteNodeRecord(t) in m.commands || due)
  {
  }

  lemma NamedOneMore(init: seq<Session>, last: Session, staleSince: map<string, int>, minStale: int, now: int,
                     t: Target, due: bool, logoutOk: bool)
    ensures Named(init + [last], staleSince, minStale, now, t, due, logoutOk)
       <==> || Named(init, staleSince, minStale, now, t, due, logoutOk)
            || (&& Candidate(last) && last.Name() == t
                && (due ==> Due(last, staleSince, minStale, now) && last.logoutOk == logoutOk))
  {
    assert forall s :: s in init + [last] <==> s in init || s == last;
  }

  lemma ReapedAndFailedDisjoint(staleSince: map<string, int>, sessions: seq<Session>,
                                minStale: int, now: int, t: Target)
    requires DistinctKeys(sessions)
    ensures var m := Visits(staleSince, sessions, minStale, now).summary;
            !(t in m.reaped && t in m.failed) && (t in m.reaped || t in m.failed ==> t in m.candidates)
  {
    SummaryIsExact(staleSince, sessions, minStale, now, t);
  }

  // ------------------------------------------------------------- whole runs ---

  datatype Tick = Tick(now: int, listing: Listing)

  function After(minStale: int, ticks: seq<Tick>): map<string, int> {
    if ticks == [] then map[]
    else
      var last := ticks[|ticks| - 1];
      Reconciled(After(minStale, ticks[..|ticks| - 1]), last.listing, minStale, last.now).staleSince
  }

  function SummaryAt(minStale: int, ticks: seq<Tick>, n: nat): Summary
    requires n < |ticks|
  {
    Reconciled(After(minStale, ticks[..n]), ticks[n].listing, minStale, ticks[n].now).summary
  }

  ghost predicate SawAt(ticks: seq<Tick>, i: nat, key: string) {
    i < |ticks| && ticks[i].listing.Listed? && Sees(ticks[i].listing.sessions, key)
  }

  // Pass i saw the key reapable, and so did every later listed pass before n.
  ghost predicate Streak(ticks: seq<Tick>, i: nat, n: nat, key: string) {
    SawAt(ticks, i, key) && forall j | i <= j < n && j < |ticks| && ticks[j].listing.Listed? :: SawAt(ticks, j, key)
  }

  // Inside a pass a timer is an old one or was started by it, and every
  // command is backed by a timer that has run out.
  ghost predicate Backed(staleSince: map<string, int>, sessions: seq<Session>, now: int, p: Pass, minStale: int) {
    && (forall key | key in p.current :: Sees(sessions, key))
    && (forall key | key in p.staleSince ::
          p.staleSince[key] == now || (key in staleSince && p.staleSince[key] == staleSince[key]))
    && (forall t | Logout(t) in p.summary.commands :: BackedLogout(staleSince, sessions, now, minStale, t))
  }

  ghost predicate BackedLogout(staleSince: map<string, int>, sessions: seq<Session>, now: int, minStale: int,
                               t: Target) {
    var key := t.iqn + "|" + t.portal;
    && Sees(sessions, key)
    && (0 >= minStale || (key in staleSince && now - staleSince[key] >= minStale))
  }

  lemma BackedByMore(staleSince: map<string, int>, init: seq<Session>, last: Session, p: Pass, minStale: int, now: int)
    requires Backed(staleSince, init, now, p, minStale)
    ensures Backed(staleSince, init + [last], now, p, minStale)
  {
    assert forall key :: Sees(init, key) ==> Sees(init + [last], key);
    assert forall t :: BackedLogout(staleSince, init, now, minStale, t)
                       ==> BackedLogout(staleSince, init + [last], now, minStale, t);
  }

  lemma {:induction false} VisitsBacked(staleSince: map<string, int>, sessions: seq<Session>, minStale: int, now: int)
    ensures Backed(staleSince, sessions, now, Visits(staleSince, sessions, minStale, now), minStale)
  {
    if sessions != [] {
      var init, last := sessions[..|sessions| - 1], sessions[|sessions| - 1];
      assert sessions == init + [last];
      VisitsBacked(staleSince, init, minStale, now);
      BackedByMore(staleSince, init, last, Visits(staleSince, init, minStale, now), minStale, now);
    }
  }

  // Every timer was started by a pass that saw its key, and no listed pass
  // since then has missed it.
  lemma {:induction false} TimersAreStreaks(minStale: int, ticks: seq<Tick>, key: string) returns (i: nat)
    requires key in After(minStale, ticks)
    ensures i < |ticks| && ticks[i].now == After(minStale, ticks)[key] && Streak(ticks, i, |ticks|, key)
    decreases |ticks|
  {
    var n := |ticks| - 1;
    var init, last := ticks[..n], ticks[n];
    match last.listing
    case EnumerationFailed =>
      i := TimersAreStreaks(minStale, init, key);
      assert forall j | i <= j < n :: SawAt(init, j, key) ==> SawAt(ticks, j, key);
    case Listed(sessions) =>
      VisitsBacked(After(minStale, init), sessions, minStale, last.now);
      if After(minStale, ticks)[key] == last.now {
        i := n;
      } else {
        i := TimersAreStreaks(minStale, init, key);
        assert forall j | i <= j < n :: SawAt(init, j, key) ==> SawAt(ticks, j, key);
      }
  }

  /**
   No hasty logout: whenever a pass of any run logs out of a session, some
   pass at least minStale seconds earlier on the clock saw it reapable, and so
   did every listed pass from then up to and including this one.
   */
  lemma LogoutOnlyAfterFullStreak(minStale: int, ticks: seq<Tick>, n: nat, t: Target) returns (i: nat)
    requires n < |ticks| && Logout(t) in SummaryAt(minStale, ticks, n).commands
    ensures i <= n && ticks[i].now <= ticks[n].now - minStale
    ensures Streak(ticks, i, n + 1, t.iqn + "|" + t.portal)
  {
    var key := t.iqn + "|" + t.portal;
    var before := After(minStale, ticks[..n]);
    var sessions := ticks[n].listing.sessions;
    VisitsBacked(before, sessions, minStale, ticks[n].now);
    assert SawAt(ticks, n, key);
    if 0 >= minStale {
      i := n;
    } else {
      i := TimersAreStreaks(minStale, ticks[..n], key);
      assert forall j | i <= j < n :: SawAt(ticks[..n], j, key) ==> SawAt(ticks, j, key);
    }
  }

  // One session per key, '|' only as the key separator, and a monotone clock.
  ghost predicate WellBehaved(ticks: seq<Tick>) {
    && (forall i | 0 <= i < |ticks| && ticks[i].listing.Listed? ::
          DistinctKeys(ticks[i].listing.sessions) && PlainTargets(ticks[i].listing.sessions))
    && (forall i, j | 0 <= i < j < |ticks| :: ticks[i].now <= ticks[j].now)
  }

  predicate PlainTargets(sessions: seq<Session>) {
    forall s | s in sessions :: '|' !in s.target
  }

  lemma KeyDeterminesName(s: Session, t: Target)
    requires '|' !in s.target && '|' !in t.iqn && s.Key() == t.iqn + "|" + t.portal
    ensures s.Name() == t
  {
    var k := s.Key();
    assert k[|s.target|] == '|' && k[|t.iqn|] == '|';
    assert |s.target| == |t.iqn|;
    assert k[..|t.iqn|] == t.iqn && k[..|s.target|] == s.target;
    assert k[|t.iqn| + 1..] == t.portal && k[|s.target| + 1..] == s.Portal();
  }

  ghost predicate ReapedIn(minStale: int, ticks: seq<Tick>, j: nat, t: Target) {
    j < |ticks| && t in SummaryAt(minStale, ticks, j).reaped
  }

  ghost predicate ReapedBetween(minStale: int, ticks: seq<Tick>, i: nat, n: nat, t: Target) {
    exists j | i <= j < n :: ReapedIn(minStale, ticks, j, t)
  }

  // An earlier part of a run is a run, and says the same about its passes.
  lemma PrefixOfRun(minStale: int, ticks: seq<Tick>, n: nat, t: Target)
    requires n < |ticks|
    ensures WellBehaved(ticks) ==> WellBehaved(ticks[..n])
    ensures forall j | 0 <= j < n ::
              SawAt(ticks[..n], j, t.iqn + "|" + t.portal) == SawAt(ticks, j, t.iqn + "|" + t.portal)
    ensures forall j | 0 <= j < n :: ReapedIn(minStale, ticks[..n], j, t) == ReapedIn(minStale, ticks, j, t)
  {
    assert forall j | 0 <= j < n :: ticks[..n][..j] == ticks[..j];
  }

  // One well-behaved pass, seen from one target.
  lemma PassOnTarget(minStale: int, ticks: seq<Tick>, n: nat, t: Target)
    requires n < |ticks| && WellBehaved(ticks) && '|' !in t.iqn && ticks[n].listing.Listed?
    ensures var key := t.iqn + "|" + t.portal;
            var before, after := After(minStale, ticks[..n]), After(minStale, ticks[..n + 1]);
            && (key in after <==> SawAt(ticks, n, key) && !ReapedIn(minStale, ticks, n, t))
            && (key in after ==> after[key] == FirstSeen(before, key, ticks[n].now))
            && (Logout(t) in SummaryAt(minStale, ticks, n).commands <==>
                  SawAt(ticks, n, key) && ticks[n].now - FirstSeen(before, key, ticks[n].now) >= minStale)
  {
    var key := t.iqn + "|" + t.portal;
    var before := After(minStale, ticks[..n]);
    var sessions := ticks[n].listing.sessions;
    assert ticks[..n + 1][..n] == ticks[..n];
    TrackedAfterPass(before, sessions, minStale, ticks[n].now, key);
    SummaryIsExact(before, sessions, minStale, ticks[n].now, t);
    forall s | s in sessions && s.Key() == key ensures s.Name() == t {
      KeyDeterminesName(s, t);
    }
  }

  // A timer's streak also saw no successful logout of its target.
  lemma {:induction false} TimerStart(minStale: int, ticks: seq<Tick>, t: Target) returns (i: nat)
    requires WellBehaved(ticks) && '|' !in t.iqn
    requires t.iqn + "|" + t.portal in After(minStale, ticks)
    ensures i < |ticks| && ticks[i].now == After(minStale, ticks)[t.iqn + "|" + t.portal]
    ensures Streak(ticks, i, |ticks|, t.iqn + "|" + t.portal)
    ensures !ReapedBetween(minStale, ticks, i, |ticks|, t)
    decreases |ticks|
  {
    var key := t.iqn + "|" + t.portal;
    var n := |ticks| - 1;
    assert ticks[..n + 1] == ticks;
    PrefixOfRun(minStale, ticks, n, t);
    if ticks[n].listing.Listed? {
      PassOnTarget(minStale, ticks, n, t);
    }
    if key in After(minStale, ticks[..n]) {
      i := TimerStart(minStale, ticks[..n], t);
    } else {
      i := n;
    }
  }

  // Conversely such a streak has a timer at least as old as its start.
  lemma {:induction false} StreakHasTimer(minStale: int, ticks: seq<Tick>, i: nat, t: Target)
    requires WellBehaved(ticks) && '|' !in t.iqn
    requires Streak(ticks, i, |ticks|, t.iqn + "|" + t.portal)
    requires !ReapedBetween(minStale, ticks, i, |ticks|, t)
    ensures var key := t.iqn + "|" + t.portal;
            key in After(minStale, ticks) && After(minStale, ticks)[key] <= ticks[i].now
    decreases |ticks|
  {
    var key := t.iqn + "|" + t.portal;
    var n := |ticks| - 1;
    assert ticks[..n + 1] == ticks;
    PrefixOfRun(minStale, ticks, n, t);
    assert !ReapedIn(minStale, ticks, n, t);
    if i < n {
      StreakHasTimer(minStale, ticks[..n], i, t);
    } else if key in After(minStale, ticks[..n]) {
      var start := TimerStart(minStale, ticks[..n], t);
    }
    if ticks[n].listing.Listed? {
      PassOnTarget(minStale, ticks, n, t);
    }
  }

  // The reason a pass has to log out of a target.
  ghost predicate FullStreak(minStale: int, ticks: seq<Tick>, i: nat, n: nat, t: Target) {
    && i <= n < |ticks|
    && Streak(ticks, i, n + 1, t.iqn + "|" + t.portal)
    && !ReapedBetween(minStale, ticks, i, n, t)
    && ticks[i].now <= ticks[n].now - minStale
  }

  /**
   Exactly when: pass n tries to log out of a target if and only if it saw it
   reapable and some pass at least minStale seconds earlier started a streak
   that no listed pass has broken and no logout of the target has ended.
   */
  lemma LogoutIffFullStreak(minStale: int, ticks: seq<Tick>, n: nat, t: Target)
    requires n < |ticks| && WellBehaved(ticks) && '|' !in t.iqn
    ensures Logout(t) in SummaryAt(minStale, ticks, n).commands
       <==> SawAt(ticks, n, t.iqn + "|" + t.portal) && exists i: nat :: FullStreak(minStale, ticks, i, n, t)
  {
    var key := t.iqn + "|" + t.portal;
    if ticks[n].listing.Listed? {
      PassOnTarget(minStale, ticks, n, t);
      PrefixOfRun(minStale, ticks, n, t);
      if Logout(t) in SummaryAt(minStale, ticks, n).commands {
        var i := n;
        if key in After(minStale, ticks[..n]) {
          i := TimerStart(minStale, ticks[..n], t);
        }
        assert FullStreak(minStale, ticks, i, n, t);
      }
      if i: nat :| FullStreak(minStale, ticks, i, n, t) {
        FullStreakIsDue(minStale, ticks, i, n, t);
      }
    }
  }

  lemma FullStreakIsDue(minStale: int, ticks: seq<Tick>, i: nat, n: nat, t: Target)
    requires WellBehaved(ticks) && '|' !in t.iqn && FullStreak(minStale, ticks, i, n, t)
    ensures ticks[n].now - FirstSeen(After(minStale, ticks[..n]), t.iqn + "|" + t.portal, ticks[n].now) >= minStale
  {
    PrefixOfRun(minStale, ticks, n, t);
    if i < n {
      StreakHasTimer(minStale, ticks[..n], i, t);
    } else if t.iqn + "|" + t.portal in After(minStale, ticks[..n]) {
      var start := TimerStart(minStale, ticks[..n], t);
    }
  }
}
