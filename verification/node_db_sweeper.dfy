/**
 The startup sweep that deletes node-DB records whose target has no session.
 */
module NodeDbSweeper {
  import opened Wrappers
  import opened Text
  import opened IscsiHost

  predicate Orphaned(r: Record, sessions: set<Login>, basename: Option<string>) {
    && r.iqn != ""
    && (basename.Some? ==> StartsWith(r.iqn, basename.value))
    && forall l | l in sessions :: l.target != r.iqn
  }

  method SelectOrphanedRecords(records: seq<Record>, sessions: seq<Login>, basename: Option<string>)
    returns (orphans: seq<Record>)
    ensures forall r :: r in orphans <==>
              && r in records && r.iqn != "" && (basename.Some? ==> basename.value <= r.iqn)
              && forall l | l in sessions :: l.target != r.iqn
    ensures |orphans| <= |records|
  {
    var sessionIqns := set l | l in sessions :: l.target;
    orphans := [];
    for i := 0 to |records|
      invariant |orphans| <= i
      invariant forall r :: r in orphans <==> r in records[..i] && Orphaned(r, (set l | l in sessions), basename)
    {
      assert records[..i + 1] == records[..i] + [records[i]];
      var record := records[i];
      assert record.iqn in sessionIqns <==> exists l | l in sessions :: l.target == record.iqn;
      if record.iqn == "" || (basename.Some? && !StartsWith(record.iqn, basename.value)) {
        continue;
      }
      if record.iqn !in sessionIqns {
        orphans := orphans + [record];
      }
    }
    assert records[..|records|] == records;
  }

  // What became of one orphan.
  datatype Outcome = CheckFailed | NotThere | InUse | Deleted | DeleteFailed(applied: bool)

  // A delete comes straight after its record was seen present and, last, the
  // session list was seen without its target.
  ghost predicate Rechecked(log: seq<Event>, i: nat)
    requires i < |log|
  {
    && !log[i].TriedLogout?
    && (log[i].TriedDelete? ==>
          && i >= 2
          && log[i - 2] == SawRecord(log[i].iqn, log[i].portal, true)
          && log[i - 1].SawSessions?
          && forall l | l in log[i - 1].sessions :: l.target != log[i].iqn)
  }

  ghost predicate AllRechecked(log: seq<Event>, from: nat) {
    forall i | from <= i < |log| :: Rechecked(log, i)
  }

  // A command about one record selects another.
  predicate Selected(host: Host, record: Record, r: Record) {
    r.iqn == record.iqn && host.Selects(record.portal, r.portal)
  }

  // ------------------------------------------------------ what a sweep does ---

  // One orphan's turn: its outcome, the host afterwards, and the commands it
  // took, as the host logs them.
  datatype Turn = Turn(outcome: Outcome, world: World, events: seq<Event>)

  // The turn that starts with command number n on a host in state w.
  function TurnOf(host: Host, n: nat, w: World, r: Record): Turn {
    var w1 := host.Env(n, w);
    if host.FaultAt(n).Fails? then Turn(CheckFailed, w1, [QueryFailed])
    else if host.RecordsOf(w1, r.iqn, r.portal) == {} then Turn(NotThere, w1, [SawRecord(r.iqn, r.portal, false)])
    else
      var w2 := host.Env(n + 1, w1);
      if host.FaultAt(n + 1).Fails? then Turn(CheckFailed, w2, [SawRecord(r.iqn, r.portal, true), QueryFailed])
      else if exists l | l in w2.sessions :: l.target == r.iqn then
        Turn(InUse, w2, [SawRecord(r.iqn, r.portal, true), SawSessions(w2.sessions)])
      else
        var w3, f := host.Env(n + 2, w2), host.FaultAt(n + 2);
        Turn(if f == Fine then Deleted else DeleteFailed(f.applied),
             if TakesEffect(f) then w3.(records := w3.records - host.RecordsOf(w3, r.iqn, r.portal)) else w3,
             [SawRecord(r.iqn, r.portal, true), SawSessions(w2.sessions), TriedDelete(r.iqn, r.portal, TakesEffect(f))])
  }

  /**
   The outcome is what the last of the turn's commands showed: a query that failed,
   the record or a session seen or not, or the delete; and a turn asks for no more
   once that is known.
   */
  lemma OutcomeIsWhatWasSeen(host: Host, n: nat, w: World, r: Record)
    ensures var t := TurnOf(host, n, w, r);
            var last := t.events[|t.events| - 1];
            && (t.outcome == CheckFailed <==> last == QueryFailed)
            && (t.outcome == NotThere <==> last == SawRecord(r.iqn, r.portal, false))
            && (t.outcome == InUse <==> last.SawSessions?)
            && (t.outcome == InUse ==> exists l | l in last.sessions :: l.target == r.iqn)
            && (t.outcome.Deleted? || t.outcome.DeleteFailed? <==> last.TriedDelete?)
            && (t.outcome.Deleted? ==> last.applied && host.RecordsOf(t.world, r.iqn, r.portal) == {})
            && (t.outcome.DeleteFailed? ==> last.applied == t.outcome.applied)
  {
  }

  // `at`: the number of the first command of each orphan's turn.
  datatype Progress = Progress(world: World, events: seq<Event>, outcomes: seq<Outcome>, at: seq<nat>)

  // The turns of the first k orphans, one after the other, whatever becomes of
  // each.
  function Turns(turn: (nat, World, Record) -> Turn, n: nat, w: World, orphans: seq<Record>, k: nat): (p: Progress)
    requires k <= |orphans|
    ensures |p.outcomes| == |p.at| == k
  {
    if k == 0 then Progress(w, [], [], [])
    else
      var p := Turns(turn, n, w, orphans, k - 1);
      Then(p, turn(n + |p.events|, p.world, orphans[k - 1]), n + |p.events|)
  }

  function Then(p: Progress, t: Turn, at: nat): Progress {
    Progress(t.world, p.events + t.events, p.outcomes + [t.outcome], p.at + [at])
  }

  lemma Appended<T>(a: seq<T>, b: seq<T>, c: seq<T>)
    ensures a + b + c == a + (b + c)
  {
  }

  function On(host: Host): (nat, World, Record) -> Turn {
    (n: nat, w: World, r: Record) => TurnOf(host, n, w, r)
  }

  function TurnsOn(host: Host, n: nat, w: World, orphans: seq<Record>, k: nat): (p: Progress)
    requires k <= |orphans|
    ensures |p.outcomes| == |p.at| == k
  {
    Turns(On(host), n, w, orphans, k)
  }

  // The two listings a sweep starts with; without records the second is left out.
  datatype Listing = Listing(finished: bool, world: World, events: seq<Event>)

  function Listed(host: Host, n: nat, w: World): Listing {
    var w1 := host.Env(n, w);
    if host.FaultAt(n).Fails? then Listing(false, w1, [QueryFailed])
    else if w1.records == {} then Listing(true, w1, [SawRecords({})])
    else
      var w2 := host.Env(n + 1, w1);
      if host.FaultAt(n + 1).Fails? then Listing(false, w2, [SawRecords(w1.records), QueryFailed])
      else Listing(true, w2, [SawRecords(w1.records), SawSessions(w2.sessions)])
  }

  // A sweep is finished unless one of its listings failed.
  lemma FinishedUnlessFailed(host: Host, n: nat, w: World)
    ensures var first := Listed(host, n, w);
            && (first.finished <==> first.events[|first.events| - 1] != QueryFailed)
            && (first.events[0] == QueryFailed || first.events[0] == SawRecords(host.Env(n, w).records))
            && (|first.events| == 1 <==> first.events[0] == QueryFailed || first.events[0] == SawRecords({}))
            && (first.finished && |first.events| > 1 ==> first.events[1] == SawSessions(first.world.sessions))
  {
  }

  // -------------------------------------------------------------- the checks ---

  lemma TurnRechecks(host: Host, n: nat, w: World, r: Record)
    ensures AllRechecked(TurnOf(host, n, w, r).events, 0)
  {
  }

  lemma RecheckedTogether(a: seq<Event>, b: seq<Event>)
    requires AllRechecked(a, 0) && AllRechecked(b, 0)
    ensures AllRechecked(a + b, 0)
  {
    RecheckedLater(a, b);
    forall i | 0 <= i < |a| ensures Rechecked(a + b, i) {
      assert Rechecked(a, i);
    }
  }

  lemma RecheckedLater(a: seq<Event>, b: seq<Event>)
    requires AllRechecked(b, 0)
    ensures AllRechecked(a + b, |a|)
  {
    forall i | |a| <= i < |a + b| ensures Rechecked(a + b, i) {
      assert Rechecked(b, i - |a|);
    }
  }

  // Every delete comes straight after its two checks.
  lemma {:induction false} TurnsRecheck(turn: (nat, World, Record) -> Turn, n: nat, w: World, orphans: seq<Record>,
                                        k: nat)
    requires k <= |orphans| && forall m, v, r :: AllRechecked(turn(m, v, r).events, 0)
    ensures AllRechecked(Turns(turn, n, w, orphans, k).events, 0)
  {
    if k > 0 {
      TurnsRecheck(turn, n, w, orphans, k - 1);
      var p := Turns(turn, n, w, orphans, k - 1);
      RecheckedTogether(p.events, turn(n + |p.events|, p.world, orphans[k - 1]).events);
    }
  }

  // -------------------------------------------------- no failure stops a sweep ---

  predicate PartAt(events: seq<Event>, from: nat, part: seq<Event>) {
    from + |part| <= |events| && events[from..from + |part|] == part
  }

  // Turn t, starting with command `at`, as that of orphan i.
  predicate TurnAt(p: Progress, n: nat, i: nat, at: nat, t: Turn) {
    && i < |p.at| == |p.outcomes| && n <= at == p.at[i]
    && PartAt(p.events, at - n, t.events) && p.outcomes[i] == t.outcome
  }

  lemma LastTurnAt(q: Progress, n: nat, t: Turn)
    requires |q.at| == |q.outcomes|
    ensures TurnAt(Then(q, t, n + |q.events|), n, |q.at|, n + |q.events|, t)
  {
  }

  /**
   Every orphan has its turn, whatever became of those before it: it starts
   where theirs end, on the host as they left it, its commands are in the log at
   that place, and its outcome is the one they lead to.
   */
  lemma {:induction false} EveryOrphanHasItsTurn(turn: (nat, World, Record) -> Turn, n: nat, w: World,
                                                 orphans: seq<Record>, k: nat, i: nat)
    requires i < k <= |orphans|
    ensures var q := Turns(turn, n, w, orphans, i);
            TurnAt(Turns(turn, n, w, orphans, k), n, i, n + |q.events|, turn(n + |q.events|, q.world, orphans[i]))
    decreases k
  {
    var p := Turns(turn, n, w, orphans, k - 1);
    var last := turn(n + |p.events|, p.world, orphans[k - 1]);
    if i == k - 1 {
      LastTurnAt(p, n, last);
    } else {
      EveryOrphanHasItsTurn(turn, n, w, orphans, k - 1, i);
    }
  }

  // The query a turn starts with.
  predicate Asks(host: Host, n: nat, r: Record, e: Event) {
    if host.FaultAt(n).Fails? then e == QueryFailed
    else e == SawRecord(r.iqn, r.portal, true) || e == SawRecord(r.iqn, r.portal, false)
  }

  predicate AsksFirst(host: Host, n: nat, r: Record, t: Turn) {
    |t.events| > 0 && Asks(host, n, r, t.events[0])
  }

  // --------------------------------------------------------- on a quiet host ---

  // The two checks of a turn are answered and its delete takes effect.
  predicate Clears(host: Host, n: nat) {
    host.FaultAt(n) == Fine && host.FaultAt(n + 1) == Fine && TakesEffect(host.FaultAt(n + 2))
  }

  // The records selected by an orphan whose turn clears them.
  ghost predicate Cleared(host: Host, orphans: seq<Record>, at: seq<nat>, r: Record) {
    exists i | 0 <= i < |at| && i < |orphans| :: Clears(host, at[i]) && Selected(host, orphans[i], r)
  }

  ghost function Left(host: Host, before: set<Record>, orphans: seq<Record>, at: seq<nat>): set<Record> {
    set r | r in before && !Cleared(host, orphans, at, r)
  }

  // A turn that keeps the sessions and clears what it should.
  ghost predicate Orderly(host: Host, n: nat, w: World, r: Record, t: Turn) {
    && t.world.sessions == w.sessions && t.outcome != InUse
    && t.world.records == set x | x in w.records && !(Clears(host, n) && Selected(host, r, x))
  }

  lemma QuietTurn(host: Host, n: nat, w: World, r: Record)
    requires host.Quiet() && forall l | l in w.sessions :: l.target != r.iqn
    ensures Orderly(host, n, w, r, TurnOf(host, n, w, r))
  {
    assert forall m, v :: host.Env(m, v) == v;
    assert forall x :: x in host.RecordsOf(w, r.iqn, r.portal) <==> x in w.records && Selected(host, r, x);
  }

  // No session is for an orphan.
  ghost predicate Sessionless(sessions: set<Login>, orphans: seq<Record>) {
    forall l, r | l in sessions && r in orphans :: l.target != r.iqn
  }

  // What the turns so far leave of a quiet host in state w.
  ghost predicate KeepsQuiet(host: Host, w: World, orphans: seq<Record>, p: Progress) {
    && p.world.sessions == w.sessions && InUse !in p.outcomes
    && p.world.records == Left(host, w.records, orphans, p.at)
  }

  lemma OneMoreTurn(host: Host, w: World, orphans: seq<Record>, q: Progress, n: nat, t: Turn)
    requires |q.at| < |orphans| && KeepsQuiet(host, w, orphans, q) && Orderly(host, n, q.world, orphans[|q.at|], t)
    ensures KeepsQuiet(host, w, orphans, Then(q, t, n))
  {
  }

  lemma {:induction false} OrderlyTurns(host: Host, turn: (nat, World, Record) -> Turn, n: nat, w: World,
                                        orphans: seq<Record>, k: nat)
    requires k <= |orphans|
    requires forall m: nat, v: World, r: Record | v.sessions == w.sessions && r in orphans ::
               Orderly(host, m, v, r, turn(m, v, r))
    ensures KeepsQuiet(host, w, orphans, Turns(turn, n, w, orphans, k))
  {
    if k == 0 {
      assert Left(host, w.records, orphans, []) == w.records;
    } else {
      OrderlyTurns(host, turn, n, w, orphans, k - 1);
      var q := Turns(turn, n, w, orphans, k - 1);
      OneMoreTurn(host, w, orphans, q, n + |q.events|, turn(n + |q.events|, q.world, orphans[k - 1]));
    }
  }

  /**
   On a quiet host without sessions for the orphans: the sessions stay, and the
   records that go are exactly those selected by an orphan whose two checks
   were answered and whose delete took effect.
   */
  lemma QuietTurns(host: Host, n: nat, w: World, orphans: seq<Record>)
    requires host.Quiet() && Sessionless(w.sessions, orphans)
    ensures KeepsQuiet(host, w, orphans, TurnsOn(host, n, w, orphans, |orphans|))
  {
    forall m: nat, v: World, r: Record | v.sessions == w.sessions && r in orphans
      ensures Orderly(host, m, v, r, On(host)(m, v, r))
    {
      QuietTurn(host, m, v, r);
    }
    OrderlyTurns(host, On(host), n, w, orphans, |orphans|);
  }

  /**
   Where a portal argument selects just that portal: the records left are the
   initial ones minus the orphans whose checks were answered and whose delete
   took effect.
   */
  lemma QuietSweepIsExact(host: Host, before: set<Record>, orphans: seq<Record>, at: seq<nat>, r: Record)
    requires (forall a, b :: host.Selects(a, b) <==> a == b) && |at| == |orphans|
    ensures r in Left(host, before, orphans, at)
       <==> r in before && !exists i | 0 <= i < |orphans| :: orphans[i] == r && Clears(host, at[i])
  {
    if i :| 0 <= i < |orphans| && orphans[i] == r && Clears(host, at[i]) {
      assert Selected(host, orphans[i], r);
    }
  }

  // ------------------------------------------------------- the whole sweep ---

  // The log has every orphan's own query where its turn starts.
  ghost predicate AllAsked(host: Host, n: nat, orphans: seq<Record>, at: seq<nat>, events: seq<Event>) {
    |at| == |orphans| && forall i | 0 <= i < |orphans| :: Asked(host, n, orphans[i], at[i], events)
  }

  // The query of a turn that starts at command `at`, in events that start at n.
  predicate Asked(host: Host, n: nat, r: Record, at: nat, events: seq<Event>) {
    n <= at < n + |events| && Asks(host, at, r, events[at - n])
  }

  lemma TurnsAskAll(host: Host, turn: (nat, World, Record) -> Turn, n: nat, w: World, orphans: seq<Record>)
    requires forall m, v, r :: AsksFirst(host, m, r, turn(m, v, r))
    ensures var p := Turns(turn, n, w, orphans, |orphans|); AllAsked(host, n, orphans, p.at, p.events)
  {
    var p := Turns(turn, n, w, orphans, |orphans|);
    forall i | 0 <= i < |orphans| ensures Asked(host, n, orphans[i], p.at[i], p.events) {
      TurnIsAsked(host, turn, n, w, orphans, i);
    }
  }

  lemma TurnIsAsked(host: Host, turn: (nat, World, Record) -> Turn, n: nat, w: World, orphans: seq<Record>, i: nat)
    requires i < |orphans| && forall m, v, r :: AsksFirst(host, m, r, turn(m, v, r))
    ensures var p := Turns(turn, n, w, orphans, |orphans|); Asked(host, n, orphans[i], p.at[i], p.events)
  {
    EveryOrphanHasItsTurn(turn, n, w, orphans, |orphans|, i);
    var q := Turns(turn, n, w, orphans, i);
    var at := n + |q.events|;
    TurnAsked(host, Turns(turn, n, w, orphans, |orphans|), n, i, at, turn(at, q.world, orphans[i]), orphans[i]);
  }

  lemma TurnAsked(host: Host, p: Progress, n: nat, i: nat, at: nat, t: Turn, r: Record)
    requires TurnAt(p, n, i, at, t) && AsksFirst(host, at, r, t)
    ensures Asked(host, n, r, p.at[i], p.events)
  {
    var from := at - n;
    assert p.events[from..from + |t.events|][0] == p.events[from];
  }

  lemma AskedLater(host: Host, n: nat, first: seq<Event>, orphans: seq<Record>, at: seq<nat>, events: seq<Event>)
    requires AllAsked(host, n + |first|, orphans, at, events)
    ensures AllAsked(host, n, orphans, at, first + events)
  {
  }

  lemma TurnsOnAskAll(host: Host, n: nat, w: World, orphans: seq<Record>)
    ensures var p := TurnsOn(host, n, w, orphans, |orphans|); AllAsked(host, n, orphans, p.at, p.events)
  {
    TurnsAskAll(host, On(host), n, w, orphans);
  }

  lemma SweepAsksAll(host: Host, n: nat, first: Listing, orphans: seq<Record>)
    ensures var p := TurnsOn(host, n + |first.events|, first.world, orphans, |orphans|);
            AllAsked(host, n, orphans, p.at, first.events + p.events)
  {
    TurnsOnAskAll(host, n + |first.events|, first.world, orphans);
    var p := TurnsOn(host, n + |first.events|, first.world, orphans, |orphans|);
    AskedLater(host, n, first.events, orphans, p.at, p.events);
  }

  lemma AllTurnsRecheck(host: Host)
    ensures forall m, v, r :: AllRechecked(On(host)(m, v, r).events, 0)
  {
    forall m, v, r ensures AllRechecked(On(host)(m, v, r).events, 0) {
      TurnRechecks(host, m, v, r);
    }
  }

  lemma TurnsOnRecheck(host: Host, n: nat, w: World, orphans: seq<Record>)
    ensures AllRechecked(TurnsOn(host, n, w, orphans, |orphans|).events, 0)
  {
    AllTurnsRecheck(host);
    TurnsRecheck(On(host), n, w, orphans, |orphans|);
  }

  lemma SweepRechecks(host: Host, n: nat, w: World, log: seq<Event>, orphans: seq<Record>)
    ensures var first := Listed(host, n, w);
            var p := TurnsOn(host, n + |first.events|, first.world, orphans, |orphans|);
            AllRechecked(log + (first.events + p.events), |log|)
  {
    var first := Listed(host, n, w);
    ListedRechecks(host, n, w);
    TurnsOnRecheck(host, n + |first.events|, first.world, orphans);
    AllLater(log, first.events, TurnsOn(host, n + |first.events|, first.world, orphans, |orphans|).events);
  }

  lemma ListedRechecks(host: Host, n: nat, w: World)
    ensures AllRechecked(Listed(host, n, w).events, 0)
  {
  }

  lemma AllLater(log: seq<Event>, a: seq<Event>, b: seq<Event>)
    requires AllRechecked(a, 0) && AllRechecked(b, 0)
    ensures AllRechecked(log + (a + b), |log|)
  {
    RecheckedTogether(a, b);
    RecheckedLater(log, a + b);
  }

  // What a sweep of a quiet host with sessions and records w leaves.
  ghost predicate QuietResult(host: Host, w: World, basename: Option<string>, finished: bool, orphans: seq<Record>,
                              p: Progress) {
    && (finished ==> forall r :: r in orphans <==> r in w.records && Orphaned(r, w.sessions, basename))
    && KeepsQuiet(host, w, orphans, p)
  }

  ghost predicate OnlyOrphansGone(w: World, basename: Option<string>, w': World) {
    forall r :: r in w'.records <==> r in w.records && !Orphaned(r, w.sessions, basename)
  }

  // The listings and turns of a whole sweep; `p` has the commands of both.
  ghost predicate Sweeps(host: Host, basename: Option<string>, n: nat, w: World, finished: bool, orphans: seq<Record>,
                         p: Progress) {
    var first := Listed(host, n, w);
    var turns := TurnsOn(host, n + |first.events|, first.world, orphans, |orphans|);
    && finished == first.finished
    && (forall r :: r in orphans <==>
          finished && r in host.Env(n, w).records && Orphaned(r, first.world.sessions, basename))
    && p == turns.(events := first.events + turns.events)
  }

  lemma QuietSweep(host: Host, n: nat, w: World, basename: Option<string>, orphans: seq<Record>)
    requires host.Quiet()
    requires var first := Listed(host, n, w);
             forall r :: r in orphans <==> first.finished && r in host.Env(n, w).records
                                           && Orphaned(r, first.world.sessions, basename)
    ensures var first := Listed(host, n, w);
            QuietResult(host, w, basename, first.finished, orphans,
                        TurnsOn(host, n + |first.events|, first.world, orphans, |orphans|))
  {
    var first := Listed(host, n, w);
    assert forall m, v :: host.Env(m, v) == v;
    assert first.world == w;
    QuietTurns(host, n + |first.events|, w, orphans);
  }

  ghost predicate Faultless(host: Host) {
    (forall n :: host.FaultAt(n) == Fine) && forall portal :: host.Selects(portal, portal)
  }

  // Without faults, exactly the orphans go.
  lemma FaultlessSweep(host: Host, w: World, basename: Option<string>, orphans: seq<Record>, p: Progress)
    requires QuietResult(host, w, basename, true, orphans, p) && |p.at| == |orphans|
    requires Faultless(host)
    ensures OnlyOrphansGone(w, basename, p.world)
  {
    forall r | r in w.records ensures Cleared(host, orphans, p.at, r) <==> Orphaned(r, w.sessions, basename) {
      if Orphaned(r, w.sessions, basename) {
        var i :| 0 <= i < |orphans| && orphans[i] == r;
        assert Clears(host, p.at[i]) && Selected(host, orphans[i], r);
      }
      if i :| 0 <= i < |orphans| && Clears(host, p.at[i]) && Selected(host, orphans[i], r) {
        assert orphans[i] in orphans;
      }
    }
  }

  // Whatever a sweep clears is itself an orphan, also where one portal argument
  // selects several records.
  lemma SweptAreOrphans(host: Host, orphans: seq<Record>, at: seq<nat>, sessions: set<Login>, basename: Option<string>)
    requires forall r | r in orphans :: Orphaned(r, sessions, basename)
    ensures forall r | Cleared(host, orphans, at, r) :: Orphaned(r, sessions, basename)
  {
    forall r | Cleared(host, orphans, at, r) ensures Orphaned(r, sessions, basename) {
      var i :| 0 <= i < |at| && i < |orphans| && Clears(host, at[i]) && Selected(host, orphans[i], r);
      assert orphans[i] in orphans;
    }
  }

  lemma SweepMeans(host: Host, basename: Option<string>, n: nat, w: World, log: seq<Event>, finished: bool,
                   orphans: seq<Record>, p: Progress)
    requires Sweeps(host, basename, n, w, finished, orphans, p)
    ensures AllRechecked(log + p.events, |log|) && AllAsked(host, n, orphans, p.at, p.events)
    ensures (forall m :: host.FaultAt(m) == Fine) ==> finished
    ensures host.Quiet() ==> QuietResult(host, w, basename, finished, orphans, p)
    ensures host.Quiet() && Faultless(host) ==> OnlyOrphansGone(w, basename, p.world)
  {
    var first := Listed(host, n, w);
    SweepRechecks(host, n, w, log, orphans);
    SweepAsksAll(host, n, first, orphans);
    if host.Quiet() {
      QuietSweep(host, n, w, basename, orphans);
      if Faultless(host) {
        FaultlessSweep(host, w, basename, orphans, p);
      }
    }
  }

  class ISCSINodeDbSweeper {
    const host: Host
    const targetBasename: Option<string>

    constructor (host: Host, targetBasename: Option<string>)
      ensures this.host == host
      ensures this.targetBasename == if targetBasename == Some("") then None else targetBasename
    {
      this.host := host;
      this.targetBasename := if targetBasename == Some("") then None else targetBasename;
    }

    // One record's turn, command by command.
    method SweepOne(record: Record) returns (ghost o: Outcome)
      modifies host
      ensures var t := TurnOf(host, old(host.step), old(host.world), record);
              && o == t.outcome && host.world == t.world && host.log == old(host.log) + t.events
              && host.step == old(host.step) + |t.events|
    {
      var exists_ := host.NodeDBEntryExists(record.iqn, record.portal);
      if exists_ == None {
        return CheckFailed;
      }
      if !exists_.value {
        return NotThere;
      }
      var sessions, _ := host.GetSessions();
      if sessions == None {
        return CheckFailed;
      }
      assert forall l :: l in sessions.value <==> l in host.world.sessions;
      if exists l | l in sessions.value :: l.target == record.iqn {
        return InUse;
      }
      ghost var n := host.step;
      var ok := host.DeleteNodeDBEntry(record.iqn, record.portal);
      o := if ok then Deleted else DeleteFailed(host.FaultAt(n).applied);
    }

    /**
     One sweep: the two listings, then every orphan's turn, none of which keeps
     the next from being taken. Whatever the rest of the world does, every
     delete comes straight after its two checks, and the log has every orphan's
     own query where its turn starts. On a quiet host the orphans are exactly
     the session-less matching records, none is found in use, and the database
     loses exactly what is selected by an orphan whose checks were answered and
     whose delete took effect; without faults, exactly the orphans.
     */
    method Sweep() returns (finished: bool, ghost orphans: seq<Record>, ghost p: Progress)
      modifies host
      ensures Sweeps(host, targetBasename, old(host.step), old(host.world), finished, orphans, p)
      ensures host.world == p.world && host.step == old(host.step) + |p.events|
      ensures host.log == old(host.log) + p.events && AllRechecked(host.log, |old(host.log)|)
      ensures AllAsked(host, old(host.step), orphans, p.at, p.events)
      ensures (forall n :: host.FaultAt(n) == Fine) ==> finished
      ensures host.Quiet() ==> QuietResult(host, old(host.world), targetBasename, finished, orphans, p)
      ensures host.Quiet() && Faultless(host) ==> OnlyOrphansGone(old(host.world), targetBasename, host.world)
    {
      ghost var n, w, log := host.step, host.world, host.log;
      finished, orphans, p := RunSweep();
      SweepMeans(host, targetBasename, n, w, log, finished, orphans, p);
    }

    method RunSweep() returns (finished: bool, ghost orphans: seq<Record>, ghost p: Progress)
      modifies host
      ensures Sweeps(host, targetBasename, old(host.step), old(host.world), finished, orphans, p)
      ensures host.world == p.world && host.step == old(host.step) + |p.events|
      ensures host.log == old(host.log) + p.events
    {
      ghost var first := Listed(host, host.step, host.world);
      var todo;
      finished, todo := ListOrphans();
      orphans := todo;
      p := SweepEach(todo);
      Appended(old(host.log), first.events, p.events);
      p := p.(events := first.events + p.events);
    }

    // The two listings and the selection; without a listing nothing is swept.
    method ListOrphans() returns (finished: bool, todo: seq<Record>)
      modifies host
      ensures var first := Listed(host, old(host.step), old(host.world));
              && finished == first.finished && host.world == first.world
              && host.log == old(host.log) + first.events && host.step == old(host.step) + |first.events|
      ensures forall r :: r in todo <==>
                finished && r in host.Env(old(host.step), old(host.world)).records
                && Orphaned(r, host.world.sessions, targetBasename)
    {
      finished, todo := false, [];
      var records := host.ListNodeDBEntries();
      if records == None {
        return;
      }
      assert forall r :: r in records.value <==> r in host.world.records;
      if |records.value| == 0 {
        finished := true;
        return;
      }
      assert records.value[0] in host.world.records;
      var sessions, _ := host.GetSessions();
      if sessions == None {
        return;
      }
      todo := SelectOrphanedRecords(records.value, sessions.value, targetBasename);
      finished := true;
      assert (set l | l in sessions.value) == host.world.sessions;
    }

    // The loop over the orphans; a turn that fails ends only itself.
    method SweepEach(orphans: seq<Record>) returns (ghost p: Progress)
      modifies host
      ensures p == TurnsOn(host, old(host.step), old(host.world), orphans, |orphans|)
      ensures host.world == p.world && host.log == old(host.log) + p.events && host.step == old(host.step) + |p.events|
    {
      ghost var n, w := host.step, host.world;
      p := TurnsOn(host, n, w, orphans, 0);
      for i := 0 to |orphans|
        invariant p == TurnsOn(host, n, w, orphans, i)
        invariant host.world == p.world && host.log == old(host.log) + p.events && host.step == n + |p.events|
      {
        ghost var at, t := host.step, TurnOf(host, host.step, host.world, orphans[i]);
        Appended(old(host.log), p.events, t.events);
        ghost var o := SweepOne(orphans[i]);
        p := Then(p, t, at);
      }
    }
  }
}
