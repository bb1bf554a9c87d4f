/**
 What iscsiadm is to the node plugin: a host with logged-in sessions and
 node-DB records. Before each command the rest of the world may change the
 host (`env`), and each command may fail, with or without having taken effect
 (`fault`). Both are arbitrary. The log is what an observer of the commands
 would have seen.
 */
module IscsiHost {
  import opened Wrappers

  datatype Login = Login(sid: nat, target: string, portal: string)

  datatype Record = Record(iqn: string, portal: string)

  datatype World = World(sessions: set<Login>, records: set<Record>)

  datatype Fault = Fine | Fails(applied: bool, unusable: bool)

  // A command does what it is for, whatever it reports.
  predicate TakesEffect(f: Fault) {
    f == Fine || f.applied
  }

  datatype Event =
    | QueryFailed
    | SawRecords(records: set<Record>)
    | SawSessions(sessions: set<Login>)
    | SawRecord(iqn: string, portal: string, present: bool)
    | SawSession(target: string, portal: string, present: bool)
    | TriedLogout(target: string, portal: string)
    | TriedDelete(iqn: string, portal: string, applied: bool)

  // A listing of a set, in some order.
  method Enumerate<T(==)>(s: set<T>) returns (r: seq<T>)
    ensures forall x :: x in r <==> x in s
    ensures |r| == |s|
  {
    r := [];
    var rest := s;
    while rest != {}
      invariant rest <= s && |r| + |rest| == |s|
      invariant forall x :: x in r <==> x in s - rest
      decreases |rest|
    {
      var x :| x in rest;
      r := r + [x];
      rest := rest - {x};
    }
  }

  class Host {
    const env: (nat, World) -> World
    const fault: nat -> Fault
    // Whether the portal argument of a command selects a stored portal.
    const selects: (string, string) -> bool
    // Whether getSession takes a listed portal to be the one asked for.
    const sessionAt: (string, string) -> bool
    var world: World
    var step: nat
    var log: seq<Event>

    constructor (env: (nat, World) -> World, fault: nat -> Fault, selects: (string, string) -> bool,
                 sessionAt: (string, string) -> bool, world: World)
      ensures this.world == world && log == [] && step == 0
      ensures this.env == env && this.fault == fault && this.selects == selects && this.sessionAt == sessionAt
    {
      this.env, this.fault, this.selects, this.sessionAt := env, fault, selects, sessionAt;
      this.world, step, log := world, 0, [];
    }

    // What command number n meets, and what its arguments select.
    function Env(n: nat, w: World): World {
      env(n, w)
    }

    function FaultAt(n: nat): Fault {
      fault(n)
    }

    predicate Selects(asked: string, stored: string) {
      selects(asked, stored)
    }

    predicate SessionAt(asked: string, listed: string) {
      sessionAt(asked, listed)
    }

    ghost predicate Quiet() {
      forall n, w :: Env(n, w) == w
    }

    // The host as the next command finds it.
    function Next(): World
      reads this
    {
      Env(step, world)
    }

    function RecordsOf(w: World, iqn: string, portal: string): set<Record> {
      set r | r in w.records && r.iqn == iqn && Selects(portal, r.portal)
    }

    function LoginsOf(w: World, target: string, portal: string): set<Login> {
      set l | l in w.sessions && l.target == target && Selects(portal, l.portal)
    }

    // iscsiadm -m node
    method ListNodeDBEntries() returns (r: Option<seq<Record>>)
      modifies this
      ensures world == old(Next()) && step == old(step) + 1
      ensures r == None <==> FaultAt(old(step)).Fails?
      ensures log == old(log) + [if r == None then QueryFailed else SawRecords(world.records)]
      ensures r.Some? ==> forall x :: x in r.value <==> x in world.records
    {
      world := Env(step, world);
      if FaultAt(step).Fails? {
        r, log := None, log + [QueryFailed];
      } else {
        var list := Enumerate(world.records);
        r, log := Some(list), log + [SawRecords(world.records)];
      }
      step := step + 1;
    }

    // iscsiadm -m session, short or detailed
    method GetSessions() returns (r: Option<seq<Login>>, unusable: bool)
      modifies this
      ensures world == old(Next()) && step == old(step) + 1
      ensures r == None <==> FaultAt(old(step)).Fails?
      ensures r == None ==> unusable == FaultAt(old(step)).unusable
      ensures log == old(log) + [if r == None then QueryFailed else SawSessions(world.sessions)]
      ensures r.Some? ==> forall x :: x in r.value <==> x in world.sessions
    {
      world := Env(step, world);
      unusable := false;
      if FaultAt(step).Fails? {
        r, unusable, log := None, FaultAt(step).unusable, log + [QueryFailed];
      } else {
        var list := Enumerate(world.sessions);
        r, log := Some(list), log + [SawSessions(world.sessions)];
      }
      step := step + 1;
    }

    // iscsiadm -m node -T iqn -p portal
    method NodeDBEntryExists(iqn: string, portal: string) returns (r: Option<bool>)
      modifies this
      ensures world == old(Next()) && step == old(step) + 1
      ensures r == None <==> FaultAt(old(step)).Fails?
      ensures r.Some? ==> r.value == (RecordsOf(world, iqn, portal) != {})
      ensures log == old(log) + [if r == None then QueryFailed else SawRecord(iqn, portal, r.value)]
    {
      world := Env(step, world);
      if FaultAt(step).Fails? {
        r, log := None, log + [QueryFailed];
      } else {
        r := Some(RecordsOf(world, iqn, portal) != {});
        log := log + [SawRecord(iqn, portal, r.value)];
      }
      step := step + 1;
    }

    // iscsiadm -m session, searched for one target and portal
    method GetSession(target: string, portal: string) returns (r: Option<bool>)
      modifies this
      ensures world == old(Next()) && step == old(step) + 1
      ensures r == None <==> FaultAt(old(step)).Fails?
      ensures r.Some? ==>
                (r.value <==> exists l | l in world.sessions :: l.target == target && SessionAt(portal, l.portal))
      ensures log == old(log) + [if r == None then QueryFailed else SawSession(target, portal, r.value)]
    {
      world := Env(step, world);
      if FaultAt(step).Fails? {
        r, log := None, log + [QueryFailed];
      } else {
        r := Some(exists l | l in world.sessions :: l.target == target && SessionAt(portal, l.portal));
        log := log + [SawSession(target, portal, r.value)];
      }
      step := step + 1;
    }

    // iscsiadm -m node -T target -p portal -u
    method Logout(target: string, portal: string) returns (ok: bool)
      modifies this
      ensures step == old(step) + 1 && ok == FaultAt(old(step)).Fine?
      ensures world.records == old(Next()).records
      ensures world.sessions == if FaultAt(old(step)) == Fine || FaultAt(old(step)).applied
                                then old(Next()).sessions - LoginsOf(old(Next()), target, portal)
                                else old(Next()).sessions
      ensures log == old(log) + [TriedLogout(target, portal)]
    {
      world := Env(step, world);
      ok := FaultAt(step).Fine?;
      if ok || FaultAt(step).applied {
        world := world.(sessions := world.sessions - LoginsOf(world, target, portal));
      }
      log := log + [TriedLogout(target, portal)];
      step := step + 1;
    }

    // iscsiadm -m node -T iqn -p portal -o delete
    method DeleteNodeDBEntry(iqn: string, portal: string) returns (ok: bool)
      modifies this
      ensures step == old(step) + 1 && ok == FaultAt(old(step)).Fine?
      ensures world.sessions == old(Next()).sessions
      ensures var applied := FaultAt(old(step)) == Fine || FaultAt(old(step)).applied;
              && world.records == (if applied then old(Next()).records - RecordsOf(old(Next()), iqn, portal)
                                   else old(Next()).records)
              && log == old(log) + [TriedDelete(iqn, portal, applied)]
    {
      world := Env(step, world);
      ok := FaultAt(step).Fine?;
      var applied := ok || FaultAt(step).applied;
      if applied {
        world := world.(records := world.records - RecordsOf(world, iqn, portal));
      }
      log := log + [TriedDelete(iqn, portal, applied)];
      step := step + 1;
    }
  }
}
