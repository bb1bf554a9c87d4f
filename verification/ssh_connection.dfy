/**
 The shared ssh connection: one ssh2 client at a time, replaced under a mutex,
 with `connState` kept by event handlers that outlive their client. Clients
 are numbered in order of creation; any client, current or long replaced, may
 emit events at any time.
 */
module SshConnection {
  import opened Wrappers

  type Caller = nat

  datatype ClientEvent = EvReady | EvError | EvEnd | EvClose

  datatype ConnState = Unset | Connecting | Ready | Ended | Closed | Errored

  // One ssh2 client with its history: how often connect() was called on it,
  // whether we called end(), its latest and its past events, whether its
  // connect() threw, and whether an exec found its socket dead.
  datatype Client = Client(connects: nat, ended: bool, latest: Option<ClientEvent>, seen: set<ClientEvent>,
                           threw: bool, foundDead: bool)
  {
    // The promise created for connect() has been resolved or rejected.
    predicate HandshakeOver() {
      threw || EvReady in seen || EvError in seen || EvClose in seen
    }

    // The connection broke, or never came up.
    predicate Lost() {
      threw || foundDead || EvError in seen || EvEnd in seen || EvClose in seen
    }
  }

  // Who is inside _connect(), and how far its handshake promise has come.
  datatype Mutex = Free | Handshaking(caller: Caller) | Resolved(caller: Caller) | Rejected(caller: Caller)

  datatype Reply = Connected(client: nat) | Refused

  datatype Conn = Conn(clients: seq<Client>, conn: Option<nat>, connState: ConnState, mutex: Mutex,
                       waiting: seq<Caller>, replies: map<Caller, Reply>)

  const INITIAL := Conn([], None, Unset, Free, [], map[])

  datatype Step =
    | Connect(caller: Caller)
    | Grant(connectThrows: bool)
    | Emit(client: nat, event: ClientEvent)
    | Continue
    | Take(caller: Caller)
    | MarkDead(client: nat)

  predicate Can(s: Conn, step: Step) {
    match step
    case Connect(caller) => caller !in s.replies && caller !in s.waiting && s.mutex != Handshaking(caller)
                            && s.mutex != Resolved(caller) && s.mutex != Rejected(caller)
    case Grant(_) => s.mutex == Free && s.waiting != []
    case Emit(client, _) => client < |s.clients|
    case Continue => s.mutex.Resolved? || s.mutex.Rejected?
    case Take(caller) => caller in s.replies
    case MarkDead(client) => client < |s.clients|
  }

  predicate Usable(s: Conn) {
    s.conn.Some? && s.connState == Ready
  }

  function StateAfter(event: ClientEvent): ConnState {
    match event
    case EvReady => Ready
    case EvError => Errored
    case EvEnd => Ended
    case EvClose => Closed
  }

  function See(c: Client, event: ClientEvent): Client {
    c.(latest := Some(event), seen := c.seen + {event})
  }

  // How the current handshake promise takes an event of its own client.
  function Hear(m: Mutex, event: ClientEvent): Mutex {
    if !m.Handshaking? then m
    else match event
      case EvReady => Resolved(m.caller)
      case EvEnd => m
      case _ => Rejected(m.caller)
  }

  function End(clients: seq<Client>, conn: Option<nat>): seq<Client> {
    if conn.Some? && conn.value < |clients| then clients[conn.value := clients[conn.value].(ended := true)] else clients
  }

  function Do(s: Conn, step: Step): Conn
    requires Can(s, step)
  {
    match step
    case Connect(caller) =>
      if Usable(s) then s.(replies := s.replies[caller := Connected(s.conn.value)])
      else s.(waiting := s.waiting + [caller])
    case Grant(throws) =>
      var caller := s.waiting[0];
      var t := s.(waiting := s.waiting[1..]);
      if Usable(s) then t.(replies := s.replies[caller := Connected(s.conn.value)])
      else t.(clients := End(s.clients, s.conn) + [Client(1, false, None, {}, throws, false)],
              conn := Some(|s.clients|),
              connState := Connecting,
              mutex := if throws then Rejected(caller) else Handshaking(caller))
    case Emit(c, event) =>
      var t := s.(clients := s.clients[c := See(s.clients[c], event)]);
      if s.conn == Some(c) then t.(connState := StateAfter(event), mutex := Hear(s.mutex, event)) else t
    case Continue =>
      var t := s.(mutex := Free);
      if s.conn == None then t
      else if s.mutex.Resolved? then t.(replies := s.replies[s.mutex.caller := Connected(s.conn.value)])
      else t.(connState := Errored, clients := End(s.clients, s.conn), replies := s.replies[s.mutex.caller := Refused])
    case Take(caller) => s.(replies := s.replies - {caller})
    case MarkDead(c) =>
      var t := s.(clients := s.clients[c := s.clients[c].(foundDead := true)]);
      if s.conn == Some(c) && s.connState == Ready then t.(connState := Closed) else t
  }

  class SshClient {
    var clients: seq<Client>
    var conn: Option<nat>
    var connState: ConnState
    var mutex: Mutex
    var waiting: seq<Caller>
    var replies: map<Caller, Reply>

    constructor ()
      ensures State() == INITIAL
    {
      clients, conn, connState, mutex, waiting, replies := [], None, Unset, Free, [], map[];
    }

    function State(): Conn
      reads this
    {
      Conn(clients, conn, connState, mutex, waiting, replies)
    }

    // The handlers wired up by _createConnection, and the once-listeners of a
    // pending connect().
    method OnClientEvent(client: nat, event: ClientEvent)
      requires Can(State(), Emit(client, event))
      modifies this
      ensures State() == Do(old(State()), Emit(client, event))
    {
      var isCurrent := conn == Some(client);
      clients := clients[client := See(clients[client], event)];
      match event {
        case EvEnd => if isCurrent { connState := Ended; }
        case EvClose => if isCurrent { connState := Closed; }
        case EvError => if isCurrent { connState := Errored; }
        case EvReady => if isCurrent { connState := Ready; }
      }
      if isCurrent && mutex.Handshaking? {
        if event == EvReady {
          mutex := Resolved(mutex.caller);
        } else if event == EvError || event == EvClose {
          mutex := Rejected(mutex.caller);
        }
      }
    }

    method ConnectCall(caller: Caller)
      requires Can(State(), Connect(caller))
      modifies this
      ensures State() == Do(old(State()), Connect(caller))
    {
      if conn.Some? && connState == Ready {
        replies := replies[caller := Connected(conn.value)];
        return;
      }
      waiting := waiting + [caller];
    }

    // The body of _connect() up to its await, entered with the mutex.
    method EnterConnect(connectThrows: bool)
      requires Can(State(), Grant(connectThrows))
      modifies this
      ensures State() == Do(old(State()), Grant(connectThrows))
    {
      var caller := waiting[0];
      waiting := waiting[1..];
      if conn.Some? && connState == Ready {
        replies := replies[caller := Connected(conn.value)];
        return;
      }
      var fresh_ := |clients|;
      if conn.Some? && conn.value < |clients| {
        clients := clients[conn.value := clients[conn.value].(ended := true)];
      }
      clients := clients + [Client(1, false, None, {}, connectThrows, false)];
      conn := Some(fresh_);
      connState := Connecting;
      mutex := if connectThrows then Rejected(caller) else Handshaking(caller);
    }

    // The rest of _connect(), once its handshake promise is settled.
    method LeaveConnect()
      requires Can(State(), Continue)
      modifies this
      ensures State() == Do(old(State()), Continue)
    {
      var holder := mutex;
      mutex := Free;
      if conn == None {
        return;
      }
      if holder.Rejected? {
        connState := Errored;
        if conn.value < |clients| {
          clients := clients[conn.value := clients[conn.value].(ended := true)];
        }
        replies := replies[holder.caller := Refused];
        return;
      }
      replies := replies[holder.caller := Connected(conn.value)];
    }

    // The caller's await goes on with the promise's value.
    method TakeReply(caller: Caller) returns (r: Reply)
      requires Can(State(), Take(caller))
      modifies this
      ensures State() == Do(old(State()), Take(caller)) && r == old(replies)[caller]
    {
      r := replies[caller];
      replies := replies - {caller};
    }

    method FoundDead(client: nat)
      requires Can(State(), MarkDead(client))
      modifies this
      ensures State() == Do(old(State()), MarkDead(client))
    {
      clients := clients[client := clients[client].(foundDead := true)];
      if conn == Some(client) && connState == Ready {
        connState := Closed;
      }
    }
  }

  // ------------------------------------------------------------- all runs ---

  ghost predicate Runs(s: Conn, steps: seq<Step>, t: Conn)
    decreases |steps|
  {
    if steps == [] then s == t else Can(s, steps[0]) && Runs(Do(s, steps[0]), steps[1..], t)
  }

  ghost predicate Reachable(s: Conn) {
    exists steps :: Runs(INITIAL, steps, s)
  }

  lemma NoStepIsARun(s: Conn)
    ensures Runs(s, [], s)
  {
  }

  lemma {:induction false} OneMoreStep(s: Conn, steps: seq<Step>, t: Conn, step: Step)
    requires Runs(s, steps, t) && Can(t, step)
    ensures Runs(s, steps + [step], Do(t, step))
    decreases |steps|
  {
    if steps == [] {
      assert ([] + [step])[1..] == [];
    } else {
      assert (steps + [step])[1..] == steps[1..] + [step];
      OneMoreStep(Do(s, steps[0]), steps[1..], t, step);
    }
  }

  lemma StepIsReachable(s: Conn, step: Step)
    requires Reachable(s) && Can(s, step)
    ensures Reachable(Do(s, step))
  {
    var steps :| Runs(INITIAL, steps, s);
    OneMoreStep(INITIAL, steps, s, step);
  }

  predicate IsCurrent(s: Conn, c: nat) {
    s.conn == Some(c)
  }

  ghost predicate Inv(s: Conn) {
    && (s.conn == None <==> s.clients == [])
    && (s.conn.Some? ==> s.conn.value == |s.clients| - 1)
    && (s.conn == None ==> s.connState == Unset && s.mutex == Free)
    && (forall c | 0 <= c < |s.clients| :: ClientOk(s, c))
    && (forall caller | caller in s.replies :: ReplyOk(s, s.replies[caller]))
    && (s.conn.Some? ==> CurrentOk(s, s.clients[s.conn.value]))
  }

  // A client handed out is one that became ready.
  ghost predicate ReplyOk(s: Conn, r: Reply) {
    r.Connected? ==> r.client < |s.clients| && EvReady in s.clients[r.client].seen
  }

  ghost predicate ClientOk(s: Conn, c: nat)
    requires c < |s.clients|
  {
    var k := s.clients[c];
    && k.connects == 1
    && (k.latest.Some? ==> k.latest.value in k.seen)
    && (k.latest == None ==> k.seen == {})
    && (!k.HandshakeOver() ==> IsCurrent(s, c) && s.mutex.Handshaking?)
    && (!IsCurrent(s, c) ==> k.ended && k.Lost())
  }

  ghost predicate CurrentOk(s: Conn, k: Client) {
    && s.connState != Unset
    && (s.connState == Ready ==> k.latest == Some(EvReady))
    && (s.connState == Connecting ==> k.latest == None && (s.mutex.Handshaking? || (s.mutex.Rejected? && k.threw)))
    && (s.connState != Ready && s.connState != Connecting ==> k.Lost())
    && (s.mutex.Handshaking? ==> !k.HandshakeOver())
    && (s.mutex.Resolved? ==> EvReady in k.seen)
    && (s.mutex.Rejected? ==> k.HandshakeOver() && k.Lost())
  }

  lemma StepKeepsClients(s: Conn, step: Step, c: nat)
    requires Inv(s) && Can(s, step) && c < |Do(s, step).clients|
    ensures ClientOk(Do(s, step), c)
  {
    if c < |s.clients| {
      assert ClientOk(s, c);
    }
  }

  lemma StepKeepsReplies(s: Conn, step: Step, caller: Caller)
    requires Inv(s) && Can(s, step) && caller in Do(s, step).replies
    ensures ReplyOk(Do(s, step), Do(s, step).replies[caller])
  {
    if s.conn.Some? {
      assert ClientOk(s, s.conn.value);
    }
    if caller in s.replies {
      assert ReplyOk(s, s.replies[caller]);
    }
  }

  lemma StepKeepsInv(s: Conn, step: Step)
    requires Inv(s) && Can(s, step)
    ensures Inv(Do(s, step))
  {
    forall c | 0 <= c < |Do(s, step).clients| ensures ClientOk(Do(s, step), c) {
      StepKeepsClients(s, step, c);
    }
    forall caller | caller in Do(s, step).replies ensures ReplyOk(Do(s, step), Do(s, step).replies[caller]) {
      StepKeepsReplies(s, step, caller);
    }
  }

  lemma {:induction false} RunKeepsInv(s: Conn, steps: seq<Step>, t: Conn)
    requires Inv(s) && Runs(s, steps, t)
    ensures Inv(t)
    decreases |steps|
  {
    if steps != [] {
      StepKeepsInv(s, steps[0]);
      RunKeepsInv(Do(s, steps[0]), steps[1..], t);
    }
  }

  lemma ReachableInv(s: Conn)
    requires Reachable(s)
    ensures Inv(s)
  {
    var steps :| Runs(INITIAL, steps, s);
    RunKeepsInv(INITIAL, steps, s);
  }

  /**
   Whatever events old clients still emit: the connection counts as ready only
   while the latest event of the current client is 'ready'; at most one
   handshake is pending, that of the current client under the mutex; connect()
   was called exactly once on every client; and whoever was handed a client
   got one that had become ready.
   */
  lemma ConnectionSafety(s: Conn)
    requires Reachable(s)
    ensures s.connState == Ready ==> s.conn.Some? && s.conn.value < |s.clients|
                                     && s.clients[s.conn.value].latest == Some(EvReady)
    ensures forall c | 0 <= c < |s.clients| && !s.clients[c].HandshakeOver() ::
              s.conn == Some(c) && s.mutex.Handshaking?
    ensures forall c | 0 <= c < |s.clients| :: s.clients[c].connects == 1
    ensures forall caller | caller in s.replies :: ReplyOk(s, s.replies[caller])
  {
    ReachableInv(s);
    forall c | 0 <= c < |s.clients|
      ensures s.clients[c].connects == 1
      ensures !s.clients[c].HandshakeOver() ==> s.conn == Some(c) && s.mutex.Handshaking?
    {
      assert ClientOk(s, c);
    }
  }

  /**
   No needless reconnect: a client is replaced only after it was lost, and
   every replaced client was told to end. So the number of clients ever made
   exceeds the number of lost ones by at most one.
   */
  lemma ReplacedOnlyWhenLost(s: Conn, c: nat)
    requires Reachable(s) && c + 1 < |s.clients|
    ensures s.clients[c].Lost() && s.clients[c].ended
  {
    ReachableInv(s);
    assert ClientOk(s, c);
  }

  lemma CreatesOnlyAfterLoss(s: Conn, step: Step)
    requires Reachable(s) && Can(s, step) && |Do(s, step).clients| > |s.clients|
    ensures step.Grant? && |Do(s, step).clients| == |s.clients| + 1
    ensures s.conn.Some? ==> s.conn.value < |s.clients| && s.clients[s.conn.value].Lost()
    ensures var t := Do(s, step);
            && t.conn == Some(|s.clients|) && t.connState == Connecting
            && t.clients[|s.clients|] == Client(1, false, None, {}, step.connectThrows, false)
  {
    ReachableInv(s);
    if s.conn.Some? {
      assert ClientOk(s, s.conn.value);
    }
  }

  /**
   What an event does: the current client's becomes the state of the connection,
   any other client's nothing; and a client found dead counts as closed.
   */
  lemma EventsExactly(s: Conn, c: nat, event: ClientEvent)
    requires Reachable(s) && Can(s, Emit(c, event))
    ensures var t := Do(s, Emit(c, event));
            && t.conn == s.conn && t.waiting == s.waiting && t.replies == s.replies
            && (s.conn != Some(c) ==> t.connState == s.connState && t.mutex == s.mutex)
            && (s.conn == Some(c) ==>
                  && (t.connState == Ready <==> event == EvReady) && (t.connState == Ended <==> event == EvEnd)
                  && (t.connState == Closed <==> event == EvClose) && (t.connState == Errored <==> event == EvError))
    ensures var t := Do(s, MarkDead(c));
            && t.clients[c].foundDead
            && t.connState == (if s.conn == Some(c) && s.connState == Ready then Closed else s.connState)
  {
  }

  /**
   The mutex is never stuck: when it is free whoever waits can be let in; while a
   handshake is pending its client can still decide it, by any event but an end; and
   once that is decided the caller goes on and frees it. A caller can ask unless it
   has asked already.
   */
  lemma NeverStuck(s: Conn, caller: Caller)
    requires Reachable(s)
    ensures s.mutex == Free && s.waiting != [] ==> forall throws :: Can(s, Grant(throws))
    ensures s.mutex.Handshaking? ==> s.conn.Some? && forall event :: Can(s, Emit(s.conn.value, event))
    ensures s.mutex.Handshaking? ==>
              forall event | s.conn.Some? && Can(s, Emit(s.conn.value, event)) ::
                Do(s, Emit(s.conn.value, event)).mutex.Handshaking? <==> event == EvEnd
    ensures s.mutex.Resolved? || s.mutex.Rejected? ==> Can(s, Continue) && Do(s, Continue).mutex == Free
    ensures Can(s, Connect(caller))
       <==> caller !in s.replies && caller !in s.waiting && (s.mutex == Free || s.mutex.caller != caller)
    ensures caller in s.replies ==> Can(s, Take(caller)) && caller !in Do(s, Take(caller)).replies
  {
    ReachableInv(s);
  }

  // ------------------------------------------------------ what callers get ---

  // The caller is answered by this step.
  predicate Serves(s: Conn, step: Step, caller: Caller) {
    || (step == Connect(caller) && Usable(s))
    || (step.Grant? && Usable(s) && s.waiting != [] && s.waiting[0] == caller)
    || (step == Continue && s.mutex != Free && s.mutex.caller == caller)
  }

  /**
   A caller is answered when it finds the connection ready, on its turn under
   the mutex if not at once, or when its own handshake is over: with the current
   client, unless that handshake failed. Then the client is told to end and the
   connection counts as broken, so that the next caller makes another.
   */
  lemma AnswersExactly(s: Conn, step: Step, caller: Caller)
    requires Reachable(s) && Can(s, step) && caller !in s.replies
    ensures var t := Do(s, step);
            && (caller in t.replies <==> Serves(s, step, caller))
            && (caller in t.replies && t.replies[caller] == Refused <==>
                  step == Continue && s.mutex == Rejected(caller))
            && (caller in t.replies && t.replies[caller] != Refused ==>
                  s.conn.Some? && t.replies[caller] == Connected(s.conn.value) && t.conn == s.conn)
    ensures var t := Do(s, step);
            step == Continue && s.mutex.Rejected? ==>
              s.conn.Some? && s.conn.value < |t.clients| && t.clients[s.conn.value].ended && t.connState == Errored
  {
    ReachableInv(s);
  }

  // A client's handshake is decided by the first of these.
  predicate Decides(event: ClientEvent) {
    event != EvEnd
  }

  // Step i of the run lets the caller in when there is no usable client, and
  // makes client c for it.
  ghost predicate MadeFor(steps: seq<Step>, i: nat, caller: Caller, c: nat) {
    i < |steps| && steps[i].Grant?
    && exists u :: Runs(INITIAL, steps[..i], u) && u.waiting != [] && u.waiting[0] == caller && !Usable(u)
                   && |u.clients| == c
  }

  // The first deciding event of client c after step i is at step j.
  predicate FirstHeard(steps: seq<Step>, i: nat, c: nat, j: nat, event: ClientEvent) {
    && i < j < |steps| && steps[j] == Emit(c, event) && Decides(event)
    && forall k | i < k < j :: !(steps[k].Emit? && steps[k].client == c && Decides(steps[k].event))
  }

  // Nothing has decided it yet.
  predicate Unheard(steps: seq<Step>, i: nat, c: nat)
    requires i < |steps|
  {
    steps[i] == Grant(false)
    && forall k | i < k < |steps| :: !(steps[k].Emit? && steps[k].client == c && Decides(steps[k].event))
  }

  // Its connect() threw, or it was lost before it became ready.
  ghost predicate CameToNothing(steps: seq<Step>, i: nat, c: nat)
    requires i < |steps|
  {
    steps[i] == Grant(true) || exists j, event :: FirstHeard(steps, i, c, j, event) && event != EvReady
  }

  ghost predicate CameUp(steps: seq<Step>, i: nat, c: nat)
    requires i < |steps|
  {
    steps[i] == Grant(false) && exists j :: FirstHeard(steps, i, c, j, EvReady)
  }

  // Nobody has left since.
  predicate StillInside(steps: seq<Step>, i: nat) {
    forall k | i < k < |steps| :: steps[k] != Continue
  }

  // Client c was made for the caller at step i and came to nothing before the
  // caller left at step j, and the caller has not taken its reply since.
  ghost predicate FailedAt(steps: seq<Step>, caller: Caller, i: nat, j: nat, c: nat) {
    && i < j < |steps| && steps[j] == Continue
    && MadeFor(steps[..j], i, caller, c) && CameToNothing(steps[..j], i, c) && StillInside(steps[..j], i)
    && forall k | j < k < |steps| :: steps[k] != Take(caller)
  }

  ghost predicate Failed(steps: seq<Step>, caller: Caller) {
    exists i, j, c :: FailedAt(steps, caller, i, j, c)
  }

  // The history behind who is inside, and behind every refusal.
  ghost predicate History(steps: seq<Step>, s: Conn) {
    && (forall caller | caller in s.replies && s.replies[caller] == Refused :: Failed(steps, caller))
    && (s.mutex != Free ==> s.conn.Some? && exists i :: Inside(steps, s, i))
  }

  ghost predicate Inside(steps: seq<Step>, s: Conn, i: nat)
    requires s.mutex != Free && s.conn.Some?
  {
    && MadeFor(steps, i, s.mutex.caller, s.conn.value) && StillInside(steps, i)
    && (s.mutex.Handshaking? ==> Unheard(steps, i, s.conn.value))
    && (s.mutex.Resolved? ==> CameUp(steps, i, s.conn.value))
    && (s.mutex.Rejected? ==> CameToNothing(steps, i, s.conn.value))
  }

  lemma MadeForStays(steps: seq<Step>, step: Step, i: nat, caller: Caller, c: nat)
    requires MadeFor(steps, i, caller, c)
    ensures MadeFor(steps + [step], i, caller, c) && (steps + [step])[i] == steps[i]
  {
    assert (steps + [step])[..i] == steps[..i];
  }

  lemma HeardStays(steps: seq<Step>, step: Step, i: nat, c: nat)
    requires i < |steps|
    ensures CameToNothing(steps, i, c) ==> CameToNothing(steps + [step], i, c)
    ensures CameUp(steps, i, c) ==> CameUp(steps + [step], i, c)
  {
    forall j, event | FirstHeard(steps, i, c, j, event) ensures FirstHeard(steps + [step], i, c, j, event) {
    }
  }

  // The first deciding event, when there was none before.
  lemma HeardNow(steps: seq<Step>, i: nat, c: nat, event: ClientEvent)
    requires i < |steps| && Unheard(steps, i, c) && Decides(event)
    ensures FirstHeard(steps + [Emit(c, event)], i, c, |steps|, event)
  {
  }

  lemma FailedStays(steps: seq<Step>, step: Step, caller: Caller)
    requires Failed(steps, caller) && step != Take(caller)
    ensures Failed(steps + [step], caller)
  {
    var i: nat, j: nat, c: nat :| FailedAt(steps, caller, i, j, c);
    assert (steps + [step])[..j] == steps[..j];
    assert FailedAt(steps + [step], caller, i, j, c);
  }

  lemma FailedNow(steps: seq<Step>, caller: Caller, i: nat, c: nat)
    requires MadeFor(steps, i, caller, c) && CameToNothing(steps, i, c) && StillInside(steps, i)
    ensures Failed(steps + [Continue], caller)
  {
    assert (steps + [Continue])[..|steps|] == steps;
    assert FailedAt(steps + [Continue], caller, i, |steps|, c);
  }

  lemma MadeNow(steps: seq<Step>, s: Conn, throws: bool)
    requires Runs(INITIAL, steps, s) && Can(s, Grant(throws)) && !Usable(s)
    ensures MadeFor(steps + [Grant(throws)], |steps|, s.waiting[0], |s.clients|)
  {
    assert (steps + [Grant(throws)])[..|steps|] == steps;
  }

  // Who is inside after a step.
  lemma InsideAfter(steps: seq<Step>, s: Conn, step: Step)
    requires Runs(INITIAL, steps, s) && Inv(s) && History(steps, s) && Can(s, step) && Do(s, step).mutex != Free
    ensures Do(s, step).conn.Some? && exists i :: Inside(steps + [step], Do(s, step), i)
  {
    if s.mutex == Free {
      MadeNow(steps, s, step.connectThrows);
      assert Inside(steps + [step], Do(s, step), |steps|);
    } else {
      var i :| Inside(steps, s, i);
      StaysInside(steps, s, step, i);
    }
  }

  lemma StaysInside(steps: seq<Step>, s: Conn, step: Step, i: nat)
    requires Inv(s) && Can(s, step) && s.mutex != Free && Do(s, step).mutex != Free && Inside(steps, s, i)
    ensures Do(s, step).conn == s.conn && Inside(steps + [step], Do(s, step), i)
  {
    MadeForStays(steps, step, i, s.mutex.caller, s.conn.value);
    HeardStays(steps, step, i, s.conn.value);
    if Do(s, step).mutex != s.mutex {
      HeardNow(steps, i, s.conn.value, step.event);
    }
  }

  lemma HistoryAfter(steps: seq<Step>, s: Conn, step: Step)
    requires Runs(INITIAL, steps, s) && Inv(s) && History(steps, s) && Can(s, step)
    ensures History(steps + [step], Do(s, step))
  {
    var t := Do(s, step);
    if t.mutex != Free {
      InsideAfter(steps, s, step);
    }
    forall caller | caller in t.replies && t.replies[caller] == Refused ensures Failed(steps + [step], caller) {
      if caller !in s.replies || s.replies[caller] != Refused {
        var i :| Inside(steps, s, i);
        FailedNow(steps, caller, i, s.conn.value);
      } else {
        FailedStays(steps, step, caller);
      }
    }
  }

  // The last step of a run.
  lemma {:induction false} LastStep(s: Conn, steps: seq<Step>, t: Conn) returns (u: Conn)
    requires steps != [] && Runs(s, steps, t)
    ensures var n := |steps| - 1; Runs(s, steps[..n], u) && Can(u, steps[n]) && t == Do(u, steps[n])
    decreases |steps|
  {
    var n := |steps| - 1;
    if n == 0 {
      u := s;
    } else {
      u := LastStep(Do(s, steps[0]), steps[1..], t);
      assert steps[1..][..n - 1] == steps[..n][1..];
    }
  }

  lemma {:induction false} RunHistory(steps: seq<Step>, s: Conn)
    requires Runs(INITIAL, steps, s)
    ensures History(steps, s)
    decreases |steps|
  {
    if steps != [] {
      var n := |steps| - 1;
      var u := LastStep(INITIAL, steps, s);
      RunHistory(steps[..n], u);
      RunKeepsInv(INITIAL, steps[..n], u);
      HistoryAfter(steps[..n], u, steps[n]);
      assert steps == steps[..n] + [steps[n]];
    }
  }

  /**
   Over every run: a caller is refused only if the client made for it, on this
   its latest turn under the mutex, threw or broke before it became ready; and one
   whose handshake is resolved has a client that became ready first.
   */
  lemma RefusedOnlyAfterFailure(steps: seq<Step>, s: Conn, caller: Caller)
    requires Runs(INITIAL, steps, s)
    ensures caller in s.replies && s.replies[caller] == Refused ==> Failed(steps, caller)
    ensures s.mutex == Resolved(caller) ==>
              s.conn.Some? && exists i :: MadeFor(steps, i, caller, s.conn.value) && CameUp(steps, i, s.conn.value)
  {
    RunHistory(steps, s);
    if s.mutex == Resolved(caller) {
      var i :| Inside(steps, s, i);
      assert MadeFor(steps, i, caller, s.conn.value) && CameUp(steps, i, s.conn.value);
    }
  }

  // ------------------------------------------------- a burst of connects ---

  // Any number of callers that find the connection down, and are let in one
  // after the other once it is up again, share that one new client.
  lemma {:induction false} QueuedCallersShareClient(s: Conn, n: nat) returns (t: Conn, steps: seq<Step>)
    requires s.mutex == Free && Usable(s) && n <= |s.waiting|
    ensures |steps| == n && forall i | 0 <= i < n :: steps[i] == Grant(false)
    ensures Runs(s, steps, t)
    ensures t == s.(waiting := s.waiting[n..], replies := t.replies)
    ensures forall i | 0 <= i < n :: s.waiting[i] in t.replies
              && t.replies[s.waiting[i]] == Connected(s.conn.value)
    ensures forall caller | caller in s.replies && caller !in s.waiting[..n] ::
              caller in t.replies && t.replies[caller] == s.replies[caller]
    decreases n
  {
    if n == 0 {
      t, steps := s, [];
    } else {
      var s1 := Do(s, Grant(false));
      var rest;
      t, rest := QueuedCallersShareClient(s1, n - 1);
      steps := [Grant(false)] + rest;
      assert steps[1..] == rest;
      forall i | 0 <= i < n
        ensures s.waiting[i] in t.replies && t.replies[s.waiting[i]] == Connected(s.conn.value)
      {
        if i == 0 {
          if s.waiting[0] in s1.waiting[..n - 1] {
            var j :| 0 <= j < n - 1 && s1.waiting[j] == s.waiting[0];
          }
        } else {
          assert s1.waiting[i - 1] == s.waiting[i];
        }
      }
      assert s.waiting[..n] == [s.waiting[0]] + s1.waiting[..n - 1];
    }
  }
}
