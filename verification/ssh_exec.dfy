/**
 Commands run over the shared ssh connection. Every exec settles its promise
 once, whichever of the channel closing, a failing request, the connection
 ending, or its timeout comes first; the theorems are about any number of
 execs, sharing one SshConnection, under any interleaving of events.
 */
module SshExec {
  import opened Wrappers
  import opened SshConnection

  datatype Outcome =
    | Completed(stdout: Option<string>, stderr: Option<string>, code: int)
    | TimedOut
    | ConnectionLost
    | Failed

  // AwaitConnect: inside `await client.connect()`; Opening: conn.exec() was
  // called and its callback is due; Streaming: the channel's handlers are
  // attached; Sleeping: waiting to retry; Over: nothing left to do.
  datatype Phase = AwaitConnect | Opening | Streaming | Sleeping | Over

  // sentOut and sentErr are the chunks taken from the channel, in order, each
  // forwarded to the proxy when there is one.
  datatype Exec = Exec(
    proxied: bool, timed: bool, timerArmed: bool, settled: Option<Outcome>, settles: nat, phase: Phase,
    client: nat, listening: bool, stream: Option<nat>, destroyed: bool,
    stdout: Option<string>, stderr: Option<string>,
    sentOut: seq<string>, sentErr: seq<string>, sentClose: bool)

  function NewExec(proxied: bool, timed: bool): Exec {
    Exec(proxied, timed, timed, None, 0, AwaitConnect, 0, false, None, false, None, None, [], [], false)
  }

  // How conn.exec() itself ends.
  datatype Issue = Issued | NotConnected | Threw

  datatype ExecStep =
    | Resume(reply: Reply, issue: Issue)
    | Wake
    | ConnLost
    | Timeout
    | OpenFailed
    | Opened(stream: nat)
    | Data(isErr: bool, chunk: string)
    | ChannelClosed(code: int)
    | Kill

  predicate ExecCan(x: Exec, step: ExecStep) {
    match step
    case Resume(_, _) => x.phase == AwaitConnect
    case Wake => x.phase == Sleeping
    case ConnLost => x.listening
    case Timeout => x.timerArmed
    case OpenFailed => x.phase == Opening
    case Opened(_) => x.phase == Opening
    case Data(_, _) => x.phase == Streaming
    case ChannelClosed(_) => x.phase == Streaming
    case Kill => x.phase == Streaming && x.proxied
  }

  function Settle(x: Exec, o: Outcome): Exec {
    if x.settled.Some? then x
    else x.(settled := Some(o), settles := x.settles + 1, timerArmed := false, listening := false)
  }

  function Append(text: Option<string>, chunk: string): Option<string> {
    Some((if text.Some? then text.value else "") + chunk)
  }

  function ExecDo(x: Exec, step: ExecStep): Exec
    requires ExecCan(x, step)
  {
    match step
    case Resume(Refused, _) => Settle(x, Failed).(phase := Over)
    case Resume(Connected(c), issue) =>
      var y := x.(client := c);
      if x.settled.Some? then y.(phase := Over)
      else (match issue
            case Issued => y.(phase := Opening, listening := true)
            case NotConnected => y.(phase := Sleeping, listening := false)
            case Threw => Settle(y, Failed).(phase := Over))
    case Wake => x.(phase := if x.settled.Some? then Over else AwaitConnect)
    case ConnLost => Settle(x, ConnectionLost)
    case Timeout => Settle(x, TimedOut).(destroyed := x.destroyed || x.stream.Some?)
    case OpenFailed => Settle(x, Failed).(phase := Over)
    case Opened(s) =>
      if x.settled.Some? then x.(stream := Some(s), destroyed := true, phase := Over)
      else x.(stream := Some(s), phase := Streaming)
    case Data(isErr, chunk) =>
      if x.settled.Some? then x
      else if isErr then x.(stderr := Append(x.stderr, chunk), sentErr := x.sentErr + [chunk])
      else x.(stdout := Append(x.stdout, chunk), sentOut := x.sentOut + [chunk])
    case ChannelClosed(code) =>
      if x.settled.Some? then x.(phase := Over)
      else Settle(x, Completed(x.stdout, x.stderr, code)).(phase := Over, sentClose := x.sentClose || x.proxied)
    case Kill => x.(destroyed := true)
  }

  /** One call of _rexec: the closures over its local variables. */
  class RExec {
    const proxied: bool
    const timed: bool
    var timerArmed: bool
    var settled: Option<Outcome>
    ghost var settles: nat
    ghost var phase: Phase
    var client: nat
    var listening: bool
    var stream: Option<nat>
    var destroyed: bool
    var stdout: Option<string>
    var stderr: Option<string>
    var sentOut: seq<string>
    var sentErr: seq<string>
    var sentClose: bool

    constructor (proxied: bool, timeoutMs: nat)
      ensures State() == NewExec(proxied, timeoutMs > 0)
    {
      this.proxied, timed, timerArmed := proxied, timeoutMs > 0, timeoutMs > 0;
      settled, settles, phase := None, 0, AwaitConnect;
      client, listening, stream, destroyed := 0, false, None, false;
      stdout, stderr, sentOut, sentErr, sentClose := None, None, [], [], false;
    }

    ghost function State(): Exec
      reads this
    {
      Exec(proxied, timed, timerArmed, settled, settles, phase, client, listening, stream, destroyed,
           stdout, stderr, sentOut, sentErr, sentClose)
    }

    method SettleWith(o: Outcome)
      modifies this
      ensures State() == Settle(old(State()), o)
    {
      if settled.Some? {
        return;
      }
      settled, settles := Some(o), settles + 1;
      timerArmed := false;
      listening := false;
    }

    // The loop body around connect() and conn.exec(); says whether the client
    // turned out not to be connected.
    method OnConnected(reply: Reply, issue: Issue) returns (dead: bool)
      requires ExecCan(State(), Resume(reply, issue))
      modifies this
      ensures State() == ExecDo(old(State()), Resume(reply, issue))
      ensures dead <==> reply.Connected? && old(settled) == None && issue == NotConnected
    {
      dead := false;
      if reply.Refused? {
        SettleWith(Failed);
        phase := Over;
        return;
      }
      client := reply.client;
      if settled.Some? {
        phase := Over;
        return;
      }
      listening := true;
      match issue {
        case Issued =>
          phase := Opening;
        case Threw =>
          listening := false;
          SettleWith(Failed);
          phase := Over;
        case NotConnected =>
          listening := false;
          dead := true;
          phase := Sleeping;
      }
    }

    // The loop guard, after the sleep.
    method OnWake() returns (again: bool)
      requires ExecCan(State(), Wake)
      modifies this`phase
      ensures State() == ExecDo(old(State()), Wake) && again == (settled == None)
    {
      again := settled == None;
      phase := if settled.Some? then Over else AwaitConnect;
    }

    method OnConnectionEnded()
      requires ExecCan(State(), ConnLost)
      modifies this
      ensures State() == ExecDo(old(State()), ConnLost)
    {
      SettleWith(ConnectionLost);
    }

    method OnTimeout()
      requires ExecCan(State(), Timeout)
      modifies this
      ensures State() == ExecDo(old(State()), Timeout)
    {
      SettleWith(TimedOut);
      if stream.Some? {
        destroyed := true;
      }
    }

    // The callback of conn.exec(): None is an error.
    method OnExec(s: Option<nat>)
      requires ExecCan(State(), OpenFailed)
      modifies this
      ensures State() == ExecDo(old(State()), if s.Some? then Opened(s.value) else OpenFailed)
    {
      if s == None {
        SettleWith(Failed);
        phase := Over;
        return;
      }
      stream := s;
      if settled.Some? {
        destroyed := true;
        phase := Over;
        return;
      }
      phase := Streaming;
    }

    method OnData(isErr: bool, chunk: string)
      requires ExecCan(State(), Data(isErr, chunk))
      modifies this
      ensures State() == ExecDo(old(State()), Data(isErr, chunk))
    {
      if settled.Some? {
        return;
      }
      if isErr {
        sentErr := sentErr + [chunk];
        if stderr == None {
          stderr := Some("");
        }
        stderr := Some(stderr.value + chunk);
      } else {
        sentOut := sentOut + [chunk];
        if stdout == None {
          stdout := Some("");
        }
        stdout := Some(stdout.value + chunk);
      }
    }

    method OnChannelClose(code: int)
      requires ExecCan(State(), ChannelClosed(code))
      modifies this
      ensures State() == ExecDo(old(State()), ChannelClosed(code))
    {
      phase := Over;
      if settled.Some? {
        return;
      }
      SettleWith(Completed(stdout, stderr, code));
      if proxied {
        sentClose := true;
      }
    }

    method OnKill()
      requires ExecCan(State(), Kill)
      modifies this
      ensures State() == ExecDo(old(State()), Kill)
    {
      destroyed := true;
    }
  }

  // ------------------------------------------------- execs on a connection ---

  datatype System = System(conn: Conn, execs: map<nat, Exec>)

  datatype Event =
    | Begin(id: nat, proxied: bool, timed: bool)
    | ConnectionStep(connStep: Step)
    | ClientEmits(client: nat, event: ClientEvent)
    | Resumes(id: nat, issue: Issue)
    | Wakes(id: nat)
    | Own(id: nat, step: ExecStep)

  const EMPTY := System(SshConnection.INITIAL, map[])

  predicate Hears(x: Exec, client: nat, event: ClientEvent) {
    x.listening && x.client == client && (event == EvEnd || event == EvClose)
  }

  // conn.exec() on a client whose socket has closed throws "Not connected".
  predicate Possible(s: System, e: Event) {
    match e
    case Begin(id, _, _) => id !in s.execs && Can(s.conn, Connect(id))
    case ConnectionStep(step) => (step.Grant? || step.Continue?) && Can(s.conn, step)
    case ClientEmits(c, event) => Can(s.conn, Emit(c, event))
    case Resumes(id, issue) =>
      && id in s.execs && s.execs[id].phase == AwaitConnect && Can(s.conn, Take(id))
      && (var r := s.conn.replies[id];
          r.Connected? ==> r.client < |s.conn.clients|
                           && (issue == Issued ==> EvClose !in s.conn.clients[r.client].seen))
    case Wakes(id) => id in s.execs && s.execs[id].phase == Sleeping
                      && (s.execs[id].settled == None ==> Can(s.conn, Connect(id)))
    case Own(id, step) => id in s.execs && ExecCan(s.execs[id], step)
                          && !step.Resume? && !step.Wake? && !step.ConnLost?
  }

  function React(s: System, e: Event): System
    requires Possible(s, e)
  {
    match e
    case Begin(id, proxied, timed) =>
      System(Do(s.conn, Connect(id)), s.execs[id := NewExec(proxied, timed)])
    case ConnectionStep(step) => s.(conn := Do(s.conn, step))
    case ClientEmits(c, event) =>
      System(Do(s.conn, Emit(c, event)),
             map id | id in s.execs ::
               if Hears(s.execs[id], c, event) then ExecDo(s.execs[id], ConnLost) else s.execs[id])
    case Resumes(id, issue) =>
      var x, r := s.execs[id], s.conn.replies[id];
      var conn := Do(s.conn, Take(id));
      System(if r.Connected? && x.settled == None && issue == NotConnected then Do(conn, MarkDead(r.client)) else conn,
             s.execs[id := ExecDo(x, Resume(r, issue))])
    case Wakes(id) =>
      var x := s.execs[id];
      System(if x.settled == None then Do(s.conn, Connect(id)) else s.conn, s.execs[id := ExecDo(x, Wake)])
    case Own(id, step) => s.(execs := s.execs[id := ExecDo(s.execs[id], step)])
  }

  ghost predicate Runs(s: System, events: seq<Event>, t: System)
    decreases |events|
  {
    if events == [] then s == t else Possible(s, events[0]) && Runs(React(s, events[0]), events[1..], t)
  }

  ghost predicate Reachable(s: System) {
    exists events :: Runs(EMPTY, events, s)
  }

  function Joined(chunks: seq<string>): Option<string> {
    if chunks == [] then None else Append(Joined(chunks[..|chunks| - 1]), chunks[|chunks| - 1])
  }

  // From the front.
  function Concat(chunks: seq<string>): string {
    if chunks == [] then "" else chunks[0] + Concat(chunks[1..])
  }

  /** What is kept of the chunks is their text in order, or nothing when there was none. */
  lemma {:induction false} JoinedIsText(chunks: seq<string>)
    ensures Joined(chunks) == if chunks == [] then None else Some(Concat(chunks))
  {
    if chunks != [] {
      var n := |chunks| - 1;
      JoinedIsText(chunks[..n]);
      ConcatOneMore(chunks[..n], chunks[n]);
      assert chunks == chunks[..n] + [chunks[n]];
    }
  }

  lemma {:induction false} ConcatOneMore(chunks: seq<string>, chunk: string)
    ensures Concat(chunks + [chunk]) == Concat(chunks) + chunk
  {
    if chunks == [] {
      assert ([] + [chunk])[1..] == [] && chunk + "" == chunk;
    } else {
      ConcatOneMore(chunks[1..], chunk);
      assert (chunks + [chunk])[1..] == chunks[1..] + [chunk];
      assert chunks[0] + (Concat(chunks[1..]) + chunk) == (chunks[0] + Concat(chunks[1..])) + chunk;
    }
  }

  // The exec is running on its client and its outcome is still open.
  predicate InFlight(x: Exec) {
    x.settled == None && (x.phase == Opening || x.phase == Streaming)
  }

  // Everything one exec guarantees at any time.
  predicate ExecOk(x: Exec) {
    && x.settles == (if x.settled.Some? then 1 else 0)
    && (x.settled.Some? ==> !x.listening && !x.timerArmed)
    && (x.listening <==> InFlight(x))
    && (x.settled == None ==> x.timerArmed == x.timed && x.phase != Over)
    && (x.sentClose <==> x.proxied && x.settled.Some? && x.settled.value.Completed?)
    && x.stdout == Joined(x.sentOut) && x.stderr == Joined(x.sentErr)
    && (x.settled.Some? && x.settled.value.Completed? ==>
          x.settled.value.stdout == x.stdout && x.settled.value.stderr == x.stderr)
    && (x.settled == Some(TimedOut) && x.stream.Some? ==> x.destroyed)
    && (x.stream.Some? ==> x.phase == Streaming || x.phase == Over)
  }

  lemma JoinedOneMore(chunks: seq<string>, chunk: string)
    ensures Joined(chunks + [chunk]) == Append(Joined(chunks), chunk)
  {
    assert (chunks + [chunk])[..|chunks|] == chunks;
  }

  lemma ResumeOk(x: Exec, reply: Reply, issue: Issue)
    requires ExecOk(x) && x.phase == AwaitConnect
    ensures ExecOk(ExecDo(x, Resume(reply, issue)))
    ensures x.settled.Some? ==> Frozen(x, ExecDo(x, Resume(reply, issue)))
  {
  }

  lemma DataOk(x: Exec, isErr: bool, chunk: string)
    requires ExecOk(x) && x.phase == Streaming
    ensures ExecOk(ExecDo(x, Data(isErr, chunk)))
    ensures x.settled.Some? ==> Frozen(x, ExecDo(x, Data(isErr, chunk)))
  {
    if isErr {
      JoinedOneMore(x.sentErr, chunk);
    } else {
      JoinedOneMore(x.sentOut, chunk);
    }
  }

  lemma ChannelClosedOk(x: Exec, code: int)
    requires ExecOk(x) && x.phase == Streaming
    ensures ExecOk(ExecDo(x, ChannelClosed(code)))
    ensures x.settled.Some? ==> Frozen(x, ExecDo(x, ChannelClosed(code)))
  {
  }

  lemma OtherStepOk(x: Exec, step: ExecStep)
    requires ExecOk(x) && ExecCan(x, step) && !step.Data? && !step.ChannelClosed? && !step.Resume?
    ensures ExecOk(ExecDo(x, step))
    ensures x.settled.Some? ==> Frozen(x, ExecDo(x, step))
  {
  }

  lemma ExecStepOk(x: Exec, step: ExecStep)
    requires ExecOk(x) && ExecCan(x, step)
    ensures ExecOk(ExecDo(x, step))
    ensures x.settled.Some? ==> Frozen(x, ExecDo(x, step))
  {
    match step
    case Resume(reply, issue) => ResumeOk(x, reply, issue);
    case Data(isErr, chunk) => DataOk(x, isErr, chunk);
    case ChannelClosed(code) => ChannelClosedOk(x, code);
    case _ => OtherStepOk(x, step);
  }

  // Nothing observable happens to a settled exec any more.
  predicate Frozen(x: Exec, y: Exec) {
    && x.settled.Some? && y.settled == x.settled && y.settles == x.settles
    && y.sentOut == x.sentOut && y.sentErr == x.sentErr && y.sentClose == x.sentClose
    && !y.listening && !y.timerArmed
  }

  // Whoever waits for a connection is queued, being served, or answered.
  predicate Queued(conn: Conn, id: nat) {
    id in conn.waiting || (conn.mutex != Free && conn.mutex.caller == id) || id in conn.replies
  }

  ghost predicate SysInv(s: System) {
    && SshConnection.Inv(s.conn)
    && (forall id | id in s.execs :: ExecOk(s.execs[id]) && OnLiveClient(s.conn, s.execs[id])
                                     && (s.execs[id].phase == AwaitConnect ==> Queued(s.conn, id)))
  }

  predicate OnLiveClient(conn: Conn, x: Exec) {
    x.listening ==> x.client < |conn.clients| && EvClose !in conn.clients[x.client].seen
  }

  lemma ConnStepFrame(conn: Conn, step: Step, x: Exec, id: nat)
    requires SshConnection.Inv(conn) && Can(conn, step) && OnLiveClient(conn, x)
    requires !step.Emit?
    ensures OnLiveClient(Do(conn, step), x)
    ensures Queued(conn, id) && step != Take(id) ==> Queued(Do(conn, step), id)
  {
    if step.Grant? && id in conn.waiting {
      assert conn.waiting == [conn.waiting[0]] + conn.waiting[1..];
    }
  }

  // The connection side of a reaction.
  lemma ReactKeepsConn(s: System, e: Event)
    requires SshConnection.Inv(s.conn) && Possible(s, e)
    ensures SshConnection.Inv(React(s, e).conn)
  {
    match e
    case Begin(id, _, _) => StepKeepsInv(s.conn, Connect(id));
    case ConnectionStep(step) => StepKeepsInv(s.conn, step);
    case ClientEmits(c, event) => StepKeepsInv(s.conn, Emit(c, event));
    case Resumes(id, issue) =>
      StepKeepsInv(s.conn, Take(id));
      var r := s.conn.replies[id];
      if r.Connected? && s.execs[id].settled == None && issue == NotConnected {
        StepKeepsInv(Do(s.conn, Take(id)), MarkDead(r.client));
      }
    case Wakes(id) =>
      if s.execs[id].settled == None {
        StepKeepsInv(s.conn, Connect(id));
      }
    case Own(_, _) =>
  }

  ghost predicate ExecFits(conn: Conn, x: Exec, id: nat) {
    ExecOk(x) && OnLiveClient(conn, x) && (x.phase == AwaitConnect ==> Queued(conn, id))
  }

  // An exec the event is not about.
  lemma ReactKeepsOthers(s: System, e: Event, id: nat)
    requires SysInv(s) && Possible(s, e) && id in s.execs
    requires !e.ClientEmits? && (e.ConnectionStep? || e.id != id)
    ensures id in React(s, e).execs && React(s, e).execs[id] == s.execs[id]
    ensures ExecFits(React(s, e).conn, s.execs[id], id)
  {
    var x := s.execs[id];
    match e
    case Begin(other, _, _) => ConnStepFrame(s.conn, Connect(other), x, id);
    case ConnectionStep(step) => ConnStepFrame(s.conn, step, x, id);
    case Resumes(other, issue) =>
      ConnStepFrame(s.conn, Take(other), x, id);
      var r := s.conn.replies[other];
      if r.Connected? && s.execs[other].settled == None && issue == NotConnected {
        StepKeepsInv(s.conn, Take(other));
        ConnStepFrame(Do(s.conn, Take(other)), MarkDead(r.client), x, id);
      }
    case Wakes(other) =>
      if s.execs[other].settled == None {
        ConnStepFrame(s.conn, Connect(other), x, id);
      }
    case Own(_, _) =>
  }

  // The exec the event is about.
  lemma ResumesKeepsOwn(s: System, id: nat, issue: Issue)
    requires SysInv(s) && Possible(s, Resumes(id, issue))
    ensures ExecFits(React(s, Resumes(id, issue)).conn, React(s, Resumes(id, issue)).execs[id], id)
    ensures s.execs[id].settled.Some? ==> Frozen(s.execs[id], React(s, Resumes(id, issue)).execs[id])
  {
    ResumeOk(s.execs[id], s.conn.replies[id], issue);
  }

  lemma WakesKeepsOwn(s: System, id: nat)
    requires SysInv(s) && Possible(s, Wakes(id))
    ensures ExecFits(React(s, Wakes(id)).conn, React(s, Wakes(id)).execs[id], id)
    ensures s.execs[id].settled.Some? ==> Frozen(s.execs[id], React(s, Wakes(id)).execs[id])
  {
    ExecStepOk(s.execs[id], Wake);
  }

  lemma OwnKeepsOwn(s: System, id: nat, step: ExecStep)
    requires SysInv(s) && Possible(s, Own(id, step))
    ensures ExecFits(s.conn, ExecDo(s.execs[id], step), id)
    ensures s.execs[id].settled.Some? ==> Frozen(s.execs[id], ExecDo(s.execs[id], step))
  {
    ExecStepOk(s.execs[id], step);
  }

  lemma ReactKeepsOwn(s: System, e: Event)
    requires SysInv(s) && Possible(s, e)
    requires !e.ClientEmits? && !e.ConnectionStep? && !e.Begin?
    ensures ExecFits(React(s, e).conn, React(s, e).execs[e.id], e.id)
    ensures s.execs[e.id].settled.Some? ==> Frozen(s.execs[e.id], React(s, e).execs[e.id])
  {
    match e
    case Resumes(id, issue) => ResumesKeepsOwn(s, id, issue);
    case Wakes(id) => WakesKeepsOwn(s, id);
    case Own(id, step) => OwnKeepsOwn(s, id, step);
  }

  lemma ReactKeepsEmits(s: System, c: nat, event: ClientEvent, id: nat)
    requires SysInv(s) && Possible(s, ClientEmits(c, event)) && id in s.execs
    ensures ExecFits(React(s, ClientEmits(c, event)).conn, React(s, ClientEmits(c, event)).execs[id], id)
    ensures s.execs[id].settled.Some? ==> Frozen(s.execs[id], React(s, ClientEmits(c, event)).execs[id])
  {
    var x := s.execs[id];
    if Hears(x, c, event) {
      ExecStepOk(x, ConnLost);
    }
  }

  lemma ReactKeepsInv(s: System, e: Event)
    requires SysInv(s) && Possible(s, e)
    ensures SysInv(React(s, e))
    ensures forall id | id in s.execs ::
              id in React(s, e).execs && (s.execs[id].settled.Some? ==> Frozen(s.execs[id], React(s, e).execs[id]))
  {
    ReactKeepsConn(s, e);
    var t := React(s, e);
    forall id | id in t.execs
      ensures ExecFits(t.conn, t.execs[id], id)
      ensures id in s.execs && s.execs[id].settled.Some? ==> Frozen(s.execs[id], t.execs[id])
    {
      if e.ClientEmits? {
        ReactKeepsEmits(s, e.client, e.event, id);
      } else if e.ConnectionStep? || e.id != id {
        ReactKeepsOthers(s, e, id);
      } else if !e.Begin? {
        ReactKeepsOwn(s, e);
      }
    }
  }

  lemma {:induction false} RunKeepsInv(s: System, events: seq<Event>, t: System)
    requires SysInv(s) && Runs(s, events, t)
    ensures SysInv(t)
    ensures forall id | id in s.execs ::
              id in t.execs && (s.execs[id].settled.Some? ==> Frozen(s.execs[id], t.execs[id]))
    decreases |events|
  {
    if events != [] {
      ReactKeepsInv(s, events[0]);
      RunKeepsInv(React(s, events[0]), events[1..], t);
    } else {
      forall id | id in s.execs && s.execs[id].settled.Some? ensures Frozen(s.execs[id], t.execs[id]) {
        assert ExecOk(s.execs[id]);
      }
    }
  }

  /**
   Per exec, in every run: the promise settles at most once; connection
   listeners are attached exactly while it is in flight, so never after it has
   settled; an open exec with a timeout still has its timer; `close` is
   forwarded exactly when the exec's own channel closing settled it; its
   result is the concatenation of the forwarded chunks; and after a timeout
   its channel, opened before or later, has been destroyed.
   */
  lemma ExecSafety(s: System, id: nat)
    requires Reachable(s) && id in s.execs
    ensures var x := s.execs[id];
            && x.settles <= 1 && (x.settles == 1 <==> x.settled.Some?)
            && (x.listening <==> InFlight(x))
            && (x.settled == None && x.timed ==> x.timerArmed)
            && (x.sentClose <==> x.proxied && x.settled.Some? && x.settled.value.Completed?)
            && (x.settled.Some? && x.settled.value.Completed? ==>
                  x.settled.value.stdout == Joined(x.sentOut) && x.settled.value.stderr == Joined(x.sentErr))
            && (x.settled == Some(TimedOut) && x.stream.Some? ==> x.destroyed)
  {
    var events :| Runs(EMPTY, events, s);
    RunKeepsInv(EMPTY, events, s);
    assert ExecOk(s.execs[id]);
  }

  // ------------------------------------------------- what settled an exec ---

  // What an event is to one exec.
  function StepFor(s: System, e: Event, id: nat): Option<ExecStep>
    requires Possible(s, e) && id in s.execs
  {
    match e
    case ClientEmits(c, event) => if Hears(s.execs[id], c, event) then Some(ConnLost) else None
    case Resumes(other, issue) => if other == id then Some(Resume(s.conn.replies[id], issue)) else None
    case Wakes(other) => if other == id then Some(Wake) else None
    case Own(other, step) => if other == id then Some(step) else None
    case _ => None
  }

  lemma ReactIs(s: System, e: Event, id: nat)
    requires Possible(s, e) && id in s.execs
    ensures var step, t := StepFor(s, e, id), React(s, e);
            && (step.Some? ==> ExecCan(s.execs[id], step.value))
            && id in t.execs
            && t.execs[id] == if step == None then s.execs[id] else ExecDo(s.execs[id], step.value)
  {
  }

  // The event by which an open exec comes to this outcome.
  predicate Causes(s: System, e: Event, id: nat, o: Outcome)
    requires Possible(s, e) && id in s.execs
  {
    match o
    case Completed(_, _, code) => e == Own(id, ChannelClosed(code))
    case TimedOut => e == Own(id, Timeout)
    case ConnectionLost =>
      e.ClientEmits? && (e.event == EvEnd || e.event == EvClose) && e.client == s.execs[id].client
      && InFlight(s.execs[id])
    case Failed =>
      e == Own(id, OpenFailed) || (e.Resumes? && e.id == id && (s.conn.replies[id] == Refused || e.issue == Threw))
  }

  /**
   Exactly which event settles an open exec, and how: its own channel closing with
   the code and all chunks so far, its own timeout, its own client ending, or its
   request failing.
   */
  lemma SettlesExactly(s: System, e: Event, id: nat, o: Outcome)
    requires SysInv(s) && Possible(s, e) && id in s.execs && s.execs[id].settled == None
    ensures var x, y := s.execs[id], React(s, e).execs[id];
            y.settled == Some(o)
            <==> Causes(s, e, id, o)
                 && (o.Completed? ==> o.stdout == Joined(x.sentOut) && o.stderr == Joined(x.sentErr))
  {
    ReactIs(s, e, id);
    var step := StepFor(s, e, id);
    if step.Some? {
      ExecSettles(s.execs[id], step.value, o);
    }
  }

  lemma ExecSettles(x: Exec, step: ExecStep, o: Outcome)
    requires ExecOk(x) && ExecCan(x, step) && x.settled == None
    ensures ExecDo(x, step).settled == Some(o)
            <==> (match o
                  case Completed(out, err, code) =>
                    step == ChannelClosed(code) && out == Joined(x.sentOut) && err == Joined(x.sentErr)
                  case TimedOut => step == Timeout
                  case ConnectionLost => step == ConnLost
                  case Failed => step == OpenFailed || (step.Resume? && (step.reply == Refused || step.issue == Threw)))
  {
    if step.Resume? {
      ResumeEffects(x, step.reply, step.issue);
    } else if step.Data? || step.Opened? || step.Kill? || step.Wake? {
      RunningEffects(x, step);
    } else {
      EndingEffects(x, step);
    }
  }

  lemma ResumeEffects(x: Exec, reply: Reply, issue: Issue)
    requires x.phase == AwaitConnect
    ensures var y := ExecDo(x, Resume(reply, issue));
            && y.sentOut == x.sentOut && y.sentErr == x.sentErr && y.destroyed == x.destroyed
            && y.settled == if x.settled == None && (reply == Refused || issue == Threw) then Some(Failed)
                            else x.settled
  {
    match reply
    case Refused =>
    case Connected(_) =>
      if x.settled == None {
        match issue
        case Issued =>
        case NotConnected =>
        case Threw =>
      }
  }

  lemma RunningEffects(x: Exec, step: ExecStep)
    requires ExecCan(x, step) && (step.Data? || step.Opened? || step.Kill? || step.Wake?)
    ensures var y := ExecDo(x, step);
            && y.settled == x.settled
            && y.destroyed == (x.destroyed || step == Kill || (step.Opened? && x.settled.Some?))
            && (x.settled == None ==>
                  && y.sentOut == x.sentOut + (if step.Data? && !step.isErr then [step.chunk] else [])
                  && y.sentErr == x.sentErr + (if step.Data? && step.isErr then [step.chunk] else []))
  {
  }

  lemma EndingEffects(x: Exec, step: ExecStep)
    requires ExecCan(x, step) && !(step.Data? || step.Opened? || step.Kill? || step.Wake? || step.Resume?)
    ensures var y := ExecDo(x, step);
            && y.sentOut == x.sentOut && y.sentErr == x.sentErr
            && y.destroyed == (x.destroyed || (step == Timeout && x.stream.Some?))
            && y.settled == (if x.settled.Some? then x.settled
                             else match step
                               case ChannelClosed(code) => Some(Completed(x.stdout, x.stderr, code))
                               case Timeout => Some(TimedOut)
                               case ConnLost => Some(ConnectionLost)
                               case _ => Some(Failed))
  {
    match step
    case ChannelClosed(code) => SettleEffects(x, Completed(x.stdout, x.stderr, code));
    case Timeout => SettleEffects(x, TimedOut);
    case ConnLost => SettleEffects(x, ConnectionLost);
    case OpenFailed => SettleEffects(x, Failed);
  }

  lemma SettleEffects(x: Exec, o: Outcome)
    ensures var y := Settle(x, o);
            && y.sentOut == x.sentOut && y.sentErr == x.sentErr && y.destroyed == x.destroyed
            && y.settled == if x.settled == None then Some(o) else x.settled
  {
  }

  // The chunks the exec's channel brought, by the events of a run.
  function Chunks(events: seq<Event>, id: nat, isErr: bool): seq<string> {
    if events == [] then []
    else
      var n := |events| - 1;
      Chunks(events[..n], id, isErr) + Brought(events[n], id, isErr)
  }

  function Brought(e: Event, id: nat, isErr: bool): seq<string> {
    if e.Own? && e.id == id && e.step.Data? && e.step.isErr == isErr then [e.step.chunk] else []
  }

  // Everything the channel brought has been kept and forwarded.
  predicate HasAll(events: seq<Event>, s: System, id: nat) {
    if id in s.execs then
      s.execs[id].sentOut == Chunks(events, id, false) && s.execs[id].sentErr == Chunks(events, id, true)
    else Chunks(events, id, false) == Chunks(events, id, true) == []
  }

  // The last event of a run.
  lemma {:induction false} LastEvent(s: System, events: seq<Event>, t: System) returns (u: System)
    requires events != [] && Runs(s, events, t)
    ensures var n := |events| - 1; Runs(s, events[..n], u) && Possible(u, events[n]) && t == React(u, events[n])
    decreases |events|
  {
    var n := |events| - 1;
    if n == 0 {
      u := s;
    } else {
      u := LastEvent(React(s, events[0]), events[1..], t);
      assert events[1..][..n - 1] == events[..n][1..];
    }
  }

  lemma ReactSends(s: System, e: Event, id: nat)
    requires Possible(s, e) && id in s.execs && s.execs[id].settled == None
    ensures var x, y := s.execs[id], React(s, e).execs[id];
            && y.sentOut == x.sentOut + Brought(e, id, false) && y.sentErr == x.sentErr + Brought(e, id, true)
  {
    ReactIs(s, e, id);
    var step := StepFor(s, e, id);
    if step.Some? {
      ExecSends(s.execs[id], step.value);
    }
  }

  lemma ExecSends(x: Exec, step: ExecStep)
    requires ExecCan(x, step) && x.settled == None
    ensures var y := ExecDo(x, step);
            && y.sentOut == x.sentOut + (if step.Data? && !step.isErr then [step.chunk] else [])
            && y.sentErr == x.sentErr + (if step.Data? && step.isErr then [step.chunk] else [])
  {
    if step.Resume? {
      ResumeEffects(x, step.reply, step.issue);
    } else if step.Data? || step.Opened? || step.Kill? || step.Wake? {
      RunningEffects(x, step);
    } else {
      EndingEffects(x, step);
    }
  }

  lemma BeginsEmpty(s: System, e: Event, id: nat)
    requires Possible(s, e) && id !in s.execs
    ensures Brought(e, id, false) == Brought(e, id, true) == []
    ensures id in React(s, e).execs ==>
              var y := React(s, e).execs[id]; y.settled == None && y.sentOut == y.sentErr == []
  {
  }

  lemma {:induction false} OpenHasAll(events: seq<Event>, s: System, id: nat)
    requires Runs(EMPTY, events, s) && (id in s.execs ==> s.execs[id].settled == None)
    ensures HasAll(events, s, id)
    decreases |events|
  {
    if events != [] {
      var n := |events| - 1;
      var u := LastEvent(EMPTY, events, s);
      RunKeepsInv(EMPTY, events[..n], u);
      ReactKeepsInv(u, events[n]);
      OpenHasAll(events[..n], u, id);
      if id in u.execs {
        ReactSends(u, events[n], id);
      } else {
        BeginsEmpty(u, events[n], id);
      }
    }
  }

  /**
   Over every run: the outcome of an exec goes back to one event of the run, which
   found it open and settled it, and which is the cause the outcome names; the
   output is all the channel brought before that, in order, and nothing after.
   */
  lemma {:induction false} OutcomeHasItsCause(events: seq<Event>, s: System, id: nat) returns (k: nat, u: System)
    requires Runs(EMPTY, events, s) && id in s.execs && s.execs[id].settled.Some?
    ensures k < |events| && Runs(EMPTY, events[..k], u) && Possible(u, events[k])
    ensures id in u.execs && u.execs[id].settled == None
    ensures id in React(u, events[k]).execs && React(u, events[k]).execs[id].settled == s.execs[id].settled
    ensures Causes(u, events[k], id, s.execs[id].settled.value)
    ensures s.execs[id].sentOut == Chunks(events[..k], id, false)
    ensures s.execs[id].sentErr == Chunks(events[..k], id, true)
    ensures var o := s.execs[id].settled.value;
            o.Completed? ==> o.stdout == Joined(Chunks(events[..k], id, false))
                             && o.stderr == Joined(Chunks(events[..k], id, true))
    decreases |events|
  {
    assert events != [];
    var n := |events| - 1;
    u := LastEvent(EMPTY, events, s);
    RunKeepsInv(EMPTY, events[..n], u);
    ReactKeepsInv(u, events[n]);
    if id in u.execs && u.execs[id].settled.Some? {
      assert Frozen(u.execs[id], s.execs[id]);
      k, u := OutcomeHasItsCause(events[..n], u, id);
      assert events[..n][..k] == events[..k];
    } else {
      k := n;
      SettledHere(events[..n], u, events[n], id);
    }
  }

  // The outcome comes from the last event.
  lemma SettledHere(events: seq<Event>, u: System, e: Event, id: nat)
    requires Runs(EMPTY, events, u) && Possible(u, e) && (id in u.execs ==> u.execs[id].settled == None)
    requires id in React(u, e).execs && React(u, e).execs[id].settled.Some?
    ensures id in u.execs && Causes(u, e, id, React(u, e).execs[id].settled.value)
    ensures var y := React(u, e).execs[id];
            && y.sentOut == Chunks(events, id, false) && y.sentErr == Chunks(events, id, true)
            && (y.settled.value.Completed? ==>
                  y.settled.value.stdout == Joined(y.sentOut) && y.settled.value.stderr == Joined(y.sentErr))
  {
    RunKeepsInv(EMPTY, events, u);
    if id !in u.execs {
      BeginsEmpty(u, e, id);
    }
    SettlesExactly(u, e, id, React(u, e).execs[id].settled.value);
    OpenHasAll(events, u, id);
    ReactSends(u, e, id);
  }

  /** Exactly what destroys a channel: a kill, a timeout, or its opening too late. */
  lemma DestroysExactly(s: System, e: Event, id: nat)
    requires SysInv(s) && Possible(s, e) && id in s.execs
    ensures var x := s.execs[id];
            React(s, e).execs[id].destroyed
            <==> x.destroyed || e == Own(id, Kill) || (e == Own(id, Timeout) && x.stream.Some?)
                 || (e.Own? && e.id == id && e.step.Opened? && x.settled.Some?)
  {
    ReactIs(s, e, id);
    var step := StepFor(s, e, id);
    if step.Some? {
      ExecDestroys(s.execs[id], step.value);
    }
  }

  lemma ExecDestroys(x: Exec, step: ExecStep)
    requires ExecCan(x, step)
    ensures ExecDo(x, step).destroyed
            <==> x.destroyed || step == Kill || (step == Timeout && x.stream.Some?) || (step.Opened? && x.settled.Some?)
  {
    if step.Resume? {
      ResumeEffects(x, step.reply, step.issue);
    } else if step.Data? || step.Opened? || step.Kill? || step.Wake? {
      RunningEffects(x, step);
    } else {
      EndingEffects(x, step);
    }
  }

  /**
   A channel's life: the one that opens is kept, and streams unless it came too
   late; a request that fails and a channel that closes leave nothing to do. And what
   an exec starts with.
   */
  lemma ChannelLife(s: System, e: Event, id: nat)
    requires SysInv(s) && Possible(s, e)
    ensures e.Own? && e.id == id && e.step.Opened? ==>
              var y := React(s, e).execs[id];
              y.stream == Some(e.step.stream) && y.phase == if s.execs[id].settled == None then Streaming else Over
    ensures e.Own? && e.id == id && (e.step.OpenFailed? || e.step.ChannelClosed?) ==>
              React(s, e).execs[id].phase == Over
    ensures e.Begin? && e.id == id ==>
              var y := React(s, e).execs[id];
              && y.proxied == e.proxied && y.timed == e.timed && y.timerArmed == e.timed && y.settled == None
              && y.phase == AwaitConnect && y.stream == None && !y.destroyed && !y.sentClose
              && y.stdout == y.stderr == None && Queued(React(s, e).conn, id)
  {
  }

  // What an event is to the connection.
  function ConnSteps(s: System, e: Event): seq<Step>
    requires Possible(s, e)
  {
    match e
    case Begin(id, _, _) => [Connect(id)]
    case ConnectionStep(step) => [step]
    case ClientEmits(c, event) => [Emit(c, event)]
    case Resumes(id, issue) =>
      var r := s.conn.replies[id];
      [Take(id)] + if r.Connected? && s.execs[id].settled == None && issue == NotConnected then [MarkDead(r.client)]
                   else []
    case Wakes(id) => if s.execs[id].settled == None then [Connect(id)] else []
    case Own(_, _) => []
  }

  lemma ConnectionMoves(s: System, e: Event)
    requires Possible(s, e)
    ensures SshConnection.Runs(s.conn, ConnSteps(s, e), React(s, e).conn)
  {
    var steps, t := ConnSteps(s, e), React(s, e).conn;
    if |steps| > 0 {
      assert SshConnection.Runs(Do(s.conn, steps[0]), steps[1..], t);
    }
  }

  // A command that fails with some output, over a connection made for it, and is
  // killed in vain.
  lemma ACommandFails()
    ensures exists s :: Reachable(s) && 7 in s.execs && s.execs[7].settled == Some(Completed(Some("no pool"), None, 1))
  {
    var s := ACommandRuns(7, 3);
    s := Happens(s, Own(7, Data(false, "no pool")));
    s := Happens(s, Own(7, Kill));
    s := Happens(s, Own(7, ChannelClosed(1)));
    assert "" + "no pool" == "no pool";
  }

  lemma ACommandRuns(id: nat, stream: nat) returns (s: System)
    ensures Reachable(s) && id in s.execs
    ensures s.execs[id] == NewExec(true, true).(phase := Streaming, listening := true, stream := Some(stream))
  {
    s := ACommandIsIssued(id);
    s := Happens(s, Own(id, Opened(stream)));
  }

  lemma ACommandIsIssued(id: nat) returns (s: System)
    ensures Reachable(s) && id in s.execs
    ensures s.execs[id] == NewExec(true, true).(phase := Opening, listening := true)
  {
    assert Runs(EMPTY, [], EMPTY);
    s := Happens(EMPTY, Begin(id, true, true));
    s := Happens(s, ConnectionStep(Grant(false)));
    s := Happens(s, ClientEmits(0, EvReady));
    s := Happens(s, ConnectionStep(Continue));
    s := Happens(s, Resumes(id, Issued));
  }

  lemma Happens(s: System, e: Event) returns (t: System)
    requires Reachable(s) && Possible(s, e)
    ensures Reachable(t) && t == React(s, e)
  {
    t := React(s, e);
    var events :| Runs(EMPTY, events, s);
    OneMoreEvent(EMPTY, events, s, e);
  }

  lemma {:induction false} OneMoreEvent(s: System, events: seq<Event>, t: System, e: Event)
    requires Runs(s, events, t) && Possible(t, e)
    ensures Runs(s, events + [e], React(t, e))
    decreases |events|
  {
    if events == [] {
      assert [] + [e] == [e];
    } else {
      assert (events + [e])[1..] == events[1..] + [e];
      OneMoreEvent(React(s, events[0]), events[1..], t, e);
    }
  }

  /**
   The connect loop: with a client, an open exec runs on that client, or, when it
   turns out dead, sleeps, and no connect takes the dead client for usable any
   more; it wakes up to ask for a connection again. A settled exec stops at either
   point.
   */
  lemma ConnectLoop(s: System, e: Event, id: nat)
    requires SysInv(s) && Possible(s, e) && id in s.execs && (e.Resumes? || e.Wakes?) && e.id == id
    ensures var x, t := s.execs[id], React(s, e);
            var y := t.execs[id];
            && (x.settled.Some? ==> y.phase == Over)
            && (x.settled == None && e.Wakes? ==> y.phase == AwaitConnect && Queued(t.conn, id))
            && (x.settled == None && e.Resumes? && s.conn.replies[id].Connected? ==>
                  var c := s.conn.replies[id].client;
                  && y.client == c
                  && (e.issue == Issued ==> y.phase == Opening && y.listening)
                  && (e.issue == NotConnected ==>
                        y.phase == Sleeping && c < |t.conn.clients| && t.conn.clients[c].foundDead
                        && !(Usable(t.conn) && t.conn.conn == Some(c))))
  {
    if e.Wakes? {
      WakesKeepsOwn(s, id);
    }
  }

  /** Once settled, nothing is forwarded and nothing changes, however the run goes on. */
  lemma SettledIsFinal(s: System, events: seq<Event>, t: System, id: nat)
    requires Reachable(s) && Runs(s, events, t) && id in s.execs && s.execs[id].settled.Some?
    ensures id in t.execs && t.execs[id].settled == s.execs[id].settled
    ensures t.execs[id].sentOut == s.execs[id].sentOut && t.execs[id].sentErr == s.execs[id].sentErr
    ensures t.execs[id].sentClose == s.execs[id].sentClose
  {
    var before :| Runs(EMPTY, before, s);
    RunKeepsInv(EMPTY, before, s);
    RunKeepsInv(s, events, t);
    assert Frozen(s.execs[id], t.execs[id]);
  }

  /**
   No orphans: an exec whose client has closed is settled or not in flight, and
   an exec waiting for a connection is queued, being served or answered.
   */
  lemma NoOrphans(s: System, id: nat)
    requires Reachable(s) && id in s.execs
    ensures var x := s.execs[id];
            && (InFlight(x) ==> x.client < |s.conn.clients| && EvClose !in s.conn.clients[x.client].seen)
            && (x.phase == AwaitConnect ==> Queued(s.conn, id))
  {
    var events :| Runs(EMPTY, events, s);
    RunKeepsInv(EMPTY, events, s);
    assert ExecFits(s.conn, s.execs[id], id);
  }

  /** The connection under any number of execs is a reachable connection, safety included. */
  lemma SystemKeepsConnectionSafety(s: System)
    requires Reachable(s)
    ensures SshConnection.Reachable(s.conn) && SshConnection.Inv(s.conn)
  {
    var events :| Runs(EMPTY, events, s);
    SshConnection.NoStepIsARun(SshConnection.INITIAL);
    RunKeepsConnReachable(EMPTY, events, s);
    SshConnection.ReachableInv(s.conn);
  }

  lemma {:induction false} RunKeepsConnReachable(s: System, events: seq<Event>, t: System)
    requires SshConnection.Reachable(s.conn) && Runs(s, events, t)
    ensures SshConnection.Reachable(t.conn)
    decreases |events|
  {
    if events != [] {
      ReactKeepsConnReachable(s, events[0]);
      RunKeepsConnReachable(React(s, events[0]), events[1..], t);
    }
  }

  // What an event does to the connection, as steps of its own.
  lemma ReactKeepsConnReachable(s: System, e: Event)
    requires SshConnection.Reachable(s.conn) && Possible(s, e)
    ensures SshConnection.Reachable(React(s, e).conn)
  {
    match e
    case Begin(id, _, _) => StepIsReachable(s.conn, Connect(id));
    case ConnectionStep(step) => StepIsReachable(s.conn, step);
    case ClientEmits(c, event) => StepIsReachable(s.conn, Emit(c, event));
    case Resumes(id, issue) =>
      StepIsReachable(s.conn, Take(id));
      var x, r, conn := s.execs[id], s.conn.replies[id], Do(s.conn, Take(id));
      if r.Connected? && x.settled == None && issue == NotConnected {
        StepIsReachable(conn, MarkDead(r.client));
      }
    case Wakes(id) =>
      if s.execs[id].settled == None {
        StepIsReachable(s.conn, Connect(id));
      }
    case Own(_, _) =>
  }
}
