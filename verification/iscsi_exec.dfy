/**
 iscsiadm calls of one process: a first-in first-out mutex around every
 attempt, a bounded number of attempts per call, and a SIGKILL that follows
 the spawn timeout's SIGTERM.
 */
module IscsiExec {
  import opened Wrappers

  // How an attempt ended, as spawnOnce reports it: Signalled is a close without
  // an exit code; the other two are error events, SpawnError when the child
  // never ran, KillFailed when a signal could not be sent to it and it runs on.
  datatype Ending = Succeeded | ExitedWith(code: int) | Signalled | SpawnError | KillFailed

  datatype Phase = Queued | Running | Backoff | Done

  // `retries` is what the call was started with; `endings` are the endings of
  // the attempts made so far, in order.
  datatype Call = Call(retries: int, maxAttempts: nat, phase: Phase, endings: seq<Ending>)

  // `abandoned`: its attempt ended without it.
  datatype Child = Child(call: nat, alive: bool, abandoned: bool, timed: bool, killArmed: bool, kills: nat)

  // `tickets` and `entered` are history: who asked for the mutex, and who has
  // got it, in order.
  datatype Exec = Exec(waiting: seq<nat>, holder: Option<nat>, calls: map<nat, Call>, children: seq<Child>,
                       tickets: seq<nat>, entered: seq<nat>)

  const INITIAL := Exec([], None, map[], [], [], [])

  datatype Step =
    | Start(id: nat, retries: int)
    | Enter(timeoutMs: nat)
    | Ends(ending: Ending)
    | KillTimer
    | Retry(id: nat)
    | Leaves(k: nat)

  function MaxAttempts(retries: int): nat {
    1 + (if retries > 0 then retries else 0)
  }

  // The child of the attempt that holds the mutex.
  function Current(s: Exec): Option<Child> {
    if s.children == [] then None else Some(s.children[|s.children| - 1])
  }

  predicate Can(s: Exec, step: Step) {
    match step
    case Start(id, _) => id !in s.calls
    case Enter(_) => s.holder == None && s.waiting != []
    case Ends(ending) =>
      && s.holder.Some? && s.holder.value in s.calls && s.children != [] && Current(s).value.alive
      && (ending == KillFailed ==> Current(s).value.timed)
    case KillTimer => s.children != [] && Current(s).value.killArmed
    case Retry(id) => id in s.calls && s.calls[id].phase == Backoff
    case Leaves(k) => k < |s.children| && s.children[k].alive && s.children[k].abandoned
  }

  function SetCurrent(s: Exec, child: Child): seq<Child>
    requires s.children != []
  {
    s.children[|s.children| - 1 := child]
  }

  // What a call does after an attempt.
  function AfterAttempt(c: Call, ending: Ending): Call {
    var endings := c.endings + [ending];
    c.(endings := endings,
       phase := if ending == Signalled && |endings| < c.maxAttempts then Backoff else Done)
  }

  function Do(s: Exec, step: Step): Exec
    requires Can(s, step)
  {
    match step
    case Start(id, retries) =>
      s.(calls := s.calls[id := Call(retries, MaxAttempts(retries), Queued, [])],
         waiting := s.waiting + [id], tickets := s.tickets + [id])
    case Enter(timeoutMs) =>
      var id := s.waiting[0];
      s.(waiting := s.waiting[1..], holder := Some(id),
         calls := if id in s.calls then s.calls[id := s.calls[id].(phase := Running)] else s.calls,
         children := s.children + [Child(id, true, false, timeoutMs > 0, timeoutMs > 0, 0)],
         entered := s.entered + [id])
    case Ends(ending) =>
      var id := s.holder.value;
      var runsOn := ending == KillFailed;
      s.(holder := None,
         children := SetCurrent(s, Current(s).value.(alive := runsOn, abandoned := runsOn, killArmed := false)),
         calls := s.calls[id := AfterAttempt(s.calls[id], ending)])
    case KillTimer =>
      var child := Current(s).value;
      s.(children := SetCurrent(s, child.(killArmed := false, kills := child.kills + 1)))
    case Retry(id) =>
      s.(calls := s.calls[id := s.calls[id].(phase := Queued)],
         waiting := s.waiting + [id], tickets := s.tickets + [id])
    case Leaves(k) => s.(children := s.children[k := s.children[k].(alive := false)])
  }

  class Executor {
    var waiting: seq<nat>
    var holder: Option<nat>
    var calls: map<nat, Call>
    var children: seq<Child>
    ghost var tickets: seq<nat>
    ghost var entered: seq<nat>

    constructor ()
      ensures State() == INITIAL
    {
      waiting, holder, calls, children, tickets, entered := [], None, map[], [], [], [];
    }

    ghost function State(): Exec
      reads this
    {
      Exec(waiting, holder, calls, children, tickets, entered)
    }

    // exec() up to its first wait for the mutex.
    method StartCall(id: nat, retries: int)
      requires Can(State(), Start(id, retries))
      modifies this
      ensures State() == Do(old(State()), Start(id, retries))
    {
      var maxAttempts := 1;
      if retries > 0 {
        maxAttempts := 1 + retries;
      }
      calls := calls[id := Call(retries, maxAttempts, Queued, [])];
      waiting, tickets := waiting + [id], tickets + [id];
    }

    // The mutex lets the next attempt in, which spawns its child.
    method EnterMutex(timeoutMs: nat)
      requires Can(State(), Enter(timeoutMs))
      modifies this
      ensures State() == Do(old(State()), Enter(timeoutMs))
    {
      var id := waiting[0];
      waiting, holder := waiting[1..], Some(id);
      if id in calls {
        calls := calls[id := calls[id].(phase := Running)];
      }
      children := children + [Child(id, true, false, timeoutMs > 0, timeoutMs > 0, 0)];
      entered := entered + [id];
    }

    // The child's close or error event: leaves the mutex and decides whether
    // the call tries again.
    method OnChildEnds(ending: Ending)
      requires Can(State(), Ends(ending))
      modifies this
      ensures State() == Do(old(State()), Ends(ending))
    {
      var last := |children| - 1;
      var runsOn := ending == KillFailed;
      children := children[last := children[last].(alive := runsOn, abandoned := runsOn, killArmed := false)];
      var id := holder.value;
      holder := None;
      var c := calls[id];
      var attempt := |c.endings| + 1;
      var timeout := ending == Signalled;
      if !timeout || attempt >= c.maxAttempts {
        calls := calls[id := c.(endings := c.endings + [ending], phase := Done)];
      } else {
        calls := calls[id := c.(endings := c.endings + [ending], phase := Backoff)];
      }
    }

    method OnKillTimer()
      requires Can(State(), KillTimer)
      modifies this
      ensures State() == Do(old(State()), KillTimer)
    {
      var last := |children| - 1;
      children := children[last := children[last].(killArmed := false, kills := children[last].kills + 1)];
    }

    // The call wakes from its back-off and asks for the mutex again.
    method OnRetry(id: nat)
      requires Can(State(), Retry(id))
      modifies this
      ensures State() == Do(old(State()), Retry(id))
    {
      calls := calls[id := calls[id].(phase := Queued)];
      waiting, tickets := waiting + [id], tickets + [id];
    }

    // The close of a child whose attempt is over settles nothing.
    method OnLateClose(k: nat)
      requires Can(State(), Leaves(k))
      modifies this
      ensures State() == Do(old(State()), Leaves(k))
    {
      children := children[k := children[k].(alive := false)];
    }
  }

  // ------------------------------------------------------------- all runs ---

  ghost predicate Runs(s: Exec, steps: seq<Step>, t: Exec)
    decreases |steps|
  {
    if steps == [] then s == t else Can(s, steps[0]) && Runs(Do(s, steps[0]), steps[1..], t)
  }

  ghost predicate Reachable(s: Exec) {
    exists steps :: Runs(INITIAL, steps, s)
  }

  predicate AllSignalled(endings: seq<Ending>) {
    forall e | e in endings :: e == Signalled
  }

  function Count(ids: seq<nat>, id: nat): nat {
    if ids == [] then 0 else Count(ids[..|ids| - 1], id) + (if ids[|ids| - 1] == id then 1 else 0)
  }

  // An attempt is under way for this call.
  predicate Entered(s: Exec, id: nat) {
    s.holder == Some(id)
  }

  // The attempts of a call so far.
  predicate HistoryOk(c: Call) {
    && c.maxAttempts == MaxAttempts(c.retries)
    && |c.endings| <= c.maxAttempts
    && (c.phase != Done ==> AllSignalled(c.endings) && |c.endings| < c.maxAttempts)
    && (c.phase == Done ==> |c.endings| >= 1 && AllSignalled(c.endings[..|c.endings| - 1])
                            && (c.endings[|c.endings| - 1] == Signalled ==> |c.endings| == c.maxAttempts))
  }

  predicate CallOk(s: Exec, id: nat)
    requires id in s.calls
  {
    var c := s.calls[id];
    && HistoryOk(c)
    && (c.phase == Running <==> Entered(s, id))
    && Count(s.waiting, id) == (if c.phase == Queued then 1 else 0)
    && Count(s.entered, id) == |c.endings| + (if c.phase == Running then 1 else 0)
  }

  predicate ChildOk(s: Exec, k: nat)
    requires k < |s.children|
  {
    var c := s.children[k];
    && (c.alive && !c.abandoned ==> k == |s.children| - 1 && s.holder == Some(c.call))
    && (c.abandoned ==> c.timed && !(k == |s.children| - 1 && s.holder.Some?))
    && (c.killArmed ==> c.alive && !c.abandoned && c.timed && c.kills == 0)
    && c.kills <= 1
    && (c.alive && c.timed && !c.abandoned ==> c.killArmed || c.kills == 1)
  }

  ghost predicate Inv(s: Exec) {
    && s.tickets == s.entered + s.waiting
    && (s.holder.Some? ==>
          s.holder.value in s.calls && s.children != [] && Current(s).value.alive && !Current(s).value.abandoned)
    && (forall id | id in s.waiting || id in s.entered :: id in s.calls)
    && (forall id | id in s.calls :: CallOk(s, id))
    && (forall k | 0 <= k < |s.children| :: ChildOk(s, k))
  }

  lemma {:induction false} CountOneLess(ids: seq<nat>, id: nat)
    requires ids != []
    ensures Count(ids, id) == Count(ids[1..], id) + (if ids[0] == id then 1 else 0)
  {
    var n := |ids| - 1;
    if n > 0 {
      CountOneLess(ids[..n], id);
      assert ids[..n][1..] == ids[1..][..n - 1];
    }
  }

  lemma {:induction false} CountPositive(ids: seq<nat>, id: nat)
    ensures Count(ids, id) > 0 <==> id in ids
  {
    if ids != [] {
      CountPositive(ids[..|ids| - 1], id);
      assert ids == ids[..|ids| - 1] + [ids[|ids| - 1]];
    }
  }

  // A ticket drawn by one call leaves every other call as it was.
  lemma QueueingKeepsCalls(s: Exec, step: Step, id: nat)
    requires Inv(s) && Can(s, step) && (step.Start? || step.Retry?) && id in Do(s, step).calls
    ensures CallOk(Do(s, step), id)
  {
    if id in s.calls {
      assert CallOk(s, id);
    } else {
      CountPositive(s.waiting, id);
      CountPositive(s.entered, id);
    }
  }

  lemma EnteringKeepsCalls(s: Exec, timeoutMs: nat, id: nat)
    requires Inv(s) && Can(s, Enter(timeoutMs)) && id in Do(s, Enter(timeoutMs)).calls
    ensures CallOk(Do(s, Enter(timeoutMs)), id)
  {
    assert s.waiting[0] in s.waiting && CallOk(s, id);
    CountOneLess(s.waiting, id);
    CountPositive(s.waiting, id);
  }

  lemma AttemptKeepsHistory(c: Call, ending: Ending)
    requires HistoryOk(c) && c.phase != Done
    ensures HistoryOk(AfterAttempt(c, ending))
  {
    assert (c.endings + [ending])[..|c.endings|] == c.endings;
  }

  lemma EndingKeepsCalls(s: Exec, ending: Ending, id: nat)
    requires Inv(s) && Can(s, Ends(ending)) && id in Do(s, Ends(ending)).calls
    ensures CallOk(Do(s, Ends(ending)), id)
  {
    assert CallOk(s, id);
    if s.holder == Some(id) {
      AttemptKeepsHistory(s.calls[id], ending);
    }
  }

  lemma StepKeepsCalls(s: Exec, step: Step, id: nat)
    requires Inv(s) && Can(s, step) && id in Do(s, step).calls
    ensures CallOk(Do(s, step), id)
  {
    match step
    case Start(_, _) => QueueingKeepsCalls(s, step, id);
    case Retry(_) => QueueingKeepsCalls(s, step, id);
    case Enter(timeoutMs) => EnteringKeepsCalls(s, timeoutMs, id);
    case Ends(ending) => EndingKeepsCalls(s, ending, id);
    case _ => assert CallOk(s, id);
  }

  lemma StepKeepsChildren(s: Exec, step: Step, k: nat)
    requires Inv(s) && Can(s, step) && k < |Do(s, step).children|
    ensures ChildOk(Do(s, step), k)
  {
    if k < |s.children| {
      assert ChildOk(s, k);
    }
    if s.children != [] {
      assert ChildOk(s, |s.children| - 1);
    }
  }

  lemma StepKeepsQueue(s: Exec, step: Step)
    requires Inv(s) && Can(s, step)
    ensures var t := Do(s, step);
            && t.tickets == t.entered + t.waiting
            && (t.holder.Some? ==>
                  && t.holder.value in t.calls && t.children != []
                  && Current(t).value.alive && !Current(t).value.abandoned)
            && (forall id | id in t.waiting || id in t.entered :: id in t.calls)
  {
    if step.Enter? {
      assert s.waiting == [s.waiting[0]] + s.waiting[1..];
      assert s.waiting[0] in s.waiting;
    }
    if step.Leaves? {
      assert ChildOk(s, step.k);
    }
  }

  lemma StepKeepsInv(s: Exec, step: Step)
    requires Inv(s) && Can(s, step)
    ensures Inv(Do(s, step))
  {
    var t := Do(s, step);
    StepKeepsQueue(s, step);
    forall id | id in t.calls ensures CallOk(t, id) {
      StepKeepsCalls(s, step, id);
    }
    forall k | 0 <= k < |t.children| ensures ChildOk(t, k) {
      StepKeepsChildren(s, step, k);
    }
  }

  lemma {:induction false} RunKeepsInv(s: Exec, steps: seq<Step>, t: Exec)
    requires Inv(s) && Runs(s, steps, t)
    ensures Inv(t)
    decreases |steps|
  {
    if steps != [] {
      StepKeepsInv(s, steps[0]);
      RunKeepsInv(Do(s, steps[0]), steps[1..], t);
    }
  }

  // The only child alive is that of the attempt that holds the mutex.
  predicate Exclusive(s: Exec) {
    forall k | 0 <= k < |s.children| && s.children[k].alive ::
      k == |s.children| - 1 && s.holder == Some(s.children[k].call)
  }

  ghost predicate ExclusiveThroughout(s: Exec, steps: seq<Step>, t: Exec)
    requires Runs(s, steps, t)
    decreases |steps|
  {
    Exclusive(s) && (steps != [] ==> ExclusiveThroughout(Do(s, steps[0]), steps[1..], t))
  }

  lemma StepKeepsExclusive(s: Exec, step: Step)
    requires Inv(s) && Exclusive(s) && Can(s, step)
    ensures Exclusive(Do(s, step)) <==> step != Ends(KillFailed)
  {
    var t := Do(s, step);
    forall k | 0 <= k < |s.children| ensures ChildOk(s, k) {
    }
    if step == Ends(KillFailed) {
      assert t.children[|t.children| - 1].alive;
    }
  }

  /**
   A run has at most one child alive all along, none when the mutex is free,
   exactly when no attempt of it ends because a kill failed.
   */
  lemma {:induction false} OneChildIffKillsWork(s: Exec, steps: seq<Step>, t: Exec)
    requires Inv(s) && Exclusive(s) && Runs(s, steps, t)
    ensures ExclusiveThroughout(s, steps, t) <==> Ends(KillFailed) !in steps
    decreases |steps|
  {
    if steps != [] {
      assert steps == [steps[0]] + steps[1..];
      StepKeepsInv(s, steps[0]);
      StepKeepsExclusive(s, steps[0]);
      if steps[0] != Ends(KillFailed) {
        OneChildIffKillsWork(Do(s, steps[0]), steps[1..], t);
      } else {
        NotExclusive(Do(s, steps[0]), steps[1..], t);
      }
    }
  }

  lemma NotExclusive(s: Exec, steps: seq<Step>, t: Exec)
    requires Runs(s, steps, t) && !Exclusive(s)
    ensures !ExclusiveThroughout(s, steps, t)
  {
  }

  // From the start: the first child could not be killed, and the second runs
  // beside it.
  lemma FailedKillOverlaps()
    ensures exists s :: Reachable(s) && |s.children| == 2 && s.children[0].alive && s.children[1].alive
  {
    var steps := [Start(0, 0), Enter(1), Ends(KillFailed), Start(1, 0), Enter(1)];
    var s1 := Do(INITIAL, steps[0]);
    var s2 := Do(s1, steps[1]);
    var s3 := Do(s2, steps[2]);
    var s4 := Do(s3, steps[3]);
    assert Runs(INITIAL, [], INITIAL);
    StepIsReachable(INITIAL, steps[0]);
    StepIsReachable(s1, steps[1]);
    StepIsReachable(s2, steps[2]);
    StepIsReachable(s3, steps[3]);
    StepIsReachable(s4, steps[4]);
  }

  lemma {:induction false} OneMoreStep(s: Exec, steps: seq<Step>, t: Exec, step: Step)
    requires Runs(s, steps, t) && Can(t, step)
    ensures Runs(s, steps + [step], Do(t, step))
    decreases |steps|
  {
    if steps == [] {
      assert steps + [step] == [step];
    } else {
      assert (steps + [step])[1..] == steps[1..] + [step];
      OneMoreStep(Do(s, steps[0]), steps[1..], t, step);
    }
  }

  lemma StepIsReachable(s: Exec, step: Step)
    requires Reachable(s) && Can(s, step)
    ensures Reachable(Do(s, step))
  {
    var steps :| Runs(INITIAL, steps, s);
    OneMoreStep(INITIAL, steps, s, step);
  }

  /**
   Serialisation: in every reachable state the child of the attempt that holds
   the mutex is alive, no other one is but those a kill failed for, and the
   attempts that got the mutex are exactly the first ones that asked for it, in
   that order.
   */
  lemma OneChildInOrder(s: Exec)
    requires Reachable(s)
    ensures s.holder.Some? ==> s.children != [] && Current(s).value.alive && Current(s).value.call == s.holder.value
    ensures forall k | 0 <= k < |s.children| - 1 :: s.children[k].alive ==> s.children[k].abandoned
    ensures s.holder == None ==>
              forall k | 0 <= k < |s.children| :: s.children[k].alive ==> s.children[k].abandoned
    ensures s.entered <= s.tickets && s.tickets[|s.entered|..] == s.waiting
  {
    var steps :| Runs(INITIAL, steps, s);
    RunKeepsInv(INITIAL, steps, s);
    forall k | 0 <= k < |s.children| && s.children[k].alive && !s.children[k].abandoned
      ensures k == |s.children| - 1 && s.holder == Some(s.children[k].call)
    {
      assert ChildOk(s, k);
    }
    if s.holder.Some? {
      assert ChildOk(s, |s.children| - 1);
    }
  }

  // The step that starts the call.
  ghost predicate StartedBy(steps: seq<Step>, id: nat, retries: int) {
    exists k | 0 <= k < |steps| :: steps[k] == Start(id, retries)
  }

  // A call keeps the number of retries it was started with.
  lemma {:induction false} RetriesAreThoseGiven(s: Exec, steps: seq<Step>, t: Exec, id: nat)
    requires Runs(s, steps, t) && id in t.calls
    ensures if id in s.calls then t.calls[id].retries == s.calls[id].retries
            else StartedBy(steps, id, t.calls[id].retries)
    decreases |steps|
  {
    if steps != [] {
      var u := Do(s, steps[0]);
      RetriesAreThoseGiven(u, steps[1..], t, id);
      if id !in s.calls && id !in u.calls {
        var k :| 0 <= k < |steps[1..]| && steps[1..][k] == Start(id, t.calls[id].retries);
        assert steps[k + 1] == Start(id, t.calls[id].retries);
      }
    }
  }

  /**
   Bounded retries: a call started with so many retries makes at most
   1 + max(0, retries) attempts, one if that is not positive, makes another one only after a timeout, and
   when done has either used them all or ended with something other than a
   timeout. Every attempt that entered the mutex is accounted for.
   */
  lemma BoundedAttempts(steps: seq<Step>, s: Exec, id: nat)
    requires Runs(INITIAL, steps, s) && id in s.calls
    ensures StartedBy(steps, id, s.calls[id].retries)
    ensures var c := s.calls[id];
            && |c.endings| <= Count(s.entered, id) <= (if c.retries > 0 then 1 + c.retries else 1)
            && (forall i | 0 <= i < |c.endings| - 1 :: c.endings[i] == Signalled)
            && (c.phase == Done ==> |c.endings| == Count(s.entered, id) >= 1)
            && (c.phase == Done && c.endings[|c.endings| - 1] == Signalled ==>
                  |c.endings| == if c.retries > 0 then 1 + c.retries else 1)
  {
    RunKeepsInv(INITIAL, steps, s);
    RetriesAreThoseGiven(INITIAL, steps, s, id);
    assert CallOk(s, id);
    var c := s.calls[id];
    forall i | 0 <= i < |c.endings| - 1 ensures c.endings[i] == Signalled {
      assert c.endings[i] in c.endings && c.endings[i] in c.endings[..|c.endings| - 1];
    }
  }

  /**
   Kill escalation: SIGKILL is sent at most once per child, its timer never
   outlives the child's attempt, and a child that has a timeout and is still
   alive has either been sent it or still has the timer running, unless a kill
   failed for it and it lost the mutex; so it cannot hold the mutex unchecked.
   */
  lemma KillEscalation(s: Exec, k: nat)
    requires Reachable(s) && k < |s.children|
    ensures var c := s.children[k];
            && c.kills <= 1
            && (c.killArmed ==> c.alive && c.kills == 0 && s.holder == Some(c.call))
            && (c.alive && c.timed ==> c.killArmed || c.kills == 1 || c.abandoned)
            && (c.abandoned ==> !(s.holder.Some? && k == |s.children| - 1))
  {
    var steps :| Runs(INITIAL, steps, s);
    RunKeepsInv(INITIAL, steps, s);
    assert ChildOk(s, k);
  }

  // The timer that fires sends the one signal.
  lemma KillTimerKills(s: Exec)
    requires Reachable(s) && Can(s, KillTimer)
    ensures var t := Do(s, KillTimer);
            && |t.children| == |s.children| && Current(s).value.kills == 0 && Current(s).value.alive
            && Current(t).value == Current(s).value.(killArmed := false, kills := 1)
            && t == s.(children := t.children) && t.children[..|t.children| - 1] == s.children[..|t.children| - 1]
  {
    var steps :| Runs(INITIAL, steps, s);
    RunKeepsInv(INITIAL, steps, s);
    assert ChildOk(s, |s.children| - 1);
  }

  // A child that was left running changes nothing else when it ends.
  lemma LateCloseIsHarmless(s: Exec, k: nat)
    requires Reachable(s) && Can(s, Leaves(k))
    ensures var t := Do(s, Leaves(k));
            && t == s.(children := t.children) && |t.children| == |s.children|
            && !t.children[k].alive && (forall j | 0 <= j < |t.children| && j != k :: t.children[j] == s.children[j])
            && !(s.holder.Some? && k == |s.children| - 1)
  {
    var steps :| Runs(INITIAL, steps, s);
    RunKeepsInv(INITIAL, steps, s);
    assert ChildOk(s, k);
  }

  /** However an attempt ends, the mutex is free afterwards and the next in line can enter. */
  lemma EndingFreesMutex(s: Exec, ending: Ending, timeoutMs: nat)
    requires Reachable(s) && Can(s, Ends(ending))
    ensures var t := Do(s, Ends(ending));
            && t.holder == None && t.waiting == s.waiting
            && (s.waiting != [] ==> Can(t, Enter(timeoutMs)) && Do(t, Enter(timeoutMs)).holder == Some(s.waiting[0]))
            && (Current(t).value.alive <==> ending == KillFailed)
            && (forall k | 0 <= k < |t.children| :: t.children[k].alive ==> t.children[k].abandoned)
  {
    var steps :| Runs(INITIAL, steps, s);
    RunKeepsInv(INITIAL, steps, s);
    var t := Do(s, Ends(ending));
    forall k | 0 <= k < |t.children| ensures t.children[k].alive ==> t.children[k].abandoned {
      StepKeepsChildren(s, Ends(ending), k);
    }
  }

  // A call with no retries left is done whatever happens; one with some left
  // is done unless the attempt timed out.
  lemma RetryIffTimeout(s: Exec, ending: Ending)
    requires Reachable(s) && Can(s, Ends(ending))
    ensures var id := s.holder.value;
            Do(s, Ends(ending)).calls[id].phase == Backoff
            <==> ending == Signalled && Count(s.entered, id) <= s.calls[id].retries
  {
    var steps :| Runs(INITIAL, steps, s);
    RunKeepsInv(INITIAL, steps, s);
    assert CallOk(s, s.holder.value);
  }
}
