// The step machine as an object imperative code runs against: each thing the
// code does is a step of the machine, and between two of them anyone else may
// have done anything.
module Machine {
  import opened Common
  import opened StoreModel
  import opened Protocol
  import opened ProtocolInvariant
  import opened ProtocolSteps
  import opened ProtocolGate

  // What waiting on the reply channel ends with.
  datatype Arrival = Message(packet: Packet) | TimerFired | DeadlinePassed

  // The steps one request or presence handler takes.
  predicate OfHandler(step: Step, id: HandlerId) {
    !OfHost(step) && !step.Issue? && !step.RestartServer? && step.id == id
  }

  function HostOfStep(step: Step): HostId
    requires OfHost(step)
  {
    step.h
  }

  // The steps of a run that are this host's own, in their order.
  ghost function Mine(steps: seq<Step>, h: HostId): seq<Step> {
    if steps == [] then []
    else
      var last := steps[|steps| - 1];
      Mine(steps[..|steps| - 1], h) + if OfHost(last) && last.h == h then [last] else []
  }

  lemma MineNext(steps: seq<Step>, step: Step, h: HostId)
    ensures Mine(steps + [step], h) == Mine(steps, h) + if OfHost(step) && step.h == h then [step] else []
  {
    assert (steps + [step])[..|steps|] == steps;
  }

  lemma {:induction false} MineOfOthers(steps: seq<Step>, es: seq<Step>, h: HostId)
    requires forall i :: 0 <= i < |es| ==> OfHost(es[i]) ==> HostOfStep(es[i]) != h
    ensures Mine(steps + es, h) == Mine(steps, h)
    decreases |es|
  {
    if es == [] {
      assert steps + es == steps;
    } else {
      var k := |es| - 1;
      MineOfOthers(steps, es[..k], h);
      assert steps + es == (steps + es[..k]) + [es[k]];
      MineNext(steps + es[..k], es[k], h);
    }
  }

  // Nobody else's step touches a host: what a host relies on.
  lemma OthersLeaveHost(s: State, step: Step, h: HostId)
    requires Enabled(s, step) && (OfHost(step) ==> HostOfStep(step) != h)
    ensures HostOf(Next(s, step), h) == HostOf(s, h)
  {
    hide RequestNext, RequestEnabled, GateNext, GateEnabled;
    if !OfHost(step) { ServerStepsLeaveHosts(s, step); }
  }

  lemma ServerStepsLeaveHosts(s: State, step: Step)
    requires Enabled(s, step) && !OfHost(step)
    ensures Next(s, step).hosts == s.hosts
  {}

  // What a handler of a server process that is not restarted relies on.
  predicate SameHandler(s: State, s': State, id: HandlerId) {
    && s'.server.hold == s.server.hold
    && (id in s'.server.handlers <==> id in s.server.handlers)
    && (id in s.server.handlers ==> s'.server.handlers[id] == s.server.handlers[id])
    && (s'.server.writer == Some(id) <==> s.server.writer == Some(id))
    && (id in s'.server.readers <==> id in s.server.readers)
  }

  lemma OthersLeaveHandler(s: State, step: Step, id: HandlerId)
    requires Enabled(s, step) && !step.RestartServer? && !OfHandler(step, id)
    ensures SameHandler(s, Next(s, step), id)
  {
    if OfHost(step) {
      HostStepsLeaveServer(s, step);
    } else if !step.Issue? {
      HandlerStepsAreLocal(s, step, id);
    }
  }

  lemma HandlerStepsAreLocal(s: State, step: Step, id: HandlerId)
    requires Enabled(s, step) && !OfHost(step) && !step.Issue? && !step.RestartServer? && step.id != id
    ensures SameHandler(s, Next(s, step), id)
  {
    if OfRequest(step) { RequestStepsAreLocal(s, step, id); } else { PresenceStepsAreLocal(s, step, id); }
  }

  // The server as a handler that returns leaves it.
  predicate OneHandlerGone(v: Server, v': Server, id: HandlerId) {
    && v'.hold == v.hold && v'.readers == v.readers - {id} && v'.handlers == v.handlers - {id}
    && v'.writer == if v.writer == Some(id) then None else v.writer
  }

  lemma RequestStepsAreLocal(s: State, step: Step, id: HandlerId)
    requires Enabled(s, step) && OfRequest(step) && step.id != id
    ensures SameHandler(s, Next(s, step), id)
  {
    if step.ReceiveRequest? || step.ReadRequest? {
      FirstTurns(s, step);
    } else if step.PublishReply? || step.PublishDenial? {
      Published(s, step);
    } else {
      LaterTurns(s, step);
    }
    hide Next, Enabled;
  }

  lemma Published(s: State, step: Step)
    requires Enabled(s, step) && (step.PublishReply? || step.PublishDenial?)
    ensures OneHandlerGone(s.server, Next(s, step).server, step.id)
  {}

  lemma PresenceStepsAreLocal(s: State, step: Step, id: HandlerId)
    requires Enabled(s, step) && !OfHost(step) && !OfRequest(step) && !step.Issue? && !step.RestartServer?
             && step.id != id
    ensures SameHandler(s, Next(s, step), id)
  {}

  class Machine {
    var s: State
    var budget: nat
    ghost var steps: seq<Step>

    // The state is what the steps so far lead to from the beginning.
    ghost predicate Valid()
      reads this
    {
      Runs(INIT, steps) && After(INIT, steps) == s
    }

    constructor (patience: nat)
      ensures Valid() && s == INIT && budget == patience
    {
      s, steps, budget := INIT, [], patience;
    }

    method Do(step: Step)
      requires Valid() && Enabled(s, step)
      modifies this`s, this`steps
      ensures Valid() && s == Next(old(s), step) && steps == old(steps) + [step]
    {
      OneMore(steps, s, step);
      s := Next(s, step);
      steps := steps + [step];
    }

    // Others act while this host waits. The body is one possibility; a caller
    // knows only the contract, which OthersKeepHost shows that any steps but this
    // host's own meet.
    method OthersThanHost(h: HostId)
      requires Valid()
      modifies this`s, this`steps
      ensures Valid() && HostOf(s, h) == HostOf(old(s), h) && Grows(old(s), s)
      ensures Mine(steps, h) == Mine(old(steps), h)
    {
      GrowsSame(s);
    }

    // Waiting on a channel: a message that could have arrived, which the host then
    // has received, or the timer, or the deadline, which comes in the end.
    method Arrive(h: HostId) returns (a: Arrival)
      requires Valid() && (HostOf(s, h).process.Requesting? || HostOf(s, h).process.Confirming?)
      modifies this`s, this`steps, this`budget
      ensures Valid()
      ensures if a.Message?
              then Enabled(old(s), Receive(h, a.packet)) && s == Next(old(s), Receive(h, a.packet))
                   && steps == old(steps) + [Receive(h, a.packet)]
              else s == old(s) && steps == old(steps)
      ensures Grows(old(s), s)
      ensures Mine(steps, h) == Mine(old(steps), h) + if a.Message? then [Receive(h, a.packet)] else []
      ensures a.DeadlinePassed? <==> old(budget) == 0
      ensures budget == if a.DeadlinePassed? then 0 else old(budget) - 1
    {
      GrowsSame(s);
      if budget == 0 { return DeadlinePassed; }
      budget := budget - 1;
      a := TimerFired;
    }
  }

  // However long others run, they meet what a handler relies on: it stands where
  // it stood, and the store only moved forward.
  lemma {:induction false} OthersKeepHandler(s: State, es: seq<Step>, id: HandlerId)
    requires Core(s) && Runs(s, es)
    requires forall i :: 0 <= i < |es| ==> !es[i].RestartServer? && !OfHandler(es[i], id)
    ensures var s' := After(s, es);
            SameHandler(s, s', id) && Forward(s.db, s'.db) && Consistent(s'.db)
    decreases |es|
  {
    hide Core, Enabled, Next;
    RunKeeps(s, es);
    CoreConsistent(After(s, es));
    if es != [] {
      OthersLeaveHandler(s, es[0], id);
      StepKeeps(s, es[0]);
      OthersKeepHandler(Next(s, es[0]), es[1..], id);
    }
  }

  lemma CoreConsistent(s: State)
    requires Core(s)
    ensures Consistent(s.db)
  {}

  // And what a host relies on: its files and its process are as they were, its
  // own steps are what they were, and nothing that was sent or recorded is gone.
  lemma {:induction false} OthersKeepHost(s: State, steps: seq<Step>, es: seq<Step>, h: HostId)
    requires Core(s) && Runs(s, es)
    requires forall i :: 0 <= i < |es| ==> OfHost(es[i]) ==> HostOfStep(es[i]) != h
    ensures HostOf(After(s, es), h) == HostOf(s, h) && Grows(s, After(s, es))
    ensures Mine(steps + es, h) == Mine(steps, h)
    decreases |es|
  {
    hide Core, Enabled, Next, Grows;
    RunKeeps(s, es);
    MineOfOthers(steps, es, h);
    if es != [] {
      OthersLeaveHost(s, es[0], h);
      StepKeeps(s, es[0]);
      OthersKeepHost(Next(s, es[0]), steps + [es[0]], es[1..], h);
    }
  }

  lemma GrowsSame(s: State)
    ensures Grows(s, s)
  {}

  lemma AlwaysReachable(m: Machine)
    requires m.Valid()
    ensures Reachable(m.s)
  {}

  lemma OneMore(steps: seq<Step>, s: State, step: Step)
    requires Runs(INIT, steps) && After(INIT, steps) == s && Enabled(s, step)
    ensures Runs(INIT, steps + [step]) && After(INIT, steps + [step]) == Next(s, step)
  {
    hide Enabled, Next;
    RunOne(s, step);
    RunsCompose(INIT, steps, [step]);
  }

  lemma RunOne(s: State, step: Step)
    requires Enabled(s, step)
    ensures Runs(s, [step]) && After(s, [step]) == Next(s, step)
  {
    hide Enabled, Next;
    assert [step][0] == step;
    var rest: seq<Step> := [step][1..];
    assert rest == [];
    assert Runs(Next(s, step), rest) && After(Next(s, step), rest) == Next(s, step);
  }
}
