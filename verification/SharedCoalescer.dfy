/** The coalescer as the shared object it is: each method is one atomic action of a call on
    the in-flight map and the channels, and every method is proved to be that action of the
    protocol in module Coalescer. */
module SharedCoalescer {
  import opened Wrappers
  import opened RpcTypes
  import opened Coalescer

  class RequestCoalescer {
    var clock: nat
    var calls: seq<Call>
    var inFlight: map<string, nat>
    ghost var trace: seq<Action>

    ghost function View(): State
      reads this
    {
      State(clock, calls, inFlight)
    }

    ghost predicate Valid()
      reads this
    {
      IsRun(trace) && After(trace) == View()
    }

    /** The object took action a, and nothing else happened. */
    twostate predicate Took(a: Action)
      reads this
    {
      && old(Enabled(View(), a))
      && View() == old(Apply(View(), a))
      && trace == old(trace) + [a]
    }

    constructor ()
      ensures Valid() && trace == [] && View() == EMPTY
    {
      clock, calls, inFlight, trace := 0, [], map[], [];
    }

    method Arrive(key: string) returns (t: nat)
      requires Valid()
      modifies this
      ensures Valid() && Took(Begin(key)) && t == old(|calls|)
    {
      ghost var was := View();
      t := |calls|;
      calls := calls + [Call(key, clock, Looking, None, None)];
      Tick(was, Begin(key));
    }

    ghost method Note(was: State, a: Action)
      requires IsRun(trace) && After(trace) == was
      requires Enabled(was, a) && View() == Apply(was, a)
      modifies this`trace
      ensures Valid() && trace == old(trace) + [a]
    {
      ExtendRun(trace, a);
      trace := trace + [a];
    }

    method Tick(ghost was: State, ghost a: Action)
      requires IsRun(trace) && After(trace) == was
      requires Enabled(was, a) && State(clock + 1, calls, inFlight) == Apply(was, a)
      modifies this`clock, this`trace
      ensures clock == old(clock) + 1
      ensures Valid() && trace == old(trace) + [a]
    {
      clock := clock + 1;
      Note(was, a);
    }

    /** Look the key up and, on a hit, subscribe, under one lock. */
    method LookupAndSubscribe(t: nat)
      requires Valid() && t < |calls| && calls[t].phase.Looking?
      modifies this
      ensures Valid() && Took(Lookup(t))
    {
      ghost var was := View();
      var c := calls[t];
      if c.key in inFlight {
        calls := calls[t := c.(phase := Waiting(inFlight[c.key], clock))];
      } else {
        calls := calls[t := c.(phase := Missed)];
      }
      Tick(was, Lookup(t));
    }

    /** The receive completes: with the broadcast answer, or because the channel closed. */
    method FinishWaiting(t: nat, decodes: bool)
      requires Valid() && t < |calls| && calls[t].phase.Waiting? && CanMove(View(), t)
      modifies this
      ensures Valid()
      ensures Took(if old(MessageVisible(View(), calls[t].phase.leader, calls[t].phase.subscribed))
                   then Receive(t, decodes) else ChannelClosed(t))
    {
      RunKeepsInvariant(trace);
      ghost var was := View();
      var c := calls[t];
      assert CallOk(was, t) && CallOk(was, c.phase.leader);
      var leader := calls[c.phase.leader];
      if leader.sentAt.Some? && c.phase.subscribed < leader.sentAt.value {
        if decodes {
          calls := calls[t := c.(phase := Done(leader.completed.value.resp, c.phase.leader))];
        } else {
          calls := calls[t := c.(phase := Missed)];
        }
        Tick(was, Receive(t, decodes));
      } else {
        calls := calls[t := c.(phase := Missed)];
        Tick(was, ChannelClosed(t));
      }
    }

    method OpenChannel(t: nat)
      requires Valid() && t < |calls| && calls[t].phase.Missed?
      modifies this
      ensures Valid() && Took(Insert(t))
    {
      ghost var was := View();
      inFlight := inFlight[calls[t].key := t];
      calls := calls[t := calls[t].(phase := Executing)];
      Tick(was, Insert(t));
    }

    method FinishExecuting(t: nat, resp: Response)
      requires Valid() && t < |calls| && calls[t].phase.Executing?
      modifies this
      ensures Valid() && Took(Complete(t, resp))
    {
      ghost var was := View();
      calls := calls[t := calls[t].(phase := Executed(resp), completed := Some(Execution(resp, clock)))];
      Tick(was, Complete(t, resp));
    }

    method Broadcast(t: nat, serializes: bool)
      requires Valid() && t < |calls| && calls[t].phase.Executed?
      modifies this
      ensures Valid() && Took(Send(t, serializes))
    {
      ghost var was := View();
      var c := calls[t];
      calls := calls[t := c.(phase := Sent(c.phase.resp), sentAt := if serializes then Some(clock) else None)];
      Tick(was, Send(t, serializes));
    }

    method CleanUp(t: nat)
      requires Valid() && t < |calls| && calls[t].phase.Sent?
      modifies this
      ensures Valid() && Took(Remove(t))
      ensures old(calls)[t].key !in inFlight
    {
      ghost var was := View();
      inFlight := inFlight - {calls[t].key};
      calls := calls[t := calls[t].(phase := Removed(calls[t].phase.resp))];
      Tick(was, Remove(t));
    }

    method Finish(t: nat)
      requires Valid() && t < |calls| && calls[t].phase.Removed?
      modifies this
      ensures Valid() && Took(Return(t))
    {
      ghost var was := View();
      calls := calls[t := calls[t].(phase := Done(calls[t].phase.resp, t))];
      Tick(was, Return(t));
    }

    /** The call is dropped at an await point. */
    method Drop(t: nat)
      requires Valid() && t < |calls| && (calls[t].phase.Waiting? || calls[t].phase.Executing?)
      modifies this
      ensures Valid() && Took(Cancel(t))
    {
      ghost var was := View();
      calls := calls[t := calls[t].(phase := Cancelled(calls[t].phase.Executing?))];
      Tick(was, Cancel(t));
    }

    /** The next action of a call that can move: the body of coalesce_or_execute, in order. */
    method Advance(t: nat, answer: Response, decodes: bool, serializes: bool)
      requires Valid() && t < |calls| && CanMove(View(), t)
      modifies this
      ensures Valid() && Took(NextAction(old(View()), t, answer, decodes, serializes))
    {
      match calls[t].phase
      case Looking => LookupAndSubscribe(t);
      case Waiting(_, _) => FinishWaiting(t, decodes);
      case Missed => OpenChannel(t);
      case Executing => FinishExecuting(t, answer);
      case Executed(_) => Broadcast(t, serializes);
      case Sent(_) => CleanUp(t);
      case Removed(_) => Finish(t);
    }

    /** Runs the calls to the end under an arbitrary scheduler, with arbitrary upstream answers.
        It always terminates; every call then has returned, unless it was dropped before or waits for
        a call that was dropped while it executed. */
    method RunToCompletion(answers: nat -> Response)
      requires Valid()
      modifies this
      ensures Valid() && |calls| == old(|calls|) && old(trace) <= trace
      ensures forall i :: old(|trace|) <= i < |trace| ==> !trace[i].Cancel? && !trace[i].Begin?
      ensures Settled(View())
      ensures forall t :: 0 <= t < |calls| && calls[t].phase.Cancelled? ==> calls[t].phase == old(calls)[t].phase
      ensures (forall t :: 0 <= t < old(|calls|) ==> old(calls)[t].phase != Cancelled(true)) ==>
        forall t :: 0 <= t < |calls| ==> calls[t].phase.Done? || calls[t].phase == Cancelled(false)
    {
      while exists t :: 0 <= t < |calls| && CanMove(State(clock, calls, inFlight), t)
        invariant Valid() && |calls| == old(|calls|) && old(trace) <= trace
        invariant forall i :: old(|trace|) <= i < |trace| ==> !trace[i].Cancel? && !trace[i].Begin?
        invariant forall t :: 0 <= t < |calls| && calls[t].phase.Cancelled? ==> calls[t].phase == old(calls)[t].phase
        decreases Work(calls)
      {
        var t :| 0 <= t < |calls| && CanMove(State(clock, calls, inFlight), t);
        var a := Schedule(t, answers(t));
      }
      assert Stalled(View());
      StalledIff(trace);
    }

    /** Lets one call move; whether its answer decodes or serializes is arbitrary. */
    method Schedule(t: nat, answer: Response) returns (ghost a: Action)
      requires Valid() && t < |calls| && CanMove(View(), t)
      modifies this
      ensures Valid() && |calls| == old(|calls|) && trace == old(trace) + [a] && !a.Cancel? && !a.Begin?
      ensures forall u :: 0 <= u < |calls| && calls[u].phase.Cancelled? ==> calls[u].phase == old(calls)[u].phase
      ensures Work(calls) < Work(old(calls))
    {
      var decodes: bool, serializes: bool := *, *;
      a := NextAction(View(), t, answer, decodes, serializes);
      RunKeepsInvariant(trace);
      NextActionEnabled(View(), t, answer, decodes, serializes);
      StepsUseUpWork(View(), a);
      Advance(t, answer, decodes, serializes);
    }
  }
}
