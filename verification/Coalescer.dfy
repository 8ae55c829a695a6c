/** The request coalescer (src/rpc/coalescer.rs): any number of concurrent calls, one shared
    map from cache keys to broadcast channels, and one channel per call that misses.

    A call is one invocation of coalesce_or_execute.  Every access to shared state is one
    atomic action; actions of different calls interleave arbitrarily.  A call opens at most one
    channel, so a channel is named by the call that opened it.  The clock counts actions, so a
    time stamp is also the index of an action in the run. */
module Coalescer {
  import opened Wrappers
  import opened RpcTypes
  import J = Json

  datatype Phase =
    | Looking                                  // has not looked at the map yet
    | Waiting(leader: nat, subscribed: nat)    // holds a receiver of the leader's channel
    | Missed                                   // will open a channel of its own
    | Executing                                // its channel is in the map, the upstream call is under way
    | Executed(resp: Response)                 // has the answer
    | Sent(resp: Response)                     // has broadcast it
    | Removed(resp: Response)                  // has removed the map entry
    | Done(resp: Response, from: nat)          // has returned an answer produced by call `from`
    | Cancelled(wasExecuting: bool)            // was dropped at one of its two await points

  datatype Execution = Execution(resp: Response, at: nat)

  datatype Call = Call(
    key: string,
    began: nat,
    phase: Phase,
    completed: Option<Execution>,
    sentAt: Option<nat>)

  datatype State = State(clock: nat, calls: seq<Call>, inFlight: map<string, nat>)

  const EMPTY: State := State(0, [], map[])

  datatype Action =
    | Begin(key: string)
    | Lookup(call: nat)
    | Receive(call: nat, decodes: bool)
    | ChannelClosed(call: nat)
    | Insert(call: nat)
    | Complete(call: nat, resp: Response)
    | Send(call: nat, serializes: bool)
    | Remove(call: nat)
    | Return(call: nat)
    | Cancel(call: nat)

  /** A call holds its own sender from the insert until it returns or is dropped. */
  predicate HoldsSender(c: Call) {
    c.phase.Executing? || c.phase.Executed? || c.phase.Sent? || c.phase.Removed?
  }

  /** Some sender of the channel is alive: its opener's, or the clone in the map. */
  predicate ChannelOpen(s: State, channel: nat)
    requires channel < |s.calls|
  {
    HoldsSender(s.calls[channel]) || channel in s.inFlight.Values
  }

  /** A receiver sees only what is sent after it subscribed. */
  predicate MessageVisible(s: State, channel: nat, subscribed: nat)
    requires channel < |s.calls|
  {
    s.calls[channel].sentAt.Some? && subscribed < s.calls[channel].sentAt.value
  }

  predicate Enabled(s: State, a: Action) {
    if a.Begin? then true
    else
      && a.call < |s.calls|
      && var c := s.calls[a.call];
      match a
      case Lookup(_) => c.phase.Looking?
      case Receive(_, _) =>
        && c.phase.Waiting? && c.phase.leader < |s.calls|
        && MessageVisible(s, c.phase.leader, c.phase.subscribed)
        && s.calls[c.phase.leader].completed.Some?
      case ChannelClosed(_) =>
        && c.phase.Waiting? && c.phase.leader < |s.calls|
        && !MessageVisible(s, c.phase.leader, c.phase.subscribed)
        && !ChannelOpen(s, c.phase.leader)
      case Insert(_) => c.phase.Missed?
      case Complete(_, _) => c.phase.Executing?
      case Send(_, _) => c.phase.Executed?
      case Remove(_) => c.phase.Sent?
      case Return(_) => c.phase.Removed?
      case Cancel(_) => c.phase.Waiting? || c.phase.Executing?
  }

  /** What the call that acts looks like afterwards. */
  function Moved(s: State, a: Action): Call
    requires !a.Begin? && Enabled(s, a)
  {
    var c := s.calls[a.call];
    match a
    case Lookup(_) =>
      c.(phase := if c.key in s.inFlight then Waiting(s.inFlight[c.key], s.clock) else Missed)
    case Receive(_, decodes) =>
      c.(phase := if decodes then Done(s.calls[c.phase.leader].completed.value.resp, c.phase.leader) else Missed)
    case ChannelClosed(_) => c.(phase := Missed)
    case Insert(_) => c.(phase := Executing)
    case Complete(_, resp) => c.(phase := Executed(resp), completed := Some(Execution(resp, s.clock)))
    case Send(_, serializes) =>
      c.(phase := Sent(c.phase.resp), sentAt := if serializes then Some(s.clock) else None)
    case Remove(_) => c.(phase := Removed(c.phase.resp))
    case Return(_) => c.(phase := Done(c.phase.resp, a.call))
    case Cancel(_) => c.(phase := Cancelled(c.phase.Executing?))
  }

  function Apply(s: State, a: Action): State
    requires Enabled(s, a)
  {
    if a.Begin? then
      State(s.clock + 1, s.calls + [Call(a.key, s.clock, Looking, None, None)], s.inFlight)
    else
      var key := s.calls[a.call].key;
      State(s.clock + 1, s.calls[a.call := Moved(s, a)],
            match a
            case Insert(t) => s.inFlight[key := t]
            case Remove(_) => s.inFlight - {key}
            case _ => s.inFlight)
  }

  /** A run: every action is enabled in the state the actions before it lead to. */
  ghost predicate IsRun(acts: seq<Action>)
    decreases |acts|, 0
  {
    acts == [] || (IsRun(acts[..|acts| - 1]) && Enabled(After(acts[..|acts| - 1]), acts[|acts| - 1]))
  }

  ghost function After(acts: seq<Action>): State
    requires IsRun(acts)
    decreases |acts|, 1
  {
    if acts == [] then EMPTY else Apply(After(acts[..|acts| - 1]), acts[|acts| - 1])
  }

  // ---------- what every reachable state satisfies ----------

  /** An entry of the map belongs to a call for that key that has inserted and not yet removed;
      a call dropped in between leaves its entry behind. */
  ghost predicate Owned(s: State) {
    forall k :: k in s.inFlight ==>
      && s.inFlight[k] < |s.calls|
      && var c := s.calls[s.inFlight[k]];
      && c.key == k
      && (c.phase.Executing? || c.phase.Executed? || c.phase.Sent? || c.phase == Cancelled(true))
  }

  /** The answer a finished call holds came from a call for the same key: its own execution,
      completed after it began, or one that was broadcast after it began. */
  ghost predicate Sourced(s: State, t: nat)
    requires t < |s.calls| && s.calls[t].phase.Done?
  {
    var c := s.calls[t];
    var from := c.phase.from;
    && from < |s.calls|
    && s.calls[from].key == c.key
    && s.calls[from].completed.Some?
    && s.calls[from].completed.value.resp == c.phase.resp
    && if from == t then c.began < c.completed.value.at
       else
         && s.calls[from].sentAt.Some?
         && c.began < s.calls[from].sentAt.value
         && s.calls[from].completed.value.at < s.calls[from].sentAt.value
  }

  ghost predicate CallOk(s: State, t: nat)
    requires t < |s.calls|
  {
    var c := s.calls[t];
    && c.began < s.clock
    && (c.sentAt.Some? ==> c.completed.Some? && c.completed.value.at < c.sentAt.value < s.clock)
    && (c.completed.Some? ==> c.began < c.completed.value.at < s.clock)
    && match c.phase
       case Looking => c.completed == None
       case Waiting(leader, subscribed) =>
         && leader < |s.calls| && leader != t && s.calls[leader].key == c.key
         && c.began < subscribed < s.clock && c.completed == None
       case Missed => c.completed == None
       case Executing => c.completed == None
       case Executed(resp) => c.completed.Some? && c.completed.value.resp == resp && c.sentAt == None
       case Sent(resp) => c.completed.Some? && c.completed.value.resp == resp
       case Removed(resp) => c.completed.Some? && c.completed.value.resp == resp
       case Done(_, _) => Sourced(s, t)
       case Cancelled(_) => c.completed == None
  }

  ghost predicate Invariant(s: State) {
    Owned(s) && forall t :: 0 <= t < |s.calls| ==> CallOk(s, t)
  }

  /** What other calls remember of a call never changes once it is there. */
  lemma StepKeepsRecords(s: State, a: Action, t: nat)
    requires Invariant(s) && Enabled(s, a) && t < |s.calls|
    ensures
      var c, c' := s.calls[t], Apply(s, a).calls[t];
      && c'.key == c.key && c'.began == c.began
      && (c.completed.Some? ==> c'.completed == c.completed)
      && (c.sentAt.Some? ==> c'.sentAt == c.sentAt)
      && (a.Begin? || a.call != t ==> c' == c)
  {
    assert CallOk(s, t);
  }

  lemma BystanderKeepsCallOk(s: State, a: Action, t: nat)
    requires Invariant(s) && Enabled(s, a) && t < |s.calls| && (a.Begin? || a.call != t)
    ensures CallOk(Apply(s, a), t)
  {
    assert CallOk(s, t);
    StepKeepsRecords(s, a, t);
    var c := s.calls[t];
    if c.phase.Waiting? { StepKeepsRecords(s, a, c.phase.leader); }
    if c.phase.Done? { StepKeepsRecords(s, a, c.phase.from); }
  }

  lemma MoverKeepsCallOk(s: State, a: Action)
    requires Invariant(s) && Enabled(s, a) && !a.Begin?
    ensures CallOk(Apply(s, a), a.call)
  {
    assert CallOk(s, a.call);
    var c := s.calls[a.call];
    match a
    case Lookup(t) =>
    case Receive(t, decodes) => assert CallOk(s, c.phase.leader);
    case ChannelClosed(t) =>
    case Insert(t) =>
    case Complete(t, resp) =>
    case Send(t, serializes) =>
    case Remove(t) =>
    case Return(t) =>
    case Cancel(t) =>
  }

  lemma StepKeepsOwned(s: State, a: Action)
    requires Invariant(s) && Enabled(s, a)
    ensures Owned(Apply(s, a))
  {
  }

  lemma StepKeepsInvariant(s: State, a: Action)
    requires Invariant(s) && Enabled(s, a)
    ensures Invariant(Apply(s, a))
  {
    StepKeepsOwned(s, a);
    forall t | 0 <= t < |Apply(s, a).calls| ensures CallOk(Apply(s, a), t) {
      if !a.Begin? && t == a.call {
        MoverKeepsCallOk(s, a);
      } else if t < |s.calls| {
        BystanderKeepsCallOk(s, a, t);
      }
    }
  }

  lemma {:induction false} RunKeepsInvariant(acts: seq<Action>)
    requires IsRun(acts)
    ensures Invariant(After(acts))
  {
    if acts != [] {
      RunKeepsInvariant(acts[..|acts| - 1]);
      StepKeepsInvariant(After(acts[..|acts| - 1]), acts[|acts| - 1]);
    }
  }

  /** The map is empty whenever no call is between its insert and its remove. */
  lemma MapEmptyWhenIdle(acts: seq<Action>)
    requires IsRun(acts)
    requires forall t :: 0 <= t < |After(acts).calls| ==>
      var p := After(acts).calls[t].phase;
      !(p.Executing? || p.Executed? || p.Sent? || p == Cancelled(true))
    ensures After(acts).inFlight == map[]
  {
    RunKeepsInvariant(acts);
    var s := After(acts);
    forall k | k in s.inFlight ensures false {
      assert false;
    }
    assert s.inFlight.Keys == {};
  }

  // ---------- provenance, in terms of the run alone ----------

  /** Time stamps are indices into the run. */
  ghost predicate Recorded(acts: seq<Action>, s: State) {
    && s.clock == |acts|
    && forall t :: 0 <= t < |s.calls| ==>
         var c := s.calls[t];
         && c.began < |acts| && acts[c.began] == Begin(c.key)
         && (c.completed.Some? ==>
               c.completed.value.at < |acts| && acts[c.completed.value.at] == Complete(t, c.completed.value.resp))
         && (c.sentAt.Some? ==>
               c.sentAt.value < |acts| && acts[c.sentAt.value] == Send(t, true))
  }

  lemma {:induction false} RunIsRecorded(acts: seq<Action>)
    requires IsRun(acts)
    ensures Recorded(acts, After(acts))
  {
    if acts != [] {
      var before := acts[..|acts| - 1];
      RunIsRecorded(before);
      assert forall i :: 0 <= i < |before| ==> acts[i] == before[i];
    }
  }

  /** In every run, the answer a call returns is that of an execution for the same key.
      Either the call executed it itself after it began, or another call completed it and
      then broadcast it, the broadcast coming after this call began. */
  lemma AnswersAreFresh(acts: seq<Action>, t: nat)
    requires IsRun(acts) && t < |After(acts).calls| && After(acts).calls[t].phase.Done?
    ensures
      var s := After(acts);
      var c := s.calls[t];
      var from := c.phase.from;
      && c.began < |acts| && acts[c.began] == Begin(c.key)
      && from < |s.calls| && s.calls[from].key == c.key
      && exists i :: 0 <= i < |acts| && acts[i] == Complete(from, c.phase.resp)
           && if from == t then c.began < i
              else exists j :: i < j < |acts| && c.began < j && acts[j] == Send(from, true)
  {
    RunKeepsInvariant(acts);
    RunIsRecorded(acts);
    var s := After(acts);
    var from := s.calls[t].phase.from;
    assert CallOk(s, t) && CallOk(s, from);
    var i := s.calls[from].completed.value.at;
    assert acts[i] == Complete(from, s.calls[t].phase.resp);
    if from != t {
      var j := s.calls[from].sentAt.value;
      assert i < j < |acts| && s.calls[t].began < j && acts[j] == Send(from, true);
    }
  }

  // ---------- every call does each thing at most once, in order ----------

  /** The place of an action in the body of coalesce_or_execute. */
  function Stage(a: Action): nat {
    match a
    case Begin(_) => 0
    case Lookup(_) => 1
    case Receive(_, _) => 2
    case ChannelClosed(_) => 2
    case Insert(_) => 3
    case Complete(_, _) => 4
    case Send(_, _) => 5
    case Remove(_) => 6
    case Return(_) => 7
    case Cancel(_) => 8
  }

  function Reached(p: Phase): nat {
    match p
    case Looking => 0
    case Waiting(_, _) => 1
    case Missed => 2
    case Executing => 3
    case Executed(_) => 4
    case Sent(_) => 5
    case Removed(_) => 6
    case Done(_, _) => 7
    case Cancelled(_) => 8
  }

  lemma {:induction false} StagesReached(acts: seq<Action>, i: nat)
    requires IsRun(acts) && i < |acts| && !acts[i].Begin?
    ensures acts[i].call < |After(acts).calls|
    ensures Stage(acts[i]) <= Reached(After(acts).calls[acts[i].call].phase)
  {
    if i < |acts| - 1 {
      StagesReached(acts[..|acts| - 1], i);
    }
  }

  /** The actions of one call follow the order of the source text.  So no call waits twice,
      executes twice, or does anything after it was dropped. */
  lemma {:induction false} ActionsInOrder(acts: seq<Action>, i: nat, j: nat)
    requires IsRun(acts) && i < j < |acts|
    requires !acts[i].Begin? && !acts[j].Begin? && acts[i].call == acts[j].call
    ensures Stage(acts[i]) < Stage(acts[j])
  {
    if j < |acts| - 1 {
      ActionsInOrder(acts[..|acts| - 1], i, j);
    } else {
      StagesReached(acts[..j], i);
      assert acts[..|acts| - 1] == acts[..j];
    }
  }

  lemma OccursLonger(acts: seq<Action>, a: Action)
    requires acts != []
    ensures a in acts <==> a in acts[..|acts| - 1] || a == acts[|acts| - 1]
  {
    assert acts == acts[..|acts| - 1] + [acts[|acts| - 1]];
  }

  lemma ActorExists(acts: seq<Action>, a: Action)
    requires IsRun(acts) && a in acts && !a.Begin?
    ensures a.call < |After(acts).calls|
  {
    var i :| 0 <= i < |acts| && acts[i] == a;
    StagesReached(acts, i);
  }

  /** In every run a call has returned another call's answer exactly when it received one that it could
      decode, and it is gone without an answer exactly when it was dropped: an answer that does not
      decode, or a closed channel, never ends a call. */
  lemma {:induction false} EndsIff(acts: seq<Action>, t: nat)
    requires IsRun(acts) && t < |After(acts).calls|
    ensures (After(acts).calls[t].phase.Done? && After(acts).calls[t].phase.from != t) <==> Receive(t, true) in acts
    ensures After(acts).calls[t].phase.Cancelled? <==> Cancel(t) in acts
  {
    var before := acts[..|acts| - 1];
    RunKeepsInvariant(before);
    OccursLonger(acts, Receive(t, true));
    OccursLonger(acts, Cancel(t));
    if t < |After(before).calls| {
      assert CallOk(After(before), t);
      EndsIff(before, t);
    } else {
      if Receive(t, true) in before { ActorExists(before, Receive(t, true)); }
      if Cancel(t) in before { ActorExists(before, Cancel(t)); }
    }
  }

  // ---------- the map, in terms of the run alone ----------

  /** The action inserts or removes the entry of a key. */
  predicate Touches(calls: seq<Call>, a: Action, key: string) {
    (a.Insert? || a.Remove?) && a.call < |calls| && calls[a.call].key == key
  }

  /** Action i inserts call t for its key, and nothing touches the key after it. */
  ghost predicate InsertsLast(acts: seq<Action>, calls: seq<Call>, key: string, t: nat, i: nat) {
    && i < |acts| && acts[i] == Insert(t) && t < |calls| && calls[t].key == key
    && forall j :: i < j < |acts| ==> !Touches(calls, acts[j], key)
  }

  lemma {:induction false} TouchedBefore(acts: seq<Action>, key: string, j: nat)
    requires IsRun(acts) && j < |acts| - 1
    ensures Touches(After(acts[..|acts| - 1]).calls, acts[j], key) <==> Touches(After(acts).calls, acts[j], key)
  {
    if !acts[j].Begin? {
      assert acts[..|acts| - 1][j] == acts[j];
      StagesReached(acts[..|acts| - 1], j);
    }
  }

  lemma InsertsLastLonger(acts: seq<Action>, key: string, t: nat, i: nat)
    requires IsRun(acts) && i < |acts| - 1
    ensures InsertsLast(acts, After(acts).calls, key, t, i) <==>
      && InsertsLast(acts[..|acts| - 1], After(acts[..|acts| - 1]).calls, key, t, i)
      && !Touches(After(acts).calls, acts[|acts| - 1], key)
  {
    forall j | 0 <= j < |acts| - 1
      ensures Touches(After(acts[..|acts| - 1]).calls, acts[j], key) <==> Touches(After(acts).calls, acts[j], key)
    {
      TouchedBefore(acts, key, j);
    }
    if acts[i] == Insert(t) {
      StagesReached(acts[..|acts| - 1], i);
    }
    LongerBy(acts[..|acts| - 1], acts[|acts| - 1], After(acts[..|acts| - 1]).calls, After(acts).calls, key, t, i);
    assert acts[..|acts| - 1] + [acts[|acts| - 1]] == acts;
  }

  lemma LongerBy(acts: seq<Action>, a: Action, calls: seq<Call>, calls': seq<Call>, key: string, t: nat, i: nat)
    requires i < |acts|
    requires forall j :: 0 <= j < |acts| ==> (Touches(calls, acts[j], key) <==> Touches(calls', acts[j], key))
    ensures InsertsLast(acts + [a], calls', key, t, i)
       <==> InsertsLast(acts, calls, key, t, i) && !Touches(calls', a, key)
  {
    var longer := acts + [a];
    assert Touches(calls, acts[i], key) <==> Touches(calls', longer[i], key);
    if InsertsLast(longer, calls', key, t, i) {
      assert longer[|acts|] == a;
      forall j | i < j < |acts| ensures !Touches(calls, acts[j], key) {
        assert longer[j] == acts[j];
      }
    }
  }

  lemma {:induction false} EntryWasInserted(acts: seq<Action>, key: string) returns (i: nat)
    requires IsRun(acts) && key in After(acts).inFlight
    ensures InsertsLast(acts, After(acts).calls, key, After(acts).inFlight[key], i)
  {
    var n := |acts| - 1;
    if Touches(After(acts).calls, acts[n], key) {
      i := n;
    } else {
      i := EntryWasInserted(acts[..n], key);
      InsertsLastLonger(acts, key, After(acts).inFlight[key], i);
    }
  }

  lemma {:induction false} InsertedStays(acts: seq<Action>, key: string, t: nat, i: nat)
    requires IsRun(acts) && InsertsLast(acts, After(acts).calls, key, t, i)
    ensures key in After(acts).inFlight && After(acts).inFlight[key] == t
  {
    if i < |acts| - 1 {
      InsertsLastLonger(acts, key, t, i);
      InsertedStays(acts[..|acts| - 1], key, t, i);
    }
  }

  /** After every run the map holds the channel of call t under a key exactly when t inserted it and
      no call for that key has inserted or removed since: a remove takes the entry away whoever owns
      it. */
  lemma EntryIff(acts: seq<Action>, key: string, t: nat)
    requires IsRun(acts)
    ensures (key in After(acts).inFlight && After(acts).inFlight[key] == t)
       <==> exists i :: InsertsLast(acts, After(acts).calls, key, t, i)
  {
    if key in After(acts).inFlight && After(acts).inFlight[key] == t {
      var i := EntryWasInserted(acts, key);
    }
    if i: nat :| InsertsLast(acts, After(acts).calls, key, t, i) {
      InsertedStays(acts, key, t, i);
    }
  }

  /** In particular, once a call has removed, its key has no entry, not even that of a call that
      overwrote it and still executes. */
  lemma RemoveTakesTheKey(acts: seq<Action>, t: nat)
    requires IsRun(acts) && acts != [] && acts[|acts| - 1] == Remove(t)
    ensures t < |After(acts).calls| && After(acts).calls[t].key !in After(acts).inFlight
  {
    StagesReached(acts, |acts| - 1);
    var key := After(acts).calls[t].key;
    if key in After(acts).inFlight {
      var i := EntryWasInserted(acts, key);
      assert Touches(After(acts).calls, acts[|acts| - 1], key);
    }
  }

  // ---------- progress ----------

  function Remaining(p: Phase): nat {
    if p.Done? || p.Cancelled? then 0 else 7 - Reached(p)
  }

  function Work(calls: seq<Call>): nat {
    if calls == [] then 0 else Work(calls[..|calls| - 1]) + Remaining(calls[|calls| - 1].phase)
  }

  lemma {:induction false} WorkUpdate(calls: seq<Call>, t: nat, c: Call)
    requires t < |calls|
    ensures Work(calls[t := c]) == Work(calls) - Remaining(calls[t].phase) + Remaining(c.phase)
  {
    var n := |calls| - 1;
    if t < n {
      WorkUpdate(calls[..n], t, c);
      assert calls[t := c][..n] == calls[..n][t := c];
    } else {
      assert calls[t := c][..n] == calls[..n];
    }
  }

  /** Every action but the arrival of a new call uses up work. */
  lemma StepsUseUpWork(s: State, a: Action)
    requires Enabled(s, a)
    ensures a.Begin? ==> Work(Apply(s, a).calls) == Work(s.calls) + 7
    ensures !a.Begin? ==> Work(Apply(s, a).calls) < Work(s.calls)
  {
    if a.Begin? {
      var calls := Apply(s, a).calls;
      assert calls[..|calls| - 1] == s.calls;
    } else {
      WorkUpdate(s.calls, a.call, Moved(s, a));
    }
  }

  /** A run with n calls has at most 8n actions, whatever the interleaving. */
  lemma {:induction false} RunsAreShort(acts: seq<Action>)
    requires IsRun(acts)
    ensures |acts| + Work(After(acts).calls) <= 8 * |After(acts).calls|
  {
    if acts != [] {
      RunsAreShort(acts[..|acts| - 1]);
      StepsUseUpWork(After(acts[..|acts| - 1]), acts[|acts| - 1]);
    }
  }

  /** The call can take an action of its own, other than being dropped. */
  predicate CanMove(s: State, t: nat)
    requires t < |s.calls|
  {
    match s.calls[t].phase
    case Done(_, _) => false
    case Cancelled(_) => false
    case Waiting(leader, subscribed) =>
      leader < |s.calls| && (MessageVisible(s, leader, subscribed) || !ChannelOpen(s, leader))
    case _ => true
  }

  /** The action a call that can move takes next. */
  function NextAction(s: State, t: nat, answer: Response, decodes: bool, serializes: bool): Action
    requires t < |s.calls| && CanMove(s, t)
  {
    match s.calls[t].phase
    case Looking => Lookup(t)
    case Waiting(leader, subscribed) =>
      if MessageVisible(s, leader, subscribed) then Receive(t, decodes) else ChannelClosed(t)
    case Missed => Insert(t)
    case Executing => Complete(t, answer)
    case Executed(_) => Send(t, serializes)
    case Sent(_) => Remove(t)
    case Removed(_) => Return(t)
  }

  lemma NextActionEnabled(s: State, t: nat, answer: Response, decodes: bool, serializes: bool)
    requires Invariant(s) && t < |s.calls| && CanMove(s, t)
    ensures Enabled(s, NextAction(s, t, answer, decodes, serializes))
  {
    assert CallOk(s, t);
    if s.calls[t].phase.Waiting? { assert CallOk(s, s.calls[t].phase.leader); }
  }

  lemma CanMoveIff(s: State, t: nat)
    requires Invariant(s) && t < |s.calls|
    ensures CanMove(s, t) <==> exists a: Action :: !a.Begin? && !a.Cancel? && a.call == t && Enabled(s, a)
  {
    if CanMove(s, t) {
      NextActionEnabled(s, t, ErrorResponse(J.Null, 0, ""), true, true);
      var a := NextAction(s, t, ErrorResponse(J.Null, 0, ""), true, true);
      assert Enabled(s, a);
    }
  }

  /** The call waits on a channel that nobody will send to or close: its opener was dropped
      while executing, and the sender in the map keeps the channel open. */
  ghost predicate Orphaned(s: State, t: nat)
    requires t < |s.calls|
  {
    var p := s.calls[t].phase;
    && p.Waiting? && p.leader < |s.calls|
    && s.calls[p.leader].phase == Cancelled(true)
    && p.leader in s.inFlight.Values
  }

  ghost predicate Stalled(s: State) {
    forall t :: 0 <= t < |s.calls| ==> !CanMove(s, t)
  }

  ghost predicate Settled(s: State) {
    forall t :: 0 <= t < |s.calls| ==> s.calls[t].phase.Done? || s.calls[t].phase.Cancelled? || Orphaned(s, t)
  }

  lemma OrphansCannotMove(s: State, t: nat)
    requires Invariant(s) && t < |s.calls| && Orphaned(s, t)
    ensures !CanMove(s, t)
  {
    assert CallOk(s, s.calls[t].phase.leader);
  }

  /** Nothing more can happen exactly when every call has returned, was dropped, or is orphaned. */
  lemma StalledIff(acts: seq<Action>)
    requires IsRun(acts)
    ensures Stalled(After(acts)) <==> Settled(After(acts))
  {
    RunKeepsInvariant(acts);
    var s := After(acts);
    forall t | 0 <= t < |s.calls| && Orphaned(s, t) ensures !CanMove(s, t) {
      OrphansCannotMove(s, t);
    }
    if Stalled(s) {
      forall t | 0 <= t < |s.calls|
        ensures s.calls[t].phase.Done? || s.calls[t].phase.Cancelled? || Orphaned(s, t)
      {
        assert !CanMove(s, t) && CallOk(s, t);
        if s.calls[t].phase.Waiting? {
          var l := s.calls[t].phase.leader;
          assert !CanMove(s, l);
          assert !HoldsSender(s.calls[l]);
        }
      }
    } else {
      var t :| 0 <= t < |s.calls| && CanMove(s, t);
      assert !Orphaned(s, t);
    }
  }

  // ---------- one leader, and one execution, at a time: exactly when ----------

  /** Between its insert and its remove. */
  predicate Leading(c: Call) {
    c.phase.Executing? || c.phase.Executed? || c.phase.Sent?
  }

  ghost predicate OneLeaderPerKey(s: State) {
    forall t, u ::
      (0 <= t < |s.calls| && 0 <= u < |s.calls| && s.calls[t].key == s.calls[u].key
       && Leading(s.calls[t]) && Leading(s.calls[u])) ==> t == u
  }

  /** The insert would replace the entry of a call that is still leading. */
  ghost predicate Overwrites(s: State, a: Action) {
    && a.Insert? && a.call < |s.calls|
    && var k := s.calls[a.call].key;
    && k in s.inFlight && s.inFlight[k] < |s.calls| && Leading(s.calls[s.inFlight[k]])
  }

  ghost predicate LeadersAreListed(s: State) {
    forall t :: 0 <= t < |s.calls| && Leading(s.calls[t]) ==>
      s.calls[t].key in s.inFlight && s.inFlight[s.calls[t].key] == t
  }

  lemma StepKeepsLeadersListed(s: State, a: Action)
    requires Invariant(s) && Enabled(s, a) && LeadersAreListed(s) && !Overwrites(s, a)
    ensures LeadersAreListed(Apply(s, a))
  {
    var s' := Apply(s, a);
    forall t | 0 <= t < |s'.calls| && Leading(s'.calls[t])
      ensures s'.calls[t].key in s'.inFlight && s'.inFlight[s'.calls[t].key] == t
    {
      if a.Begin? || t != a.call {
        assert s.calls[t] == s'.calls[t];
      }
    }
  }

  lemma {:induction false} PrefixIsRun(acts: seq<Action>, i: nat)
    requires IsRun(acts) && i <= |acts|
    ensures IsRun(acts[..i])
  {
    if i < |acts| {
      PrefixIsRun(acts[..|acts| - 1], i);
      assert acts[..|acts| - 1][..i] == acts[..i];
    } else {
      assert acts[..i] == acts;
    }
  }

  ghost predicate NeverOverwrites(acts: seq<Action>)
    requires IsRun(acts)
  {
    forall i :: 0 <= i < |acts| ==> !OverwritesAt(acts, i)
  }

  ghost predicate OverwritesAt(acts: seq<Action>, i: nat)
    requires IsRun(acts) && i < |acts|
  {
    PrefixIsRun(acts, i);
    Overwrites(After(acts[..i]), acts[i])
  }

  ghost predicate OneLeaderAt(acts: seq<Action>, i: nat)
    requires IsRun(acts) && i <= |acts|
  {
    PrefixIsRun(acts, i);
    OneLeaderPerKey(After(acts[..i]))
  }

  lemma AfterNext(acts: seq<Action>, i: nat)
    requires IsRun(acts) && i < |acts|
    ensures IsRun(acts[..i]) && IsRun(acts[..i + 1]) && Enabled(After(acts[..i]), acts[i])
    ensures After(acts[..i + 1]) == Apply(After(acts[..i]), acts[i])
  {
    PrefixIsRun(acts, i + 1);
    assert acts[..i + 1][..i] == acts[..i];
  }

  lemma {:induction false} NoOverwriteLeadersListed(acts: seq<Action>, i: nat)
    requires IsRun(acts) && NeverOverwrites(acts) && i <= |acts|
    ensures IsRun(acts[..i]) && LeadersAreListed(After(acts[..i]))
  {
    PrefixIsRun(acts, i);
    if i > 0 {
      NoOverwriteLeadersListed(acts, i - 1);
      AfterNext(acts, i - 1);
      RunKeepsInvariant(acts[..i - 1]);
      assert !OverwritesAt(acts, i - 1);
      StepKeepsLeadersListed(After(acts[..i - 1]), acts[i - 1]);
    } else {
      assert acts[..0] == [];
    }
  }

  lemma OneLeaderWithout(acts: seq<Action>, i: nat)
    requires IsRun(acts) && NeverOverwrites(acts) && i <= |acts|
    ensures OneLeaderAt(acts, i)
  {
    NoOverwriteLeadersListed(acts, i);
  }

  lemma TwoLeadersAfter(acts: seq<Action>, i: nat)
    requires IsRun(acts) && i < |acts| && OverwritesAt(acts, i)
    ensures !OneLeaderAt(acts, i + 1)
  {
    AfterNext(acts, i);
    RunKeepsInvariant(acts[..i]);
    TwoLeadAfterOverwrite(After(acts[..i]), acts[i]);
  }

  lemma TwoLeadAfterOverwrite(s: State, a: Action)
    requires Invariant(s) && Enabled(s, a) && Overwrites(s, a)
    ensures !OneLeaderPerKey(Apply(s, a))
  {
    var s' := Apply(s, a);
    var prev := s.inFlight[s.calls[a.call].key];
    assert Leading(s'.calls[prev]) && Leading(s'.calls[a.call]);
  }

  /** A run never has two calls for one key between their inserts and removes if and only if no
      insert in it finds the entry of a call that still leads. */
  lemma OneLeaderIff(acts: seq<Action>)
    requires IsRun(acts)
    ensures (forall i :: 0 <= i <= |acts| ==> OneLeaderAt(acts, i)) <==> NeverOverwrites(acts)
  {
    if NeverOverwrites(acts) {
      forall i | 0 <= i <= |acts| ensures OneLeaderAt(acts, i) {
        OneLeaderWithout(acts, i);
      }
    } else {
      var i :| 0 <= i < |acts| && OverwritesAt(acts, i);
      TwoLeadersAfter(acts, i);
    }
  }

  ghost predicate OneExecutionPerKey(s: State) {
    forall t, u ::
      (0 <= t < |s.calls| && 0 <= u < |s.calls| && s.calls[t].key == s.calls[u].key
       && s.calls[t].phase.Executing? && s.calls[u].phase.Executing?) ==> t == u
  }

  /** The call inserts while another one with its key executes. */
  ghost predicate Joins(s: State, a: Action) {
    && a.Insert? && a.call < |s.calls|
    && exists u :: 0 <= u < |s.calls| && s.calls[u].phase.Executing? && s.calls[u].key == s.calls[a.call].key
  }

  lemma StepKeepsOneExecution(s: State, a: Action)
    requires Enabled(s, a) && OneExecutionPerKey(s) && !Joins(s, a)
    ensures OneExecutionPerKey(Apply(s, a))
  {
    var s' := Apply(s, a);
    assert forall t :: 0 <= t < |s'.calls| && s'.calls[t].phase.Executing? ==>
      (t < |s.calls| && s.calls[t] == s'.calls[t]) || (a.Insert? && t == a.call);
  }

  lemma TwoExecuteAfterJoin(s: State, a: Action)
    requires Enabled(s, a) && Joins(s, a)
    ensures !OneExecutionPerKey(Apply(s, a))
  {
    var u :| 0 <= u < |s.calls| && s.calls[u].phase.Executing? && s.calls[u].key == s.calls[a.call].key;
    var s' := Apply(s, a);
    assert s'.calls[u].phase.Executing? && s'.calls[a.call].phase.Executing?;
  }

  ghost predicate JoinsAt(acts: seq<Action>, i: nat)
    requires IsRun(acts) && i < |acts|
  {
    PrefixIsRun(acts, i);
    Joins(After(acts[..i]), acts[i])
  }

  ghost predicate NeverJoins(acts: seq<Action>)
    requires IsRun(acts)
  {
    forall i :: 0 <= i < |acts| ==> !JoinsAt(acts, i)
  }

  ghost predicate OneExecutionAt(acts: seq<Action>, i: nat)
    requires IsRun(acts) && i <= |acts|
  {
    PrefixIsRun(acts, i);
    OneExecutionPerKey(After(acts[..i]))
  }

  lemma {:induction false} OneExecutionWithout(acts: seq<Action>, i: nat)
    requires IsRun(acts) && NeverJoins(acts) && i <= |acts|
    ensures OneExecutionAt(acts, i)
  {
    PrefixIsRun(acts, i);
    if i > 0 {
      OneExecutionWithout(acts, i - 1);
      AfterNext(acts, i - 1);
      assert !JoinsAt(acts, i - 1);
      StepKeepsOneExecution(After(acts[..i - 1]), acts[i - 1]);
    } else {
      assert acts[..0] == [];
    }
  }

  lemma TwoExecutionsAfter(acts: seq<Action>, i: nat)
    requires IsRun(acts) && i < |acts| && JoinsAt(acts, i)
    ensures !OneExecutionAt(acts, i + 1)
  {
    AfterNext(acts, i);
    TwoExecuteAfterJoin(After(acts[..i]), acts[i]);
  }

  /** A run never has two executions for one key under way if and only if no call inserts in it while
      another one with its key executes.  The code does not look again before it inserts, so both
      kinds of run exist. */
  lemma OneExecutionIff(acts: seq<Action>)
    requires IsRun(acts)
    ensures (forall i :: 0 <= i <= |acts| ==> OneExecutionAt(acts, i)) <==> NeverJoins(acts)
  {
    if NeverJoins(acts) {
      forall i | 0 <= i <= |acts| ensures OneExecutionAt(acts, i) {
        OneExecutionWithout(acts, i);
      }
    } else {
      var i :| 0 <= i < |acts| && JoinsAt(acts, i);
      TwoExecutionsAfter(acts, i);
    }
  }

  lemma JoinOverwrites(s: State, a: Action)
    requires LeadersAreListed(s) && Enabled(s, a) && Joins(s, a)
    ensures Overwrites(s, a)
  {
    var u :| 0 <= u < |s.calls| && s.calls[u].phase.Executing? && s.calls[u].key == s.calls[a.call].key;
    assert Leading(s.calls[u]);
  }

  /** It is enough that no insert overwrites the entry of a call that still leads. */
  lemma NeverOverwritesNeverJoins(acts: seq<Action>)
    requires IsRun(acts) && NeverOverwrites(acts)
    ensures NeverJoins(acts)
  {
    forall i | 0 <= i < |acts| ensures !JoinsAt(acts, i) {
      AfterNext(acts, i);
      NoOverwriteLeadersListed(acts, i);
      assert !OverwritesAt(acts, i);
      if Joins(After(acts[..i]), acts[i]) {
        JoinOverwrites(After(acts[..i]), acts[i]);
      }
    }
  }

  lemma ExtendRun(acts: seq<Action>, a: Action)
    requires IsRun(acts) && Enabled(After(acts), a)
    ensures IsRun(acts + [a]) && After(acts + [a]) == Apply(After(acts), a)
  {
    assert (acts + [a])[..|acts + [a]| - 1] == acts;
  }

  lemma Extended(acts: seq<Action>, a: Action) returns (longer: seq<Action>)
    requires IsRun(acts) && Enabled(After(acts), a)
    ensures longer == acts + [a] && IsRun(longer) && After(longer) == Apply(After(acts), a)
  {
    ExtendRun(acts, a);
    longer := acts + [a];
  }

  /** Two calls that both look before either inserts both execute, at the same time. */
  lemma TwoExecutionsAtOnce(key: string)
    ensures
      var acts := [Begin(key), Begin(key), Lookup(0), Lookup(1), Insert(0), Insert(1)];
      && IsRun(acts) && |After(acts).calls| == 2
      && forall t :: 0 <= t < 2 ==> After(acts).calls[t].key == key && After(acts).calls[t].phase.Executing?
  {
    var run: seq<Action> := [];
    run := Extended(run, Begin(key));
    run := Extended(run, Begin(key));
    run := Extended(run, Lookup(0));
    run := Extended(run, Lookup(1));
    run := Extended(run, Insert(0));
    run := Extended(run, Insert(1));
    assert run == [Begin(key), Begin(key), Lookup(0), Lookup(1), Insert(0), Insert(1)];
  }

  lemma TwoLeaders(key: string) returns (run: seq<Action>)
    ensures run == [Begin(key), Begin(key), Begin(key), Lookup(0), Lookup(1), Insert(0), Insert(1)]
    ensures IsRun(run) && |After(run).calls| == 3 && After(run).inFlight == map[key := 1]
    ensures forall t :: 0 <= t < 3 ==> After(run).calls[t].key == key
    ensures After(run).calls[0].phase.Executing? && After(run).calls[1].phase.Executing?
    ensures After(run).calls[2].phase.Looking?
  {
    run := [];
    run := Extended(run, Begin(key));
    run := Extended(run, Begin(key));
    run := Extended(run, Begin(key));
    run := Extended(run, Lookup(0));
    run := Extended(run, Lookup(1));
    run := Extended(run, Insert(0));
    run := Extended(run, Insert(1));
  }

  /** The first of two leaders for a key removes the entry of the second, which still executes.  A call
      that looks then misses, and executes a third time. */
  lemma RemoveTakesAnothersEntry(key: string, resp: Response) returns (before: seq<Action>)
    ensures before == [Begin(key), Begin(key), Begin(key), Lookup(0), Lookup(1), Insert(0), Insert(1)]
                    + [Complete(0, resp)] + [Send(0, true)]
    ensures IsRun(before) && After(before).inFlight == map[key := 1]
    ensures IsRun(before + [Remove(0)]) && After(before + [Remove(0)]).inFlight == map[]
    ensures
      var acts := before + [Remove(0)] + [Lookup(2)] + [Insert(2)];
      && IsRun(acts) && |After(acts).calls| == 3
      && (forall t :: 0 <= t < 3 ==> After(acts).calls[t].key == key)
      && After(acts).calls[1].phase.Executing? && After(acts).calls[2].phase.Executing?
  {
    before := TwoLeaders(key);
    before := Extended(before, Complete(0, resp));
    before := Extended(before, Send(0, true));
    var run := Extended(before, Remove(0));
    run := Extended(run, Lookup(2));
    run := Extended(run, Insert(2));
  }

  lemma ExtendedApart(acts: seq<Action>, a: Action)
    requires IsRun(acts) && NeverJoins(acts) && Enabled(After(acts), a) && !Joins(After(acts), a)
    ensures IsRun(acts + [a]) && NeverJoins(acts + [a])
  {
    ExtendRun(acts, a);
    var longer := acts + [a];
    forall i | 0 <= i < |longer| ensures !JoinsAt(longer, i) {
      if i < |acts| {
        assert longer[..i] == acts[..i];
        assert !JoinsAt(acts, i);
      } else {
        assert longer[..i] == acts;
      }
    }
  }

  lemma ExtendedWithoutJoin(acts: seq<Action>, a: Action) returns (longer: seq<Action>)
    requires IsRun(acts) && NeverJoins(acts) && Enabled(After(acts), a) && !Joins(After(acts), a)
    ensures longer == acts + [a] && IsRun(longer) && After(longer) == Apply(After(acts), a) && NeverJoins(longer)
  {
    ExtendedApart(acts, a);
    longer := Extended(acts, a);
  }

  /** It is not necessary: the second call overwrites the entry of the first, which still leads but
      has its answer already, so no two executions are ever under way. */
  lemma OverwritingWithoutJoining(key: string, resp: Response)
    ensures
      var acts := [Begin(key), Begin(key), Lookup(0), Lookup(1), Insert(0), Complete(0, resp), Insert(1)];
      IsRun(acts) && NeverJoins(acts) && !NeverOverwrites(acts)
  {
    var run: seq<Action> := [];
    run := ExtendedWithoutJoin(run, Begin(key));
    run := ExtendedWithoutJoin(run, Begin(key));
    run := ExtendedWithoutJoin(run, Lookup(0));
    run := ExtendedWithoutJoin(run, Lookup(1));
    run := ExtendedWithoutJoin(run, Insert(0));
    run := ExtendedWithoutJoin(run, Complete(0, resp));
    var before := run;
    run := ExtendedWithoutJoin(run, Insert(1));
    assert run[..6] == before;
    assert OverwritesAt(run, 6);
    assert run == [Begin(key), Begin(key), Lookup(0), Lookup(1), Insert(0), Complete(0, resp), Insert(1)];
  }

  /** A call that finds an entry, and waits for it, returns the answer of the call that made it. */
  lemma AnswerIsTakenOver(key: string, resp: Response)
    ensures
      var acts := [Begin(key), Begin(key), Lookup(0), Insert(0), Lookup(1), Complete(0, resp), Send(0, true),
                   Receive(1, true)];
      && IsRun(acts) && |After(acts).calls| == 2
      && After(acts).calls[0].key == After(acts).calls[1].key == key
      && After(acts).calls[1].phase == Done(resp, 0)
  {
    var run: seq<Action> := [];
    run := Extended(run, Begin(key));
    run := Extended(run, Begin(key));
    run := Extended(run, Lookup(0));
    run := Extended(run, Insert(0));
    run := Extended(run, Lookup(1));
    run := Extended(run, Complete(0, resp));
    run := Extended(run, Send(0, true));
    run := Extended(run, Receive(1, true));
    assert run == [Begin(key), Begin(key), Lookup(0), Insert(0), Lookup(1), Complete(0, resp), Send(0, true),
                   Receive(1, true)];
  }

  /** A leader that is dropped while it executes strands the call that waits for it, and blocks its
      key for good. */
  lemma DroppedLeaderStrandsWaiter(key: string)
    ensures
      var acts := [Begin(key), Begin(key), Lookup(0), Insert(0), Lookup(1), Cancel(0)];
      IsRun(acts) && 1 < |After(acts).calls| && Orphaned(After(acts), 1) && Blocked(After(acts), key)
  {
    var run: seq<Action> := [];
    run := Extended(run, Begin(key));
    run := Extended(run, Begin(key));
    run := Extended(run, Lookup(0));
    run := Extended(run, Insert(0));
    run := Extended(run, Lookup(1));
    run := Extended(run, Cancel(0));
    assert run == [Begin(key), Begin(key), Lookup(0), Insert(0), Lookup(1), Cancel(0)];
    assert After(run).inFlight[key] == 0;
  }

  // ---------- what a dropped leader does to its key ----------

  /** The entry of the key is a dropped leader's, and every call for the key has not looked yet, waits
      for that leader, or is as good as finished. */
  ghost predicate Blocked(s: State, key: string) {
    && key in s.inFlight && s.inFlight[key] < |s.calls| && s.calls[s.inFlight[key]].phase == Cancelled(true)
    && forall t :: 0 <= t < |s.calls| && s.calls[t].key == key ==> BlockedCall(s, key, t)
  }

  predicate BlockedCall(s: State, key: string, t: nat)
    requires key in s.inFlight && t < |s.calls|
  {
    match s.calls[t].phase
    case Looking => true
    case Waiting(leader, _) => leader == s.inFlight[key]
    case Removed(_) => true
    case Done(_, _) => true
    case Cancelled(_) => true
    case _ => false
  }

  predicate Finished(c: Call) {
    c.phase.Removed? || c.phase.Done?
  }

  lemma StepKeepsBlocked(s: State, a: Action, key: string)
    requires Invariant(s) && Enabled(s, a) && Blocked(s, key)
    ensures Blocked(Apply(s, a), key) && Apply(s, a).inFlight[key] == s.inFlight[key]
    ensures forall t :: 0 <= t < |s.calls| && s.calls[t].key == key ==>
              (Finished(Apply(s, a).calls[t]) ==> Finished(s.calls[t]))
    ensures a.Begin? ==> !Finished(Apply(s, a).calls[|s.calls|])
  {
    var s', l := Apply(s, a), s.inFlight[key];
    assert CallOk(s, l);
    assert l in s.inFlight.Values;
    if !a.Begin? {
      if s.calls[a.call].key == key {
        assert BlockedCall(s, key, a.call);
      }
    }
    forall t | 0 <= t < |s'.calls| && s'.calls[t].key == key ensures BlockedCall(s', key, t) {
      if t < |s.calls| {
        assert BlockedCall(s, key, t);
      }
    }
  }

  /** From then on, in every continuation of the run, the key stays blocked, and no call for it
      returns except those that had removed their entry before.  A call that arrives later waits for
      good. */
  lemma {:induction false} BlockedForGood(acts: seq<Action>, more: seq<Action>, key: string)
    requires IsRun(acts) && IsRun(acts + more) && Blocked(After(acts), key)
    ensures Blocked(After(acts + more), key)
    ensures |After(acts).calls| <= |After(acts + more).calls|
    ensures
      var before, after := After(acts), After(acts + more);
      && (forall t :: 0 <= t < |before.calls| ==> before.calls[t].key == after.calls[t].key)
      && forall t :: 0 <= t < |after.calls| && after.calls[t].key == key && Finished(after.calls[t]) ==>
           t < |before.calls| && Finished(before.calls[t])
  {
    if more == [] {
      assert acts + more == acts;
    } else {
      var n := |more| - 1;
      var both := acts + more;
      assert both[..|both| - 1] == acts + more[..n] && both[|both| - 1] == more[n];
      BlockedForGood(acts, more[..n], key);
      RunKeepsInvariant(acts + more[..n]);
      StepKeepsBlocked(After(acts + more[..n]), more[n], key);
    }
  }

  // ---------- when leaders run to completion ----------

  /** Action i drops a call while it executes. */
  ghost predicate DropsLeader(acts: seq<Action>, i: nat)
    requires IsRun(acts) && i < |acts|
  {
    AfterNext(acts, i);
    acts[i].Cancel? && After(acts[..i]).calls[acts[i].call].phase.Executing?
  }

  lemma DroppedAtEnd(acts: seq<Action>, t: nat)
    requires IsRun(acts) && acts != [] && acts[|acts| - 1] == Cancel(t)
    requires t < |After(acts).calls| && After(acts).calls[t].phase == Cancelled(true)
    ensures DropsLeader(acts, |acts| - 1)
  {
    AfterNext(acts, |acts| - 1);
    assert acts[..|acts| - 1 + 1] == acts;
  }

  lemma DroppedBefore(acts: seq<Action>, i: nat)
    requires IsRun(acts) && 0 <= i < |acts| - 1
    ensures IsRun(acts[..|acts| - 1]) && (DropsLeader(acts[..|acts| - 1], i) <==> DropsLeader(acts, i))
  {
    assert acts[..|acts| - 1][..i] == acts[..i];
  }

  lemma {:induction false} CancelledLeaderWasDropped(acts: seq<Action>, t: nat) returns (i: nat)
    requires IsRun(acts) && t < |After(acts).calls| && After(acts).calls[t].phase == Cancelled(true)
    ensures i < |acts| && acts[i] == Cancel(t) && DropsLeader(acts, i)
  {
    var n := |acts| - 1;
    if acts[n] == Cancel(t) {
      i := n;
      DroppedAtEnd(acts, t);
    } else {
      i := CancelledLeaderWasDropped(acts[..n], t);
      DroppedBefore(acts, i);
    }
  }

  /** If leaders run to completion, that is, no call is dropped while it executes, then no call is
      ever orphaned: a run can go on until every call has returned or was dropped while it waited. */
  lemma LeadersCompleteAllFinish(acts: seq<Action>)
    requires IsRun(acts) && forall i :: 0 <= i < |acts| ==> !DropsLeader(acts, i)
    ensures
      var s := After(acts);
      && (forall t :: 0 <= t < |s.calls| ==> !Orphaned(s, t))
      && (Stalled(s) <==> forall t :: 0 <= t < |s.calls| ==> s.calls[t].phase.Done? || s.calls[t].phase == Cancelled(false))
  {
    var s := After(acts);
    forall t | 0 <= t < |s.calls| ensures s.calls[t].phase != Cancelled(true) {
      if s.calls[t].phase == Cancelled(true) {
        var i := CancelledLeaderWasDropped(acts, t);
      }
    }
    StalledIff(acts);
  }
}
