/** Subscriptions of WebSocket clients (src/ws/subscription.rs): the manager turns block events
    into notifications on the channels of the clients, and what a subscription receives over a
    whole run is settled by when it was opened and closed. */
module Subscriptions {
  import opened Wrappers
  import opened Json
  import opened BlockEvents
  import opened LogFilter
  import WsSubscriber

  datatype SubscriptionType = NewHeads | Logs | NewPendingTransactions | Syncing

  datatype Subscription = Subscription(id: string, subType: SubscriptionType, filter: Option<Filter>, client: nat)

  /** The channel to a client: everything ever put on it, and whether the client still listens. */
  datatype Channel = Channel(open: bool, sent: seq<Json>)

  datatype State = State(subs: map<string, Subscription>, channels: map<nat, Channel>, issued: set<string>)

  // ---------- messages ----------

  function Notification(id: string, result: Json): Json {
    Obj([("jsonrpc", Str("2.0")), ("method", Str("eth_subscription")),
         ("params", Obj([("subscription", Str(id)), ("result", result)]))])
  }

  function Notifications(id: string, results: seq<Json>): seq<Json> {
    seq(|results|, i requires 0 <= i < |results| => Notification(id, results[i]))
  }

  /** The subscription that a message is for; replies to requests have no parameters. */
  function SubscriptionOf(message: Json): Option<string> {
    match message.Get("params")
    case Some(p) => StrField(p, "subscription")
    case None => None
  }

  function ResultOf(message: Json): Json {
    match message.Get("params")
    case Some(p) => (match p.Get("result") case Some(r) => r case None => Null)
    case None => Null
  }

  /** What a client was told for one subscription, in order. */
  function Received(sent: seq<Json>, id: string): seq<Json> {
    if sent == [] then []
    else
      var before, last := sent[..|sent| - 1], sent[|sent| - 1];
      Received(before, id) + if SubscriptionOf(last) == Some(id) then [ResultOf(last)] else []
  }

  /** The other messages to a client: its replies, in order. */
  function Replies(sent: seq<Json>): seq<Json> {
    if sent == [] then []
    else
      var before, last := sent[..|sent| - 1], sent[|sent| - 1];
      Replies(before) + if SubscriptionOf(last) == None then [last] else []
  }

  lemma NotificationParts(id: string, result: Json)
    ensures SubscriptionOf(Notification(id, result)) == Some(id)
    ensures ResultOf(Notification(id, result)) == result
  {
    var params := [("subscription", Str(id)), ("result", result)];
    var fields := [("jsonrpc", Str("2.0")), ("method", Str("eth_subscription")), ("params", Obj(params))];
    assert fields[1..][1..] == [("params", Obj(params))];
    assert FieldOf(fields[1..][1..], "params") == Some(Obj(params));
    assert FieldOf(fields[1..], "params") == Some(Obj(params));
    assert params[1..] == [("result", result)];
    assert FieldOf(params[1..], "result") == Some(result);
  }

  /** What is sent to a client for a subscription names version 2.0 of the protocol, and is what a
      subscriber to this proxy takes for a header of that subscription, and of no other. */
  lemma NotificationIsHeard(id: string, header: Json, other: string)
    ensures StrField(Notification(id, header), "jsonrpc") == Some("2.0")
    ensures WsSubscriber.HeaderOf(other, WsSubscriber.Text(Some(Notification(id, header))))
         == if other == id then Some(header) else None
  {
    var params := [("subscription", Str(id)), ("result", header)];
    var fields := [("jsonrpc", Str("2.0")), ("method", Str("eth_subscription")), ("params", Obj(params))];
    assert fields[1..] == [("method", Str("eth_subscription")), ("params", Obj(params))];
    assert fields[1..][1..] == [("params", Obj(params))];
    assert FieldOf(fields[1..][1..], "params") == Some(Obj(params));
    assert FieldOf(fields[1..], "params") == Some(Obj(params));
    assert FieldOf(fields[1..], "method") == Some(Str("eth_subscription"));
    assert StrField(Notification(id, header), "method") == Some("eth_subscription");
    assert Notification(id, header).Get("params") == Some(Obj(params));
    assert params[1..] == [("result", header)];
    assert FieldOf(params[1..], "result") == Some(header);
    assert StrField(Obj(params), "subscription") == Some(id) && Obj(params).Get("result") == Some(header);
  }

  lemma OneMessageMore(sent: seq<Json>, message: Json, id: string)
    ensures Received(sent + [message], id)
         == Received(sent, id) + if SubscriptionOf(message) == Some(id) then [ResultOf(message)] else []
    ensures Replies(sent + [message]) == Replies(sent) + if SubscriptionOf(message) == None then [message] else []
  {
    assert (sent + [message])[..|sent|] == sent;
  }

  lemma LastNotification(sent: seq<Json>, id: string, results: seq<Json>)
    requires results != []
    ensures sent + Notifications(id, results)
         == sent + Notifications(id, results[..|results| - 1]) + [Notification(id, results[|results| - 1])]
  {
  }

  lemma {:induction false} NotificationsReach(sent: seq<Json>, id: string, results: seq<Json>, other: string)
    ensures Received(sent + Notifications(id, results), other)
         == Received(sent, other) + if other == id then results else []
    ensures Replies(sent + Notifications(id, results)) == Replies(sent)
  {
    if results == [] {
      assert sent + Notifications(id, results) == sent;
    } else {
      var k := |results| - 1;
      NotificationsReach(sent, id, results[..k], other);
      LastNotification(sent, id, results);
      OneMessageMore(sent + Notifications(id, results[..k]), Notification(id, results[k]), other);
      NotificationParts(id, results[k]);
      assert results[..k] + [results[k]] == results;
    }
  }

  /** Putting the notifications of one subscription on a channel extends what that subscription
      received by exactly their results, and nothing else. */
  lemma NotificationsExtend(sent: seq<Json>, id: string, results: seq<Json>)
    ensures Received(sent + Notifications(id, results), id) == Received(sent, id) + results
    ensures forall other :: other != id ==> Received(sent + Notifications(id, results), other) == Received(sent, other)
    ensures Replies(sent + Notifications(id, results)) == Replies(sent)
  {
    NotificationsReach(sent, id, results, id);
    forall other | other != id
      ensures Received(sent + Notifications(id, results), other) == Received(sent, other)
    {
      NotificationsReach(sent, id, results, other);
    }
  }

  lemma ReplyExtends(sent: seq<Json>, message: Json, id: string)
    requires SubscriptionOf(message) == None
    ensures Received(sent + [message], id) == Received(sent, id)
  {
    assert (sent + [message])[..|sent|] == sent;
  }

  // ---------- what one event owes one subscription ----------

  predicate Wants(sub: Subscription, log: Json) {
    match sub.filter
    case Some(f) => Matches(f, log)
    case None => true
  }

  function Wanting(sub: Subscription): Json -> bool {
    log => Wants(sub, log)
  }

  function Select(logs: seq<Json>, f: Json -> bool): seq<Json> {
    if logs == [] then []
    else
      var before, last := logs[..|logs| - 1], logs[|logs| - 1];
      Select(before, f) + if f(last) then [last] else []
  }

  /** The logs that a subscription wants, in order. */
  function Wanted(sub: Subscription, logs: seq<Json>): seq<Json> {
    Select(logs, Wanting(sub))
  }

  function Delivered(chainId: nat, sub: Subscription, event: BlockEvent): seq<Json> {
    match event
    case NewBlock(chain, _, _, header) => if chain == chainId && sub.subType == NewHeads then [header] else []
    case NewLogs(chain, _, Arr(items)) => if chain == chainId && sub.subType == Logs then Wanted(sub, items) else []
    case _ => []
  }

  /** What a client is owed for a subscription id when an event is handled. */
  function Due(chainId: nat, s: State, event: BlockEvent, client: nat, id: string): seq<Json> {
    if id in s.subs && s.subs[id].client == client && client in s.channels && s.channels[client].open
    then Delivered(chainId, s.subs[id], event) else []
  }

  lemma WantsIffAccepts(sub: Subscription, document: Json, log: Json)
    requires sub.filter == Some(FromValue(document))
    ensures Wants(sub, log) <==> Accepts(document, log)
  {
    MatchesIffAccepts(document, log);
  }

  lemma {:induction false} SelectedTimes(logs: seq<Json>, f: Json -> bool, log: Json)
    ensures multiset(Select(logs, f))[log] == if f(log) then multiset(logs)[log] else 0
  {
    if logs != [] {
      var k := |logs| - 1;
      SelectedTimes(logs[..k], f, log);
      assert logs[..k] + [logs[k]] == logs;
    }
  }

  /** A log is delivered as often as it occurs if the filter document accepts it, and otherwise not
      at all. */
  lemma WantedAre(sub: Subscription, document: Json, logs: seq<Json>, log: Json)
    requires sub.filter == Some(FromValue(document))
    ensures multiset(Wanted(sub, logs))[log] == if Accepts(document, log) then multiset(logs)[log] else 0
  {
    SelectedTimes(logs, Wanting(sub), log);
    WantsIffAccepts(sub, document, log);
  }

  // ---------- the steps ----------

  datatype Op =
    | Connect(client: nat)
    | Subscribe(id: string, subType: SubscriptionType, filter: Option<Filter>, client: nat)
    | Unsubscribe(id: string)
    | Handle(event: BlockEvent)
    | Reply(client: nat, message: Json)
    | Disconnect(client: nat)
    | CleanUp

  function Put(channels: map<nat, Channel>, client: nat, messages: seq<Json>): map<nat, Channel>
    requires client in channels
  {
    if channels[client].open then channels[client := Channel(true, channels[client].sent + messages)] else channels
  }

  function Kept(subs: map<string, Subscription>, channels: map<nat, Channel>): map<string, Subscription> {
    map id | id in subs && subs[id].client in channels && channels[subs[id].client].open :: subs[id]
  }

  ghost predicate Told(chainId: nat, s: State, event: BlockEvent, c: nat, before: Channel, after: Channel,
      remaining: set<string>, id: string)
  {
    Received(after.sent, id) == Received(before.sent, id) + if id in remaining then [] else Due(chainId, s, event, c, id)
  }

  /** What holds of a channel while an event is dispatched: exactly the subscriptions that do not
      remain have been served on it. */
  ghost predicate ServedOn(
      chainId: nat, s: State, event: BlockEvent, c: nat, before: Channel, after: Channel, remaining: set<string>) {
    && after.open == before.open && before.sent <= after.sent && Replies(after.sent) == Replies(before.sent)
    && forall id :: Told(chainId, s, event, c, before, after, remaining, id)
  }

  ghost predicate Serving(
      chainId: nat, s: State, event: BlockEvent, channels: map<nat, Channel>, remaining: set<string>) {
    && channels.Keys == s.channels.Keys
    && forall c :: c in channels ==> ServedOn(chainId, s, event, c, s.channels[c], channels[c], remaining)
  }

  /** Everything that was sent stays; the replies are unchanged; every client was told exactly what
      it is owed for every subscription id.  Subscriptions are served in any order. */
  ghost predicate Dispatched(chainId: nat, s: State, event: BlockEvent, s': State) {
    s'.subs == s.subs && s'.issued == s.issued && Serving(chainId, s, event, s'.channels, {})
  }

  ghost predicate Step(chainId: nat, s: State, op: Op, s': State) {
    match op
    case Connect(c) => c !in s.channels && s' == s.(channels := s.channels[c := Channel(true, [])])
    case Subscribe(id, subType, filter, c) =>
      && c in s.channels && id !in s.issued
      && s' == s.(subs := s.subs[id := Subscription(id, subType, filter, c)], issued := s.issued + {id})
    case Unsubscribe(id) => s' == s.(subs := s.subs - {id})
    case Handle(event) => Dispatched(chainId, s, event, s')
    case Reply(c, message) =>
      c in s.channels && SubscriptionOf(message) == None && s' == s.(channels := Put(s.channels, c, [message]))
    case Disconnect(c) =>
      c in s.channels && s' == s.(channels := s.channels[c := s.channels[c].(open := false)])
    case CleanUp => s' == s.(subs := Kept(s.subs, s.channels))
  }

  const EMPTY: State := State(map[], map[], {})

  ghost predicate StepAt(chainId: nat, states: seq<State>, ops: seq<Op>, i: nat)
    requires |states| == |ops| + 1 && i < |ops|
  {
    Step(chainId, states[i], ops[i], states[i + 1])
  }

  ghost predicate Run(chainId: nat, states: seq<State>, ops: seq<Op>) {
    && |states| == |ops| + 1 && states[0] == EMPTY
    && forall i :: 0 <= i < |ops| ==> StepAt(chainId, states, ops, i)
  }

  function Heard(s: State, client: nat, id: string): seq<Json> {
    if client in s.channels then Received(s.channels[client].sent, id) else []
  }

  /** Subscriptions are filed under their id, for clients that exist, and an id that was not issued
      yet was never heard of. */
  ghost predicate Valid(s: State) {
    && (forall id :: id in s.subs ==> s.subs[id].id == id && s.subs[id].client in s.channels && id in s.issued)
    && (forall c, id :: id !in s.issued ==> Heard(s, c, id) == [])
  }

  /** What a client hears of an id grows by what it is owed when an event is handled, and by
      nothing else. */
  lemma HeardStep(chainId: nat, s: State, op: Op, s': State, client: nat, id: string)
    requires Step(chainId, s, op, s')
    ensures Heard(s', client, id) == Heard(s, client, id) + if op.Handle? then Due(chainId, s, op.event, client, id) else []
  {
    match op
    case Handle(event) =>
      if client in s.channels {
        assert ServedOn(chainId, s, event, client, s.channels[client], s'.channels[client], {});
        assert Told(chainId, s, event, client, s.channels[client], s'.channels[client], {}, id);
      }
    case Reply(c, message) => ReplyExtends(s.channels[c].sent, message, id);
    case _ =>
  }

  lemma StepKeepsValid(chainId: nat, s: State, op: Op, s': State)
    requires Valid(s) && Step(chainId, s, op, s')
    ensures Valid(s')
  {
    forall c, id | id !in s'.issued ensures Heard(s', c, id) == [] {
      HeardStep(chainId, s, op, s', c, id);
    }
  }

  lemma {:induction false} RunKeepsValid(chainId: nat, states: seq<State>, ops: seq<Op>, k: nat)
    requires Run(chainId, states, ops) && k <= |ops|
    ensures Valid(states[k])
  {
    if k > 0 {
      RunKeepsValid(chainId, states, ops, k - 1);
      assert StepAt(chainId, states, ops, k - 1);
      StepKeepsValid(chainId, states[k - 1], ops[k - 1], states[k]);
    }
  }

  // ---------- delivery over whole runs ----------

  /** What the handled events among some operations deliver to a subscription. */
  function DeliveredOver(chainId: nat, sub: Subscription, ops: seq<Op>): seq<Json> {
    if ops == [] then []
    else
      var before, last := ops[..|ops| - 1], ops[|ops| - 1];
      DeliveredOver(chainId, sub, before) + if last.Handle? then Delivered(chainId, sub, last.event) else []
  }

  predicate Ends(op: Op, sub: Subscription) {
    op == Unsubscribe(sub.id) || op == Disconnect(sub.client)
  }

  function Requested(op: Op): Subscription
    requires op.Subscribe?
  {
    Subscription(op.id, op.subType, op.filter, op.client)
  }

  predicate Listens(s: State, client: nat) {
    client in s.channels && s.channels[client].open
  }

  predicate IsLive(s: State, sub: Subscription) {
    sub.id in s.subs && s.subs[sub.id] == sub && Listens(s, sub.client)
  }

  /** No step can bring the subscription to life: its id is used up, and either it is not on file
      or its client is gone. */
  predicate IsDead(s: State, sub: Subscription) {
    && sub.id in s.issued && sub.client in s.channels
    && (sub.id in s.subs ==> s.subs[sub.id] == sub && !s.channels[sub.client].open)
  }

  lemma LiveStays(chainId: nat, s: State, op: Op, s': State, sub: Subscription)
    requires Valid(s) && Step(chainId, s, op, s') && IsLive(s, sub)
    ensures if Ends(op, sub) then IsDead(s', sub) else IsLive(s', sub)
  {
    if op.Handle? && sub.client in s'.channels {
      assert ServedOn(chainId, s, op.event, sub.client, s.channels[sub.client], s'.channels[sub.client], {});
    }
  }

  lemma DeliveredOverOne(chainId: nat, sub: Subscription, op: Op)
    ensures DeliveredOver(chainId, sub, [op]) == if op.Handle? then Delivered(chainId, sub, op.event) else []
  {
    assert [op][..0] == [];
    assert DeliveredOver(chainId, sub, []) == [];
  }

  /** One step in the life of a subscription. */
  lemma LiveStep(chainId: nat, s: State, op: Op, s': State, sub: Subscription)
    requires Valid(s) && Step(chainId, s, op, s') && IsLive(s, sub)
    ensures if Ends(op, sub) then IsDead(s', sub) else IsLive(s', sub)
    ensures Heard(s', sub.client, sub.id) == Heard(s, sub.client, sub.id) + DeliveredOver(chainId, sub, [op])
  {
    LiveStays(chainId, s, op, s', sub);
    HeardStep(chainId, s, op, s', sub.client, sub.id);
    DeliveredOverOne(chainId, sub, op);
  }

  lemma DeadStep(chainId: nat, s: State, op: Op, s': State, sub: Subscription)
    requires Valid(s) && Step(chainId, s, op, s') && IsDead(s, sub)
    ensures IsDead(s', sub)
    ensures Heard(s', sub.client, sub.id) == Heard(s, sub.client, sub.id)
  {
    HeardStep(chainId, s, op, s', sub.client, sub.id);
  }

  /** Nobody but its client hears of a subscription. */
  lemma StrangerStep(chainId: nat, s: State, op: Op, s': State, sub: Subscription, stranger: nat)
    requires Valid(s) && Step(chainId, s, op, s') && (IsLive(s, sub) || IsDead(s, sub)) && stranger != sub.client
    ensures Heard(s', stranger, sub.id) == Heard(s, stranger, sub.id)
  {
    HeardStep(chainId, s, op, s', stranger, sub.id);
  }

  /** The life of a subscription at one step of a run. */
  lemma StepInRun(chainId: nat, states: seq<State>, ops: seq<Op>, sub: Subscription, k: nat)
    requires Run(chainId, states, ops) && k < |ops|
    ensures IsLive(states[k], sub) ==>
      && (if Ends(ops[k], sub) then IsDead(states[k + 1], sub) else IsLive(states[k + 1], sub))
      && Heard(states[k + 1], sub.client, sub.id)
         == Heard(states[k], sub.client, sub.id) + DeliveredOver(chainId, sub, [ops[k]])
    ensures IsDead(states[k], sub) ==>
      IsDead(states[k + 1], sub) && Heard(states[k + 1], sub.client, sub.id) == Heard(states[k], sub.client, sub.id)
  {
    RunKeepsValid(chainId, states, ops, k);
    assert StepAt(chainId, states, ops, k);
    if IsLive(states[k], sub) {
      LiveStep(chainId, states[k], ops[k], states[k + 1], sub);
    } else if IsDead(states[k], sub) {
      DeadStep(chainId, states[k], ops[k], states[k + 1], sub);
    }
  }

  lemma DeliveredOverSlice(chainId: nat, sub: Subscription, ops: seq<Op>, i: nat, k: nat)
    requires i <= k < |ops|
    ensures DeliveredOver(chainId, sub, ops[i..k + 1])
         == DeliveredOver(chainId, sub, ops[i..k]) + DeliveredOver(chainId, sub, [ops[k]])
  {
    assert ops[i..k + 1][..k - i] == ops[i..k];
    DeliveredOverOne(chainId, sub, ops[k]);
  }

  lemma LiveLonger(chainId: nat, states: seq<State>, ops: seq<Op>, sub: Subscription, i: nat, k: nat, before: seq<Json>)
    requires Run(chainId, states, ops) && i <= k < |ops| && IsLive(states[k], sub) && !Ends(ops[k], sub)
    requires Heard(states[k], sub.client, sub.id) == before + DeliveredOver(chainId, sub, ops[i..k])
    ensures IsLive(states[k + 1], sub)
    ensures Heard(states[k + 1], sub.client, sub.id) == before + DeliveredOver(chainId, sub, ops[i..k + 1])
  {
    StepInRun(chainId, states, ops, sub, k);
    DeliveredOverSlice(chainId, sub, ops, i, k);
    Associates(before, DeliveredOver(chainId, sub, ops[i..k]), DeliveredOver(chainId, sub, [ops[k]]));
  }

  lemma Associates(a: seq<Json>, b: seq<Json>, c: seq<Json>)
    ensures a + b + c == a + (b + c)
  {
  }

  lemma {:induction false} WhileLive(chainId: nat, states: seq<State>, ops: seq<Op>, sub: Subscription, i: nat, k: nat,
                                     before: seq<Json>)
    requires Run(chainId, states, ops) && i <= k <= |ops| && IsLive(states[i], sub)
    requires Heard(states[i], sub.client, sub.id) == before
    requires forall m :: i <= m < k ==> !Ends(ops[m], sub)
    ensures IsLive(states[k], sub)
    ensures Heard(states[k], sub.client, sub.id) == before + DeliveredOver(chainId, sub, ops[i..k])
    decreases k
  {
    if k > i {
      WhileLive(chainId, states, ops, sub, i, k - 1, before);
      LiveLonger(chainId, states, ops, sub, i, k - 1, before);
    } else {
      assert ops[i..i] == [];
    }
  }

  lemma {:induction false} OnceDead(chainId: nat, states: seq<State>, ops: seq<Op>, sub: Subscription, j: nat, k: nat)
    requires Run(chainId, states, ops) && j <= k <= |ops| && IsDead(states[j], sub)
    ensures Heard(states[k], sub.client, sub.id) == Heard(states[j], sub.client, sub.id)
    decreases k - j
  {
    if k > j {
      StepInRun(chainId, states, ops, sub, j);
      OnceDead(chainId, states, ops, sub, j + 1, k);
    }
  }

  /** A new subscription has heard nothing, and lives if its client listens. */
  lemma Opened(chainId: nat, states: seq<State>, ops: seq<Op>, i: nat, client: nat)
    requires Run(chainId, states, ops) && i < |ops| && ops[i].Subscribe?
    ensures var sub := Requested(ops[i]);
      && (if Listens(states[i], sub.client) then IsLive(states[i + 1], sub) else IsDead(states[i + 1], sub))
      && Heard(states[i + 1], client, sub.id) == []
  {
    RunKeepsValid(chainId, states, ops, i);
    assert StepAt(chainId, states, ops, i);
    HeardStep(chainId, states[i], ops[i], states[i + 1], client, ops[i].id);
  }

  /** What a subscription has heard when step j ends it, it has heard for good. */
  lemma EndsForGood(chainId: nat, states: seq<State>, ops: seq<Op>, sub: Subscription, j: nat)
    requires Run(chainId, states, ops) && j < |ops| && IsLive(states[j], sub) && Ends(ops[j], sub)
    ensures Heard(states[|ops|], sub.client, sub.id) == Heard(states[j], sub.client, sub.id)
  {
    StepInRun(chainId, states, ops, sub, j);
    DeliveredOverOne(chainId, sub, ops[j]);
    OnceDead(chainId, states, ops, sub, j + 1, |ops|);
  }

  lemma OpenedLives(chainId: nat, states: seq<State>, ops: seq<Op>, i: nat, j: nat)
    requires Run(chainId, states, ops) && i < j <= |ops| && ops[i].Subscribe? && Listens(states[i], ops[i].client)
    requires forall m :: i < m < j ==> !Ends(ops[m], Requested(ops[i]))
    ensures IsLive(states[j], Requested(ops[i]))
    ensures Heard(states[j], ops[i].client, ops[i].id) == DeliveredOver(chainId, Requested(ops[i]), ops[i + 1..j])
  {
    Opened(chainId, states, ops, i, ops[i].client);
    WhileLive(chainId, states, ops, Requested(ops[i]), i + 1, j, []);
  }

  /** Whatever happens in a run, a subscription opened by step i and ended by step j (or not ended)
      has received exactly what the events handled between them deliver, in order.  A client that
      was already gone receives nothing. */
  lemma DeliveryIsExact(chainId: nat, states: seq<State>, ops: seq<Op>, i: nat, j: nat)
    requires Run(chainId, states, ops) && i < j <= |ops| && ops[i].Subscribe?
    requires forall m :: i < m < j ==> !Ends(ops[m], Requested(ops[i]))
    requires j < |ops| ==> Ends(ops[j], Requested(ops[i]))
    ensures Heard(states[|ops|], ops[i].client, ops[i].id) ==
      if Listens(states[i], ops[i].client) then DeliveredOver(chainId, Requested(ops[i]), ops[i + 1..j]) else []
  {
    if Listens(states[i], ops[i].client) {
      OpenedLives(chainId, states, ops, i, j);
      if j < |ops| {
        EndsForGood(chainId, states, ops, Requested(ops[i]), j);
      }
    } else {
      Opened(chainId, states, ops, i, ops[i].client);
      OnceDead(chainId, states, ops, Requested(ops[i]), i + 1, |ops|);
    }
  }

  // ---------- what each kind of subscription receives ----------

  /** The headers of the chain's new blocks among the events that are handled, in order. */
  function HeadersOver(chainId: nat, ops: seq<Op>): seq<Json> {
    if ops == [] then []
    else
      var before := HeadersOver(chainId, ops[..|ops| - 1]);
      match ops[|ops| - 1]
      case Handle(NewBlock(chain, _, _, header)) => if chain == chainId then before + [header] else before
      case _ => before
  }

  /** Whether a log passes a filter document; without one every log does. */
  predicate Passes(document: Option<Json>, log: Json) {
    document.Some? ==> Accepts(document.value, log)
  }

  function Passing(document: Option<Json>, logs: seq<Json>): seq<Json> {
    if logs == [] then []
    else if Passes(document, logs[0]) then [logs[0]] + Passing(document, logs[1..])
    else Passing(document, logs[1..])
  }

  /** The entries of the chain's arrays of logs, among the events that are handled, that pass a filter
      document, in order. */
  function LogsOver(chainId: nat, document: Option<Json>, ops: seq<Op>): seq<Json> {
    if ops == [] then []
    else
      var before := LogsOver(chainId, document, ops[..|ops| - 1]);
      match ops[|ops| - 1]
      case Handle(NewLogs(chain, _, Arr(items))) => if chain == chainId then before + Passing(document, items) else before
      case _ => before
  }

  /** What a subscription of some kind receives of some operations. */
  function Receives(chainId: nat, subType: SubscriptionType, document: Option<Json>, ops: seq<Op>): seq<Json> {
    match subType
    case NewHeads => HeadersOver(chainId, ops)
    case Logs => LogsOver(chainId, document, ops)
    case NewPendingTransactions => []
    case Syncing => []
  }

  /** The filter of a subscription that comes with a filter document, or without one. */
  function Parsed(document: Option<Json>): Option<Filter> {
    match document
    case Some(d) => Some(FromValue(d))
    case None => None
  }

  lemma PassingOne(document: Option<Json>, log: Json)
    ensures Passing(document, [log]) == if Passes(document, log) then [log] else []
  {
    assert [log][1..] == [];
    assert Passing(document, []) == [];
  }

  lemma {:induction false} PassingMore(document: Option<Json>, logs: seq<Json>, log: Json)
    ensures Passing(document, logs + [log]) == Passing(document, logs) + if Passes(document, log) then [log] else []
  {
    if logs == [] {
      assert [] + [log] == [log];
      PassingOne(document, log);
    } else {
      assert (logs + [log])[1..] == logs[1..] + [log];
      PassingMore(document, logs[1..], log);
    }
  }

  /** The logs that a subscription is sent are those that pass its filter document, in their order. */
  lemma {:induction false} WantedArePassing(sub: Subscription, document: Option<Json>, logs: seq<Json>)
    requires sub.filter == Parsed(document)
    ensures Wanted(sub, logs) == Passing(document, logs)
  {
    if logs != [] {
      var k := |logs| - 1;
      WantedArePassing(sub, document, logs[..k]);
      if document.Some? {
        WantsIffAccepts(sub, document.value, logs[k]);
      }
      PassingMore(document, logs[..k], logs[k]);
      assert logs[..k] + [logs[k]] == logs;
    }
  }

  lemma {:induction false} DeliveredByKind(chainId: nat, sub: Subscription, document: Option<Json>, ops: seq<Op>)
    requires sub.subType == Logs ==> sub.filter == Parsed(document)
    ensures DeliveredOver(chainId, sub, ops) == Receives(chainId, sub.subType, document, ops)
  {
    if ops != [] {
      var last := ops[|ops| - 1];
      DeliveredByKind(chainId, sub, document, ops[..|ops| - 1]);
      if sub.subType == Logs && last.Handle? && last.event.NewLogs? && last.event.logs.Arr? {
        WantedArePassing(sub, document, last.event.logs.items);
      }
    }
  }

  /** What DeliveryIsExact comes to for each kind of subscription.  A newHeads subscription has received
      the headers of the new blocks, and a logs subscription the logs that pass its filter document,
      of its chain, among the events handled while it was open and in their order.  Subscriptions of
      the other kinds have received nothing. */
  lemma KindsReceive(chainId: nat, states: seq<State>, ops: seq<Op>, i: nat, j: nat, document: Option<Json>)
    requires Run(chainId, states, ops) && i < j <= |ops| && ops[i].Subscribe?
    requires ops[i].subType == Logs ==> ops[i].filter == Parsed(document)
    requires forall m :: i < m < j ==> !Ends(ops[m], Requested(ops[i]))
    requires j < |ops| ==> Ends(ops[j], Requested(ops[i]))
    ensures
      var heard := Heard(states[|ops|], ops[i].client, ops[i].id);
      if !Listens(states[i], ops[i].client) then heard == []
      else match ops[i].subType
        case NewHeads => heard == HeadersOver(chainId, ops[i + 1..j])
        case Logs => heard == LogsOver(chainId, document, ops[i + 1..j])
        case _ => heard == []
  {
    DeliveryIsExact(chainId, states, ops, i, j);
    DeliveredByKind(chainId, Requested(ops[i]), document, ops[i + 1..j]);
  }

  lemma {:induction false} LiveOrDead(chainId: nat, states: seq<State>, ops: seq<Op>, i: nat, k: nat)
    requires Run(chainId, states, ops) && i < k <= |ops| && ops[i].Subscribe?
    ensures IsLive(states[k], Requested(ops[i])) || IsDead(states[k], Requested(ops[i]))
    decreases k
  {
    if k == i + 1 {
      Opened(chainId, states, ops, i, ops[i].client);
    } else {
      LiveOrDead(chainId, states, ops, i, k - 1);
      StepInRun(chainId, states, ops, Requested(ops[i]), k - 1);
    }
  }

  /** In no run does any other client receive a notification of a subscription. */
  lemma {:induction false} OnlyItsClientHears(chainId: nat, states: seq<State>, ops: seq<Op>, i: nat, k: nat, stranger: nat)
    requires Run(chainId, states, ops) && i < k <= |ops| && ops[i].Subscribe? && stranger != ops[i].client
    ensures Heard(states[k], stranger, ops[i].id) == []
    decreases k
  {
    if k == i + 1 {
      Opened(chainId, states, ops, i, stranger);
    } else {
      OnlyItsClientHears(chainId, states, ops, i, k - 1, stranger);
      LiveOrDead(chainId, states, ops, i, k - 1);
      RunKeepsValid(chainId, states, ops, k - 1);
      assert StepAt(chainId, states, ops, k - 1);
      StrangerStep(chainId, states[k - 1], ops[k - 1], states[k], Requested(ops[i]), stranger);
    }
  }

  // ---------- the manager ----------

  lemma ServeOnItsChannel(
      chainId: nat, s: State, event: BlockEvent, sub: Subscription, now: Channel, remaining: set<string>)
    requires sub.id in s.subs && s.subs[sub.id] == sub && Listens(s, sub.client) && sub.id in remaining
    requires ServedOn(chainId, s, event, sub.client, s.channels[sub.client], now, remaining)
    ensures ServedOn(chainId, s, event, sub.client, s.channels[sub.client],
              Channel(true, now.sent + Notifications(sub.id, Delivered(chainId, sub, event))), remaining - {sub.id})
  {
    var before, results := s.channels[sub.client], Delivered(chainId, sub, event);
    var after := Channel(true, now.sent + Notifications(sub.id, results));
    NotificationsExtend(now.sent, sub.id, results);
    forall id ensures Told(chainId, s, event, sub.client, before, after, remaining - {sub.id}, id) {
      assert Told(chainId, s, event, sub.client, before, now, remaining, id);
    }
  }

  lemma ServeElsewhere(
      chainId: nat, s: State, event: BlockEvent, c: nat, now: Channel, id: string, remaining: set<string>)
    requires c in s.channels && Due(chainId, s, event, c, id) == []
    requires ServedOn(chainId, s, event, c, s.channels[c], now, remaining)
    ensures ServedOn(chainId, s, event, c, s.channels[c], now, remaining - {id})
  {
    forall other ensures Told(chainId, s, event, c, s.channels[c], now, remaining - {id}, other) {
      assert Told(chainId, s, event, c, s.channels[c], now, remaining, other);
    }
  }

  lemma ServeOne(chainId: nat, s: State, event: BlockEvent, channels: map<nat, Channel>, remaining: set<string>, id: string)
    requires Valid(s) && id in s.subs && id in remaining
    requires Serving(chainId, s, event, channels, remaining)
    ensures Serving(chainId, s, event,
      Put(channels, s.subs[id].client, Notifications(id, Delivered(chainId, s.subs[id], event))), remaining - {id})
    ensures Delivered(chainId, s.subs[id], event) == [] ==> Serving(chainId, s, event, channels, remaining - {id})
  {
    var sub := s.subs[id];
    var results := Delivered(chainId, sub, event);
    var after := Put(channels, sub.client, Notifications(id, results));
    forall c | c in channels
      ensures ServedOn(chainId, s, event, c, s.channels[c], after[c], remaining - {id})
    {
      if c == sub.client && channels[c].open {
        ServeOnItsChannel(chainId, s, event, sub, channels[c], remaining);
      } else {
        ServeElsewhere(chainId, s, event, c, channels[c], id, remaining);
      }
    }
    if results == [] {
      forall c | c in channels
        ensures ServedOn(chainId, s, event, c, s.channels[c], channels[c], remaining - {id})
      {
        ServeElsewhere(chainId, s, event, c, channels[c], id, remaining);
      }
    }
  }

  lemma NobodyServed(chainId: nat, s: State, event: BlockEvent)
    ensures Serving(chainId, s, event, s.channels, s.subs.Keys)
  {
    forall c | c in s.channels
      ensures ServedOn(chainId, s, event, c, s.channels[c], s.channels[c], s.subs.Keys)
    {
      forall id ensures Told(chainId, s, event, c, s.channels[c], s.channels[c], s.subs.Keys, id) {
      }
    }
  }

  /** An event that delivers nothing to anyone may be dropped. */
  lemma NobodyToServe(chainId: nat, s: State, event: BlockEvent)
    requires forall id :: id in s.subs ==> Delivered(chainId, s.subs[id], event) == []
    ensures Serving(chainId, s, event, s.channels, {})
  {
    forall c | c in s.channels
      ensures ServedOn(chainId, s, event, c, s.channels[c], s.channels[c], {})
    {
      forall id ensures Told(chainId, s, event, c, s.channels[c], s.channels[c], {}, id) {
      }
    }
  }

  lemma PutMore(channels: map<nat, Channel>, client: nat, messages: seq<Json>, message: Json)
    requires client in channels
    ensures Put(Put(channels, client, messages), client, [message]) == Put(channels, client, messages + [message])
  {
    if channels[client].open {
      assert channels[client].sent + messages + [message] == channels[client].sent + (messages + [message]);
    }
  }

  /** The manager with the channels it sends on. */
  class SubscriptionManager {
    const chainId: nat
    var subscriptions: map<string, Subscription>
    var channels: map<nat, Channel>
    ghost var issued: set<string>

    ghost function View(): State
      reads this
    {
      State(subscriptions, channels, issued)
    }

    constructor (chainId: nat)
      ensures this.chainId == chainId && View() == EMPTY
    {
      this.chainId, subscriptions, channels, issued := chainId, map[], map[], {};
    }

    /** Puts a message on the channel of a client; fails when the client is gone. */
    method Send(client: nat, message: Json) returns (ok: bool)
      requires client in channels
      modifies `channels
      ensures ok == old(channels[client].open)
      ensures channels == Put(old(channels), client, [message])
    {
      ok := channels[client].open;
      if ok {
        channels := channels[client := Channel(true, channels[client].sent + [message])];
      }
    }

    /** Registers a subscription under the id made from a fresh identifier. */
    method Subscribe(uuid: string, subType: SubscriptionType, filter: Option<Filter>, client: nat) returns (id: string)
      requires Valid(View()) && client in channels && "0x" + uuid !in issued
      modifies `subscriptions, `issued
      ensures id == "0x" + uuid
      ensures Step(chainId, old(View()), Op.Subscribe(id, subType, filter, client), View()) && Valid(View())
    {
      id := "0x" + uuid;
      subscriptions := subscriptions[id := Subscription(id, subType, filter, client)];
      issued := issued + {id};
      StepKeepsValid(chainId, old(View()), Op.Subscribe(id, subType, filter, client), View());
    }

    method Unsubscribe(id: string) returns (removed: bool)
      requires Valid(View())
      modifies `subscriptions
      ensures Step(chainId, old(View()), Op.Unsubscribe(id), View()) && Valid(View())
      ensures removed == (id in old(subscriptions))
    {
      removed := id in subscriptions;
      subscriptions := subscriptions - {id};
      StepKeepsValid(chainId, old(View()), Op.Unsubscribe(id), View());
    }

    /** Drops the subscriptions of the clients that are gone and says how many there were. */
    method RemoveClientSubscriptions() returns (count: nat)
      requires Valid(View())
      modifies `subscriptions
      ensures Step(chainId, old(View()), CleanUp, View()) && Valid(View())
      ensures count == |set id | id in old(subscriptions) && !channels[old(subscriptions)[id].client].open|
    {
      var before := |subscriptions|;
      ghost var gone := set id | id in subscriptions && !channels[subscriptions[id].client].open;
      var kept := Kept(subscriptions, channels);
      assert subscriptions.Keys == kept.Keys + gone;
      subscriptions := kept;
      count := before - |subscriptions|;
      StepKeepsValid(chainId, old(View()), CleanUp, View());
    }

    method HandleEvent(event: BlockEvent)
      requires Valid(View())
      modifies `channels
      ensures Step(chainId, old(View()), Handle(event), View()) && Valid(View())
    {
      match event {
        case NewBlock(chain, _, _, header) =>
          if chain == chainId {
            DispatchNewHeads(event, header);
          }
        case NewLogs(chain, _, logs) =>
          if chain == chainId {
            DispatchLogs(event, logs);
          }
        case Reorg(_, _, _) =>
      }
      if event.chainId != chainId || event.Reorg? {
        NobodyToServe(chainId, View(), event);
      }
      StepKeepsValid(chainId, old(View()), Handle(event), View());
    }

    method DispatchNewHeads(ghost event: BlockEvent, header: Json)
      requires Valid(View())
      requires event.NewBlock? && event.chainId == chainId && event.header == header
      modifies `channels
      ensures Step(chainId, old(View()), Handle(event), View())
    {
      ghost var s := View();
      NobodyServed(chainId, s, event);
      var remaining := subscriptions.Keys;
      while remaining != {}
        invariant remaining <= subscriptions.Keys
        invariant Serving(chainId, s, event, channels, remaining)
      {
        var id :| id in remaining;
        SendHead(s, event, header, remaining, id);
        remaining := remaining - {id};
      }
    }

    /** Serves one subscription with a header. */
    method SendHead(ghost s: State, ghost event: BlockEvent, header: Json, ghost remaining: set<string>, id: string)
      requires Valid(s) && s.subs == subscriptions && id in subscriptions && id in remaining
      requires event.NewBlock? && event.chainId == chainId && event.header == header
      requires Serving(chainId, s, event, channels, remaining)
      modifies `channels
      ensures Serving(chainId, s, event, channels, remaining - {id})
    {
      var sub := subscriptions[id];
      ServeOne(chainId, s, event, channels, remaining, id);
      if sub.subType == NewHeads {
        assert Notifications(sub.id, [header]) == [Notification(sub.id, header)];
        var _ := Send(sub.client, Notification(sub.id, header));
      }
    }

    method DispatchLogs(ghost event: BlockEvent, logs: Json)
      requires Valid(View())
      requires event.NewLogs? && event.chainId == chainId && event.logs == logs
      modifies `channels
      ensures Step(chainId, old(View()), Handle(event), View())
    {
      if !logs.Arr? {
        NobodyToServe(chainId, View(), event);
        return;
      }
      ghost var s := View();
      NobodyServed(chainId, s, event);
      var remaining := subscriptions.Keys;
      while remaining != {}
        invariant remaining <= subscriptions.Keys
        invariant Serving(chainId, s, event, channels, remaining)
      {
        var id :| id in remaining;
        SendLogsTo(s, event, logs.items, remaining, id);
        remaining := remaining - {id};
      }
    }

    /** Serves one subscription with an array of logs. */
    method SendLogsTo(ghost s: State, ghost event: BlockEvent, logs: seq<Json>, ghost remaining: set<string>, id: string)
      requires Valid(s) && s.subs == subscriptions && id in subscriptions && id in remaining
      requires event.NewLogs? && event.chainId == chainId && event.logs == Arr(logs)
      requires Serving(chainId, s, event, channels, remaining)
      modifies `channels
      ensures Serving(chainId, s, event, channels, remaining - {id})
    {
      var sub := subscriptions[id];
      ServeOne(chainId, s, event, channels, remaining, id);
      if sub.subType == Logs {
        SendLogs(sub, logs);
      }
    }

    /** Sends one subscription the logs it wants, and stops at the first failure. */
    method SendLogs(sub: Subscription, logs: seq<Json>)
      requires sub.client in channels
      modifies `channels
      ensures channels == Put(old(channels), sub.client, Notifications(sub.id, Wanted(sub, logs)))
    {
      assert channels[sub.client].sent + Notifications(sub.id, []) == channels[sub.client].sent;
      for k := 0 to |logs|
        invariant channels == Put(old(channels), sub.client, Notifications(sub.id, Wanted(sub, logs[..k])))
      {
        ghost var wanted := Wanted(sub, logs[..k]);
        assert logs[..k + 1][..k] == logs[..k] && logs[..k + 1][k] == logs[k];
        var wants := match sub.filter case Some(f) => Matches(f, logs[k]) case None => true;
        if wants {
          assert Wanted(sub, logs[..k + 1]) == wanted + [logs[k]];
          assert Notifications(sub.id, wanted + [logs[k]])
              == Notifications(sub.id, wanted) + [Notification(sub.id, logs[k])];
          PutMore(old(channels), sub.client, Notifications(sub.id, wanted), Notification(sub.id, logs[k]));
          var ok := Send(sub.client, Notification(sub.id, logs[k]));
          if !ok {
            break;
          }
        } else {
          assert Wanted(sub, logs[..k + 1]) == wanted;
        }
      }
      assert logs[..|logs|] == logs;
    }
  }
}
