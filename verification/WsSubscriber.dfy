/** Forwarding the heads of an upstream WebSocket (src/upstream/ws_subscriber.rs). */
module WsSubscriber {
  import opened Wrappers
  import opened Json
  import opened BlockEvents

  /** What the socket delivers: a text, parsed if it is JSON; a ping; a close; something else; or
      an error.  The end of the list is the end of the stream. */
  datatype Message = Text(parsed: Option<Json>) | Ping(data: string) | Close | Other | Failure(error: string)

  /** The header of a notification for the given subscription. */
  function HeaderOf(subId: string, m: Message): Option<Json> {
    match m
    case Text(Some(v)) =>
      if StrField(v, "method") != Some("eth_subscription") then None
      else
        (match v.Get("params")
         case None => None
         case Some(params) =>
           var got := match StrField(params, "subscription") case Some(s) => s case None => "";
           if got != subId then None else params.Get("result"))
    case _ => None
  }

  /** A header is found in nothing but a notification: a JSON text for the method eth_subscription whose
      parameters have it as their result and name the subscription; no name is taken for the empty one. */
  lemma HeadersAreNotified(subId: string, m: Message)
    ensures HeaderOf(subId, m).Some? <==>
      && m.Text? && m.parsed.Some? && StrField(m.parsed.value, "method") == Some("eth_subscription")
      && var params := m.parsed.value.Get("params");
         && params.Some? && params.value.Get("result").Some?
         && match StrField(params.value, "subscription") case Some(s) => s == subId case None => subId == ""
    ensures HeaderOf(subId, m).Some? ==> HeaderOf(subId, m) == m.parsed.value.Get("params").value.Get("result")
  {
  }

  /** A notification that is accepted: for this subscription, with a height and a hash. */
  predicate Accepted(subId: string, m: Message) {
    HeaderOf(subId, m).Some? && IsUsable(HeaderOf(subId, m).value)
  }

  /** An accepted notification of a block above the last one. */
  predicate IsAbove(subId: string, m: Message, last: nat) {
    Accepted(subId, m) && HeightOf(HeaderOf(subId, m).value) > last
  }

  function Announcement(chain: nat, subId: string, m: Message): BlockEvent
    requires Accepted(subId, m)
  {
    var h := HeaderOf(subId, m).value;
    NewBlock(chain, HeightOf(h), HashOf(h), h)
  }

  predicate Ends(m: Message) {
    m.Close? || m.Failure?
  }

  /** The messages before the one that ends the session. */
  function Session(messages: seq<Message>): (s: seq<Message>)
    ensures s <= messages
  {
    if messages == [] || Ends(messages[0]) then [] else [messages[0]] + Session(messages[1..])
  }

  function AcceptedHeights(subId: string, messages: seq<Message>): seq<nat> {
    if messages == [] then []
    else
      var before, m := AcceptedHeights(subId, messages[..|messages| - 1]), messages[|messages| - 1];
      if Accepted(subId, m) then before + [HeightOf(HeaderOf(subId, m).value)] else before
  }

  /** The reference: the new-block events of a session, for the accepted notifications that are
      above every one before them. */
  function NewBlocks(chain: nat, subId: string, messages: seq<Message>): seq<BlockEvent> {
    if messages == [] then []
    else
      var before, m := messages[..|messages| - 1], messages[|messages| - 1];
      var events := NewBlocks(chain, subId, before);
      if IsAbove(subId, m, Max(AcceptedHeights(subId, before))) then events + [Announcement(chain, subId, m)] else events
  }

  function Pings(messages: seq<Message>): seq<string> {
    if messages == [] then []
    else
      var before, m := Pings(messages[..|messages| - 1]), messages[|messages| - 1];
      if m.Ping? then before + [m.data] else before
  }

  /** What a subscriber shares with the rest of the program. */
  datatype Feed = Feed(latest: nat, events: seq<BlockEvent>, pongs: seq<string>)

  /** What the messages of a session lead to, from the feed at its start. */
  ghost predicate Forwarded(chain: nat, subId: string, start: Feed, messages: seq<Message>, now: Feed, last: nat) {
    && last == Max(AcceptedHeights(subId, messages))
    && now.latest == (if last == 0 then start.latest else last)
    && now.events == start.events + NewBlocks(chain, subId, messages)
    && now.pongs == start.pongs + Pings(messages)
  }

  function AfterMessage(chain: nat, subId: string, f: Feed, last: nat, m: Message): (Feed, nat) {
    if m.Ping? then (f.(pongs := f.pongs + [m.data]), last)
    else if IsAbove(subId, m, last) then
      var event := Announcement(chain, subId, m);
      (f.(latest := event.number, events := f.events + [event]), event.number)
    else (f, last)
  }

  class Subscriber {
    const chainId: nat
    var latestBlockNumber: nat
    var events: seq<BlockEvent>
    var pongs: seq<string>

    ghost function View(): Feed
      reads this
    {
      Feed(latestBlockNumber, events, pongs)
    }

    constructor (chainId: nat, latest: nat)
      ensures this.chainId == chainId && latestBlockNumber == latest && events == [] && pongs == []
    {
      this.chainId, latestBlockNumber, events, pongs := chainId, latest, [], [];
    }

    /** Reads the socket until it closes, fails or ends. */
    method ForwardNotifications(subId: string, messages: seq<Message>) returns (r: Result<(), string>)
      modifies this
      ensures Forwarded(chainId, subId, old(View()), Session(messages), View(),
                        Max(AcceptedHeights(subId, Session(messages))))
      ensures r == var n := |Session(messages)|;
                   if n < |messages| && messages[n].Failure? then Err(messages[n].error) else Ok(())
    {
      var lastBlockNumber := 0;
      for i := 0 to |messages|
        invariant i <= |Session(messages)| && messages[..i] <= Session(messages)
        invariant Forwarded(chainId, subId, old(View()), messages[..i], View(), lastBlockNumber)
      {
        SessionUpTo(messages, i);
        if messages[i].Close? {
          return Ok(());
        }
        if messages[i].Failure? {
          return Err(messages[i].error);
        }
        ForwardedMore(chainId, subId, old(View()), messages[..i], View(), lastBlockNumber, messages[i]);
        assert messages[..i] + [messages[i]] == messages[..i + 1];
        lastBlockNumber := HandleMessage(subId, messages[i], lastBlockNumber);
      }
      assert messages[..|messages|] == messages == Session(messages);
      return Ok(());
    }

    /** One message of a session that goes on. */
    method HandleMessage(subId: string, m: Message, lastBlockNumber: nat) returns (last: nat)
      requires !Ends(m)
      modifies this
      ensures (View(), last) == AfterMessage(chainId, subId, old(View()), lastBlockNumber, m)
    {
      last := lastBlockNumber;
      if m.Ping? {
        pongs := pongs + [m.data];
        return;
      }
      var header := HeaderOf(subId, m);
      if header == None {
        return;
      }
      var number, hash := HeightOf(header.value), HashOf(header.value);
      if number == 0 || hash == "" {
        return;
      }
      if number <= lastBlockNumber {
        return;
      }
      latestBlockNumber := number;
      events := events + [NewBlock(chainId, number, hash, header.value)];
      last := number;
    }
  }

  /** The session ends at the first message that ends it. */
  lemma {:induction false} SessionUpTo(messages: seq<Message>, i: nat)
    requires i < |messages| && i <= |Session(messages)| && messages[..i] <= Session(messages)
    ensures if Ends(messages[i]) then Session(messages) == messages[..i]
            else i + 1 <= |Session(messages)| && messages[..i + 1] <= Session(messages)
  {
    if i > 0 {
      var rest := messages[1..];
      assert Session(messages)[0] == messages[0];
      assert rest[..i - 1] == messages[..i][1..];
      assert Session(messages)[1..] == Session(rest);
      SessionUpTo(rest, i - 1);
      assert messages[..i] == [messages[0]] + rest[..i - 1];
    }
  }

  lemma OneMoreMessage(chain: nat, subId: string, before: seq<Message>, m: Message)
    ensures
      var high := Max(AcceptedHeights(subId, before));
      var above := IsAbove(subId, m, high);
      && Max(AcceptedHeights(subId, before + [m])) == (if above then HeightOf(HeaderOf(subId, m).value) else high)
      && NewBlocks(chain, subId, before + [m])
           == NewBlocks(chain, subId, before) + (if above then [Announcement(chain, subId, m)] else [])
      && Records(AcceptedHeights(subId, before + [m]))
           == Records(AcceptedHeights(subId, before)) + if above then [HeightOf(HeaderOf(subId, m).value)] else []
    ensures Pings(before + [m]) == Pings(before) + if m.Ping? then [m.data] else []
  {
    assert (before + [m])[..|before|] == before;
    if Accepted(subId, m) {
      var hs := AcceptedHeights(subId, before);
      assert AcceptedHeights(subId, before + [m])[..|hs|] == hs;
    }
  }

  lemma ForwardedMore(chain: nat, subId: string, start: Feed, messages: seq<Message>, now: Feed, last: nat, m: Message)
    requires Forwarded(chain, subId, start, messages, now, last)
    ensures
      var after := AfterMessage(chain, subId, now, last, m);
      Forwarded(chain, subId, start, messages + [m], after.0, after.1)
  {
    OneMoreMessage(chain, subId, messages, m);
  }

  /** The heights of events that announce new blocks. */
  function Heights(events: seq<BlockEvent>): seq<nat> {
    seq(|events|, i requires 0 <= i < |events| => if events[i].NewBlock? then events[i].number else 0)
  }

  /** A session announces exactly the strict prefix maxima of its accepted heights: the same
      function of its input as polling. */
  lemma {:induction false} SessionAnnouncesRecords(chain: nat, subId: string, messages: seq<Message>)
    ensures Heights(NewBlocks(chain, subId, messages)) == Records(AcceptedHeights(subId, messages))
    ensures forall i :: 0 <= i < |NewBlocks(chain, subId, messages)| ==>
      NewBlocks(chain, subId, messages)[i].NewBlock? && NewBlocks(chain, subId, messages)[i].chainId == chain
  {
    if messages != [] {
      var before, m := messages[..|messages| - 1], messages[|messages| - 1];
      assert before + [m] == messages;
      SessionAnnouncesRecords(chain, subId, before);
      OneMoreMessage(chain, subId, before, m);
      if IsAbove(subId, m, Max(AcceptedHeights(subId, before))) {
        var events, event := NewBlocks(chain, subId, before), Announcement(chain, subId, m);
        assert Heights(events + [event]) == Heights(events) + [event.number];
      }
    }
  }

  /** Every announcement of a session is of a header that was received in it, with its height and hash. */
  lemma {:induction false} AnnouncedIsHeader(chain: nat, subId: string, messages: seq<Message>, k: nat) returns (i: nat)
    requires k < |NewBlocks(chain, subId, messages)|
    ensures i < |messages| && HeaderOf(subId, messages[i]).Some?
    ensures
      var header := HeaderOf(subId, messages[i]).value;
      NewBlocks(chain, subId, messages)[k] == NewBlock(chain, HeightOf(header), HashOf(header), header)
  {
    var n := |messages| - 1;
    if k < |NewBlocks(chain, subId, messages[..n])| {
      i := AnnouncedIsHeader(chain, subId, messages[..n], k);
    } else {
      i := n;
    }
  }

  /** A session is what comes before the first close or failure. */
  lemma {:induction false} SessionIs(messages: seq<Message>)
    ensures
      var s := Session(messages);
      && s <= messages
      && (forall i :: 0 <= i < |s| ==> !s[i].Close? && !s[i].Failure?)
      && (|s| < |messages| ==> messages[|s|].Close? || messages[|s|].Failure?)
  {
    if messages != [] && !Ends(messages[0]) {
      SessionIs(messages[1..]);
      assert messages == [messages[0]] + messages[1..];
    }
  }
}
