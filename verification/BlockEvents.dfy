/** Block events, and the one function that both head sources apply to the heights they read:
    keep those above everything before. */
module BlockEvents {
  import opened Wrappers
  import opened Json
  import opened Numerals

  datatype BlockEvent =
    | NewBlock(chainId: nat, number: nat, hash: string, header: Json)
    | NewLogs(chainId: nat, blockNumber: nat, logs: Json)
    | Reorg(chainId: nat, fromBlock: nat, toBlock: nat)

  /** The height of a block or header; zero when it is missing or does not parse. */
  function HeightOf(block: Json): nat {
    match StrField(block, "number")
    case None => 0
    case Some(s) => (match ParseQuantity(s) case Some(n) => n case None => 0)
  }

  /** The hash of a block or header; empty when it is missing. */
  function HashOf(block: Json): string {
    match StrField(block, "hash")
    case None => ""
    case Some(s) => s
  }

  predicate IsUsable(block: Json) {
    HeightOf(block) != 0 && HashOf(block) != ""
  }

  /** What is read of a block: its number, in the format of the interface, and its hash.  It is usable
      exactly when both are there, the number is not zero and the hash not empty. */
  lemma BlockIsRead(block: Json, n: nat, hash: string)
    requires n < U64_LIMIT
    ensures StrField(block, "number") == Some(Hex(n)) ==> HeightOf(block) == n
    ensures StrField(block, "hash") == Some(hash) ==> HashOf(block) == hash
    ensures StrField(block, "number") == Some(Hex(n)) && StrField(block, "hash") == Some(hash) ==>
      (IsUsable(block) <==> n > 0 && hash != "")
    ensures StrField(block, "number") == None || StrField(block, "hash") == None ==> !IsUsable(block)
  {
    HexRoundTrip(n);
  }

  function Max(ns: seq<nat>): nat {
    if ns == [] then 0
    else
      var m, n := Max(ns[..|ns| - 1]), ns[|ns| - 1];
      if n > m then n else m
  }

  /** The strict prefix maxima: every number that is greater than all before it. */
  function Records(ns: seq<nat>): seq<nat> {
    if ns == [] then []
    else
      var before, n := ns[..|ns| - 1], ns[|ns| - 1];
      if n > Max(before) then Records(before) + [n] else Records(before)
  }

  lemma {:induction false} MaxIs(ns: seq<nat>)
    ensures forall i :: 0 <= i < |ns| ==> ns[i] <= Max(ns)
    ensures Max(ns) != 0 ==> Max(ns) in ns
  {
    if ns != [] {
      MaxIs(ns[..|ns| - 1]);
    }
  }

  /** Records are strictly increasing and end with the maximum. */
  lemma {:induction false} RecordsIncrease(ns: seq<nat>)
    ensures forall j, k :: 0 <= j < k < |Records(ns)| ==> Records(ns)[j] < Records(ns)[k]
    ensures if Records(ns) == [] then Max(ns) == 0 else Records(ns)[|Records(ns)| - 1] == Max(ns)
  {
    if ns != [] {
      RecordsIncrease(ns[..|ns| - 1]);
    }
  }

  /** Number i is above everything before it. */
  predicate IsRecordAt(ns: seq<nat>, i: nat, n: nat) {
    i < |ns| && ns[i] == n && Max(ns[..i]) < n
  }

  lemma RecordedLonger(ns: seq<nat>, i: nat, n: nat)
    requires ns != [] && i < |ns| - 1
    ensures IsRecordAt(ns[..|ns| - 1], i, n) <==> IsRecordAt(ns, i, n)
  {
    assert ns[..|ns| - 1][..i] == ns[..i];
  }

  lemma {:induction false} RecordedAt(ns: seq<nat>, n: nat) returns (i: nat)
    requires n in Records(ns)
    ensures IsRecordAt(ns, i, n)
  {
    var k := |ns| - 1;
    if IsRecordAt(ns, k, n) {
      i := k;
    } else {
      i := RecordedAt(ns[..k], n);
      RecordedLonger(ns, i, n);
    }
  }

  lemma {:induction false} RecordIsRecorded(ns: seq<nat>, i: nat, n: nat)
    requires IsRecordAt(ns, i, n)
    ensures n in Records(ns)
  {
    if i < |ns| - 1 {
      RecordedLonger(ns, i, n);
      RecordIsRecorded(ns[..|ns| - 1], i, n);
    }
  }

  /** A number is recorded exactly when it occurs above everything before it. */
  lemma RecordsAre(ns: seq<nat>, n: nat)
    ensures n in Records(ns) <==> exists i :: IsRecordAt(ns, i, n)
  {
    if n in Records(ns) {
      var i := RecordedAt(ns, n);
    }
    if i: nat :| IsRecordAt(ns, i, n) {
      RecordIsRecorded(ns, i, n);
    }
  }
}
