/** JSON-RPC requests and responses, method classification, and the rewriting of
    block tags into block numbers (src/rpc/types.rs). */
module RpcTypes {
  import opened Wrappers
  import opened Json
  import opened Numerals

  datatype Request = Request(rpcMethod: string, params: Json, id: Json)

  datatype RpcError = RpcError(code: int, message: string)

  datatype Response = Response(id: Json, result: Option<Json>, error: Option<RpcError>)

  function ErrorResponse(id: Json, code: int, message: string): Response {
    Response(id, None, Some(RpcError(code, message)))
  }

  function SuccessResponse(id: Json, result: Json): Response {
    Response(id, Some(result), None)
  }

  /** What the cache key is computed from: the request without its id. */
  function NormalizeForCache(req: Request): Request {
    Request(req.rpcMethod, req.params, Num("0"))
  }

  predicate IsMethodBlocked(rpcMethod: string, blocked: seq<string>) {
    exists i :: 0 <= i < |blocked| && blocked[i] <= rpcMethod
  }

  const UNCACHEABLE: set<string> := {
    "eth_sendRawTransaction", "eth_sendTransaction", "eth_estimateGas", "eth_call",
    "eth_createAccessList", "eth_gasPrice", "eth_maxPriorityFeePerGas", "eth_feeHistory",
    "net_listening", "net_peerCount", "web3_clientVersion", "eth_subscribe", "eth_unsubscribe"
  }

  predicate IsUncacheable(rpcMethod: string) {
    rpcMethod in UNCACHEABLE
  }

  /** Which parameter of a method is a block reference. */
  function BlockTagParamIndex(rpcMethod: string): Option<nat> {
    if rpcMethod == "eth_getStorageAt" then Some(2)
    else if rpcMethod in {"eth_getBalance", "eth_getCode", "eth_getTransactionCount"} then Some(1)
    else if rpcMethod in {"eth_getBlockByNumber", "eth_getBlockTransactionCountByNumber",
                       "eth_getUncleCountByBlockNumber", "eth_getUncleByBlockNumber"} then Some(0)
    else None
  }

  /** The string at the block-reference position, when there is one. */
  function BlockRef(req: Request): Option<string> {
    match BlockTagParamIndex(req.rpcMethod)
    case Some(i) =>
      if req.params.Arr? && i < |req.params.items| then req.params.items[i].AsStr() else None
    case None => None
  }

  function MinusSaturating(a: nat, b: nat): nat {
    if b <= a then a - b else 0
  }

  function ResolveTag(tag: string, latest: nat, finalityDepth: nat): Option<string> {
    if tag == "latest" then Some(Hex(latest))
    else if tag == "safe" || tag == "finalized" then Some(Hex(MinusSaturating(latest, finalityDepth)))
    else if tag == "earliest" then Some("0x0")
    else None
  }

  /** Replaces the block tag of a request by a concrete block number. */
  function ResolveBlockTags(req: Request, latest: nat, finalityDepth: nat): Request {
    match BlockRef(req)
    case None => req
    case Some(tag) =>
      match ResolveTag(tag, latest, finalityDepth)
      case None => req
      case Some(number) =>
        req.(params := Arr(req.params.items[BlockTagParamIndex(req.rpcMethod).value := Str(number)]))
  }

  /** What a tag says about finality; nothing for anything that is not a tag. */
  function TagIsUnfinalized(s: string): Option<bool> {
    if s in {"latest", "pending", "safe"} then Some(true)
    else if s in {"earliest", "finalized"} then Some(false)
    else None
  }

  function ParamIsUnfinalized(param: Json): Option<bool> {
    if param.Str? then TagIsUnfinalized(param.s) else None
  }

  /** The verdict of the first parameter that is a tag. */
  function FirstVerdict(params: seq<Json>): Option<bool> {
    if params == [] then None
    else if ParamIsUnfinalized(params[0]).Some? then ParamIsUnfinalized(params[0])
    else FirstVerdict(params[1..])
  }

  /** Whether a request refers to data near the head of the chain.  Anything that
      does not name a final tag counts as near the head. */
  function BlockRefIsUnfinalized(req: Request): bool {
    var own := match BlockRef(req) case Some(s) => TagIsUnfinalized(s) case None => None;
    if own.Some? then own.value
    else if req.params.Arr? && FirstVerdict(req.params.items).Some? then
      FirstVerdict(req.params.items).value
    else true
  }

  /** A method is blocked exactly when it is some configured prefix followed by anything. */
  lemma BlockedIff(rpcMethod: string, blocked: seq<string>)
    ensures IsMethodBlocked(rpcMethod, blocked) <==> exists prefix, rest :: prefix in blocked && rpcMethod == prefix + rest
  {
    if i: nat :| i < |blocked| && blocked[i] <= rpcMethod {
      assert rpcMethod == blocked[i] + rpcMethod[|blocked[i]|..];
    }
  }

  // ---------- block tags ----------

  lemma ResolvedTagIsNotATag(tag: string, latest: nat, finalityDepth: nat)
    requires ResolveTag(tag, latest, finalityDepth).Some?
    ensures forall l, d :: ResolveTag(ResolveTag(tag, latest, finalityDepth).value, l, d) == None
  {
    var r := ResolveTag(tag, latest, finalityDepth).value;
    assert r[0] == '0';
    assert "latest"[0] == 'l' && "safe"[0] == 's' && "finalized"[0] == 'f' && "earliest"[0] == 'e';
  }

  /** Once resolved against one head, a request is not changed by any other head. */
  lemma ResolutionIsStable(req: Request, latest: nat, depth: nat, latest': nat, depth': nat)
    ensures ResolveBlockTags(ResolveBlockTags(req, latest, depth), latest', depth')
         == ResolveBlockTags(req, latest, depth)
  {
    if BlockRef(req).Some? && ResolveTag(BlockRef(req).value, latest, depth).Some? {
      ResolvedTagIsNotATag(BlockRef(req).value, latest, depth);
    }
  }

  /** The number a tag resolves to is the one meant: the head, the head less the
      finality depth (never below zero, never above the head), or the first block. */
  lemma ResolvedTagParses(tag: string, latest: nat, depth: nat)
    requires latest < U64_LIMIT
    requires ResolveTag(tag, latest, depth).Some?
    ensures
      var n := ParseQuantity(ResolveTag(tag, latest, depth).value);
      && n.Some?
      && n.value <= latest
      && (tag == "latest" ==> n.value == latest)
      && (tag == "earliest" ==> n.value == 0)
      && (tag == "safe" || tag == "finalized" ==> n.value == if latest <= depth then 0 else latest - depth)
  {
    HexRoundTrip(latest);
    HexRoundTrip(MinusSaturating(latest, depth));
    HexRoundTrip(0);
    assert Hex(0) == "0x0";
  }

  /** Which parameter is replaced, for every method: the third of eth_getStorageAt, the second of the
      other state queries, the first of the queries by block number, and none otherwise. */
  lemma TagPositions(rpcMethod: string, id: Json, latest: nat, depth: nat)
    ensures
      var tag, head := Str("latest"), Str(Hex(latest));
      var resolved := ResolveBlockTags(Request(rpcMethod, Arr([tag, tag, tag, tag]), id), latest, depth);
      resolved == Request(rpcMethod, Arr(
        if rpcMethod == "eth_getStorageAt" then [tag, tag, head, tag]
        else if rpcMethod == "eth_getBalance" || rpcMethod == "eth_getCode" || rpcMethod == "eth_getTransactionCount"
          then [tag, head, tag, tag]
        else if rpcMethod == "eth_getBlockByNumber" || rpcMethod == "eth_getBlockTransactionCountByNumber"
             || rpcMethod == "eth_getUncleCountByBlockNumber" || rpcMethod == "eth_getUncleByBlockNumber"
          then [head, tag, tag, tag]
        else [tag, tag, tag, tag]), id)
  {
    var tag := Str("latest");
    var params := [tag, tag, tag, tag];
    assert ResolveTag("latest", latest, depth) == Some(Hex(latest));
    var at := BlockTagParamIndex(rpcMethod);
    var head := Str(Hex(latest));
    assert params[0 := head] == [head, tag, tag, tag];
    assert params[1 := head] == [tag, head, tag, tag];
    assert params[2 := head] == [tag, tag, head, tag];
    if at.Some? {
      assert params[at.value] == tag;
    }
  }

  /** Every method whose block tag is replaced may be cached. */
  lemma TaggedMethodsAreCacheable(rpcMethod: string)
    ensures BlockTagParamIndex(rpcMethod).Some? ==> !IsUncacheable(rpcMethod)
  {
  }

  /** Nothing but the one parameter changes, and the method and id never do. */
  lemma ResolutionIsLocal(req: Request, latest: nat, depth: nat)
    ensures
      var r := ResolveBlockTags(req, latest, depth);
      && r.rpcMethod == req.rpcMethod && r.id == req.id
      && (r.params != req.params ==>
            && req.params.Arr? && r.params.Arr? && |r.params.items| == |req.params.items|
            && forall i :: 0 <= i < |req.params.items| && Some(i) != BlockTagParamIndex(req.rpcMethod)
                 ==> r.params.items[i] == req.params.items[i])
      && (BlockRef(req) == Some("pending") ==> r == req)
  {
  }

  // ---------- finality ----------

  lemma {:induction false} FirstVerdictIsFirst(params: seq<Json>, i: nat)
    requires i < |params| && ParamIsUnfinalized(params[i]).Some?
    requires forall j :: 0 <= j < i ==> ParamIsUnfinalized(params[j]) == None
    ensures FirstVerdict(params) == ParamIsUnfinalized(params[i])
  {
    if i > 0 {
      FirstVerdictIsFirst(params[1..], i - 1);
    }
  }

  lemma {:induction false} FirstVerdictAt(params: seq<Json>) returns (i: nat)
    ensures FirstVerdict(params).Some? ==>
      && i < |params| && ParamIsUnfinalized(params[i]) == FirstVerdict(params)
      && forall j :: 0 <= j < i ==> ParamIsUnfinalized(params[j]) == None
  {
    i := 0;
    if params != [] && ParamIsUnfinalized(params[0]) == None {
      var k := FirstVerdictAt(params[1..]);
      i := k + 1;
    }
  }

  ghost predicate FirstTagIsFinal(params: seq<Json>) {
    exists i :: 0 <= i < |params| && ParamIsUnfinalized(params[i]) == Some(false)
      && forall j :: 0 <= j < i ==> ParamIsUnfinalized(params[j]) == None
  }

  /** A request counts as finalized exactly when its block reference is a final tag, or when
      its block reference is no tag and the first tag among all its parameters is a final one. */
  lemma FinalizedIff(req: Request)
    ensures !BlockRefIsUnfinalized(req) <==>
      (match BlockRef(req)
       case Some(s) => TagIsUnfinalized(s) == Some(false)
                       || (TagIsUnfinalized(s) == None && FirstTagIsFinal(req.params.items))
       case None => req.params.Arr? && FirstTagIsFinal(req.params.items))
  {
    if req.params.Arr? {
      var items := req.params.items;
      var i := FirstVerdictAt(items);
      if FirstTagIsFinal(items) {
        var k :| 0 <= k < |items| && ParamIsUnfinalized(items[k]) == Some(false)
          && forall j :: 0 <= j < k ==> ParamIsUnfinalized(items[j]) == None;
        FirstVerdictIsFirst(items, k);
      }
    }
  }

  /** What each string means as the block reference of a balance query: "finalized" and "earliest" are
      final, "latest", "pending" and "safe" are not, and any other leaves it to the first parameter. */
  lemma VerdictOfReference(account: string, s: string, id: Json)
    ensures
      var unfinalized := BlockRefIsUnfinalized(Request("eth_getBalance", Arr([Str(account), Str(s)]), id));
      if s == "finalized" || s == "earliest" then !unfinalized
      else if s == "latest" || s == "pending" || s == "safe" then unfinalized
      else unfinalized <==> account != "finalized" && account != "earliest"
  {
    var params := [Str(account), Str(s)];
    var req := Request("eth_getBalance", Arr(params), id);
    assert BlockRef(req) == Some(s);
    assert params[1..] == [Str(s)] && [Str(s)][1..] == [];
    assert FirstVerdict([Str(s)]) == TagIsUnfinalized(s);
    assert FirstVerdict(params) == if TagIsUnfinalized(account).Some? then TagIsUnfinalized(account) else TagIsUnfinalized(s);
  }

  /** Parameter i is a final tag, and the first tag but for the parameter at the position to skip. */
  predicate IsFirstOtherTag(params: seq<Json>, skip: nat, i: nat) {
    && i < |params| && i != skip && ParamIsUnfinalized(params[i]) == Some(false)
    && forall j :: 0 <= j < i && j != skip ==> ParamIsUnfinalized(params[j]) == None
  }

  ghost predicate FirstOtherTagIsFinal(params: seq<Json>, skip: nat) {
    exists i :: IsFirstOtherTag(params, skip, i)
  }

  lemma ResolvedTagHasNoVerdict(tag: string, latest: nat, depth: nat)
    requires ResolveTag(tag, latest, depth).Some?
    ensures TagIsUnfinalized(ResolveTag(tag, latest, depth).value) == None
  {
    var r := ResolveTag(tag, latest, depth).value;
    assert r[0] == '0';
    assert "latest"[0] == 'l' && "pending"[0] == 'p' && "safe"[0] == 's' && "earliest"[0] == 'e' && "finalized"[0] == 'f';
  }

  lemma WithoutVerdictAt(params: seq<Json>, skip: nat)
    requires skip < |params| && ParamIsUnfinalized(params[skip]) == None
    ensures FirstTagIsFinal(params) <==> FirstOtherTagIsFinal(params, skip)
  {
    if FirstTagIsFinal(params) {
      var i :| 0 <= i < |params| && ParamIsUnfinalized(params[i]) == Some(false)
        && forall j :: 0 <= j < i ==> ParamIsUnfinalized(params[j]) == None;
      assert IsFirstOtherTag(params, skip, i);
    }
  }

  lemma OtherTagStays(params: seq<Json>, skip: nat, p: Json, i: nat)
    requires skip < |params| && IsFirstOtherTag(params, skip, i)
    ensures IsFirstOtherTag(params[skip := p], skip, i)
  {
  }

  lemma ReplacedAtSkip(params: seq<Json>, skip: nat, p: Json)
    requires skip < |params|
    ensures FirstOtherTagIsFinal(params[skip := p], skip) <==> FirstOtherTagIsFinal(params, skip)
  {
    var replaced := params[skip := p];
    if i: nat :| IsFirstOtherTag(params, skip, i) {
      OtherTagStays(params, skip, p, i);
    }
    if i: nat :| IsFirstOtherTag(replaced, skip, i) {
      OtherTagStays(replaced, skip, params[skip], i);
      assert replaced[skip := params[skip]] == params;
    }
  }

  /** Whether a request still counts as finalized once its block tag has been replaced, in terms of
      the request as it came.  Its block reference, whatever it says, no longer counts for it; only
      "pending" still counts against it.  What decides is the first tag among the other parameters. */
  lemma ResolvedFinalizedIff(req: Request, latest: nat, depth: nat)
    ensures !BlockRefIsUnfinalized(ResolveBlockTags(req, latest, depth)) <==>
      (match BlockRef(req)
       case Some(s) => s != "pending" && FirstOtherTagIsFinal(req.params.items, BlockTagParamIndex(req.rpcMethod).value)
       case None => req.params.Arr? && FirstTagIsFinal(req.params.items))
  {
    var r := ResolveBlockTags(req, latest, depth);
    FinalizedIff(r);
    if BlockRef(req).Some? {
      var s, skip := BlockRef(req).value, BlockTagParamIndex(req.rpcMethod).value;
      var resolved := ResolveTag(s, latest, depth);
      if resolved.Some? {
        ResolvedTagHasNoVerdict(s, latest, depth);
        ReplacedAtSkip(req.params.items, skip, Str(resolved.value));
        WithoutVerdictAt(r.params.items, skip);
      } else if s != "pending" {
        WithoutVerdictAt(r.params.items, skip);
      }
    }
  }
}
