/** The per-transaction ledger stub: its immutable context and argument
    list, the one mutable event slot, and the requests it hands to the
    transport, recorded as an append-only log in place of the remote calls
    themselves. */
module Stub {

  import opened Wrappers
  import opened Bytes
  import opened Utf16
  import opened Exceptions
  import opened Context
  import opened KeyRange

  /** One call into the transport `Handler`, with the arguments it receives. */
  datatype Request =
    | GetStateRequest(channelId: String16, txId: String16, key: Option<String16>)
    | PutStateRequest(channelId: String16, txId: String16, putKey: String16, value: Bytes)
    | DeleteStateRequest(channelId: String16, txId: String16, key: Option<String16>)
    | GetStateByRangeRequest(channelId: String16, txId: String16, startKey: String16, endKey: String16)
    | GetQueryResultRequest(channelId: String16, txId: String16, query: Option<String16>)
    | GetHistoryForKeyRequest(channelId: String16, txId: String16, key: Option<String16>)
    | InvokeChaincodeRequest(channelId: String16, txId: String16, target: Option<String16>, args: seq<Bytes>)

  /** A `ChaincodeEvent` as built by `setEvent`: `payload` is `None` when the
      builder's payload field was never set. */
  datatype ChaincodeEvent = ChaincodeEvent(eventName: String16, payload: Option<Bytes>)

  datatype Stub = Stub(ctx: TxContext, args: seq<Bytes>, event: Option<ChaincodeEvent>, log: seq<Request>)

  /** How a call ends: normally, or by throwing. */
  datatype Outcome = Normal | Threw(exception: Exception)

  datatype Step = Step(stub: Stub, outcome: Outcome)

  /** `s` after handing exactly the request `req` to the transport: the
      log gains `req` at its end and nothing else changes. */
  function Issue(s: Stub, req: Request): (s': Stub)
    ensures s'.ctx == s.ctx && s'.args == s.args && s'.event == s.event
    ensures |s'.log| == |s.log| + 1 && s'.log[..|s.log|] == s.log && s'.log[|s.log|] == req
  {
    s.(log := s.log + [req])
  }

  /** The constructor: a stub with no event and no transport traffic, or
      the exception the context derivation throws. */
  function NewStub(channelId: String16, txId: String16, args: seq<Bytes>, sp: Option<SignedProposal>,
                   d: Decoders, sha256: Bytes -> Digest): (r: Result<Stub, Exception>)
    ensures sp.None? ==> r.Success? && r.value.ctx.creator.None? && r.value.ctx.timestamp.None?
                         && r.value.ctx.binding.None? && r.value.ctx.transient == map[]
    ensures r.Success? ==> GetEvent(r.value).None? && r.value.log == [] && r.value.args == args
    ensures r.Success? ==> r.value.ctx.channelId == channelId && r.value.ctx.txId == txId
    ensures r.Success? ==> DeriveContext(channelId, txId, sp, d, sha256) == Success(r.value.ctx)
    ensures r.Success? <==> DeriveContext(channelId, txId, sp, d, sha256).Success?
    ensures r.Failure? ==> r.error == DeriveContext(channelId, txId, sp, d, sha256).error
  {
    match DeriveContext(channelId, txId, sp, d, sha256)
    case Failure(e) => Failure(e)
    case Success(ctx) => Success(Stub(ctx, args, None, []))
  }

  // ---------------------------------------------------------------------
  // Point operations

  function GetState(s: Stub, key: Option<String16>): (r: Step)
    ensures r.outcome == Normal
    ensures r.stub == Issue(s, GetStateRequest(s.ctx.channelId, s.ctx.txId, key))
  {
    Step(Issue(s, GetStateRequest(s.ctx.channelId, s.ctx.txId, key)), Normal)
  }

  /** `putState` throws on a `null` key, then on an empty key, then (inside
      `ByteString.copyFrom`) on a `null` value, all before the transport is
      called; otherwise it issues exactly one `PutState` request. */
  function PutState(s: Stub, key: Option<String16>, value: Option<Bytes>): (r: Step)
    ensures key.None? ==> r.outcome == Threw(NullPointerException)
    ensures key == Some([]) ==> r.outcome == Threw(IllegalArgumentException)
    ensures key.Some? && key.value != [] && value.None? ==> r.outcome == Threw(NullPointerException)
    ensures r.outcome.Threw? ==> r.stub == s
    ensures r.outcome == Normal <==> key.Some? && key.value != [] && value.Some?
    ensures r.outcome == Normal ==> r.stub == Issue(s, PutStateRequest(s.ctx.channelId, s.ctx.txId, key.value, value.value))
  {
    if key.None? then Step(s, Threw(NullPointerException))
    else if key.value == [] then Step(s, Threw(IllegalArgumentException))
    else if value.None? then Step(s, Threw(NullPointerException))
    else Step(Issue(s, PutStateRequest(s.ctx.channelId, s.ctx.txId, key.value, value.value)), Normal)
  }

  function DelState(s: Stub, key: Option<String16>): (r: Step)
    ensures r.outcome == Normal
    ensures r.stub == Issue(s, DeleteStateRequest(s.ctx.channelId, s.ctx.txId, key))
  {
    Step(Issue(s, DeleteStateRequest(s.ctx.channelId, s.ctx.txId, key)), Normal)
  }

  // ---------------------------------------------------------------------
  // Scans and queries

  /** `getStateByRange`: the bounds are normalized, then checked by
      `CompositeKey.validateSimpleKeys` (a parameter here), and only then
      sent. */
  function GetStateByRange(s: Stub, start: Option<String16>, end: Option<String16>,
                           validateSimpleKeys: seq<String16> -> bool): (r: Step)
    ensures r.outcome.Threw? ==> r.stub == s && r.outcome.exception == CompositeKeyFormatException
    ensures r.outcome == Normal <==> validateSimpleKeys([NormalizeBound(start), NormalizeBound(end)])
    ensures r.outcome == Normal ==>
      r.stub == Issue(s, GetStateByRangeRequest(s.ctx.channelId, s.ctx.txId, NormalizeBound(start), NormalizeBound(end)))
  {
    var b := RangeBounds(start, end);
    if !validateSimpleKeys([b.start, b.end]) then Step(s, Threw(CompositeKeyFormatException))
    else Step(Issue(s, GetStateByRangeRequest(s.ctx.channelId, s.ctx.txId, b.start, b.end)), Normal)
  }

  /** `getStateByPartialCompositeKey`: a range scan from the prefix to the
      prefix followed by U+10FFFF; the range normalization leaves both
      bounds as they are. */
  function GetStateByPartialCompositeKey(s: Stub, prefix: Option<String16>,
                                         validateSimpleKeys: seq<String16> -> bool): (r: Step)
    ensures r.outcome.Threw? ==> r.stub == s
    ensures
      var p := NormalizeBound(prefix);
      r.outcome == Normal ==> r.stub == Issue(s, GetStateByRangeRequest(s.ctx.channelId, s.ctx.txId, p, p + MaxUnicodeRune))
    ensures r == GetStateByRange(s, Some(PartialKeyBounds(prefix).start), Some(PartialKeyBounds(prefix).end), validateSimpleKeys)
  {
    var b := PartialKeyBounds(prefix);
    GetStateByRange(s, Some(b.start), Some(b.end), validateSimpleKeys)
  }

  function GetQueryResult(s: Stub, query: Option<String16>): (r: Step)
    ensures r.outcome == Normal
    ensures r.stub == Issue(s, GetQueryResultRequest(s.ctx.channelId, s.ctx.txId, query))
  {
    Step(Issue(s, GetQueryResultRequest(s.ctx.channelId, s.ctx.txId, query)), Normal)
  }

  function GetHistoryForKey(s: Stub, key: Option<String16>): (r: Step)
    ensures r.outcome == Normal
    ensures r.stub == Issue(s, GetHistoryForKeyRequest(s.ctx.channelId, s.ctx.txId, key))
  {
    Step(Issue(s, GetHistoryForKeyRequest(s.ctx.channelId, s.ctx.txId, key)), Normal)
  }

  // ---------------------------------------------------------------------
  // Chaincode-to-chaincode calls

  /** The composite name `invokeChaincode` targets: `name/channel` when the
      channel has a non-blank unit (a `null` name then prints as "null"),
      and the bare name otherwise. */
  function TargetName(name: Option<String16>, channel: Option<String16>): (r: Option<String16>)
    ensures channel.None? || IsBlank(channel.value) ==> r == name
    ensures channel.Some? && !IsBlank(channel.value) ==> r == Some(Render(name) + Slash + channel.value)
  {
    if channel.Some? && |Trim(channel.value)| > 0 then Some(Render(name) + Slash + channel.value)
    else name
  }

  /** When the name has no slash of its own, the first slash of the
      composite target separates the name from the channel again. */
  lemma TargetNameSplits(name: String16, channel: String16)
    requires !IsBlank(channel)
    requires Slash[0] !in name
    ensures var t := TargetName(Some(name), Some(channel)).value;
      && |t| == |name| + 1 + |channel|
      && t[..|name|] == name
      && t[|name|] == Slash[0]
      && (forall i :: 0 <= i < |name| ==> t[i] != Slash[0])
      && t[|name| + 1..] == channel
  {
    var t := TargetName(Some(name), Some(channel)).value;
    assert t == name + Slash + channel;
    assert t[|name| + 1..] == channel;
  }

  function InvokeChaincode(s: Stub, name: Option<String16>, args: seq<Bytes>, channel: Option<String16>): (r: Step)
    ensures r.outcome == Normal
    ensures r.stub == Issue(s, InvokeChaincodeRequest(s.ctx.channelId, s.ctx.txId, TargetName(name, channel), args))
  {
    Step(Issue(s, InvokeChaincodeRequest(s.ctx.channelId, s.ctx.txId, TargetName(name, channel), args)), Normal)
  }

  // ---------------------------------------------------------------------
  // Events

  /** `setEvent`: a `null` name, or one that `trim()` empties, is refused
      and the stored event stays as it was; otherwise the new event replaces
      the old one, carrying a payload exactly when one was supplied. */
  function SetEvent(s: Stub, name: Option<String16>, payload: Option<Bytes>): (r: Step)
    ensures r.outcome.Threw? <==> name.None? || IsBlank(name.value)
    ensures r.outcome.Threw? ==> r.stub == s && r.outcome.exception == IllegalArgumentException
    ensures r.outcome == Normal ==>
      && r.stub.event.Some?
      && r.stub.event.value.eventName == name.value
      && r.stub.event.value.payload == payload
    ensures r.stub.log == s.log && r.stub.ctx == s.ctx && r.stub.args == s.args
  {
    if name.None? || |Trim(name.value)| == 0 then Step(s, Threw(IllegalArgumentException))
    else Step(s.(event := Some(ChaincodeEvent(name.value, payload))), Normal)
  }

  /** `getEvent`: the event most recently stored, `null` before any. */
  function GetEvent(s: Stub): Option<ChaincodeEvent> {
    s.event
  }

  // ---------------------------------------------------------------------
  // Arguments

  /** `getStringArgs`, with UTF-8 decoding as a parameter. */
  function StringArgs(s: Stub, utf8: Bytes -> String16): (r: seq<String16>)
    ensures |r| == |s.args|
    ensures forall i :: 0 <= i < |r| ==> r[i] == utf8(s.args[i])
  {
    seq(|s.args|, i requires 0 <= i < |s.args| => utf8(s.args[i]))
  }

  /** `getFunction`: the first argument, or `null` when there is none. */
  function GetFunction(s: Stub, utf8: Bytes -> String16): (r: Option<String16>)
    ensures r.None? <==> |s.args| == 0
    ensures r.Some? ==> r.value == utf8(s.args[0])
  {
    var a := StringArgs(s, utf8);
    if |a| > 0 then Some(a[0]) else None
  }

  /** `getParameters`: every argument but the first. */
  function GetParameters(s: Stub, utf8: Bytes -> String16): (r: seq<String16>)
    ensures |r| == if |s.args| == 0 then 0 else |s.args| - 1
    ensures forall i :: 0 <= i < |r| ==> r[i] == utf8(s.args[i + 1])
  {
    var a := StringArgs(s, utf8);
    if |a| == 0 then [] else a[1..]
  }

  // ---------------------------------------------------------------------
  // Sequences of calls

  /** A call contract code can make on the stub. */
  datatype Call =
    | GetStateCall(key: Option<String16>)
    | PutStateCall(key: Option<String16>, value: Option<Bytes>)
    | DelStateCall(key: Option<String16>)
    | RangeCall(start: Option<String16>, end: Option<String16>)
    | PartialKeyCall(prefix: Option<String16>)
    | QueryCall(query: Option<String16>)
    | HistoryCall(key: Option<String16>)
    | InvokeCall(name: Option<String16>, callArgs: seq<Bytes>, channel: Option<String16>)
    | SetEventCall(name: Option<String16>, payload: Option<Bytes>)

  function Apply(s: Stub, c: Call, validateSimpleKeys: seq<String16> -> bool): Step {
    match c
    case GetStateCall(k) => GetState(s, k)
    case PutStateCall(k, v) => PutState(s, k, v)
    case DelStateCall(k) => DelState(s, k)
    case RangeCall(a, b) => GetStateByRange(s, a, b, validateSimpleKeys)
    case PartialKeyCall(p) => GetStateByPartialCompositeKey(s, p, validateSimpleKeys)
    case QueryCall(q) => GetQueryResult(s, q)
    case HistoryCall(k) => GetHistoryForKey(s, k)
    case InvokeCall(n, a, ch) => InvokeChaincode(s, n, a, ch)
    case SetEventCall(n, p) => SetEvent(s, n, p)
  }

  /** The stub after each call in turn; a call that throws leaves it as it
      was, whether or not the contract code catches the exception. */
  function Run(s: Stub, calls: seq<Call>, validateSimpleKeys: seq<String16> -> bool): Stub
    decreases |calls|
  {
    if |calls| == 0 then s
    else Run(Apply(s, calls[0], validateSimpleKeys).stub, calls[1..], validateSimpleKeys)
  }

  // ---------------------------------------------------------------------
  // Lemmas

  /** One call never touches the context or the arguments, only ever adds
      to the log, adds exactly one request when it returns normally (unless
      it is `setEvent`, which adds none), and changes nothing when it
      throws. */
  lemma ApplyAppendsAtMostOne(s: Stub, c: Call, v: seq<String16> -> bool)
    ensures var r := Apply(s, c, v);
      && r.stub.ctx == s.ctx && r.stub.args == s.args
      && (r.outcome.Threw? ==> r.stub == s)
      && (r.outcome == Normal && !c.SetEventCall? ==> |r.stub.log| == |s.log| + 1)
      && (r.outcome == Normal && c.SetEventCall? ==> r.stub.log == s.log)
      && r.stub.log[..|s.log|] == s.log
      && (!c.SetEventCall? ==> r.stub.event == s.event)
  {
  }

  /** Over any sequence of calls the context and arguments stay fixed, the
      log only grows, and it grows by at most one request per call. */
  lemma {:induction false} RunAppendOnly(s: Stub, calls: seq<Call>, v: seq<String16> -> bool)
    ensures var t := Run(s, calls, v);
      && t.ctx == s.ctx && t.args == s.args
      && |s.log| <= |t.log| <= |s.log| + |calls|
      && t.log[..|s.log|] == s.log
    decreases |calls|
  {
    if |calls| > 0 {
      var s1 := Apply(s, calls[0], v).stub;
      ApplyAppendsAtMostOne(s, calls[0], v);
      RunAppendOnly(s1, calls[1..], v);
      var t := Run(s, calls, v);
      assert t.log[..|s1.log|] == s1.log;
      assert t.log[..|s.log|] == t.log[..|s1.log|][..|s.log|];
    }
  }

  /** Last write wins: a successful `setEvent` erases every trace of the
      one before it. */
  lemma SetEventLastWriteWins(s: Stub, n1: Option<String16>, p1: Option<Bytes>, n2: Option<String16>, p2: Option<Bytes>)
    requires n2.Some? && !IsBlank(n2.value)
    ensures SetEvent(SetEvent(s, n1, p1).stub, n2, p2).stub == SetEvent(s, n2, p2).stub
  {
  }

  /** After `setEvent` with a usable name, `getEvent` returns an event with
      that name and exactly the payload supplied (absent when it was
      `null`); after a refused `setEvent` it returns what it did before. */
  lemma GetEventAfterSetEvent(s: Stub, name: Option<String16>, payload: Option<Bytes>)
    ensures name.Some? && !IsBlank(name.value) ==>
      GetEvent(SetEvent(s, name, payload).stub) == Some(ChaincodeEvent(name.value, payload))
    ensures name.None? || IsBlank(name.value) ==> GetEvent(SetEvent(s, name, payload).stub) == GetEvent(s)
  {
  }

  /** The function name followed by the parameters is the whole argument
      list. */
  lemma FunctionAndParametersSplitArgs(s: Stub, utf8: Bytes -> String16)
    requires |s.args| > 0
    ensures [GetFunction(s, utf8).value] + GetParameters(s, utf8) == StringArgs(s, utf8)
  {
  }
}
