/**
 The state of one token and what its completion callbacks, reset() and wait() do to it
 (mqtt/token.h, token.cpp), everything here being done with the token's mutex held.  What
 happens outside the mutex (the listener, notify_all(), the removal from the client's lists)
 is in the module `AsyncThreads`.
 */
module Tokens {
  import opened Common

  datatype TokenType = CONNECT | SUBSCRIBE | PUBLISH | UNSUBSCRIBE | DISCONNECT

  const MQTTASYNC_SUCCESS: int := 0
  const GRANTED_QOS_2: int := 2
  // Not a protocol code: marks a failure of an MQTT v3 connection.
  const MQTTPP_V3_CODE: int := 255

  // What the C library hands to the callbacks.
  datatype SuccessData = SuccessData(token: int, body: string)
  datatype SuccessData5 = SuccessData5(token: int, reasonCode: int, body: string)
  datatype FailureData = FailureData(token: int, code: int, message: Option<string>)
  datatype FailureData5 = FailureData5(token: int, reasonCode: int, code: int, message: Option<string>)

  datatype Completion =
    | Success(rsp: Option<SuccessData>)
    | Success5(rsp5: Option<SuccessData5>)
    | Failure(err: Option<FailureData>)
    | Failure5(err5: Option<FailureData5>)

  // connect_response, subscribe_response or unsubscribe_response, built from the success data
  // (and, for an MQTT v3 subscription, from the number of results expected).
  datatype Response = Response(rsp: SuccessData, nExpected: nat) | Response5(rsp5: SuccessData5)

  datatype TokenError =
    | BadCast
    | Exception(rc: int, reasonCode: int, msg: string)
    | MissingResponse

  // The fields protected by the token's mutex.
  datatype Fields = Fields(
    typ: TokenType, nExpected: nat, rc: int, reasonCode: int, errMsg: string, msgId: int, complete: bool,
    connRsp: Option<Response>, subRsp: Option<Response>, unsubRsp: Option<Response>)

  function NewFields(typ: TokenType, nExpected: nat): Fields {
    Fields(typ, nExpected, 0, 0, "", 0, false, None, None, None)
  }

  function WithResponse(f: Fields, r: Response): Fields {
    match f.typ
    case CONNECT => f.(connRsp := Some(r))
    case SUBSCRIBE => f.(subRsp := Some(r))
    case UNSUBSCRIBE => f.(unsubRsp := Some(r))
    case _ => f
  }

  function Completed(f: Fields, c: Completion): Fields {
    match c
    case Success(None) => f.(rc := MQTTASYNC_SUCCESS, complete := true)
    case Success(Some(d)) =>
      WithResponse(f, Response(d, if f.typ.SUBSCRIBE? then f.nExpected else 0))
        .(msgId := d.token, rc := MQTTASYNC_SUCCESS, complete := true)
    case Success5(None) => f.(rc := MQTTASYNC_SUCCESS, complete := true)
    case Success5(Some(d)) =>
      WithResponse(f, Response5(d))
        .(msgId := d.token, reasonCode := d.reasonCode, rc := MQTTASYNC_SUCCESS, complete := true)
    case Failure(None) => f.(rc := -1, complete := true)
    case Failure(Some(d)) =>
      f.(msgId := d.token, rc := d.code, reasonCode := MQTTPP_V3_CODE, complete := true,
         errMsg := if d.message.Some? then d.message.value else f.errMsg)
    case Failure5(None) => f.(rc := -1, complete := true)
    case Failure5(Some(d)) =>
      f.(msgId := d.token, reasonCode := d.reasonCode, rc := d.code, complete := true,
         errMsg := if d.message.Some? then d.message.value else f.errMsg)
  }

  // connRsp, subRsp and unsubRsp keep what they hold.
  function Cleared(f: Fields): Fields {
    f.(complete := false, rc := MQTTASYNC_SUCCESS, reasonCode := 0, errMsg := "")
  }

  predicate Throws(f: Fields) {
    f.rc != MQTTASYNC_SUCCESS || f.reasonCode > GRANTED_QOS_2
  }

  function ErrorOf(f: Fields): TokenError {
    Exception(f.rc, f.reasonCode, f.errMsg)
  }

  // get_connect_response() once the token is complete.
  function ConnectResponse(f: Fields): Result<Response, TokenError> {
    if !f.typ.CONNECT? then Err(BadCast)
    else if Throws(f) then Err(ErrorOf(f))
    else if f.connRsp.None? then Err(MissingResponse)
    else Ok(f.connRsp.value)
  }

  class Token {
    const typ: TokenType
    const qos: Option<int>  // of the message that a delivery token tracks
    var nExpected: nat
    var rc: int
    var reasonCode: int
    var errMsg: string
    var msgId: int
    var complete: bool
    var connRsp: Option<Response>
    var subRsp: Option<Response>
    var unsubRsp: Option<Response>

    function State(): Fields
      reads this
    {
      Fields(typ, nExpected, rc, reasonCode, errMsg, msgId, complete, connRsp, subRsp, unsubRsp)
    }

    constructor (typ: TokenType, qos: Option<int>)
      ensures State() == NewFields(typ, 0) && this.qos == qos
    {
      this.typ := typ;
      this.qos := qos;
      nExpected, rc, reasonCode, errMsg, msgId, complete := 0, 0, 0, "", 0, false;
      connRsp, subRsp, unsubRsp := None, None, None;
    }

    method SetNumExpected(n: nat)
      modifies this
      ensures State() == old(State()).(nExpected := n)
    {
      nExpected := n;
    }

    method SetMessageId(id: int)
      modifies this
      ensures State() == old(State()).(msgId := id)
    {
      msgId := id;
    }

    method OnSuccess(rsp: Option<SuccessData>)
      modifies this
      ensures State() == Completed(old(State()), Success(rsp))
    {
      if rsp.Some? {
        msgId := rsp.value.token;
        match typ {
          case CONNECT => connRsp := Some(Response(rsp.value, 0));
          case SUBSCRIBE => subRsp := Some(Response(rsp.value, nExpected));
          case UNSUBSCRIBE => unsubRsp := Some(Response(rsp.value, 0));
          case _ =>
        }
      }
      rc := MQTTASYNC_SUCCESS;
      complete := true;
    }

    method OnSuccess5(rsp: Option<SuccessData5>)
      modifies this
      ensures State() == Completed(old(State()), Success5(rsp))
    {
      if rsp.Some? {
        msgId := rsp.value.token;
        reasonCode := rsp.value.reasonCode;
        match typ {
          case CONNECT => connRsp := Some(Response5(rsp.value));
          case SUBSCRIBE => subRsp := Some(Response5(rsp.value));
          case UNSUBSCRIBE => unsubRsp := Some(Response5(rsp.value));
          case _ =>
        }
      }
      rc := MQTTASYNC_SUCCESS;
      complete := true;
    }

    method OnFailure(rsp: Option<FailureData>)
      modifies this
      ensures State() == Completed(old(State()), Failure(rsp))
      ensures rc == (if rsp.Some? then rsp.value.code else -1) && (rsp.Some? ==> reasonCode == 255)
    {
      if rsp.Some? {
        msgId := rsp.value.token;
        rc := rsp.value.code;
        reasonCode := MQTTPP_V3_CODE;
        if rsp.value.message.Some? {
          errMsg := rsp.value.message.value;
        }
      } else {
        rc := -1;
      }
      complete := true;
    }

    method OnFailure5(rsp: Option<FailureData5>)
      modifies this
      ensures State() == Completed(old(State()), Failure5(rsp))
    {
      if rsp.Some? {
        msgId := rsp.value.token;
        reasonCode := rsp.value.reasonCode;
        rc := rsp.value.code;
        if rsp.value.message.Some? {
          errMsg := rsp.value.message.value;
        }
      } else {
        rc := -1;
      }
      complete := true;
    }

    method Reset()
      modifies this
      ensures State() == Cleared(old(State()))
    {
      complete := false;
      rc := MQTTASYNC_SUCCESS;
      reasonCode := 0;
      errMsg := "";
    }

    method CheckRet() returns (r: Result<(), TokenError>)
      ensures r.Err? <==> rc != 0 || reasonCode > 2
      ensures r.Err? ==> r.error == Exception(rc, reasonCode, errMsg)
    {
      if rc != MQTTASYNC_SUCCESS || reasonCode > GRANTED_QOS_2 {
        return Err(Exception(rc, reasonCode, errMsg));
      }
      return Ok(());
    }

    // try_wait(), and one pass of wait(), wait_for() and wait_until(): false when incomplete.
    method TryWait() returns (r: Result<bool, TokenError>)
      ensures !complete ==> r == Ok(false)
      ensures complete ==>
        r == if rc != 0 || reasonCode > 2 then Err(Exception(rc, reasonCode, errMsg)) else Ok(true)
    {
      if complete {
        var check := CheckRet();
        if check.Err? {
          return Err(check.error);
        }
      }
      return Ok(complete);
    }

    // One pass of get_connect_response(); None when the caller must (still) wait.
    method GetConnectResponse() returns (r: Option<Result<Response, TokenError>>)
      ensures r.None? <==> typ.CONNECT? && !complete
      ensures r.Some? ==> r.value == ConnectResponse(State())
    {
      if !typ.CONNECT? {
        return Some(Err(BadCast));
      }
      if !complete {
        return None;
      }
      var check := CheckRet();
      if check.Err? {
        return Some(Err(check.error));
      }
      if connRsp.None? {
        return Some(Err(MissingResponse));
      }
      return Some(Ok(connRsp.value));
    }
  }

  // ---- The life of a token ----

  datatype Happening = Reset | Complete(c: Completion) | SetId(id: int)

  function Happened(f: Fields, h: Happening): Fields {
    match h
    case Reset => Cleared(f)
    case Complete(c) => Completed(f, c)
    case SetId(id) => f.(msgId := id)
  }

  // The latest happening is last.
  function Replay(f: Fields, hs: seq<Happening>): Fields {
    if hs == [] then f else Happened(Replay(f, hs[..|hs| - 1]), hs[|hs| - 1])
  }

  // The completions since the construction or the last reset.
  function SinceReset(hs: seq<Happening>): seq<Completion> {
    if hs == [] then []
    else match hs[|hs| - 1]
      case Reset => []
      case Complete(c) => SinceReset(hs[..|hs| - 1]) + [c]
      case SetId(_) => SinceReset(hs[..|hs| - 1])
  }

  // The return code that a completion reports.
  function ReportedCode(c: Completion): int {
    match c
    case Success(_) => MQTTASYNC_SUCCESS
    case Success5(_) => MQTTASYNC_SUCCESS
    case Failure(e) => if e.None? then -1 else e.value.code
    case Failure5(e) => if e.None? then -1 else e.value.code
  }

  // The reason code that it reports, if any: a v3 success and a callback without data say nothing.
  function ReportedReason(c: Completion): Option<int> {
    match c
    case Success(_) => None
    case Success5(d) => if d.None? then None else Some(d.value.reasonCode)
    case Failure(e) => if e.None? then None else Some(MQTTPP_V3_CODE)
    case Failure5(e) => if e.None? then None else Some(e.value.reasonCode)
  }

  // The reason code last reported by any of the completions; 0 when none did.
  function LastReason(cs: seq<Completion>): int {
    if cs == [] then 0
    else
      var r := ReportedReason(cs[|cs| - 1]);
      if r.Some? then r.value else LastReason(cs[..|cs| - 1])
  }

  // What one happening does to the fields that decide the outcome of wait().
  lemma CodesAfter(f: Fields, h: Happening)
    ensures var f' := Happened(f, h);
      && f'.typ == f.typ && f'.nExpected == f.nExpected
      && f'.complete == (if h.Reset? then false else h.Complete? || f.complete)
      && f'.rc == (if h.Reset? then MQTTASYNC_SUCCESS else if h.Complete? then ReportedCode(h.c) else f.rc)
      && f'.reasonCode == (if h.Reset? then 0
                           else if h.Complete? && ReportedReason(h.c).Some? then ReportedReason(h.c).value
                           else f.reasonCode)
  {
  }

  lemma {:induction false} ReplayedCodes(typ: TokenType, n: nat, hs: seq<Happening>)
    ensures var f, cs := Replay(NewFields(typ, n), hs), SinceReset(hs);
      && f.typ == typ && f.nExpected == n
      && (f.complete <==> cs != [])
      && f.rc == (if cs == [] then MQTTASYNC_SUCCESS else ReportedCode(cs[|cs| - 1]))
      && f.reasonCode == LastReason(cs)
  {
    if hs != [] {
      var m := |hs| - 1;
      ReplayedCodes(typ, n, hs[..m]);
      CodesAfter(Replay(NewFields(typ, n), hs[..m]), hs[m]);
      var cs := SinceReset(hs);
      if hs[m].Complete? {
        assert cs[..|cs| - 1] == SinceReset(hs[..m]);
      }
    }
  }

  // The outcome of wait() over every history of a token: it can return exactly when some
  // completion came after the last reset, and then it throws exactly when the last completion
  // left a non-zero return code or the last reason code reported since the reset is above 2.
  lemma WaitOutcome(typ: TokenType, n: nat, hs: seq<Happening>)
    ensures var f, cs := Replay(NewFields(typ, n), hs), SinceReset(hs);
      && (f.complete <==> cs != [])
      && (cs != [] ==>
            (Throws(f) <==> ReportedCode(cs[|cs| - 1]) != MQTTASYNC_SUCCESS || LastReason(cs) > GRANTED_QOS_2))
  {
    ReplayedCodes(typ, n, hs);
  }

  // The message that a completion carries: only failures have one.
  function ReportedMessage(c: Completion): Option<string> {
    match c
    case Failure(Some(d)) => d.message
    case Failure5(Some(d)) => d.message
    case _ => None
  }

  // The last message that any of the completions carried; empty when none did.
  function LastMessage(cs: seq<Completion>): string {
    if cs == [] then ""
    else
      var m := ReportedMessage(cs[|cs| - 1]);
      if m.Some? then m.value else LastMessage(cs[..|cs| - 1])
  }

  lemma {:induction false} ReplayedMessage(typ: TokenType, n: nat, hs: seq<Happening>)
    ensures Replay(NewFields(typ, n), hs).errMsg == LastMessage(SinceReset(hs))
  {
    if hs != [] {
      var m := |hs| - 1;
      ReplayedMessage(typ, n, hs[..m]);
      if hs[m].Complete? {
        assert SinceReset(hs)[..|SinceReset(hs)| - 1] == SinceReset(hs[..m]);
      }
    }
  }

  // What wait() throws, when it throws, over every history: the return code of the last completion,
  // and the last reason code and the last message reported since the reset, by whichever completion.
  lemma WaitThrowsWhat(typ: TokenType, n: nat, hs: seq<Happening>)
    requires SinceReset(hs) != []
    ensures var cs := SinceReset(hs);
      ErrorOf(Replay(NewFields(typ, n), hs))
      == Exception(ReportedCode(cs[|cs| - 1]), LastReason(cs), LastMessage(cs))
  {
    ReplayedCodes(typ, n, hs);
    ReplayedMessage(typ, n, hs);
  }

  // One completion since the reset, as long as a token is not resubmitted while in flight: the
  // outcome is that completion's, and nothing of an earlier attempt survives.
  lemma WaitDependsOnTheOneCompletion(typ: TokenType, n: nat, hs: seq<Happening>, c: Completion)
    requires SinceReset(hs) == [c]
    ensures var f := Replay(NewFields(typ, n), hs);
      f.complete && (Throws(f) <==> Throws(Completed(NewFields(typ, n), c)))
  {
    ReplayedCodes(typ, n, hs);
  }

  // With several completions since the reset the outcome is still the last one's exactly when
  // that one reports a reason code, or fails by its return code, or the earlier ones left
  // nothing above 2.
  lemma WhenTheLastCompletionDecides(typ: TokenType, n: nat, hs: seq<Happening>, earlier: seq<Completion>,
                                     c: Completion)
    requires SinceReset(hs) == earlier + [c]
    ensures (Throws(Replay(NewFields(typ, n), hs)) <==> Throws(Completed(NewFields(typ, n), c)))
       <==> ReportedReason(c).Some? || ReportedCode(c) != MQTTASYNC_SUCCESS || LastReason(earlier) <= GRANTED_QOS_2
  {
    ReplayedCodes(typ, n, hs);
    assert (earlier + [c])[..|earlier|] == earlier;
  }

  // A v3 failure always throws, whatever code it carries.
  lemma {:induction false} V3FailureThrows(typ: TokenType, n: nat, hs: seq<Happening>, e: Option<FailureData>)
    requires SinceReset(hs) != [] && SinceReset(hs)[|SinceReset(hs)| - 1] == Failure(e)
    ensures Throws(Replay(NewFields(typ, n), hs))
  {
    ReplayedCodes(typ, n, hs);
  }

  // A connect token resubmitted while in flight: the v3 success of the second attempt does not
  // undo the reason code of the first attempt's failure.
  lemma StaleReasonThrows()
    ensures exists e: FailureData, d: SuccessData ::
      Throws(Replay(NewFields(CONNECT, 0), [Reset, Complete(Failure(Some(e))), Complete(Success(Some(d)))]))
  {
    var e, d := FailureData(0, -1, None), SuccessData(0, "");
    var hs := [Reset, Complete(Failure(Some(e))), Complete(Success(Some(d)))];
    assert hs[..2] == [Reset, Complete(Failure(Some(e)))] && hs[..2][..1] == [Reset] && hs[..1][..0] == [];
    ReplayedCodes(CONNECT, 0, hs[..2]);
    ReplayedCodes(CONNECT, 0, hs);
    assert Throws(Replay(NewFields(CONNECT, 0), hs));
  }

  // ---- The message ID ----

  // The ID that a completion carries.
  function ReportedId(c: Completion): Option<int> {
    match c
    case Success(Some(d)) => Some(d.token)
    case Success5(Some(d)) => Some(d.token)
    case Failure(Some(d)) => Some(d.token)
    case Failure5(Some(d)) => Some(d.token)
    case _ => None
  }

  // The last ID that was set, by the client or by a completion with data, resets or not.
  function LastId(hs: seq<Happening>): int {
    if hs == [] then 0
    else
      var rest := LastId(hs[..|hs| - 1]);
      match hs[|hs| - 1]
      case SetId(id) => id
      case Complete(c) => if ReportedId(c).Some? then ReportedId(c).value else rest
      case Reset => rest
  }

  lemma {:induction false} MessageIdIsTheLast(typ: TokenType, n: nat, hs: seq<Happening>)
    ensures Replay(NewFields(typ, n), hs).msgId == LastId(hs)
  {
    if hs != [] {
      MessageIdIsTheLast(typ, n, hs[..|hs| - 1]);
    }
  }

  // ---- The responses ----

  // The response in a completion of a token of this type.  Only a v3 subscription knows how many
  // results it expects.
  function ResponseIn(typ: TokenType, n: nat, c: Completion): Option<Response> {
    match c
    case Success(Some(d)) => Some(Response(d, if typ.SUBSCRIBE? then n else 0))
    case Success5(Some(d)) => Some(Response5(d))
    case _ => None
  }

  // The response in the last success with data since the construction, resets or not.
  function LastResponse(typ: TokenType, n: nat, hs: seq<Happening>): Option<Response> {
    if hs == [] then None
    else
      var rest := LastResponse(typ, n, hs[..|hs| - 1]);
      match hs[|hs| - 1]
      case Complete(c) => if ResponseIn(typ, n, c).Some? then ResponseIn(typ, n, c) else rest
      case _ => rest
  }

  // What the three responses are after one more happening.
  lemma ResponsesAfter(f: Fields, h: Happening)
    ensures var f', r := Happened(f, h), if h.Complete? then ResponseIn(f.typ, f.nExpected, h.c) else None;
      && f'.connRsp == (if f.typ.CONNECT? && r.Some? then r else f.connRsp)
      && f'.subRsp == (if f.typ.SUBSCRIBE? && r.Some? then r else f.subRsp)
      && f'.unsubRsp == (if f.typ.UNSUBSCRIBE? && r.Some? then r else f.unsubRsp)
  {
  }

  // A token keeps the last response of its own kind, and none of another kind, over every history.
  lemma {:induction false} ResponsesAreTheLast(typ: TokenType, n: nat, hs: seq<Happening>)
    ensures var f := Replay(NewFields(typ, n), hs);
      && f.connRsp == (if typ.CONNECT? then LastResponse(typ, n, hs) else None)
      && f.subRsp == (if typ.SUBSCRIBE? then LastResponse(typ, n, hs) else None)
      && f.unsubRsp == (if typ.UNSUBSCRIBE? then LastResponse(typ, n, hs) else None)
  {
    if hs != [] {
      var rest := hs[..|hs| - 1];
      ReplayedCodes(typ, n, rest);
      ResponsesAreTheLast(typ, n, rest);
      ResponsesAfter(Replay(NewFields(typ, n), rest), hs[|hs| - 1]);
    }
  }

  // reset() keeps the response, so get_connect_response() gives that of the last attempt that
  // had one, and throws exactly when wait() does or when there never was one.
  lemma ConnectResponseIsTheLast(n: nat, hs: seq<Happening>)
    ensures var f := Replay(NewFields(CONNECT, n), hs);
      && f.connRsp == LastResponse(CONNECT, n, hs)
      && (forall r :: ConnectResponse(f) == Ok(r) <==> !Throws(f) && LastResponse(CONNECT, n, hs) == Some(r))
      && (Throws(f) ==> ConnectResponse(f) == Err(ErrorOf(f)))
      && (!Throws(f) && LastResponse(CONNECT, n, hs) == None ==> ConnectResponse(f) == Err(MissingResponse))
  {
    ReplayedCodes(CONNECT, n, hs);
    ResponsesAreTheLast(CONNECT, n, hs);
  }
}
