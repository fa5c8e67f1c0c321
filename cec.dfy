/** The HDMI-CEC endpoints: claiming the television's active source, waking it, the
    volume keys, and a text dump of the latest received frame.

    Opcodes and user-control codes are the values of the HDMI 1.4 CEC supplement
    (GIVE_PHYSICAL_ADDRESS 0x83, TEXT_VIEW_ON 0x0D, ACTIVE_SOURCE 0x82,
    USER_CONTROL_PRESSED 0x44; Volume Up 0x41, Volume Down 0x42). The acknowledgement
    of each send and the byte a receive writes are inputs: the bus is not modelled. */
module CecEndpoints {
  import opened Format
  import opened Platform

  const TvAddress: Byte := 0
  const OpGivePhysicalAddress: Byte := 0x83
  const OpTextViewOn: Byte := 0x0D
  const OpActiveSource: Byte := 0x82
  const OpUserControlPressed: Byte := 0x44
  const UcVolumeUp: Byte := 0x41
  const UcVolumeDown: Byte := 0x42

  /** Size of the parameter buffer GET /cec/latest receives into. */
  const LatestParamSlots := 100

  /** The platform calls that switch CEC support on, as load and application start make them. */
  function EnableCecCalls(): seq<Call> {
    [TveCecInit, TveSetCecEnable(true), AvmCecInit, AvmEnableCec]
  }

  /** GET /cec/enabled: the TV encoder's CEC state, rendered as an integer. */
  function CecEnabled(enabled: bool): (r: Handled)
    ensures r.calls == [TveIsCecEnable]
    ensures r.outcome == Ok(PlainText(if enabled then "1" else "0"))
  {
    Handled(Ok(PlainText(BoolText(enabled))), [TveIsCecEnable])
  }

  /** The claim-active-source exchange: ask the TV for its physical address, receive
      one frame, wake the TV, then announce ACTIVE_SOURCE with the byte the receive
      wrote as its single parameter. */
  function ClaimActiveSourceCalls(received: Byte): (calls: seq<Call>)
    ensures |calls| == 4 && calls[1] == CecReceive
    ensures forall i :: 0 <= i < |calls| && i != 1 ==> calls[i].CecSend? && calls[i].destination == TvAddress
    ensures calls[0].opcode == OpGivePhysicalAddress && calls[0].params == []
    ensures calls[2].opcode == OpTextViewOn && calls[2].params == []
    ensures calls[3].opcode == OpActiveSource && calls[3].params == [received]
  {
    [CecSend(TvAddress, OpGivePhysicalAddress, []),
     CecReceive,
     CecSend(TvAddress, OpTextViewOn, []),
     CecSend(TvAddress, OpActiveSource, [received])]
  }

  /** POST /cec/request_tv_active. Only the ACTIVE_SOURCE acknowledgement reaches the
      body: the first is overwritten and the TEXT_VIEW_ON one is dropped. */
  function RequestTvActive(givePhysicalAddressAck: bool, textViewOnAck: bool, activeSourceAck: bool, received: Byte): (r: Handled)
    ensures r.calls == ClaimActiveSourceCalls(received)
    ensures r.outcome == Ok(PlainText(BoolText(activeSourceAck)))
  {
    Handled(Ok(PlainText(BoolText(activeSourceAck))), ClaimActiveSourceCalls(received))
  }

  /** POST /cec/request_tv_on: one TEXT_VIEW_ON without parameters; the body is its acknowledgement. */
  function RequestTvOn(ack: bool): (r: Handled)
    ensures r.calls == [CecSend(TvAddress, OpTextViewOn, [])]
    ensures r.outcome == Ok(PlainText(BoolText(ack)))
  {
    Handled(Ok(PlainText(BoolText(ack))), [CecSend(TvAddress, OpTextViewOn, [])])
  }

  /** POST /cec/tv_vol_up and /cec/tv_vol_down: one USER_CONTROL_PRESSED to the TV carrying the key code. */
  function TvVolume(up: bool, ack: bool): (r: Handled)
    ensures |r.calls| == 1 && r.calls[0].CecSend?
    ensures r.calls[0].destination == TvAddress && r.calls[0].opcode == OpUserControlPressed
    ensures r.calls[0].params == [if up then 65 else 66]
    ensures r.outcome == Ok(PlainText(BoolText(ack)))
  {
    var key := if up then UcVolumeUp else UcVolumeDown;
    Handled(Ok(PlainText(BoolText(ack))), [CecSend(TvAddress, OpUserControlPressed, [key])])
  }

  function LatestHeader(initiator: Byte, opcode: Byte, numParams: Byte): string {
    "initiator " + Dec(initiator) + " opcode " + Dec(opcode) + " numparams " + Dec(numParams)
  }

  function ParamLine(i: nat, value: Byte): string {
    "\n param " + Dec(i) + " - " + Dec(value)
  }

  /** The parameter lines of GET /cec/latest for the first n parameters, in increasing index. */
  function ParamLines(params: seq<Byte>, n: nat): string
    requires n <= |params|
  {
    if n == 0 then "" else ParamLines(params, n - 1) + ParamLine(n - 1, params[n - 1])
  }

  function NewlineCount(s: string): nat {
    if s == [] then 0 else NewlineCount(s[..|s| - 1]) + (if s[|s| - 1] == '\n' then 1 else 0)
  }

  lemma {:induction false} NewlineCountAppend(s: string, t: string)
    ensures NewlineCount(s + t) == NewlineCount(s) + NewlineCount(t)
    decreases |t|
  {
    if t == [] {
      assert s + t == s;
    } else {
      assert (s + t)[..|s + t| - 1] == s + t[..|t| - 1];
      assert (s + t)[|s + t| - 1] == t[|t| - 1];
      NewlineCountAppend(s, t[..|t| - 1]);
    }
  }

  lemma {:induction false} NoNewline(s: string)
    requires '\n' !in s
    ensures NewlineCount(s) == 0
    decreases |s|
  {
    if s != [] {
      assert s[|s| - 1] in s;
      NoNewline(s[..|s| - 1]);
    }
  }

  lemma DigitsHaveNoNewline(s: string)
    requires AllDigits(s)
    ensures NewlineCount(s) == 0
  {
    NoNewline(s);
  }

  /** A line holds exactly one newline: the one it starts with. */
  lemma ParamLineHasOneNewline(i: nat, value: Byte)
    ensures NewlineCount(ParamLine(i, value)) == 1
  {
    DigitsHaveNoNewline(Dec(i));
    DigitsHaveNoNewline(Dec(value));
    NewlineCountAppend("\n param " + Dec(i) + " - ", Dec(value));
    NewlineCountAppend("\n param " + Dec(i), " - ");
    NewlineCountAppend("\n param ", Dec(i));
    assert "\n param " == "\n" + " param ";
    NewlineCountAppend("\n", " param ");
    assert "\n"[..0] == "";
    NoNewline(" param ");
    NoNewline(" - ");
  }

  /** The header is a single line. */
  lemma HeaderHasNoNewline(initiator: Byte, opcode: Byte, numParams: Byte)
    ensures NewlineCount(LatestHeader(initiator, opcode, numParams)) == 0
  {
    DigitsHaveNoNewline(Dec(initiator));
    DigitsHaveNoNewline(Dec(opcode));
    DigitsHaveNoNewline(Dec(numParams));
    NoNewline("initiator ");
    NoNewline(" opcode ");
    NoNewline(" numparams ");
    NewlineCountAppend("initiator " + Dec(initiator) + " opcode " + Dec(opcode) + " numparams ", Dec(numParams));
    NewlineCountAppend("initiator " + Dec(initiator) + " opcode " + Dec(opcode), " numparams ");
    NewlineCountAppend("initiator " + Dec(initiator) + " opcode ", Dec(opcode));
    NewlineCountAppend("initiator " + Dec(initiator), " opcode ");
    NewlineCountAppend("initiator ", Dec(initiator));
  }

  /** n parameters add exactly n lines. */
  lemma {:induction false} ParamLinesCount(params: seq<Byte>, n: nat)
    requires n <= |params|
    ensures NewlineCount(ParamLines(params, n)) == n
    decreases n
  {
    if n == 0 {
      assert ParamLines(params, n) == "";
    } else {
      ParamLinesCount(params, n - 1);
      NewlineCountAppend(ParamLines(params, n - 1), ParamLine(n - 1, params[n - 1]));
      ParamLineHasOneNewline(n - 1, params[n - 1]);
    }
  }

  /** GET /cec/latest: one receive into a buffer of LatestParamSlots parameters, then a
      header and one line per reported parameter. `params` is the buffer after the
      receive; a parameter count past its end makes the bounds-checked read throw. */
  method Latest(initiator: Byte, opcode: Byte, numParams: Byte, params: seq<Byte>) returns (r: Handled)
    ensures r.calls == [CecReceive]
    ensures numParams <= |params| ==>
      r.outcome == Ok(PlainText(LatestHeader(initiator, opcode, numParams) + ParamLines(params, numParams)))
    ensures numParams > |params| ==> r.outcome == Throw(OutOfRange)
  {
    var ret := LatestHeader(initiator, opcode, numParams);
    var i := 0;
    while i < numParams
      invariant i <= numParams && i <= |params|
      invariant ret == LatestHeader(initiator, opcode, numParams) + ParamLines(params, i)
    {
      if i >= |params| {
        return Handled(Throw(OutOfRange), [CecReceive]);
      }
      ret := ret + ParamLine(i, params[i]);
      i := i + 1;
    }
    r := Handled(Ok(PlainText(ret)), [CecReceive]);
  }

  /** With the handler's 100-slot buffer, the text is produced exactly when at most
      100 parameters are reported, and then holds one newline per parameter. */
  method LatestFromBuffer(initiator: Byte, opcode: Byte, numParams: Byte, params: seq<Byte>) returns (r: Handled)
    requires |params| == LatestParamSlots
    ensures r.outcome.Respond? <==> numParams <= LatestParamSlots
    ensures r.outcome.Respond? ==> r.outcome.response.status == 200 && r.outcome.response.body.PlainText?
    ensures r.outcome.Respond? ==> NewlineCount(r.outcome.response.body.text) == numParams
  {
    r := Latest(initiator, opcode, numParams, params);
    if numParams <= LatestParamSlots {
      HeaderHasNoNewline(initiator, opcode, numParams);
      ParamLinesCount(params, numParams);
      NewlineCountAppend(LatestHeader(initiator, opcode, numParams), ParamLines(params, numParams));
    }
  }
}
