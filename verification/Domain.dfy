/** The values the connector works on: the fields of a call and of its two legs, the
    messages it exchanges with the MSC (MNCC) and with the PBX (SIP), and the trace of
    what was sent and heard on behalf of one call. */
module Domain {

  datatype Option<+T> = None | Some(value: T)

  // The SIP stack's name for a dialogue. NULL_HANDLE is a leg's handle before it is set.
  type Handle = nat
  const NULL_HANDLE: Handle := 0

  datatype Family = Unspec | Inet | Inet6

  // A socket address: the address family, the number of the active family, the port.
  datatype Addr = Addr(family: Family, ip: nat, port: nat)
  const NO_ADDR := Addr(Unspec, 0, 0)

  // A received SDP is kept in a 1024-byte buffer with its terminator.
  const SDP_CAPACITY := 1023

  function Cut(sdp: string): (r: string)
    ensures |r| <= SDP_CAPACITY
  {
    if |sdp| <= SDP_CAPACITY then sdp else sdp[..SDP_CAPACITY]
  }

  // What is stored after an SDP came in.
  function After(before: string, sdp: string): string {
    if sdp == "" then before else Cut(sdp)
  }

  // What a function pointer of a leg is set to: a function of src/mncc.c, which asserts that the
  // leg is an MNCC leg, one of src/sip.c, which asserts that it is a SIP leg, or nothing.
  datatype Callback = Unset | OfMncc | OfSip

  datatype Ops = Ops(
    ring: Callback,
    connect: Callback,
    release: Callback,
    hold: Callback,
    retrieve: Callback,
    updateRtp: Callback,
    dtmf: Callback)
  const NO_OPS := Ops(Unset, Unset, Unset, Unset, Unset, Unset, Unset)
  const MNCC_OPS := Ops(OfMncc, OfMncc, OfMncc, Unset, Unset, OfMncc, Unset)
  const SIP_MO_OPS := Ops(OfSip, OfSip, OfSip, OfSip, OfSip, Unset, OfSip)
  const SIP_MT_OPS := Ops(Unset, Unset, OfSip, OfSip, OfSip, Unset, OfSip)

  datatype Dir = MO | MT
  datatype MnccState = MInitial | MProceeding | MConnected | MHold
  datatype SipState = SInitial | SConfirmed | SConnected | SHold
  datatype ConnState = Disconnected | WaitVersion | Ready
  datatype Mode = Inactive | SendOnly | RecvOnly | SendRecv

  // The response a leg's command timer waits for; NoResponse is the zero of a new leg.
  datatype Awaited = NoResponse | RtpCreateRsp | SetupComplInd | RelCnf | RelInd

  // The part common to both kinds of leg.
  datatype Base = Base(
    inRelease: bool,
    cause: int,
    addr: Addr,
    payloadType: nat,
    payloadMsgType: int,
    rxSdp: string,
    rxChanged: bool,
    ops: Ops)
  const NEW_BASE := Base(false, 0, NO_ADDR, 0, 0, "", false, NO_OPS)

  datatype MLeg = MLeg(base: Base, state: MnccState, dir: Dir, callref: nat, timer: bool, wanted: Awaited)
  datatype SLeg = SLeg(base: Base, state: SipState, dir: Dir, handle: Handle, codec: Option<string>)

  datatype Leg = NoLeg | Mncc(m: MLeg) | Sip(s: SLeg)
  {
    function Common(): Base
      requires !NoLeg?
    {
      match this case Mncc(m) => m.base case Sip(s) => s.base
    }

    function WithCommon(b: Base): Leg
      requires !NoLeg?
    {
      match this case Mncc(m) => Mncc(m.(base := b)) case Sip(s) => Sip(s.(base := b))
    }
  }

  // How calling the function pointer on the leg would stop the process, if it would.
  function Misfit(callback: Callback, leg: Leg): Option<Fault> {
    match callback
    case Unset => Some(UnsetCallback)
    case OfMncc => if leg.Mncc? then None else Some(WrongLegType)
    case OfSip => if leg.Sip? then None else Some(WrongLegType)
  }

  // The entity that started the call owns the initial slot.
  datatype Slot = Initial | Remote
  {
    function Other(): Slot {
      match this case Initial => Remote case Remote => Initial
    }
  }

  // Call ids count from the one after this.
  const FIRST_ID: nat := 5000

  datatype CallV = CallV(id: nat, initial: Leg, remote: Leg)
  {
    function Get(sl: Slot): Leg {
      match sl case Initial => initial case Remote => remote
    }

    function Put(sl: Slot, leg: Leg): CallV {
      match sl case Initial => this.(initial := leg) case Remote => this.(remote := leg)
    }

    predicate Gone() {
      initial.NoLeg? && remote.NoLeg?
    }

    predicate HasMncc() {
      initial.Mncc? || remote.Mncc?
    }
  }

  // The number of attached legs.
  function LegCount(c: CallV): nat {
    (if c.initial.NoLeg? then 0 else 1) + (if c.remote.NoLeg? then 0 else 1)
  }

  // An SDP body sent to the SIP side: what the other leg received with the mode replaced,
  // or one composed from the legacy RTP fields.
  datatype Body = Forward(text: string, mode: Mode) | Compose(addr: Addr, payloadType: nat, codec: string, mode: Mode)

  // MNCC messages of which only the header matters.
  datatype Signal = RejReq | CallProcReq | SetupRsp | SetupComplReq | AlertReq | HoldCnf | HoldRej | RetrieveCnf
  datatype Clearing = DiscReq | RelReq
  datatype KeypadAnswer = StartDtmfRsp | StopDtmfRsp
  datatype Side = MnccSide | SipSide
  datatype Fault = UnsetCallback | MissingPartner | WrongLegType

  datatype Entry =
    // towards the MSC
    | TxSignal(signal: Signal, callref: nat)
    | TxClear(clearing: Clearing, callref: nat, cause: int)
    | TxRtpCreate(callref: nat, sdp: string)
    | TxRtpConnect(callref: nat, addr: Addr, payloadType: nat, sdp: string)
    | TxSetupReq(callref: nat, sdp: string)
    | TxKeypad(answer: KeypadAnswer, callref: nat, key: int)
    // towards the PBX
    | TxInvite(handle: Handle, body: Body)
    | TxReinvite(handle: Handle, body: Body)
    | TxAnswer(handle: Handle, body: Body)                            // 200 with SDP
    | TxRinging(handle: Handle)                                       // 180
    | TxReject(handle: Handle, status: int, reason: Option<string>)   // final failure
    | TxCancel(handle: Handle)
    | TxBye(handle: Handle)
    | TxAck(handle: Handle)
    | TxInfo(handle: Handle, key: int)
    | Bind(handle: Handle)
    | Destroy(handle: Handle)
    // a leg was handed this SDP
    | Heard(side: Side, sdp: string)
    // the process would have stopped here
    | Crash(fault: Fault)

  // One call together with everything sent and heard on its behalf so far.
  datatype Ctx = Ctx(call: CallV, log: seq<Entry>)
  {
    function Get(sl: Slot): Leg {
      call.Get(sl)
    }

    function Put(sl: Slot, leg: Leg): Ctx {
      Ctx(call.Put(sl, leg), log)
    }
  }
}
