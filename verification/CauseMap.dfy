/** The table between SIP statuses and GSM 04.08 causes (src/sip.c). It is searched in
    priority order and its last row is the fallback of a search by cause. */
module CauseMap {

  // The phrases of the Reason header.
  datatype Phrase =
    | NormalCallClearing | CallRejected | ChannelUnacceptable | UnallocatedNumber | NoRouteToDestination
    | RecoveryOnTimerExpiry | NumberChanged | InvalidCallReferenceValue | InterworkingUnspecified
    | NoUserResponding | ResourceUnavailableUnspecified | TemporaryFailure | SwitchingEquipmentCongestion
    | UserBusy | InvalidNumberFormat | IncompatibleDestination | DestinationOutOfOrder | NetworkOutOfOrder
    | ServiceOrOptionNotImplemented | ExchangeRoutingError | BearerCapabilityNotAvailable | NormalUnspecified
  {
    function Text(): string {
      match this
      case NormalCallClearing => "Normal Call Clearing"
      case CallRejected => "Call Rejected"
      case ChannelUnacceptable => "Channel Unacceptable"
      case UnallocatedNumber => "Unallocated Number"
      case NoRouteToDestination => "No Route to Destination"
      case RecoveryOnTimerExpiry => "Recovery on Timer Expiry"
      case NumberChanged => "Number Changed"
      case InvalidCallReferenceValue => "Invalid Call Reference Value"
      case InterworkingUnspecified => "Interworking, Unspecified"
      case NoUserResponding => "No User Responding"
      case ResourceUnavailableUnspecified => "Resource Unavailable, Unspecified"
      case TemporaryFailure => "Temporary Failure"
      case SwitchingEquipmentCongestion => "Switching Equipment Congestion"
      case UserBusy => "User Busy"
      case InvalidNumberFormat => "Invalid Number Format (addr incomplete)"
      case IncompatibleDestination => "Incompatible Destination"
      case DestinationOutOfOrder => "Destination Out of Order"
      case NetworkOutOfOrder => "Network Out of Order"
      case ServiceOrOptionNotImplemented => "Service or Option Not Implemented"
      case ExchangeRoutingError => "Exchange Routing Error"
      case BearerCapabilityNotAvailable => "Bearer Capability Not Available"
      case NormalUnspecified => "Normal, Unspecified"
    }
  }

  datatype Row = Row(status: int, cause: int, reason: Phrase)

  const NORMAL_UNSPECIFIED := 31

  const ROWS := 43

  function RowAt(k: nat): Row {
    match k
    case 0 => Row(200, 16, NormalCallClearing)
    case 1 => Row(403, 21, CallRejected)
    case 2 => Row(401, 21, CallRejected)
    case 3 => Row(402, 21, CallRejected)
    case 4 => Row(407, 21, CallRejected)
    case 5 => Row(603, 21, CallRejected)
    case 6 => Row(406, 6, ChannelUnacceptable)
    case 7 => Row(404, 1, UnallocatedNumber)
    case 8 => Row(485, 3, NoRouteToDestination)
    case 9 => Row(604, 3, NoRouteToDestination)
    case 10 => Row(504, 102, RecoveryOnTimerExpiry)
    case 11 => Row(408, 102, RecoveryOnTimerExpiry)
    case 12 => Row(410, 22, NumberChanged)
    case 13 => Row(416, 81, InvalidCallReferenceValue)
    case 14 => Row(420, 127, InterworkingUnspecified)
    case 15 => Row(414, 127, InterworkingUnspecified)
    case 16 => Row(413, 127, InterworkingUnspecified)
    case 17 => Row(421, 127, InterworkingUnspecified)
    case 18 => Row(423, 127, InterworkingUnspecified)
    case 19 => Row(505, 127, InterworkingUnspecified)
    case 20 => Row(513, 127, InterworkingUnspecified)
    case 21 => Row(480, 18, NoUserResponding)
    case 22 => Row(503, 47, ResourceUnavailableUnspecified)
    case 23 => Row(503, 41, TemporaryFailure)
    case 24 => Row(503, 42, SwitchingEquipmentCongestion)
    case 25 => Row(400, 41, TemporaryFailure)
    case 26 => Row(481, 41, TemporaryFailure)
    case 27 => Row(500, 41, TemporaryFailure)
    case 28 => Row(486, 17, UserBusy)
    case 29 => Row(600, 17, UserBusy)
    case 30 => Row(484, 28, InvalidNumberFormat)
    case 31 => Row(488, 88, IncompatibleDestination)
    case 32 => Row(606, 88, IncompatibleDestination)
    case 33 => Row(502, 27, DestinationOutOfOrder)
    case 34 => Row(503, 38, NetworkOutOfOrder)
    case 35 => Row(405, 63, ServiceOrOptionNotImplemented)
    case 36 => Row(501, 79, ServiceOrOptionNotImplemented)
    case 37 => Row(415, 79, ServiceOrOptionNotImplemented)
    case 38 => Row(406, 79, ServiceOrOptionNotImplemented)
    case 39 => Row(482, 25, ExchangeRoutingError)
    case 40 => Row(483, 25, ExchangeRoutingError)
    case 41 => Row(503, 58, BearerCapabilityNotAvailable)
    case _ => Row(480, 31, NormalUnspecified)
  }

  function Table(): (t: seq<Row>)
    ensures |t| == ROWS && forall k | 0 <= k < ROWS :: t[k] == RowAt(k)
  {
    seq(ROWS, k requires 0 <= k < ROWS => RowAt(k))
  }

  // The first row from i on, short of the last one, with this cause; else the last row.
  function FindCause(t: seq<Row>, cause: int, i: nat): (r: Row)
    requires i < |t|
    ensures r in t
    decreases |t| - i
  {
    if i == |t| - 1 || t[i].cause == cause then t[i] else FindCause(t, cause, i + 1)
  }

  function FindStatus(t: seq<Row>, status: int, i: nat): int
    requires i < |t|
    decreases |t| - i
  {
    if i == |t| - 1 then NORMAL_UNSPECIFIED
    else if t[i].status == status then t[i].cause
    else FindStatus(t, status, i + 1)
  }

  function CauseRow(cause: int): Row {
    FindCause(Table(), cause, 0)
  }

  function CauseToStatus(cause: int): int {
    CauseRow(cause).status
  }

  function StatusToCause(status: int): int {
    FindStatus(Table(), status, 0)
  }

  // ---------------------------------------------------------------- the searches as loops

  method Status2Cause(status: int) returns (cause: int)
    ensures cause == StatusToCause(status)
  {
    var i := 0;
    while i < ROWS - 1
      invariant 0 <= i <= ROWS - 1
      invariant FindStatus(Table(), status, i) == StatusToCause(status)
    {
      if RowAt(i).status == status {
        return RowAt(i).cause;
      }
      i := i + 1;
    }
    return NORMAL_UNSPECIFIED;
  }

  method Cause2Status(cause: int) returns (status: int, reason: Phrase)
    ensures status == CauseToStatus(cause) && reason == CauseRow(cause).reason
  {
    var i := 0;
    while i < ROWS - 1
      invariant 0 <= i <= ROWS - 1
      invariant FindCause(Table(), cause, i) == CauseRow(cause)
    {
      if RowAt(i).cause == cause {
        return RowAt(i).status, RowAt(i).reason;
      }
      i := i + 1;
    }
    return RowAt(i).status, RowAt(i).reason;
  }

  // ---------------------------------------------------------------- stability

  // Row a comes before any other row with its cause and before any other with its status.
  predicate Anchor(t: seq<Row>, a: nat)
    requires a < |t|
  {
    forall j | 0 <= j < a :: t[j].cause != t[a].cause && t[j].status != t[a].status
  }

  ghost predicate Anchors(t: seq<Row>, a: nat, k: nat)
    requires k < |t|
  {
    a < |t| - 1 && t[a].status == t[k].status && Anchor(t, a)
  }

  // Priorities agree: a row that answers a search by cause shares its status with an anchor.
  ghost predicate PriorityConsistent(t: seq<Row>) {
    forall k | 0 <= k < |t| && FirstForItsCause(t, k) :: exists a :: Anchors(t, a, k)
  }

  // Row k is the answer to some search by cause.
  ghost predicate FirstForItsCause(t: seq<Row>, k: nat)
    requires k < |t|
  {
    k == |t| - 1 || forall j | 0 <= j < k :: t[j].cause != t[k].cause
  }

  lemma {:induction false} FindCauseIsFirst(t: seq<Row>, cause: int, i: nat) returns (k: nat)
    requires i < |t|
    requires forall j | 0 <= j < i :: t[j].cause != cause
    ensures k < |t| && FindCause(t, cause, i) == t[k] && FirstForItsCause(t, k)
    ensures t[k].cause == cause || (k == |t| - 1 && forall j | 0 <= j < k :: t[j].cause != cause)
    decreases |t| - i
  {
    if i == |t| - 1 || t[i].cause == cause {
      k := i;
    } else {
      k := FindCauseIsFirst(t, cause, i + 1);
    }
  }

  lemma {:induction false} FindCauseAt(t: seq<Row>, i: nat, k: nat)
    requires i <= k < |t| && forall j | i <= j < k :: t[j].cause != t[k].cause
    ensures FindCause(t, t[k].cause, i) == t[k]
    decreases k - i
  {
    if i < k {
      FindCauseAt(t, i + 1, k);
    }
  }

  lemma {:induction false} FindStatusAt(t: seq<Row>, i: nat, k: nat)
    requires i <= k < |t| - 1 && forall j | i <= j < k :: t[j].status != t[k].status
    ensures FindStatus(t, t[k].status, i) == t[k].cause
    decreases k - i
  {
    if i < k {
      FindStatusAt(t, i + 1, k);
    }
  }

  // An anchor answers both a search for its cause and one for its status.
  lemma ConsistentTableIsStable(t: seq<Row>, cause: int)
    requires |t| > 0 && PriorityConsistent(t)
    ensures var status := FindCause(t, cause, 0).status;
            FindCause(t, FindStatus(t, status, 0), 0).status == status
  {
    var k := FindCauseIsFirst(t, cause, 0);
    var a :| Anchors(t, a, k);
    FindStatusAt(t, 0, a);
    FindCauseAt(t, 0, a);
  }

  // The anchor for a status that some search by cause can answer.
  function AnchorOf(status: int): (k: nat)
    ensures k < ROWS - 1
  {
    match status
    case 200 => 0 case 403 => 1 case 406 => 6 case 404 => 7 case 485 => 8 case 504 => 10
    case 410 => 12 case 416 => 13 case 420 => 14 case 503 => 22 case 486 => 28 case 484 => 30
    case 488 => 31 case 502 => 33 case 405 => 35 case 501 => 36 case 482 => 39 case _ => 21
  }

  lemma EarlyAnchors(a: nat)
    requires a in {0, 1, 6, 7, 8, 10, 12, 13, 14, 21, 22}
    ensures Anchor(Table(), a)
  {
  }

  lemma MiddleAnchors(a: nat)
    requires a in {28, 30, 31, 33}
    ensures Anchor(Table(), a)
  {
  }

  lemma LateAnchors(a: nat)
    requires a in {35, 36, 39}
    ensures Anchor(Table(), a)
  {
  }

  lemma AnchorsHold(status: int)
    ensures Anchor(Table(), AnchorOf(status))
  {
    var a := AnchorOf(status);
    if a <= 22 {
      EarlyAnchors(a);
    } else if a <= 33 {
      MiddleAnchors(a);
    } else {
      LateAnchors(a);
    }
  }

  predicate HasAnchor(k: nat)
    requires k < ROWS
  {
    RowAt(AnchorOf(RowAt(k).status)).status == RowAt(k).status
  }

  // A row whose status has no anchor repeats the cause of an earlier row.
  lemma RowsHaveAnchors(k: nat)
    requires k < ROWS && FirstForItsCause(Table(), k)
    ensures HasAnchor(k)
  {
    if k < 33 {
      EarlyRowsHaveAnchors(k);
    } else {
      LateRowsHaveAnchors(k);
    }
  }

  lemma EarlyRowsHaveAnchors(k: nat)
    requires k < 33 && FirstForItsCause(Table(), k)
    ensures HasAnchor(k)
  {
    assert RowAt(1).cause == 21 && RowAt(8).cause == 3 && RowAt(10).cause == 102 && RowAt(14).cause == 127;
    assert RowAt(23).cause == 41 && RowAt(28).cause == 17 && RowAt(31).cause == 88;
  }

  lemma LateRowsHaveAnchors(k: nat)
    requires 33 <= k < ROWS && FirstForItsCause(Table(), k)
    ensures HasAnchor(k)
  {
    assert RowAt(36).cause == 79 && RowAt(39).cause == 25;
  }

  lemma TableIsConsistent()
    ensures PriorityConsistent(Table())
  {
    hide AnchorOf, RowAt;
    forall k | 0 <= k < ROWS && FirstForItsCause(Table(), k) ensures exists a :: Anchors(Table(), a, k) {
      RowsHaveAnchors(k);
      AnchorsHold(RowAt(k).status);
      assert Anchors(Table(), AnchorOf(RowAt(k).status), k);
    }
  }

  // Mapping a cause to a status and back to a cause is stable, for every integer cause.
  lemma CauseMapIsStable(cause: int)
    ensures CauseToStatus(StatusToCause(CauseToStatus(cause))) == CauseToStatus(cause)
    ensures var there := StatusToCause(CauseToStatus(cause)); StatusToCause(CauseToStatus(there)) == there
  {
    TableIsConsistent();
    ConsistentTableIsStable(Table(), cause);
  }

  // ---------------------------------------------------------------- the Reason header

  const REASON_CAPACITY := 64

  // printf's %u.
  function Decimal(n: nat): (s: string)
    ensures |s| >= 1
  {
    if n < 10 then ["0123456789"[n]] else Decimal(n / 10) + ["0123456789"[n % 10]]
  }

  function Unsigned32(cause: int): nat {
    cause % 0x1_0000_0000
  }

  function ReasonLine(n: nat, phrase: Phrase): string {
    "Q.850;cause=" + Decimal(n) + ";text=\"" + phrase.Text() + "\""
  }

  function ReasonText(cause: int): string {
    ReasonLine(Unsigned32(cause), CauseRow(cause).reason)
  }

  // The status and the Reason text of a rejection.
  method Rejection(cause: int) returns (status: int, reason: string)
    ensures status == CauseToStatus(cause) && reason == ReasonText(cause)
  {
    var phrase;
    status, phrase := Cause2Status(cause);
    reason := ReasonLine(Unsigned32(cause), phrase);
  }

  lemma {:induction false} DecimalLength(n: nat, digits: nat, bound: nat)
    requires digits >= 1 && n < bound && bound == Power10(digits)
    ensures |Decimal(n)| <= digits
    decreases digits
  {
    if n >= 10 {
      assert digits > 1 by { assert Power10(1) == 10; }
      DecimalLength(n / 10, digits - 1, Power10(digits - 1));
    }
  }

  function Power10(k: nat): nat {
    if k == 0 then 1 else 10 * Power10(k - 1)
  }

  // One phrase is too long to stand beside a ten-digit cause.
  lemma PhraseLength(phrase: Phrase)
    ensures |phrase.Text()| <= if phrase.InvalidNumberFormat? then 39 else 33
  {
    match phrase
    case InvalidNumberFormat => assert |"Invalid Number Format (addr incomplete)"| == 39;
    case ResourceUnavailableUnspecified => assert |"Resource Unavailable, Unspecified"| == 33;
    case ServiceOrOptionNotImplemented => assert |"Service or Option Not Implemented"| == 33;
    case SwitchingEquipmentCongestion => assert |"Switching Equipment Congestion"| == 30;
    case BearerCapabilityNotAvailable => assert |"Bearer Capability Not Available"| == 31;
    case _ =>
  }

  lemma ReasonLineLength(n: nat, phrase: Phrase)
    ensures |ReasonLine(n, phrase)| == 20 + |Decimal(n)| + |phrase.Text()|
  {
    assert |"Q.850;cause="| == 12 && |";text=\""| == 7;
  }

  lemma LongPhraseRow(k: nat)
    requires k < ROWS
    ensures RowAt(k).reason.InvalidNumberFormat? ==> k == 30
  {
  }

  // A search by cause answers with the long phrase only for a short cause.
  lemma LongPhraseShortCause(cause: int)
    ensures CauseRow(cause).reason.InvalidNumberFormat? ==> cause == 28
  {
    var k := FindCauseIsFirst(Table(), cause, 0);
    LongPhraseRow(k);
  }

  lemma LineFits(n: nat, phrase: Phrase)
    requires n < 0x1_0000_0000 && (phrase.InvalidNumberFormat? ==> n < 100)
    ensures |ReasonLine(n, phrase)| + 1 <= REASON_CAPACITY
  {
    ReasonLineLength(n, phrase);
    PhraseLength(phrase);
    if phrase.InvalidNumberFormat? {
      assert Power10(2) == 100;
      DecimalLength(n, 2, 100);
    } else {
      assert Power10(5) == 100_000 && Power10(10) == 10_000_000_000;
      DecimalLength(n, 10, 10_000_000_000);
    }
  }

  // The text written for any 32-bit cause fits the buffer with its terminator.
  lemma ReasonIsNeverCut(cause: int)
    requires -0x8000_0000 <= cause < 0x8000_0000
    ensures |ReasonText(cause)| + 1 <= REASON_CAPACITY
  {
    LongPhraseShortCause(cause);
    LineFits(Unsigned32(cause), CauseRow(cause).reason);
  }
}
