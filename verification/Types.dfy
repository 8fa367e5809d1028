/** Values shared by all modules: error codes and their categories, connection and
    subscription states, and the decoded messages that reach the control thread. */
module Types {

  datatype Option<+T> = None | Some(value: T)

  datatype ErrorCode =
    | Ok
    | AuthFailed | AuthCnNotAllowed | AuthSerialRevoked | AuthTokenInvalid | AuthTokenExpired
    | SessionTokenInvalid | SessionTokenExpired | HandshakeRequired
    | CapabilityDenied | RateLimited | UnsupportedVersion
    | TopicNotFound | TopicAlreadySubscribed | TopicNotSubscribed
    | ControlEStopActive | ControlPublisherUnavailable | ControlInvalidTwist
    | TaskRunning | TaskNotFound | TaskInvalidState
    | NavMarkerNotFound | NavNoActiveMap | NavGoalUnreachable | NavLowBattery
    | TransportFailure | Timeout | Cancelled | Disconnected | WouldDeadlock | InternalError

  datatype ErrorCategory = OkCategory | Transient | Application | FatalCategory | Local

  /** Decides whether a failed connection attempt is retried or ends the session. */
  function Classify(code: ErrorCode): ErrorCategory {
    match code
    case Ok => OkCategory
    case AuthFailed | AuthCnNotAllowed | AuthSerialRevoked
    | AuthTokenInvalid | AuthTokenExpired | UnsupportedVersion => FatalCategory
    case SessionTokenInvalid | SessionTokenExpired | HandshakeRequired
    | TransportFailure | Timeout => Transient
    case Cancelled | Disconnected | WouldDeadlock | InternalError => Local
    case _ => Application
  }

  datatype ConnectionState =
    Idle | Connecting | Ready | TransientFailure | Reconnecting | Shutdown | Fatal

  /** Shutdown and Fatal: no handler talks to the network any more. */
  predicate Terminal(c: ConnectionState) {
    c.Shutdown? || c.Fatal?
  }

  datatype SubscriptionState = Pending | Active | Paused | Closed

  datatype Semantics = Telemetry | Event

  datatype DropPolicy = DropOldest | DropNewest

  datatype RejectReason =
    | NoReason | NoSuchTopic | NotPermitted | AlreadySubscribed | InvalidHz
    | HistoryTooOld | ReplayNotSupported

  function RejectToError(r: RejectReason): ErrorCode {
    match r
    case NoReason => Ok
    case NoSuchTopic => TopicNotFound
    case NotPermitted => CapabilityDenied
    case AlreadySubscribed => TopicAlreadySubscribed
    case InvalidHz => ControlInvalidTwist
    case HistoryTooOld | ReplayNotSupported => InternalError
  }

  /** A queue size: validated options have at least room for one frame. */
  type Capacity = n: nat | n >= 1 witness 1

  /** One frame pushed by the server; a sequence number of 0 means unnumbered. */
  datatype Push = Push(seqNo: nat, payload: seq<bv8>)

  /** A decoded response: the fields the control thread branches on. */
  datatype Response = Response(
    requestId: nat,
    success: bool,
    code: ErrorCode,
    hasHandshake: bool,
    hasRpc: bool,
    rpcCode: ErrorCode,
    hasSubscribe: bool,
    accepted: bool,
    reject: RejectReason,
    nextSeq: nat)
}
