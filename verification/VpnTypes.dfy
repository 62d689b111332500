/** Vocabulary of the connection lifecycle: states, diagnostics, error codes and
    the environment the connection object talks to. */
module VpnTypes {

  /** Vpn::ConnectionState */
  datatype Lifecycle =
    | Unknown | Disconnected | Preparing | Connecting
    | Connected | Disconnecting | Reconnecting | Error

  /** ConnectionHealth, by its number in client/core/utils/connectionHealth.h. */
  newtype Health = h: int | 0 <= h <= 30

  const Idle: Health := 1
  const PreparingConfig: Health := 2
  const CheckingLocalNetwork: Health := 3
  const StartingProtocol: Health := 6
  const WaitingHandshake: Health := 8
  const ApplyingRoutes: Health := 9
  const CheckingTraffic: Health := 12
  const Healthy: Health := 15
  const BackendFailed: Health := 16
  const LocalServiceUnavailable: Health := 21
  const ProtocolStartFailed: Health := 22
  const HandshakeTimeout: Health := 24
  const DnsFailed: Health := 27
  const NoTraffic: Health := 28
  const Recovering: Health := 29
  const UnknownFailure: Health := 30

  /** connectionHealthProblem: the numbers from BackendFailed on, except Recovering. */
  predicate Problem(h: Health) { BackendFailed <= h && h != Recovering }

  /** Error codes by their number in client/core/utils/errorCodes.h. */
  type ErrorCode = int

  const NoError: ErrorCode := 0
  const UnknownError: ErrorCode := 100
  const InternalError: ErrorCode := 101
  const AmneziaServiceConnectionFailed: ErrorCode := 603
  const VpnHandshakeTimeout: ErrorCode := 704
  const VpnNoTrafficError: ErrorCode := 705
  const VpnBackendFailure: ErrorCode := 706

  datatype PendingAction = NoAction | StartConnection | RequestReconnect | StartSilentReconnect

  /** History: what took the watchdog from Reconnecting since it was last armed. A report of Disconnected
      is handled there without leaving the state, and a deferred start is dropped there. */
  datatype Loss = Kept | ByReport | ByDrop

  function HealthForError(e: ErrorCode): Health {
    if e == AmneziaServiceConnectionFailed || e == VpnBackendFailure then LocalServiceUnavailable
    else if e == VpnHandshakeTimeout then HandshakeTimeout
    else if e == VpnNoTrafficError then NoTraffic
    else UnknownFailure
  }

  predicate Recoverable(e: ErrorCode) {
    e == AmneziaServiceConnectionFailed || e == VpnBackendFailure ||
    e == VpnHandshakeTimeout || e == VpnNoTrafficError
  }

  /** What a protocol object reports, synchronously inside start() and stop() or later:
      a state change, an error signal, traffic, or an error it only stores in itself. */
  datatype Signal =
    | StateSignal(state: Lifecycle)
    | ErrorSignal(error: ErrorCode)
    | ErrorStored(error: ErrorCode)
    | BytesSignal(received: nat)

  /** Every answer the environment gives, indexed by the number of earlier questions.
      Quantifying over worlds quantifies over all environments. */
  datatype World = World(
    repositories: nat -> bool,        // are both repositories set?
    protection: nat -> bool,          // did the service accept the connection kill switch?
    networkReady: nat -> bool,        // is there a physical default route?
    factory: nat -> bool,             // did the protocol factory return an object?
    startSignals: nat -> seq<Signal>, // reported from inside protocol->start()
    startResult: nat -> ErrorCode,    // returned by protocol->start()
    stopSignals: nat -> seq<Signal>,  // reported from inside protocol->stop()
    storedError: nat -> ErrorCode,    // protocol->lastError() after a stop nobody listens to
    statusRequested: nat -> bool,     // protocol->requestStatus()
    routing: nat -> seq<Health>       // diagnostics published while routes are configured
  )

  /** History counters: protocol->start() and protocol->stop() calls, silent restarts, scheduled
      recoveries and resets of the attempt counter. */
  datatype Tally = Tally(starts: nat, stops: nat, restarts: nat, scheduled: nat, resets: nat)
}
