/** Result shapes and the error classes that cross the engine and adapter boundaries. */
module Outcomes {

  datatype Option<+T> = None | Some(value: T)

  datatype Result<+T, +E> = Ok(value: T) | Err(error: E)

  /** Stable error classes projected one-for-one to the client. */
  datatype ErrorKind =
    | InvalidRequest | InvalidConfiguration | InvalidDeclaration | NotFound | Ambiguous
    | DeclarationChanged | ProofStepFailed | ProofStepTimeout | RequestCancelled | PetLost
    | QueryFailed | QueryTimeout | PetFailure | ProjectTimeout | BuildTimeout
    | AxiomDependencyOutOfScope | UnfinishedDependency

  /** The typed class of a rejection the prover reports over an intact transport. */
  datatype RemoteKind =
    | MethodNotFound | Interrupted | Parsing | Coq | Anomaly | System
    | TheoremNotFound | NoNodeAtPoint | ReferenceNotFound | UnknownCode

  datatype PetError =
    | Invalid | Environment | Cancelled | TimedOut | ProcessLost | Protocol | OutputOverflow
    | Remote(kind: RemoteKind)
  {
    predicate IsTransportLoss() {
      ProcessLost? || Protocol? || OutputOverflow?
    }

    /** The process and every identifier it exported are gone. */
    predicate InvalidatesProcess() {
      IsTransportLoss() || Cancelled? || TimedOut?
    }

    predicate IsInternalFailure() {
      Remote? && (kind.Anomaly? || kind.System? || kind.UnknownCode?)
    }
  }

  /** The error classes on which the dispatcher forgets every handle of the project. */
  predicate InvalidatesEpoch(kind: ErrorKind) {
    kind.PetLost? || kind.ProofStepTimeout? || kind.RequestCancelled?
  }

  datatype Operation = Declaration | ProofStep | Query

  function RemoteError(kind: RemoteKind, operation: Operation): (k: ErrorKind)
    ensures !InvalidatesEpoch(k)
  {
    match kind
    case MethodNotFound => InvalidConfiguration
    case Anomaly | System | UnknownCode => PetFailure
    case TheoremNotFound | NoNodeAtPoint => NotFound
    case ReferenceNotFound =>
      (match operation
       case Query => NotFound
       case Declaration => InvalidDeclaration
       case ProofStep => ProofStepFailed)
    case Interrupted | Parsing | Coq =>
      (match operation
       case Query => QueryFailed
       case Declaration => InvalidDeclaration
       case ProofStep => ProofStepFailed)
  }

  /**
   * A prover failure as the operation that met it reports it. No projection hides a loss and
   * none invents one: the dispatcher invalidates exactly when the process is gone.
   */
  function Project(error: PetError, operation: Operation): (k: ErrorKind)
    ensures InvalidatesEpoch(k) <==> error.InvalidatesProcess()
    ensures (k.RequestCancelled? <==> error.Cancelled?) && (k.ProofStepTimeout? <==> error.TimedOut?) && (k.PetLost? <==> error.IsTransportLoss())
  {
    match error
    case Cancelled => RequestCancelled
    case TimedOut => ProofStepTimeout
    case ProcessLost | Protocol | OutputOverflow => PetLost
    case Environment => InvalidConfiguration
    case Invalid => if operation.Declaration? then InvalidDeclaration else InvalidRequest
    case Remote(kind) => RemoteError(kind, operation)
  }

  /** The projection used for release and refresh, which have no operation of their own. */
  function ReleaseError(error: PetError): (k: ErrorKind)
    ensures InvalidatesEpoch(k) <==> error.InvalidatesProcess()
    ensures (k.RequestCancelled? <==> error.Cancelled?) && (k.ProofStepTimeout? <==> error.TimedOut?) && (k.PetLost? <==> error.IsTransportLoss())
  {
    match error
    case Cancelled => RequestCancelled
    case TimedOut => ProofStepTimeout
    case _ =>
      if error.IsTransportLoss() then PetLost
      else if error.IsInternalFailure() then PetFailure
      else InvalidConfiguration
  }
}
