// The state machines of internal/domain/status.go.
module Status {
  import opened Common

  datatype RecordStatus =
    | Pending
    | Accepted
    | Conflict
    | Adjudicated
    | AwaitingReview
    | Verified
    | Revoked

  datatype BatchStatus =
    | BatchPending
    | BatchLeasing
    | BatchProcessing
    | BatchCompleted
    | BatchFailed
    | BatchPermanent

  datatype DeploymentStatus =
    | Draft
    | Provisioning
    | Active
    | PendingRetry
    | Compensating
    | Aborted

  datatype StepStatus = StepPending | StepProcessing | StepDone | StepFailed | StepCompensated

  datatype TrialStatus =
    | TrialPending
    | TrialActive
    | TrialAccepted
    | TrialOverdue
    | TrialEscalated
    | TrialConverted

  datatype BillStatus = BillDraft | BillIssued | BillSettled | BillVoided

  const recordTransitions: map<RecordStatus, set<RecordStatus>> := map[
    Pending := {Accepted, Conflict, AwaitingReview, Revoked},
    Accepted := {Verified, Revoked},
    Conflict := {Adjudicated},
    AwaitingReview := {Verified, Revoked},
    Adjudicated := {},
    Verified := {Revoked},
    Revoked := {}
  ]

  const deploymentTransitions: map<DeploymentStatus, set<DeploymentStatus>> := map[
    Draft := {Provisioning},
    Provisioning := {Active, PendingRetry, Compensating},
    PendingRetry := {Provisioning, Compensating},
    Compensating := {Aborted, PendingRetry},
    Active := {PendingRetry, Compensating}
  ]

  const trialTransitions: map<TrialStatus, set<TrialStatus>> := map[
    TrialPending := {TrialActive},
    TrialActive := {TrialAccepted, TrialOverdue},
    TrialOverdue := {TrialEscalated, TrialAccepted},
    TrialEscalated := {TrialConverted, TrialAccepted},
    TrialConverted := {},
    TrialAccepted := {}
  ]

  predicate CanTransition<S(==)>(table: map<S, set<S>>, src: S, dst: S) {
    src in table && dst in table[src]
  }

  // A move onto the same state passes, whatever the table says.
  predicate AssertTransition<S(==)>(table: map<S, set<S>>, src: S, dst: S) {
    src == dst || CanTransition(table, src, dst)
  }

  // The record table, by cases.
  predicate RecordEdge(src: RecordStatus, dst: RecordStatus) {
    match src
    case Pending => dst.Accepted? || dst.Conflict? || dst.AwaitingReview? || dst.Revoked?
    case Accepted => dst.Verified? || dst.Revoked?
    case Conflict => dst.Adjudicated?
    case AwaitingReview => dst.Verified? || dst.Revoked?
    case Adjudicated => false
    case Verified => dst.Revoked?
    case Revoked => false
  }

  lemma RecordEdgeIsTheTable(src: RecordStatus, dst: RecordStatus)
    ensures RecordEdge(src, dst) <==> CanTransition(recordTransitions, src, dst)
  {
    match src {
      case Pending =>
      case Accepted =>
      case Conflict =>
      case AwaitingReview =>
      case Adjudicated =>
      case Verified =>
      case Revoked =>
    }
  }

  // Height of a record status: every edge of the record table climbs.
  function Rank(s: RecordStatus): (r: nat)
    ensures r <= 3
    ensures r == 0 <==> s == Pending
  {
    match s
    case Pending => 0
    case Accepted => 1
    case Conflict => 1
    case AwaitingReview => 1
    case Adjudicated => 2
    case Verified => 2
    case Revoked => 3
  }

  lemma RecordEdgeClimbs(src: RecordStatus, dst: RecordStatus)
    requires RecordEdge(src, dst)
    ensures Rank(src) < Rank(dst)
  {
    match src {
      case Pending =>
      case Accepted =>
      case Conflict =>
      case AwaitingReview =>
      case Adjudicated =>
      case Verified =>
      case Revoked =>
    }
  }
}
