/** Disposition transitions and run reconciliation (internal/exceptions/lifecycle.go). */
module Lifecycle {
  import opened Common
  import opened Identity

  /** `Absent` is the empty state of a finding that has no row yet. */
  datatype State = Absent | Open | InReview | Accepted | Dismissed | Suppressed | Reopened | Resolved

  predicate Active(s: State) {
    s in {Open, InReview, Reopened}
  }

  function Label(s: State): string {
    match s
    case Absent => ""
    case Open => "open"
    case InReview => "in_review"
    case Accepted => "accepted"
    case Dismissed => "dismissed"
    case Suppressed => "suppressed"
    case Reopened => "reopened"
    case Resolved => "resolved_in_source"
  }

  lemma LabelInjective(s: State, t: State)
    ensures Label(s) == Label(t) <==> s == t
  {
  }

  /** The texts that the states are stored under. */
  lemma {:induction false} LabelKnown(s: State)
    ensures Label(s) in {"", "open", "in_review", "accepted", "dismissed", "suppressed", "reopened",
      "resolved_in_source"}
    ensures Label(s) == "" <==> s == Absent
  {
  }

  predicate Expired(expiry: Option<int>, now: int) {
    expiry.None? || expiry.value <= now
  }

  /** The human-controlled transitions; `reason` has been trimmed. */
  predicate Transition(from: State, to: State, reason: string, expiry: Option<int>, now: int) {
    && 1 <= |reason| <= 2000
    && (match from
        case Open => to == InReview
        case Reopened => to == InReview
        case InReview => to in {Accepted, Dismissed, Suppressed}
        case _ => false)
    && (to == Suppressed ==> !Expired(expiry, now))
    && (to != Suppressed ==> expiry.None?)
  }

  /** The state after a run, and the run's classification of the finding. */
  function Reconcile(prior: State, present: bool, oldHash: Digest, newHash: Digest, expiry: Option<int>,
      now: int): (State, string)
  {
    if !present then
      if Active(prior) then (Resolved, "resolved_in_source") else (prior, "absent")
    else match prior
      case Absent => (Open, "new")
      case Suppressed =>
        if oldHash != newHash then (Reopened, "reopened_changed")
        else if Expired(expiry, now) then (Reopened, "reopened")
        else (Suppressed, "suppressed")
      case Resolved => (Reopened, "reopened")
      case _ => (prior, "still_open")
  }
}
