/** The Kubernetes objects the drain engine reads, reduced to the fields it branches on. */
module Kube {

  datatype Option<+T> = None | Some(value: T)

  datatype Result<+T, +E> = Ok(value: T) | Err(error: E)

  /** The classes of API error the engine tells apart. */
  datatype ApiError =
    | NotFound
    | TooManyRequests     // HTTP 429, also what a PodDisruptionBudget answers
    | ServiceUnavailable  // HTTP 503
    | InternalError
    | ServerTimeout
    | Timeout
    | Other(detail: string)
  {
    /** Errors a poll loop absorbs and retries on its next tick. */
    predicate IsTransient() {
      InternalError? || ServerTimeout? || Timeout? || TooManyRequests?
    }
  }

  datatype OwnerRef = OwnerRef(kind: string, name: string, uid: string, controller: Option<bool>)

  datatype Phase = Pending | Running | Succeeded | Failed | Unknown

  datatype Pod = Pod(
    namespace: string,
    name: string,
    uid: string,
    labels: map<string, string>,
    phase: Phase,
    owners: seq<OwnerRef>,
    deleting: bool,   // a deletion timestamp is set
    mirror: bool,     // carries the mirror-pod annotation
    emptyDir: bool)   // mounts at least one emptyDir volume
  {
    /** A pod that has finished and is never rescheduled. */
    predicate IsTerminal() {
      phase.Succeeded? || phase.Failed?
    }

    predicate IsOwnedBy(kind: string) {
      exists i :: 0 <= i < |owners| && owners[i].kind == kind
    }

    predicate IsDaemonSetPod() { IsOwnedBy("DaemonSet") }

    predicate IsJobPod() { IsOwnedBy("Job") }
  }
}
