/** The writes a drain performs, in order: every attempt counts, whether or not it succeeds. */
module Trace {
  datatype Write =
    | Cordon
    | Uncordon
    | Patch(key: string)              // the restart patch of a workload
    | Evict(namespace: string, pod: string)
    | Delete(namespace: string, pod: string)
    | CreateEvent
    | WriteTemp                       // the checkpoint's temporary file
    | RenameTemp                      // the checkpoint file itself
    | DeleteCheckpoint

  function WriteIf(b: bool, w: Write): seq<Write> {
    if b then [w] else []
  }

  /** How the rolling restart of a workload ends, and what it writes on its way. */
  datatype Restart = Restart(ok: bool, writes: seq<Write>)
}
