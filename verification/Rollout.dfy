/** Restarting a workload by changing an annotation of its pod template. */
module Rollout {
  import opened Backends

  const ANNOTATION := "auth.kettleofketchup/secret-hash"

  predicate Supported(kind: string) {
    kind == "Deployment" || kind == "StatefulSet"
  }

  /** The patch is only sent for a supported kind and a workload that could be read. */
  predicate Patches(s: Outside, ref: WorkloadRef, read: ReadOutcome) {
    Supported(ref.kind) && read.ReadOk? && ref in s.workloads
  }

  function RolloutEffects(
      s: Outside, ref: WorkloadRef, hash: string, read: ReadOutcome, patch: WriteOutcome): seq<Effect>
  {
    if Patches(s, ref, read) then Written(patch, Annotate(ref, ANNOTATION, hash)) else []
  }

  method TriggerRollout(b: Backends, ref: WorkloadRef, hash: string, read: ReadOutcome, patch: WriteOutcome)
    returns (ok: bool)
    modifies b
    ensures var sent := ref.kind in {"Deployment", "StatefulSet"} && read.ReadOk? && ref in old(b.workloads);
            var es := if sent then Written(patch, Annotate(ref, "auth.kettleofketchup/secret-hash", hash)) else [];
            && b.State() == Replay(old(b.State()), es) && b.log == old(b.log) + es
            && (ok <==> sent && patch.WriteOk?)
  {
    if !Supported(ref.kind) {
      return false;
    }
    var workload := b.GetWorkload(ref, read);
    if !workload.Found? {
      return false;
    }
    ok := b.Write(Annotate(ref, ANNOTATION, hash), patch);
  }
}
