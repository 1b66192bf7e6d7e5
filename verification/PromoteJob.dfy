/** One unit of deferred promotion work (internal/promote/queue.go). */
module PromoteJob {
  import opened Basics

  datatype Job = Job(
    pushId: string,
    tenant: string,
    repo: string,
    tag: string,
    digest: string,
    ref: string,
    target: string,
    ociPath: string,
    scratchDir: string,
    layers: seq<string>,
    configDig: string,
    manifest: Bytes,
    identity: string,
    attempts: nat)

  // Everything the worker never rewrites: only the attempt count and, after a rebuild
  // on another pod, the two local paths change between copies of one job.
  predicate SameCore(a: Job, b: Job) {
    a.(ociPath := b.ociPath, scratchDir := b.scratchDir, attempts := b.attempts) == b
  }
}
