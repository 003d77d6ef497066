/** One AI generation document and the atomic operations of its store
    (app/ai/models.py, app/ai/store.py). */
module GenerationModel {
  import opened Wrappers

  /** Times are microseconds. */
  const SECOND := 1_000_000
  const GENERATION_LEASE := 300 * SECOND
  const RECOVERY_GRACE := 900 * SECOND

  datatype Status = Pending | Succeeded | Failed | Refunded {
    predicate IsTerminal() { Succeeded? || Refunded? }
  }

  /** `hasResult` says that `result_object` names this generation's object,
      `refundNoted` that `refund_entry_id` is set. */
  datatype Generation = Generation(
    status: Status, created: int, lease: Option<int>, hasResult: bool, refundNoted: bool)
  {
    predicate LeaseExpired(now: int) {
      status.Pending? && (lease.None? || lease.value <= now)
    }

    predicate Recoverable(now: int) {
      status.Pending? && created + RECOVERY_GRACE <= now
    }
  }

  predicate CanTransition(current: Status, target: Status) {
    if current.IsTerminal() then false
    else if current.Failed? then target.Refunded?
    else !target.Pending?
  }

  /** A new pending document with a fresh lease. */
  function Leased(now: int): Generation {
    Generation(Pending, now, Some(now + GENERATION_LEASE), false, false)
  }

  /** `finish`: the written document, or None when either gate refuses. */
  function Finish(doc: Option<Generation>, expected: Option<int>, target: Status, result: bool, refund: bool)
    : Option<Generation>
  {
    if doc.None? || !CanTransition(doc.value.status, target) then None
    else if doc.value.lease != expected then None
    else Some(Generation(target, doc.value.created, None, result, refund || doc.value.refundNoted))
  }

  /** `steal_expired`: the re-leased document, or None when the lease lives. */
  function StealExpired(doc: Option<Generation>, now: int): Option<Generation> {
    if doc.None? || !doc.value.LeaseExpired(now) then None
    else Some(doc.value.(lease := Some(now + GENERATION_LEASE)))
  }

  /** The document after an operation that wrote `written`, or refused. */
  function Stored(doc: Option<Generation>, written: Option<Generation>): Option<Generation> {
    if written.Some? then written else doc
  }
}
