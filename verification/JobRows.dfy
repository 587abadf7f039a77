/** A row of the `jobs` table and the guarded transitions that act on it. */
module JobRows {
  import opened Base

  datatype Status = Queued | Running | Succeeded | Failed | Dead | Cancelled | WaitingApproval

  /** One completed step, as checkpointed. */
  datatype StepRecord = StepRecord(prompt: string, output: string, finishReason: string, agent: string)

  /** The marker of a step that paused on the human-approval gate. */
  datatype Pending = Pending(step: nat, prompt: string, detail: string)

  /** The `progress` column. An absent phase is "", an absent or empty plan is [],
      an absent step map is map[]: the code only tests their truth. */
  datatype Progress = Progress(
    phase: string,
    plan: seq<string>,
    steps: map<string, StepRecord>,
    pending: Option<Pending>,
    error: Option<string>,
    result: Option<string>)

  const NO_PROGRESS := Progress("", [], map[], None, None, None)

  /** Times are integer ticks. `instructions` is "" when the spec carries none. */
  datatype Row = Row(
    tenant: string,
    instructions: string,
    status: Status,
    attempts: nat,
    maxAttempts: nat,
    retryCount: nat,
    maxRetries: nat,
    progress: Progress,
    lockedAt: Option<int>,
    lockedBy: Option<string>,
    createdAt: int)

  /** The source statuses of a plain status overwrite; "running" and "failed" are entered
      by dedicated statements instead. */
  function AllowedEntry(target: Status): set<Status> {
    match target
    case Succeeded => {Running}
    case Cancelled => {Queued, Running, WaitingApproval}
    case Queued => {Failed, Dead, Cancelled, WaitingApproval}
    case Dead => {Failed, Running}
    case WaitingApproval => {Running}
    case _ => {}
  }

  function NextStatusAfterFailure(r: Row): Status {
    if r.attempts < r.maxAttempts then Queued
    else if r.retryCount < r.maxRetries then Failed
    else Dead
  }

  function StatusName(s: Status): string {
    match s
    case Queued => "queued"
    case Running => "running"
    case Succeeded => "succeeded"
    case Failed => "failed"
    case Dead => "dead"
    case Cancelled => "cancelled"
    case WaitingApproval => "waiting_approval"
  }

  /** Everything a single statement can do to one row. */
  datatype Event =
    | Started(now: int)                 // UpdateJob(running)
    | Claimed(owner: string, now: int)  // the poller's claim
    | FailReported                      // UpdateJob(failed)
    | Reaped(cutoff: int)               // the reaper, with its lease cutoff
    | Retried                           // RetryJob
    | Moved(target: Status)             // UpdateJob to any other status
    | Renewed(now: int)                 // heartbeat
    | Checkpointed(progress: Progress)  // save_progress

  predicate Expired(r: Row, cutoff: int) {
    r.status == Running && r.lockedAt.Some? && r.lockedAt.value < cutoff
  }

  /** The WHERE clause of each statement. */
  predicate Enabled(r: Row, ev: Event) {
    match ev
    case Started(_) => r.status == Queued
    case Claimed(_, _) => r.status == Queued
    case FailReported => r.status == Running
    case Reaped(cutoff) => Expired(r, cutoff)
    case Retried => r.status == Failed
    case Moved(target) => r.status in AllowedEntry(target)
    case Renewed(_) => r.status == Running
    case Checkpointed(_) => true
  }

  function Released(r: Row): Row { r.(lockedAt := None, lockedBy := None) }

  /** The SET clause of each statement. */
  function Effect(r: Row, ev: Event): Row {
    match ev
    case Started(now) =>
      r.(status := Running, attempts := r.attempts + 1, lockedAt := Some(now), lockedBy := None)
    case Claimed(owner, now) =>
      r.(status := Running, attempts := r.attempts + 1, lockedAt := Some(now), lockedBy := Some(owner))
    case FailReported => Released(r.(status := NextStatusAfterFailure(r)))
    case Reaped(_) => Released(r.(status := NextStatusAfterFailure(r)))
    case Retried => Released(r.(status := Queued, attempts := 0, retryCount := r.retryCount + 1))
    case Moved(target) =>
      if target == Queued || target == WaitingApproval then Released(r.(status := target)) else r.(status := target)
    case Renewed(now) => r.(lockedAt := Some(now))
    case Checkpointed(p) => r.(progress := p)
  }

  function Fire(r: Row, ev: Event): Row { if Enabled(r, ev) then Effect(r, ev) else r }

  function Fresh(tenant: string, instructions: string, maxAttempts: nat, maxRetries: nat, now: int): Row {
    Row(tenant, instructions, Queued, 0, maxAttempts, 0, maxRetries, NO_PROGRESS, None, None, now)
  }

  /** Every request that changes a status disables itself: repeating it at once is refused. */
  lemma SelfDisabling(r: Row, ev: Event)
    requires !ev.Renewed? && !ev.Checkpointed?
    requires Enabled(r, ev)
    ensures Effect(r, ev).status != r.status
    ensures !Enabled(Effect(r, ev), ev)
  {
  }

  /** `succeeded` is absorbing, and it is the only absorbing status: every other one has a way out. */
  lemma OnlySucceededAbsorbs(s: Status)
    ensures s == Succeeded <==>
      forall r: Row, ev: Event {:trigger Fire(r, ev)} :: r.status == s ==> Fire(r, ev).status == s
  {
    var r := Fresh("", "", 1, 1, 0).(status := s);
    var ev := if s == Queued then Started(0)
              else if s == Running then FailReported
              else if s == Succeeded then Retried
              else Moved(Queued);
    if s != Succeeded {
      assert Fire(r, ev).status != s;
    }
  }
}
