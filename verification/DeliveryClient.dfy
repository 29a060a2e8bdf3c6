/** Delivering one persisted request: the retry loop over the queue, and how long it waits between attempts. */
module DeliveryClient {
  import opened QueueModel
  import opened QueueStore
  import opened JobInvariant

  /** How one call ends: answered, or an error that the client classified. */
  datatype CallOutcome = Answered | CallFailed(authRejection: bool, transient: bool, errorKind: string)

  /** How the delivery ends, after a number of calls: the answer is handed on, or the delivery is given up. */
  datatype DeliveryEnd = Returned(calls: nat) | Oversize | AuthRejected(calls: nat) | Permanent(calls: nat) | Stopped(calls: nat)

  /** The delivery belongs to this job alone. */
  ghost predicate SoleOwner(q: Queue, key: string, kind: RequestType, idempotencyKey: string) {
    && Owns(q, key, kind, idempotencyKey)
    && forall k :: Owns(q, k, kind, idempotencyKey) ==> k == key
  }

  /** The job is at the stage whose request is delivered, or waits to return to it. */
  predicate Deliverable(job: JobRow, kind: RequestType) {
    && StageOk(job) && ProgressOk(job) && !job.stage.RequiresAttention?
    && DeliveryStage(EffectiveStage(job)) && KindOf(EffectiveStage(job)) == kind
  }

  predicate Transient(outcome: CallOutcome) { outcome.CallFailed? && !outcome.authRejection && outcome.transient }

  /** Everything but the stage, the attempt counters and the recorded error is left alone. */
  predicate SameDelivery(before: JobRow, after: JobRow) {
    SameWork(before, after) && StageOk(after) && EffectiveStage(after) == EffectiveStage(before)
  }

  /** What each end means for the job: which outcomes led to it, how often the request was counted as failed, and where
      the job is left. */
  ghost predicate Ends(before: JobRow, after: JobRow, kind: RequestType, outcomes: seq<CallOutcome>, end: DeliveryEnd) {
    match end
    case Returned(n) =>
      && n < |outcomes| && outcomes[n].Answered? && (forall i :: 0 <= i < n ==> Transient(outcomes[i]))
      && after.stage == EffectiveStage(before) && Attempts(after, kind) == Attempts(before, kind) + n
    case Oversize =>
      after.stage.RequiresAttention? && after.lastErrorKind == "payload_too_large" && Attempts(after, kind) == Attempts(before, kind)
    case AuthRejected(n) =>
      && 0 < n <= |outcomes| && outcomes[n - 1].CallFailed? && outcomes[n - 1].authRejection
      && (forall i :: 0 <= i < n - 1 ==> Transient(outcomes[i]))
      && after.stage.RetryWait? && Attempts(after, kind) == Attempts(before, kind) + n
      && after.lastErrorKind == outcomes[n - 1].errorKind
    case Permanent(n) =>
      && 0 < n <= |outcomes| && outcomes[n - 1].CallFailed? && !outcomes[n - 1].authRejection
      && !outcomes[n - 1].transient
      && (forall i :: 0 <= i < n - 1 ==> Transient(outcomes[i]))
      && after.stage.RequiresAttention? && Attempts(after, kind) == Attempts(before, kind) + n
      && after.lastErrorKind == outcomes[n - 1].errorKind
    case Stopped(n) =>
      && n == |outcomes| && (forall i :: 0 <= i < n ==> Transient(outcomes[i])) && Attempts(after, kind) == Attempts(before, kind) + n
      && (if n == 0 then after == before else after.stage.RetryWait? && after.lastErrorKind == outcomes[n - 1].errorKind)
  }

  /** Nothing but the one job changed. */
  ghost predicate OnlyJob(q: Queue, r: Queue, key: string) {
    key in q.jobs && key in r.jobs && r == q.(jobs := q.jobs[key := r.jobs[key]])
  }

  lemma OnlyJobTransitive(q: Queue, r: Queue, u: Queue, key: string)
    requires OnlyJob(q, r, key) && OnlyJob(r, u, key)
    ensures OnlyJob(q, u, key)
  {
  }

  lemma OnlyJobReflexive(q: Queue, key: string)
    requires key in q.jobs
    ensures OnlyJob(q, q, key)
  {
  }

  lemma OwnerStays(q: Queue, r: Queue, key: string, kind: RequestType, idempotencyKey: string)
    requires SoleOwner(q, key, kind, idempotencyKey) && OnlyJob(q, r, key)
    requires SameDelivery(q.jobs[key], r.jobs[key])
    ensures SoleOwner(r, key, kind, idempotencyKey)
  {
    forall k | Owns(r, k, kind, idempotencyKey) ensures k == key {
      assert k != key ==> Owns(q, k, kind, idempotencyKey);
    }
  }

  lemma FailureEffect(job: JobRow, kind: RequestType, retryable: bool, errorKind: string)
    requires Deliverable(job, kind) && Executable(job.stage)
    ensures var failed := FailedDelivery(job, kind, retryable, errorKind);
            && SameDelivery(job, failed) && Attempts(failed, kind) == Attempts(job, kind) + 1
            && failed.stage == (if retryable then RetryWait else RequiresAttention) && ProgressOk(failed)
            && failed.lastErrorKind == errorKind
  {
  }

  lemma ResumeEffect(job: JobRow, kind: RequestType)
    requires Deliverable(job, kind)
    ensures CanResume(job) && SameDelivery(job, Resumed(job)) && Attempts(Resumed(job), kind) == Attempts(job, kind)
    ensures Resumed(job).stage == EffectiveStage(job) && Executable(Resumed(job).stage) && ProgressOk(Resumed(job))
  {
  }

  lemma SameDeliveryTransitive(a: JobRow, b: JobRow, c: JobRow)
    requires SameDelivery(a, b) && SameDelivery(b, c)
    ensures SameDelivery(a, c)
  {
  }

  /** Returns the delivery to its stage when it waits; its only owner is the job. */
  method Resume(store: AgentQueueStore, ghost key: string, kind: RequestType, idempotencyKey: string)
    requires SoleOwner(store.State(), key, kind, idempotencyKey) && Deliverable(store.jobs[key], kind)
    modifies store
    ensures key in store.jobs && OnlyJob(old(store.State()), store.State(), key)
    ensures SoleOwner(store.State(), key, kind, idempotencyKey)
    ensures store.jobs[key] == Resumed(old(store.jobs)[key])
  {
    ghost var before := store.State();
    ResumeEffect(store.jobs[key], kind);
    var ok := store.ResumeDelivery(kind, idempotencyKey);
    assert Owns(before, key, kind, idempotencyKey);
    OwnerStays(before, store.State(), key, kind, idempotencyKey);
  }

  method RecordFailure(store: AgentQueueStore, ghost key: string, kind: RequestType, idempotencyKey: string,
                       retryable: bool,
                       errorKind: string)
    requires SoleOwner(store.State(), key, kind, idempotencyKey) && Deliverable(store.jobs[key], kind)
    requires Executable(store.jobs[key].stage)
    modifies store
    ensures key in store.jobs && OnlyJob(old(store.State()), store.State(), key)
    ensures SoleOwner(store.State(), key, kind, idempotencyKey)
    ensures store.jobs[key] == FailedDelivery(old(store.jobs)[key], kind, retryable, errorKind)
  {
    hide FailedDelivery, Deliverable;
    ghost var before := store.State();
    FailureEffect(store.jobs[key], kind, retryable, errorKind);
    var ok := store.RecordDeliveryFailure(kind, idempotencyKey, retryable, errorKind);
    assert Owns(before, key, kind, idempotencyKey);
    OwnerStays(before, store.State(), key, kind, idempotencyKey);
  }

  method AbandonOversizedBody(store: AgentQueueStore, ghost key: string, kind: RequestType, idempotencyKey: string)
    requires SoleOwner(store.State(), key, kind, idempotencyKey) && Deliverable(store.jobs[key], kind)
    modifies store
    ensures key in store.jobs && OnlyJob(old(store.State()), store.State(), key)
    ensures store.jobs[key] == WithAttention(old(store.jobs)[key], "payload_too_large")
  {
    AttentionKeepsStage(store.State(), key, "payload_too_large");
    var owner := store.DeliveryExecutionKey(kind, idempotencyKey);
    if owner.Some? {
      var ok := store.MarkRequiresAttention(owner.value, "payload_too_large");
    }
  }

  method AttemptCount(store: AgentQueueStore, ghost key: string, kind: RequestType,
                      idempotencyKey: string) returns (count: nat)
    requires SoleOwner(store.State(), key, kind, idempotencyKey)
    ensures count == Attempts(store.jobs[key], kind)
  {
    var found := store.DeliveryAttemptCount(kind, idempotencyKey);
    assert Owns(store.State(), key, kind, idempotencyKey);
    return found.value;
  }

  lemma OwnerHasJob(q: Queue, key: string, kind: RequestType, idempotencyKey: string)
    requires SoleOwner(q, key, kind, idempotencyKey)
    ensures key in q.jobs
  {
  }

  lemma SelfDelivery(job: JobRow, kind: RequestType)
    requires Deliverable(job, kind)
    ensures SameDelivery(job, job)
  {
  }

  lemma OversizeEffect(q: Queue, key: string, kind: RequestType)
    requires key in q.jobs && Deliverable(q.jobs[key], kind)
    ensures var after := WithAttention(q.jobs[key], "payload_too_large");
            SameDelivery(q.jobs[key], after) && after.stage.RequiresAttention? && after.lastErrorKind == "payload_too_large"
            && Attempts(after, kind) == Attempts(q.jobs[key], kind)
  {
    AttentionKeepsStage(q, key, "payload_too_large");
  }

  /** What one failed attempt leaves behind, and what a retryable one resumes to. */
  lemma AttemptEffect(job: JobRow, current: JobRow, kind: RequestType, retryable: bool, errorKind: string)
    requires SameDelivery(job, current) && Deliverable(current, kind) && Executable(current.stage)
    ensures var failed := FailedDelivery(current, kind, retryable, errorKind);
            && SameDelivery(job, failed) && Attempts(failed, kind) == Attempts(current, kind) + 1
            && failed.stage == (if retryable then RetryWait else RequiresAttention) && failed.lastErrorKind == errorKind
            && (retryable ==> Deliverable(failed, kind) && ResumesTo(job, failed, kind))
  {
    hide SameWork, StageOk, ProgressOk, FailedDelivery, Attempts, Resumed;
    var failed := FailedDelivery(current, kind, retryable, errorKind);
    FailureEffect(current, kind, retryable, errorKind);
    SameDeliveryTransitive(job, current, failed);
    if retryable {
      ResumeEffect(failed, kind);
      SameDeliveryTransitive(job, failed, Resumed(failed));
    }
  }

  predicate ResumesTo(job: JobRow, waiting: JobRow, kind: RequestType) {
    && CanResume(waiting) && SameDelivery(job, Resumed(waiting)) && Deliverable(Resumed(waiting), kind)
    && Attempts(Resumed(waiting), kind) == Attempts(waiting, kind) && Resumed(waiting).stage == EffectiveStage(job)
  }

  /** A delivery that never failed is not waiting: its job is at exactly the stage of the request. */
  lemma FirstAttemptIsExact(job: JobRow, kind: RequestType)
    requires Deliverable(job, kind)
    ensures Attempts(job, kind) == 0 ==> job.stage == EffectiveStage(job)
    ensures Executable(EffectiveStage(job)) && ResumesTo(job, job, kind)
  {
    hide SameWork, ProgressOk;
    ResumeEffect(job, kind);
  }

  /** Delivers one request: outcomes are those of the calls that can be made before a stop is requested.
      A call is made only while the job is at exactly the stage of the request; whatever happens, the request, the plan
      and every other job are left as they were. */
  method Deliver(store: AgentQueueStore, ghost key: string, kind: RequestType, idempotencyKey: string, bodyBytes: nat,
                 maxBodyBytes: nat, outcomes: seq<CallOutcome>)
    returns (end: DeliveryEnd)
    requires SoleOwner(store.State(), key, kind, idempotencyKey) && Deliverable(store.jobs[key], kind)
    modifies store
    ensures key in store.jobs && OnlyJob(old(store.State()), store.State(), key)
    ensures SameDelivery(old(store.jobs)[key], store.jobs[key])
    ensures Ends(old(store.jobs)[key], store.jobs[key], kind, outcomes, end)
    ensures end.Oversize? <==> bodyBytes > maxBodyBytes
  {
    hide OnlyJob, SameDelivery, SameWork, StageOk, ProgressOk, Deliverable, FailedDelivery, Attempts, SoleOwner,
      Resumed, EffectiveStage, KindOf, DeliveryStage, WithAttention;
    ghost var before := store.State();
    OwnerHasJob(before, key, kind, idempotencyKey);
    ghost var job := store.jobs[key];
    SelfDelivery(job, kind);
    OnlyJobReflexive(before, key);
    if bodyBytes > maxBodyBytes {
      OversizeEffect(before, key, kind);
      AbandonOversizedBody(store, key, kind, idempotencyKey);
      return Oversize;
    }
    var attempt := AttemptCount(store, key, kind, idempotencyKey);
    FirstAttemptIsExact(job, kind);
    if attempt > 0 {
      if |outcomes| == 0 {
        return Stopped(0);
      }
      Resume(store, key, kind, idempotencyKey);
    }
    for i := 0 to |outcomes|
      invariant key in store.jobs && OnlyJob(before, store.State(), key)
      invariant SoleOwner(store.State(), key, kind, idempotencyKey)
      invariant SameDelivery(job, store.jobs[key]) && Deliverable(store.jobs[key], kind)
      invariant Attempts(store.jobs[key], kind) == Attempts(job, kind) + i
      invariant forall k :: 0 <= k < i ==> Transient(outcomes[k])
      invariant i < |outcomes| || i == 0 ==> store.jobs[key].stage == EffectiveStage(job)
      invariant 0 < i == |outcomes| ==>
                  store.jobs[key].stage.RetryWait? && store.jobs[key].lastErrorKind == outcomes[i - 1].errorKind
      invariant |outcomes| == 0 ==> store.jobs[key] == job
    {
      var outcome := outcomes[i];
      if outcome.Answered? {
        return Returned(i);
      }
      ghost var now, current := store.State(), store.jobs[key];
      var retryable := outcome.authRejection || outcome.transient;
      AttemptEffect(job, current, kind, retryable, outcome.errorKind);
      RecordFailure(store, key, kind, idempotencyKey, retryable, outcome.errorKind);
      OnlyJobTransitive(before, now, store.State(), key);
      if outcome.authRejection {
        return AuthRejected(i + 1);
      }
      if !outcome.transient {
        return Permanent(i + 1);
      }
      if i + 1 < |outcomes| {
        now := store.State();
        Resume(store, key, kind, idempotencyKey);
        OnlyJobTransitive(before, now, store.State(), key);
      }
    }
    return Stopped(|outcomes|);
  }

  // ---- backoff ----

  function Doubled(initial: nat, times: nat): (r: nat)
    ensures r >= initial
  {
    if times == 0 then initial else 2 * Doubled(initial, times - 1)
  }

  function Min(a: nat, b: nat): nat { if a <= b then a else b }

  lemma {:induction false} DoubledGrows(initial: nat, m: nat, n: nat)
    requires m <= n
    ensures Doubled(initial, m) <= Doubled(initial, n)
  {
    if m < n {
      DoubledGrows(initial, m, n - 1);
    }
  }

  /** The delay before the next attempt doubles from the initial one up to the maximum, and the jitter adds at most a
      fifth of it. Times are in milliseconds. */
  method RetryDelay(initial: nat, max: nat, hash: nat, attempt: nat) returns (delay: nat)
    requires 0 < initial <= max && attempt > 0
    ensures var base := Min(max, Doubled(initial, attempt - 1));
            && base <= delay <= base + base / 5
            && (hash % 201 == 0 ==> delay == base) && (hash % 201 == 200 ==> delay == base + base / 5)
  {
    hide Jitter;
    var base := initial;
    var index := 1;
    while index < attempt && base < max
      invariant 1 <= index <= attempt && base == Min(max, Doubled(initial, index - 1))
      decreases attempt - index
    {
      base := Min(max, base * 2);
      index := index + 1;
    }
    DoubledGrows(initial, index - 1, attempt - 1);
    delay := base + Jitter(base, hash % 201);
  }

  /** At most a fifth of the base: 200 parts in a thousand. */
  function Jitter(base: nat, parts: nat): (r: nat)
    requires parts <= 200
    ensures r <= base / 5 && (parts == 0 ==> r == 0) && (parts == 200 ==> r == base / 5)
  {
    JitterBound(base, parts);
    base * parts / 1000
  }

  lemma JitterBound(base: nat, parts: nat)
    requires parts <= 200
    ensures base * parts / 1000 <= base / 5
  {
    var product := base * parts;
    assert product <= base * 200;
    QuotientOrder(product, base * 200);
  }

  lemma QuotientOrder(a: nat, b: nat)
    requires a <= b
    ensures a / 1000 <= b / 1000
  {
  }
}
