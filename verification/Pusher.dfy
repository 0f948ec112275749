/**
  The single-slot push queue of internal/push/pusher.go. Every region under its mutex is a function
  on `Queue`; `System` interleaves them with one worker, refreshes, failed refreshes and pausing.
  The class `PushQueue` at the end is the source's object, each method proved equal to its function.
 */
module Pusher {
  import opened Wrappers

  type Digest = nat

  /** The digest a failed render leaves behind. */
  const NO_DIGEST: Digest := 0

  /** `cancelled` is whether the context of the request in flight has been cancelled. */
  datatype Queue = Queue(nextId: nat, pending: Option<nat>, last: Option<Digest>, rejected: Option<Digest>,
                         active: Option<nat>, cancelled: bool, paused: bool)

  const EMPTY := Queue(0, None, None, None, None, false, false)

  // ---------------------------------------------------------------- the regions under the mutex

  function AfterEnqueue(q: Queue): Queue { q.(nextId := q.nextId + 1, pending := Some(q.nextId + 1)) }

  function AfterDiscardAll(q: Queue): Queue {
    q.(nextId := q.nextId + 1, pending := None, cancelled := q.cancelled || q.active.Some?)
  }

  function Current(q: Queue): Option<nat> { if q.paused then None else q.pending }

  function AfterComplete(q: Queue, id: nat, digest: Digest): Queue {
    q.(last := Some(digest), rejected := None, pending := if q.pending == Some(id) then None else q.pending)
  }

  function AfterDiscard(q: Queue, id: nat): Queue {
    q.(pending := if q.pending == Some(id) then None else q.pending)
  }

  function AfterReject(q: Queue, id: nat, digest: Digest): Queue {
    if q.pending == Some(id) then q.(rejected := Some(digest), pending := None) else q
  }

  predicate MayPost(q: Queue, id: nat) { q.pending == Some(id) && !q.paused }

  function Posting(q: Queue, id: nat): Queue { q.(active := Some(id), cancelled := false) }

  function Posted(q: Queue, id: nat): Queue {
    if q.active == Some(id) then q.(active := None, cancelled := false) else q
  }

  // ---------------------------------------------------------------- the worker among refreshes

  datatype Result = Success | Deferred | Permanent | Retry

  datatype Worker =
    | Idle(timer: bool)
    | Checking
    | Fetched(id: nat)
    | Producing(id: nat)
    | Produced(id: nat, image: Option<Digest>)
    | Comparing(id: nat, digest: Digest)
    | Sizing(id: nat, digest: Digest)
    | Entering(id: nat, digest: Digest)
    | Sending(id: nat, digest: Digest)
    | Answered(id: nat, digest: Digest, result: Result)
    | Settling(id: nat, digest: Digest, result: Result, superseded: bool)
    | Completing(id: nat, digest: Digest)
    | Discarding(id: nat)
    | Rejecting(id: nat, digest: Digest)
    | Rechecking(id: nat)
  {
    predicate HasId() { !Idle? && !Checking? }
  }

  /** `Skipped` is postCurrent's guard: nothing was sent, yet the attempt reports a push. */
  datatype Event =
    | Enqueued(id: nat)
    | RefreshFailed(id: nat)
    | Admitted(id: nat, digest: Digest)
    | Sent(id: nat, digest: Digest)
    | Skipped(id: nat, digest: Digest)

  /** `signals` counts callers between their mutex region and their signal. */
  datatype System = System(queue: Queue, worker: Worker, wake: bool, signals: nat, log: seq<Event>)

  const INITIAL := System(EMPTY, Idle(false), false, 0, [])

  datatype Action =
    | Refreshed(successful: bool)
    | SetPaused(paused: bool)
    | Signal
    | Wake(byTimer: bool)
    | Work(image: Option<Digest>, fits: bool, result: Result)

  predicate Enabled(s: System, a: Action) {
    match a
    case Refreshed(successful) => true
    case SetPaused(paused) => true
    case Signal => s.signals > 0
    case Wake(byTimer) => s.worker.Idle? && if byTimer then s.worker.timer else s.wake
    case Work(image, fits, result) => !s.worker.Idle?
  }

  function To(s: System, worker: Worker): System { s.(worker := worker) }

  /** The worker's next step; its inputs are what the producer, the size check and the transport answer. */
  function Worked(s: System, image: Option<Digest>, fits: bool, result: Result): System
    requires !s.worker.Idle?
  {
    var q := s.queue;
    match s.worker
    case Checking => To(s, if Current(q).Some? then Fetched(Current(q).value) else Idle(false))
    case Fetched(id) => To(s.(wake := false), Producing(id))
    case Producing(id) => To(s, Produced(id, image))
    case Produced(id, made) =>
      if q.pending != Some(id) then To(s, Checking)
      else if made.None? then To(s, Rejecting(id, NO_DIGEST))
      else To(s, Comparing(id, made.value))
    case Comparing(id, d) =>
      if q.last == Some(d) then To(s, Completing(id, d)) else To(s, Sizing(id, d))
    case Sizing(id, d) =>
      if q.rejected == Some(d) then To(s, Discarding(id))
      else if !fits then To(s, Rejecting(id, d))
      else To(s, Entering(id, d))
    case Entering(id, d) =>
      if MayPost(q, id) then s.(queue := Posting(q, id), worker := Sending(id, d), log := s.log + [Admitted(id, d)])
      else s.(worker := Completing(id, d), log := s.log + [Skipped(id, d)])
    case Sending(id, d) =>
      s.(worker := Answered(id, d, result), log := if result.Success? then s.log + [Sent(id, d)] else s.log)
    case Answered(id, d, r) => s.(queue := Posted(q, id), worker := Settling(id, d, r, q.pending != Some(id)))
    case Settling(id, d, r, superseded) =>
      To(s, if r.Success? then Completing(id, d)
            else if superseded then Checking
            else if r.Deferred? then Discarding(id)
            else if r.Permanent? then Rejecting(id, d)
            else Rechecking(id))
    case Completing(id, d) => To(s.(queue := AfterComplete(q, id, d)), Checking)
    case Discarding(id) => To(s.(queue := AfterDiscard(q, id)), Checking)
    case Rejecting(id, d) => To(s.(queue := AfterReject(q, id, d)), Checking)
    case Rechecking(id) => To(s, if q.pending == Some(id) then Idle(true) else Checking)
  }

  function Next(s: System, a: Action): System
    requires Enabled(s, a)
  {
    match a
    case Refreshed(successful) =>
      if successful then
        s.(queue := AfterEnqueue(s.queue), signals := s.signals + 1, log := s.log + [Enqueued(s.queue.nextId + 1)])
      else
        s.(queue := AfterDiscardAll(s.queue), signals := s.signals + 1,
            log := s.log + [RefreshFailed(s.queue.nextId + 1)])
    case SetPaused(paused) => s.(queue := s.queue.(paused := paused), signals := s.signals + 1)
    case Signal => s.(wake := true, signals := s.signals - 1)
    case Wake(byTimer) => s.(worker := Checking, wake := if byTimer then s.wake else false)
    case Work(image, fits, result) => Worked(s, image, fits, result)
  }

  datatype Run = Start | Then(before: Run, step: Action)

  ghost predicate Feasible(run: Run)
    decreases run, 0
  {
    run.Then? ==> Feasible(run.before) && Enabled(Final(run.before), run.step)
  }

  ghost function Final(run: Run): System
    requires Feasible(run)
    decreases run, 1
  {
    if run.Start? then INITIAL else Next(Final(run.before), run.step)
  }

  // ---------------------------------------------------------------- what every run keeps

  /** The image that reached the panel last, and whether a guard fired since. */
  function LastSent(log: seq<Event>): Option<Digest>
    decreases |log|
  {
    if log == [] then None
    else if log[|log| - 1].Sent? then Some(log[|log| - 1].digest)
    else LastSent(log[..|log| - 1])
  }

  /** The image that was sent, or taken for sent by a guard, last. */
  function LastRecorded(log: seq<Event>): Option<Digest>
    decreases |log|
  {
    if log == [] then None
    else if log[|log| - 1].Sent? || log[|log| - 1].Skipped? then Some(log[|log| - 1].digest)
    else LastRecorded(log[..|log| - 1])
  }

  predicate SkippedSince(log: seq<Event>)
    decreases |log|
  {
    log != [] && !log[|log| - 1].Sent? && (log[|log| - 1].Skipped? || SkippedSince(log[..|log| - 1]))
  }

  predicate JustSent(w: Worker) {
    (w.Answered? && w.result.Success?) || (w.Settling? && w.result.Success?) || w.Completing?
  }

  ghost predicate SlotOk(s: System) {
    && (s.queue.pending.Some? ==> s.queue.pending.value == s.queue.nextId)
    && (s.worker.HasId() ==> s.worker.id <= s.queue.nextId)
    && (s.queue.active.Some? ==> (s.worker.Sending? || s.worker.Answered?) && s.queue.active.value == s.worker.id)
  }

  /** No wake-up is lost: an idle worker with work to do will be woken. */
  ghost predicate WakeOk(s: System) {
    s.worker == Idle(false) && Current(s.queue).Some? ==> s.wake || s.signals > 0
  }

  /** What the queue believes the panel shows is what was sent, or skipped, last; it never enters with that. */
  ghost predicate PanelOk(s: System) {
    && (if JustSent(s.worker) then LastRecorded(s.log) == Some(s.worker.digest)
        else s.queue.last == LastRecorded(s.log))
    && (s.worker.Sizing? || s.worker.Entering? || s.worker.Sending? ==> s.queue.last != Some(s.worker.digest))
  }

  /** Nothing older than a failed refresh is pending, or was admitted after it. */
  ghost predicate FreshOk(s: System) {
    && (forall a | 0 <= a < |s.log| && (s.log[a].RefreshFailed? || s.log[a].Enqueued?) :: s.log[a].id <= s.queue.nextId)
    && (forall a | 0 <= a < |s.log| && s.log[a].RefreshFailed? :: s.queue.pending.Some? ==>
       s.log[a].id < s.queue.pending.value)
    && (forall a, b | 0 <= a < b < |s.log| && s.log[b].Admitted? ::
          (s.log[a].RefreshFailed? ==> s.log[a].id < s.log[b].id)
              && (s.log[a].Enqueued? ==> s.log[a].id <= s.log[b].id))
  }

  ghost predicate Inv(s: System) { SlotOk(s) && WakeOk(s) && PanelOk(s) && FreshOk(s) }

  lemma LogGrows(log: seq<Event>, e: Event)
    ensures LastSent(log + [e]) == if e.Sent? then Some(e.digest) else LastSent(log)
    ensures SkippedSince(log + [e]) == (!e.Sent? && (e.Skipped? || SkippedSince(log)))
    ensures LastRecorded(log + [e]) == if e.Sent? || e.Skipped? then Some(e.digest) else LastRecorded(log)
  {
    assert (log + [e])[..|log|] == log;
  }

  /** With no guard since the last send, what is recorded was sent. */
  lemma {:induction false} UnskippedIsSent(log: seq<Event>)
    requires !SkippedSince(log)
    ensures LastRecorded(log) == LastSent(log)
    decreases |log|
  {
    if log != [] && !log[|log| - 1].Sent? { UnskippedIsSent(log[..|log| - 1]); }
  }

  lemma SlotNext(s: System, a: Action)
    requires SlotOk(s) && Enabled(s, a)
    ensures SlotOk(Next(s, a))
  {
  }

  lemma WakeNext(s: System, a: Action)
    requires WakeOk(s) && Enabled(s, a)
    ensures WakeOk(Next(s, a))
  {
  }

  lemma PanelNext(s: System, a: Action)
    requires PanelOk(s) && Enabled(s, a)
    ensures PanelOk(Next(s, a))
  {
    hide LastSent, SkippedSince, LastRecorded;
    var t := Next(s, a);
    if |t.log| > |s.log| { LogGrows(s.log, t.log[|s.log|]); }
  }

  lemma FreshQuiet(s: System, queue: Queue)
    requires FreshOk(s) && queue.nextId >= s.queue.nextId
    requires queue.pending.None? || queue.pending == s.queue.pending
    ensures FreshOk(s.(queue := queue))
  {
  }

  lemma FreshEvent(s: System, e: Event, queue: Queue)
    requires FreshOk(s) && queue.nextId >= s.queue.nextId
    requires e.RefreshFailed? ==> e.id <= queue.nextId && queue.pending.None?
    requires e.Enqueued? ==> s.queue.nextId < e.id <= queue.nextId && queue.pending == Some(e.id)
    requires e.Admitted? ==> s.queue.pending == Some(e.id) && e.id == s.queue.nextId
    requires !e.RefreshFailed? && !e.Enqueued? ==> queue.pending == s.queue.pending
    ensures FreshOk(s.(queue := queue, log := s.log + [e]))
  {
    var log := s.log + [e];
    forall a, b | 0 <= a < b < |log| && log[b].Admitted?
      ensures (log[a].RefreshFailed? ==> log[a].id < log[b].id) && (log[a].Enqueued? ==> log[a].id <= log[b].id)
    {
      assert log[a] == s.log[a];
    }
  }

  lemma FreshSame(s: System, t: System)
    requires FreshOk(s) && t.queue == s.queue && t.log == s.log
    ensures FreshOk(t)
  {
  }

  lemma FreshNext(s: System, a: Action)
    requires SlotOk(s) && FreshOk(s) && Enabled(s, a)
    ensures FreshOk(Next(s, a))
  {
    hide FreshOk;
    var t := Next(s, a);
    if |t.log| > |s.log| {
      FreshEvent(s, t.log[|s.log|], t.queue);
      FreshSame(s.(queue := t.queue, log := t.log), t);
    } else {
      FreshQuiet(s, t.queue);
      FreshSame(s.(queue := t.queue), t);
    }
  }

  lemma {:induction false} InvHolds(run: Run)
    requires Feasible(run)
    ensures Inv(Final(run))
    decreases run
  {
    if run.Then? {
      InvHolds(run.before);
      var s := Final(run.before);
      SlotNext(s, run.step);
      WakeNext(s, run.step);
      PanelNext(s, run.step);
      FreshNext(s, run.step);
    }
  }

  // ---------------------------------------------------------------- main results

  /**
    A send is admitted only for the snapshot that is pending, newest and unpaused at that instant;
    no snapshot older than a failed refresh, or than a newer snapshot, is admitted afterwards.
   */
  lemma {:induction false} OnlyTheNewestIsAdmitted(run: Run, a: nat, b: nat)
    requires Feasible(run) && a < b < |Final(run).log| && Final(run).log[b].Admitted?
    ensures Final(run).log[a].RefreshFailed? ==> Final(run).log[a].id < Final(run).log[b].id
    ensures Final(run).log[a].Enqueued? ==> Final(run).log[a].id <= Final(run).log[b].id
  {
    InvHolds(run);
  }

  lemma {:induction false} AdmittedIsPendingAndUnpaused(run: Run, a: Action)
    requires Feasible(Then(run, a))
    ensures var s, t := Final(run), Final(Then(run, a));
            |t.log| > |s.log| && t.log[|s.log|].Admitted? ==>
              && s.queue.pending == Some(t.log[|s.log|].id) && !s.queue.paused
              && t.log[|s.log|].id == s.queue.nextId
              && t.queue.active == s.queue.pending && !t.queue.cancelled
  {
    InvHolds(run);
  }

  lemma WorkRemovesOnlyItsOwn(s: System, image: Option<Digest>, fits: bool, result: Result)
    requires !s.worker.Idle? && s.queue.pending.Some?
    ensures var q := Worked(s, image, fits, result).queue;
            q.pending == s.queue.pending || (q.pending.None? && s.worker.HasId()
                && s.worker.id == s.queue.pending.value)
  {
  }

  /** Finishing, discarding or rejecting a snapshot never removes a newer one. */
  lemma {:induction false} NewerSnapshotsSurviveTheWorker(run: Run, image: Option<Digest>, fits: bool, result: Result)
    requires Feasible(Then(run, Work(image, fits, result)))
    ensures var s, t := Final(run), Final(Then(run, Work(image, fits, result)));
            s.queue.pending.Some? && t.queue.pending != s.queue.pending ==>
              t.queue.pending.None? && s.worker.HasId() && s.worker.id == s.queue.pending.value
  {
    hide Worked;
    if Final(run).queue.pending.Some? { WorkRemovesOnlyItsOwn(Final(run), image, fits, result); }
  }

  /** An idle worker with a pending, unpaused snapshot and no retry timer is about to be woken. */
  lemma {:induction false} NoWakeUpIsLost(run: Run)
    requires Feasible(run) && Final(run).worker == Idle(false) && Current(Final(run).queue).Some?
    ensures Final(run).wake || Final(run).signals > 0
  {
    InvHolds(run);
  }

  /** Between two sends that reached the panel nothing else did. */
  ghost predicate Consecutive(log: seq<Event>, a: nat, b: nat) {
    a < b < |log| && log[a].Sent? && log[b].Sent? && forall k | a < k < b :: !log[k].Sent?
  }

  /** Between a and b a guard took another image than `d` for sent, and it was the last guard there. */
  ghost predicate AnotherSkipped(log: seq<Event>, a: nat, b: nat, d: Digest)
    requires b <= |log|
  {
    exists k :: a < k < b && log[k].Skipped? && log[k].digest != d && forall j | k < j < b :: !log[j].Skipped?
  }

  lemma {:induction false} LastRecordedIs(log: seq<Event>, a: nat)
    requires a < |log| && log[a].Sent? && forall k | a < k < |log| :: !log[k].Sent?
    requires LastRecorded(log) != Some(log[a].digest)
    ensures AnotherSkipped(log, a, |log|, log[a].digest)
    decreases |log|
  {
    var n := |log| - 1;
    assert a < n;
    if !log[n].Skipped? {
      var init := log[..n];
      LastRecordedIs(init, a);
      var k :| a < k < n && init[k].Skipped? && init[k].digest != log[a].digest &&
               forall j | k < j < n :: !init[j].Skipped?;
      assert forall j | k < j < |log| :: !log[j].Skipped? by { assert forall j | k < j < n :: init[j] == log[j]; }
      assert log[k] == init[k];
    }
  }

  /** The same image reaches the panel twice in a row only after a guard that took another one for sent. */
  ghost predicate Economical(log: seq<Event>) {
    forall a: nat, b: nat | Consecutive(log, a, b) && log[a].digest == log[b].digest ::
      AnotherSkipped(log, a, b, log[a].digest)
  }

  lemma SkippedInPrefix(log: seq<Event>, longer: seq<Event>, a: nat, b: nat, d: Digest)
    requires log <= longer && b <= |log| && AnotherSkipped(log, a, b, d)
    ensures AnotherSkipped(longer, a, b, d)
  {
    var k :| a < k < b && log[k].Skipped? && log[k].digest != d && forall j | k < j < b :: !log[j].Skipped?;
    assert forall j | k <= j < b :: longer[j] == log[j];
  }

  lemma EconomicalNext(s: System, a: Action)
    requires Inv(s) && Economical(s.log) && Enabled(s, a)
    ensures Economical(Next(s, a).log)
  {
    var log := Next(s, a).log;
    assert s.log <= log && |log| <= |s.log| + 1;
    assert forall k | 0 <= k < |s.log| :: log[k] == s.log[k];
    assert |log| > |s.log| && log[|s.log|].Sent? ==> s.worker.Sending? && log[|s.log|].digest == s.worker.digest;
    hide Next, Economical, AnotherSkipped, LastRecorded;
    forall x: nat, y: nat | Consecutive(log, x, y) && log[x].digest == log[y].digest
      ensures AnotherSkipped(log, x, y, log[x].digest)
    {
      RepeatNext(s, log, x, y);
    }
    EconomicalIs(log);
  }

  lemma EconomicalIs(log: seq<Event>)
    requires forall a: nat, b: nat | Consecutive(log, a, b) && log[a].digest == log[b].digest ::
      AnotherSkipped(log, a, b, log[a].digest)
    ensures Economical(log)
  {
  }

  lemma RepeatNext(s: System, log: seq<Event>, x: nat, y: nat)
    requires Inv(s) && Economical(s.log) && s.log <= log && |log| <= |s.log| + 1
    requires |log| > |s.log| && log[|s.log|].Sent? ==> s.worker.Sending? && log[|s.log|].digest == s.worker.digest
    requires Consecutive(log, x, y) && log[x].digest == log[y].digest
    ensures AnotherSkipped(log, x, y, log[x].digest)
  {
    hide SlotOk, WakeOk, FreshOk;
    assert forall k | 0 <= k < |s.log| :: log[k] == s.log[k];
    if y < |s.log| {
      assert Consecutive(s.log, x, y);
    } else {
      LastRecordedIs(s.log, x);
    }
    SkippedInPrefix(s.log, log, x, y, log[x].digest);
  }

  lemma {:induction false} EconomicalHolds(run: Run)
    requires Feasible(run)
    ensures Economical(Final(run).log)
    decreases run
  {
    if run.Then? {
      EconomicalHolds(run.before);
      InvHolds(run.before);
      EconomicalNext(Final(run.before), run.step);
    }
  }

  /** In runs where postCurrent's guard never fires, no image is sent twice in a row. */
  lemma {:induction false} NeverTheSameImageTwiceInARow(run: Run, a: nat, b: nat)
    requires Feasible(run) && Consecutive(Final(run).log, a, b)
    requires forall k | 0 <= k < |Final(run).log| :: !Final(run).log[k].Skipped?
    ensures Final(run).log[a].digest != Final(run).log[b].digest
  {
    EconomicalHolds(run);
  }

  // ---------------------------------------------------------------- what is rejected failed for good

  /** This step is a permanent failure of the attempt: the transport's, an oversize image, or a failed render. */
  predicate FailsNow(s: System, a: Action, id: nat, d: Digest) {
    && a.Work?
    && (|| (s.worker == Sending(id, d) && a.result.Permanent?)
        || (s.worker == Sizing(id, d) && s.queue.rejected != Some(d) && !a.fits)
        || (s.worker == Producing(id) && a.image.None? && d == NO_DIGEST))
  }

  ghost predicate Failed(run: Run, id: nat, d: Digest)
    requires Feasible(run)
    decreases run
  {
    run.Then? && (Failed(run.before, id, d) || FailsNow(Final(run.before), run.step, id, d))
  }

  /** Whoever is about to be rejected has failed for good. */
  ghost predicate WorkerFailed(run: Run)
    requires Feasible(run)
  {
    var s := Final(run);
    && (s.worker.Rejecting? ==> Failed(run, s.worker.id, s.worker.digest))
    && ((s.worker.Answered? || s.worker.Settling?) && s.worker.result.Permanent? ==>
          Failed(run, s.worker.id, s.worker.digest))
    && (s.worker.Produced? && s.worker.image.None? ==> Failed(run, s.worker.id, NO_DIGEST))
  }

  lemma {:induction false} WorkerHasFailed(run: Run)
    requires Feasible(run)
    ensures WorkerFailed(run)
    decreases run
  {
    if run.Then? {
      WorkerHasFailed(run.before);
      if !run.step.Work? { assert Final(run).worker == Final(run.before).worker || Final(run).worker.Checking?; }
    }
  }

  lemma RejectedAppears(s: System, a: Action)
    requires Enabled(s, a) && Next(s, a).queue.rejected.Some? && Next(s, a).queue.rejected != s.queue.rejected
    ensures s.worker.Rejecting? && s.worker.digest == Next(s, a).queue.rejected.value
  {
  }

  /** Over every run, a digest is remembered as rejected only after an attempt with it failed for good. */
  lemma {:induction false} RejectedFailedForGood(run: Run) returns (id: nat)
    requires Feasible(run) && Final(run).queue.rejected.Some?
    ensures Failed(run, id, Final(run).queue.rejected.value)
    decreases run
  {
    hide Next, Enabled, FailsNow;
    assert run.Then?;
    var before, s := run.before, Final(run.before);
    if s.queue.rejected == Final(run).queue.rejected {
      id := RejectedFailedForGood(before);
    } else {
      WorkerHasFailed(before);
      RejectedAppears(s, run.step);
      id := s.worker.id;
    }
  }

  /** Three undisturbed steps of the worker. */
  function Thrice(s: System, a: Action): System
    requires a.Work? && s.worker.Answered?
  {
    var t := Next(Next(s, a), a);
    if t.worker.Idle? then t else Next(t, a)
  }

  /**
    What an answered request leaves, undisturbed. Success is recorded and forgets the rejection. Of a
    snapshot no longer pending nothing else is remembered. A permanent failure of the pending snapshot
    discards it and remembers its digest as rejected; a deferred one discards it and remembers nothing;
    any other keeps it pending and waits for the timer.
   */
  lemma AnswerIsSettled(s: System, a: Action)
    requires a.Work? && s.worker.Answered?
    ensures var id, d, r := s.worker.id, s.worker.digest, s.worker.result;
            var mine := s.queue.pending == Some(id);
            var q, t := s.queue, Thrice(s, a);
      && t.queue.nextId == q.nextId && t.queue.paused == q.paused && t.log == s.log
      && t.queue.pending == (if mine && !r.Retry? then None else q.pending)
      && t.queue.last == (if r.Success? then Some(d) else q.last)
      && t.queue.rejected ==
         (if r.Success? then None else if r.Permanent? && mine then Some(d) else q.rejected)
      && (t.worker == Idle(true) <==> mine && r.Retry?)
      && (mine && !r.Retry? ==> t.worker == Checking)
  {
  }

  /** A digest already rejected is not sent again: its snapshot is discarded and nothing else changes. */
  lemma RejectedIsNotSent(s: System, a: Action)
    requires a.Work? && s.worker.Sizing? && s.queue.rejected == Some(s.worker.digest)
    ensures var t := Next(Next(s, a), a);
            t == s.(worker := Checking, queue := s.queue.(
                   pending := if s.queue.pending == Some(s.worker.id) then None else s.queue.pending))
  {
  }

  // ---------------------------------------------------------------- what is recorded is what is shown

  /** A snapshot is about to be recorded and removed as pushed: its image is the one on the panel. */
  ghost predicate Truthful(s: System) {
    s.worker.Completing? ==> LastSent(s.log) == Some(s.worker.digest)
  }

  ghost predicate AlwaysTruthful(run: Run)
    requires Feasible(run)
  {
    Truthful(Final(run)) && (run.Then? ==> AlwaysTruthful(run.before))
  }

  /** Whenever the worker entered postCurrent its snapshot was still the pending one, and not paused. */
  ghost predicate AlwaysEntered(run: Run)
    requires Feasible(run)
  {
    run.Then? ==>
      && AlwaysEntered(run.before)
      && (run.step.Work? && Final(run.before).worker.Entering? ==>
            MayPost(Final(run.before).queue, Final(run.before).worker.id))
  }

  lemma StepSkips(s: System, a: Action)
    requires Enabled(s, a) && !SkippedSince(s.log)
    requires a.Work? && s.worker.Entering? ==> MayPost(s.queue, s.worker.id)
    ensures !SkippedSince(Next(s, a).log)
  {
    hide SkippedSince, LastSent;
    var t := Next(s, a);
    if |t.log| > |s.log| { LogGrows(s.log, t.log[|s.log|]); }
  }

  lemma {:induction false} EnteredNeverSkips(run: Run)
    requires Feasible(run) && AlwaysEntered(run)
    ensures !SkippedSince(Final(run).log)
    decreases run
  {
    if run.Then? {
      EnteredNeverSkips(run.before);
      StepSkips(Final(run.before), run.step);
    }
  }

  /** The guard takes an image for pushed that is not on the panel. */
  lemma SkipIsUntruthful(s: System, image: Option<Digest>, fits: bool, result: Result)
    requires PanelOk(s) && !SkippedSince(s.log) && s.worker.Entering? && !MayPost(s.queue, s.worker.id)
    ensures !Truthful(Worked(s, image, fits, result))
  {
    UnskippedIsSent(s.log);
    LogGrows(s.log, Skipped(s.worker.id, s.worker.digest));
  }

  /**
    Over every run: a snapshot is recorded and removed as pushed only while its image is on the panel,
    if and only if postCurrent never found its snapshot superseded or the queue paused on entry.
   */
  lemma {:induction false} RecordsAreTrueExactlyWhenNeverSkipped(run: Run)
    requires Feasible(run)
    ensures AlwaysTruthful(run) <==> AlwaysEntered(run)
    decreases run
  {
    InvHolds(run);
    if AlwaysEntered(run) {
      EnteredNeverSkips(run);
      UnskippedIsSent(Final(run).log);
    }
    if run.Then? {
      RecordsAreTrueExactlyWhenNeverSkipped(run.before);
      var s := Final(run.before);
      if AlwaysEntered(run.before) && run.step.Work? && s.worker.Entering? && !MayPost(s.queue, s.worker.id) {
        InvHolds(run.before);
        EnteredNeverSkips(run.before);
        SkipIsUntruthful(s, run.step.image, run.step.fits, run.step.result);
      }
    }
  }

  /** Then the recorded image is the panel's whenever no send is being recorded. */
  lemma {:induction false} RecordedImageIsShown(run: Run)
    requires Feasible(run) && AlwaysEntered(run) && !JustSent(Final(run).worker)
    ensures Final(run).queue.last == LastSent(Final(run).log)
  {
    InvHolds(run);
    EnteredNeverSkips(run);
    UnskippedIsSent(Final(run).log);
  }

  // ---------------------------------------------------------------- when the guard fires

  predicate NeverPaused(run: Run) {
    run.Then? ==> NeverPaused(run.before) && !run.step.SetPaused?
  }

  predicate Extends(run: Run, longer: Run) {
    longer == run || (longer.Then? && Extends(run, longer.before))
  }

  lemma {:induction false} ExtendsFurther(a: Run, b: Run, c: Run)
    requires Extends(a, b) && Extends(b, c)
    ensures Extends(a, c)
    decreases c
  {
    if c != b { ExtendsFurther(a, b, c.before); }
  }

  lemma {:induction false} Extend(run: Run, a: Action, s: System) returns (longer: Run, t: System)
    requires Feasible(run) && Final(run) == s && Enabled(s, a)
    ensures longer == Then(run, a) && Feasible(longer) && Final(longer) == t && t == Next(s, a)
    ensures Extends(run, longer)
    ensures NeverPaused(longer) <==> NeverPaused(run) && !a.SetPaused?
  {
    longer := Then(run, a);
    t := Next(s, a);
  }

  /** The worker has rendered the pending snapshot and is about to enter postCurrent. */
  lemma {:induction false} ToEntry(before: Run, digest: Digest) returns (run: Run)
    requires Feasible(before) && Final(before).worker.Checking?
    requires var q := Final(before).queue; Current(q).Some? && q.last != Some(digest) && q.rejected.None?
    ensures Feasible(run) && (NeverPaused(run) <==> NeverPaused(before)) && Extends(before, run)
    ensures Final(run) == Final(before).(wake := false, worker := Entering(Final(before).queue.pending.value, digest))
  {
    var t;
    run, t := Extend(before, Work(None, true, Success), Final(before));
    var half;
    half, t := Extend(run, Work(None, true, Success), t);
    half, t := Extend(half, Work(Some(digest), true, Success), t);
    ExtendsFurther(before, run, half);
    run, t := Extend(half, Work(None, true, Success), t);
    run, t := Extend(run, Work(None, true, Success), t);
    ExtendsFurther(before, half, run);
    half := run;
    run, t := Extend(run, Work(None, true, Success), t);
    ExtendsFurther(before, half, run);
  }

  /**
    Pausing between the worker's look at the queue and postCurrent loses the latest snapshot: it is
    taken for pushed although nothing was sent, so SetPaused does not preserve it.
   */
  lemma {:induction false} PauseCanLoseTheLatestSnapshot() returns (run: Run)
    ensures Feasible(run) && Final(run).queue.pending.None? && Final(run).queue.last == Some(7)
    ensures forall k | 0 <= k < |Final(run).log| :: !Final(run).log[k].Sent? && !Final(run).log[k].RefreshFailed?
    ensures exists k :: 0 <= k < |Final(run).log| && Final(run).log[k].Enqueued?
  {
    var t;
    run := FirstEntered();
    run, t := Extend(run, SetPaused(true), Final(run));
    run, t := Extend(run, Work(None, true, Success), t);
    assert t.log == [Enqueued(1), Skipped(1, 7)];
    run, t := Extend(run, Work(None, true, Success), t);
    assert t.log[0].Enqueued?;
  }

  /** The next snapshot renders to the recorded image, so it is taken for unchanged and removed. */
  lemma {:induction false} ToUnchanged(before: Run, digest: Digest) returns (run: Run)
    requires Feasible(before) && Final(before).worker.Checking?
    requires var q := Final(before).queue; Current(q).Some? && q.last == Some(digest)
    ensures Feasible(run) && (NeverPaused(run) <==> NeverPaused(before))
    ensures var s := Final(before);
            Final(run) == s.(wake := false, queue := s.queue.(rejected := None, pending := None))
  {
    var t;
    run, t := Extend(before, Work(None, true, Success), Final(before));
    run, t := Extend(run, Work(None, true, Success), t);
    run, t := Extend(run, Work(Some(digest), true, Success), t);
    run, t := Extend(run, Work(None, true, Success), t);
    run, t := Extend(run, Work(None, true, Success), t);
    run, t := Extend(run, Work(None, true, Success), t);
  }

  /**
    Nor is pausing needed: a newer snapshot of the same image, enqueued just before postCurrent,
    supersedes the first, which is recorded unsent; the newer one is then dropped as unchanged.
   */
  lemma {:induction false} SupersedingCanLoseTheLatestSnapshot() returns (run: Run)
    ensures Feasible(run) && NeverPaused(run)
    ensures Final(run).queue.pending.None? && Final(run).queue.last == Some(7) && Final(run).worker.Checking?
    ensures Final(run).log == [Enqueued(1), Enqueued(2), Skipped(1, 7)]
  {
    hide Next;
    run := FirstEntered();
    run := Superseded(run);
    run := ToUnchanged(run, 7);
  }

  lemma {:induction false} FirstEntered() returns (run: Run)
    ensures Feasible(run) && NeverPaused(run)
    ensures Final(run).worker == Entering(1, 7) && Final(run).log == [Enqueued(1)]
    ensures Final(run).queue == EMPTY.(nextId := 1, pending := Some(1))
  {
    var t;
    run, t := Extend(Start, Refreshed(true), INITIAL);
    run, t := Extend(run, Signal, t);
    run, t := Extend(run, Wake(false), t);
    run := ToEntry(run, 7);
  }

  lemma {:induction false} Superseded(before: Run) returns (run: Run)
    requires Feasible(before) && NeverPaused(before)
    requires Final(before).worker == Entering(1, 7) && Final(before).log == [Enqueued(1)]
    requires Final(before).queue == EMPTY.(nextId := 1, pending := Some(1))
    ensures Feasible(run) && NeverPaused(run) && Final(run).worker.Checking?
    ensures Final(run).log == [Enqueued(1), Enqueued(2), Skipped(1, 7)]
    ensures Final(run).queue == EMPTY.(nextId := 2, pending := Some(2), last := Some(7))
  {
    var t;
    run, t := Extend(before, Refreshed(true), Final(before));
    run, t := Extend(run, Work(None, true, Success), t);
    assert t.log == [Enqueued(1), Enqueued(2), Skipped(1, 7)];
    run, t := Extend(run, Work(None, true, Success), t);
  }

  /** From the entry, an unpaused pending snapshot is sent and recorded. */
  lemma {:induction false} SendIt(before: Run) returns (run: Run)
    requires Feasible(before) && Final(before).worker.Entering? && MayPost(Final(before).queue, Final(before).worker.id)
    ensures Feasible(run)
    ensures var s, t := Final(before), Final(run);
            && t.worker.Checking? && t.wake == s.wake && t.signals == s.signals
            && t.queue == s.queue.(last := Some(s.worker.digest), rejected := None, pending := None, active := None,
               cancelled := false)
            && t.log == s.log + [Admitted(s.worker.id, s.worker.digest), Sent(s.worker.id, s.worker.digest)]
  {
    var s := Final(before);
    var t;
    run, t := Extend(before, Work(None, true, Success), s);
    run, t := Extend(run, Work(None, true, Success), t);
    assert t.log == s.log + [Admitted(s.worker.id, s.worker.digest), Sent(s.worker.id, s.worker.digest)];
    run, t := Extend(run, Work(None, true, Success), t);
    run, t := Extend(run, Work(None, true, Success), t);
    run, t := Extend(run, Work(None, true, Success), t);
  }

  lemma {:induction false} SkipIt(before: Run) returns (run: Run)
    requires Feasible(before) && Final(before).worker.Entering?
    requires Final(before).queue.pending == Some(Final(before).worker.id)
    ensures Feasible(run)
    ensures var s, t := Final(before), Final(run);
            && t.worker.Checking? && t.wake == s.wake && t.signals == s.signals + 2
            && t.queue == s.queue.(last := Some(s.worker.digest), rejected := None, pending := None, paused := false)
            && t.log == s.log + [Skipped(s.worker.id, s.worker.digest)]
  {
    var t;
    run, t := Extend(before, SetPaused(true), Final(before));
    run, t := Extend(run, Work(None, true, Success), t);
    run, t := Extend(run, Work(None, true, Success), t);
    run, t := Extend(run, SetPaused(false), t);
  }

  lemma {:induction false} EnqueueIt(before: Run) returns (run: Run)
    requires Feasible(before)
    ensures Feasible(run)
    ensures var s := Final(before);
            Final(run) == s.(queue := AfterEnqueue(s.queue), signals := s.signals + 1,
                log := s.log + [Enqueued(s.queue.nextId + 1)])
  {
    var t;
    run, t := Extend(before, Refreshed(true), Final(before));
  }

  /** With the guard, one image reaches the panel twice in a row: the skipped one was recorded in between. */
  lemma {:induction false} GuardRepeatsAnImage() returns (run: Run)
    ensures Feasible(run)
    ensures Consecutive(Final(run).log, 2, 7) && Final(run).log[2].digest == Final(run).log[7].digest
  {
    run := SentThenSkipped();
    run := EnqueueIt(run);
    run := ToEntry(run, 7);
    run := SendIt(run);
    assert Final(run).log == [Enqueued(1), Admitted(1, 7), Sent(1, 7), Enqueued(2), Skipped(2, 8), Enqueued(3),
           Admitted(3, 7), Sent(3, 7)];
  }

  lemma {:induction false} FirstSent() returns (run: Run)
    ensures Feasible(run) && Final(run).worker.Checking?
    ensures Final(run).queue == Queue(1, None, Some(7), None, None, false, false)
    ensures Final(run).log == [Enqueued(1), Admitted(1, 7), Sent(1, 7)]
  {
    var t;
    run := EnqueueIt(Start);
    run, t := Extend(run, Signal, Final(run));
    run, t := Extend(run, Wake(false), t);
    run := ToEntry(run, 7);
    run := SendIt(run);
  }

  lemma {:induction false} SentThenSkipped() returns (run: Run)
    ensures Feasible(run) && Final(run).worker.Checking?
    ensures Final(run).queue == Queue(2, None, Some(8), None, None, false, false)
    ensures Final(run).log == [Enqueued(1), Admitted(1, 7), Sent(1, 7), Enqueued(2), Skipped(2, 8)]
  {
    run := FirstSent();
    run := EnqueueIt(run);
    run := ToEntry(run, 8);
    run := SkipIt(run);
  }

  // ---------------------------------------------------------------- which guards let an image repeat

  /** The last step of `longer` sends the panel the image it showed at `run`; nothing was sent or skipped between. */
  ghost predicate Repeats(run: Run, longer: Run)
    requires Feasible(run)
  {
    && longer.Then? && Extends(run, longer.before) && Feasible(longer)
    && var l, m, n := Final(run).log, Final(longer.before).log, Final(longer).log;
       && l <= m && (forall k | |l| <= k < |m| :: !m[k].Sent? && !m[k].Skipped?)
       && |n| == |m| + 1 && n[|m|].Sent? && Some(n[|m|].digest) == LastSent(l)
  }

  ghost predicate CanRepeat(run: Run)
    requires Feasible(run)
  {
    exists longer :: Repeats(run, longer)
  }

  lemma {:induction false} RecordedStays(log: seq<Event>, longer: seq<Event>)
    requires log <= longer && forall k | |log| <= k < |longer| :: !longer[k].Sent? && !longer[k].Skipped?
    ensures LastRecorded(longer) == LastRecorded(log)
    decreases |longer|
  {
    if |longer| > |log| { RecordedStays(log, longer[..|longer| - 1]); } else { assert longer == log; }
  }

  lemma SendNeedsAnother(s: System, a: Action)
    requires PanelOk(s) && Enabled(s, a) && |Next(s, a).log| > |s.log| && Next(s, a).log[|s.log|].Sent?
    ensures Some(Next(s, a).log[|s.log|].digest) != LastRecorded(s.log)
  {
    hide LastRecorded;
  }

  /** From a completed guard, a fresh snapshot may render to any image that is not recorded, and be sent. */
  lemma {:induction false} SendAfterGuard(run: Run, d: Digest) returns (longer: Run)
    requires Feasible(run) && Final(run).worker.Completing? && Final(run).worker.digest != d
    requires LastSent(Final(run).log) == Some(d)
    ensures Repeats(run, longer)
  {
    hide LastSent;
    var l := Final(run).log;
    var before := FreshAfterGuard(run);
    longer := ToEntry(before, d);
    ExtendsFurther(run, before, longer);
    var s := Final(longer);
    var admitted, t := Extend(longer, Work(None, true, Success), s);
    ExtendsFurther(run, longer, admitted);
    assert t.log == s.log + [Admitted(s.worker.id, d)];
    longer, t := Extend(admitted, Work(None, true, Success), t);
    assert t.log == Final(admitted).log + [Sent(s.worker.id, d)];
  }

  /** The guard's attempt is recorded, and a new snapshot waits, unpaused. */
  lemma {:induction false} FreshAfterGuard(run: Run) returns (longer: Run)
    requires Feasible(run) && Final(run).worker.Completing?
    ensures Extends(run, longer) && Feasible(longer)
    ensures var s, t := Final(run), Final(longer);
            && t.worker.Checking? && t.log == s.log + [Enqueued(s.queue.nextId + 1)]
            && t.queue.last == Some(s.worker.digest) && t.queue.rejected.None? && Current(t.queue).Some?
  {
    hide Feasible, Final, Extends, NeverPaused;
    var t;
    longer, t := Extend(run, Work(None, true, Success), Final(run));
    var further;
    further, t := Extend(longer, SetPaused(false), t);
    ExtendsFurther(run, longer, further);
    longer, t := Extend(further, Refreshed(true), t);
    ExtendsFurther(run, further, longer);
  }

  /**
    Over every run, once an image is on the panel: after a guard fired, that image can be the next one
    sent, without another guard, if and only if the guard took a different image for sent.
   */
  lemma {:induction false} CanRepeatExactlyWhenAnotherWasSkipped(run: Run, a: Action, d: Digest)
    requires Feasible(Then(run, a)) && LastSent(Final(run).log) == Some(d)
    requires a.Work? && Final(run).worker.Entering? && !MayPost(Final(run).queue, Final(run).worker.id)
    ensures CanRepeat(Then(run, a)) <==> Final(run).worker.digest != d
  {
    var skipped := Then(run, a);
    var l := Final(skipped).log;
    assert l == Final(run).log + [Skipped(Final(run).worker.id, Final(run).worker.digest)];
    LogGrows(Final(run).log, l[|l| - 1]);
    if Final(run).worker.digest != d {
      var longer := SendAfterGuard(skipped, d);
    } else if CanRepeat(skipped) {
      var longer :| Repeats(skipped, longer);
      InvHolds(longer.before);
      RecordedStays(l, Final(longer.before).log);
      SendNeedsAnother(Final(longer.before), longer.step);
      assert false;
    }
  }

  // ---------------------------------------------------------------- the queue, changed in place

  /** The fields under the source's mutex; each method is one locked region. */
  class PushQueue {
    var nextId: nat
    var pending: Option<nat>
    var last: Digest
    var hasLast: bool
    var rejected: Digest
    var hasRejected: bool
    var active: Option<nat>
    var cancelled: bool
    var paused: bool

    function View(): Queue
      reads this
    {
      Queue(nextId, pending, if hasLast then Some(last) else None, if hasRejected then Some(rejected) else None,
            active, cancelled, paused)
    }

    constructor ()
      ensures View() == EMPTY
    {
      nextId, pending, last, hasLast, rejected, hasRejected := 0, None, NO_DIGEST, false, NO_DIGEST, false;
      active, cancelled, paused := None, false, false;
    }

    method Enqueue()
      modifies this
      ensures View() == AfterEnqueue(old(View()))
    {
      nextId := nextId + 1;
      pending := Some(nextId);
    }

    method DiscardAll()
      modifies this
      ensures View() == AfterDiscardAll(old(View()))
    {
      nextId := nextId + 1;
      pending := None;
      if active.Some? { cancelled := true; }
    }

    method Complete(id: nat, digest: Digest)
      modifies this
      ensures View() == AfterComplete(old(View()), id, digest)
    {
      last, hasLast, hasRejected := digest, true, false;
      if pending == Some(id) { pending := None; }
    }

    method Discard(id: nat)
      modifies this
      ensures View() == AfterDiscard(old(View()), id)
    {
      if pending == Some(id) { pending := None; }
    }

    method Reject(id: nat, digest: Digest)
      modifies this
      ensures View() == AfterReject(old(View()), id, digest)
    {
      if pending == Some(id) {
        rejected, hasRejected := digest, true;
        pending := None;
      }
    }

    /** The two halves of postCurrent around the request; entry is false when the guard fires. */
    method EnterPost(id: nat) returns (entered: bool)
      modifies this
      ensures entered == MayPost(old(View()), id)
      ensures View() == if entered then Posting(old(View()), id) else old(View())
    {
      if pending != Some(id) || paused { return false; }
      active, cancelled := Some(id), false;
      return true;
    }

    method LeavePost(id: nat) returns (superseded: bool)
      modifies this
      ensures View() == Posted(old(View()), id)
      ensures superseded == (old(pending) != Some(id))
    {
      if active == Some(id) { active, cancelled := None, false; }
      superseded := pending != Some(id);
    }
  }
}
