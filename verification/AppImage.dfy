/**
  The image transaction protocol of internal/ble/app_image.go and the commit half of
  internal/ble/coc.go. The sender's critical sections are functions on `Sender`; `System`
  interleaves them with native jobs, frames and whatever replies a device gives. The class
  `AppImageSender` at the end is the source's object, each method proved equal to its function.
 */
module AppImage {
  import opened Wrappers

  type RequestId = nat
  type Digest = nat
  type BindingId = nat

  datatype Target = Target(generation: nat, revision: nat)
  datatype Op = Begin | Chunk | Commit | Query
  datatype ReceiptState = Idle | Receiving | Processing | Complete | Failed | Canceled | Missing | Rejected
  datatype Receipt = Receipt(state: ReceiptState, op: Op, code: nat, id: RequestId,
                             size: nat, received: nat, digest: Digest)

  datatype ImageError =
    | NotPaired
    | Authentication
    | Unavailable
    | Transport
    | Pending
    | OutcomeUnknown
    | InvalidReply
    | Retryable(code: nat)
    | Fault(code: nat)
  {
    /** What the source's Permanent() reports for the wrapped error. */
    predicate Permanent() {
      NotPaired? || OutcomeUnknown? || InvalidReply? || Fault?
    }
  }

  datatype Outcome = Open | Displayed | Ended(error: ImageError)

  datatype Tx = Tx(digest: Digest, size: nat, pinned: Option<(Target, BindingId)>,
                   committed: bool, outcome: Outcome)

  datatype Sender = Sender(txs: map<RequestId, Tx>, current: Option<RequestId>,
                           uncertain: map<Digest, RequestId>, blocked: map<Digest, ImageError>)
  {
    ghost predicate Valid() {
      && (current.Some? ==> current.value in txs)
      && (forall d :: d in uncertain ==> uncertain[d] in txs && txs[uncertain[d]].digest == d)
      && (forall id :: id in txs ==> id != 0)
    }
  }

  const EMPTY_SENDER := Sender(map[], None, map[], map[])

  // ---------------------------------------------------------------- the sender's critical sections

  datatype Admission = Refused(error: ImageError) | Settled(outcome: Outcome) | Proceed(id: RequestId, created: bool)

  /** Only a request that may have been committed keeps its identity. */
  function Reusable(s: Sender, d: Digest): (r: Option<RequestId>)
    requires s.Valid()
    ensures r.Some? ==> r.value in s.txs && s.txs[r.value].digest == d
    ensures r.Some? ==> s.txs[r.value].committed || !s.txs[r.value].outcome.Open?
  {
    var found :=
      if d in s.uncertain then Some(s.uncertain[d])
      else if s.current.Some? && s.txs[s.current.value].digest == d then s.current
      else None;
    if found.Some? && !s.txs[found.value].committed && s.txs[found.value].outcome.Open? then None else found
  }

  function Admit(s: Sender, d: Digest, size: nat, newId: RequestId): (r: (Sender, Admission))
    requires s.Valid() && newId != 0 && newId !in s.txs
    ensures r.0.Valid()
    ensures r.1.Settled? ==> r.0.current.Some? && r.0.txs[r.0.current.value].outcome == r.1.outcome
  {
    if d in s.blocked then (s, Refused(s.blocked[d]))
    else match Reusable(s, d)
      case Some(id) =>
        (s.(current := Some(id)),
         if s.txs[id].outcome.Open? then Proceed(id, false) else Settled(s.txs[id].outcome))
      case None =>
        (s.(txs := s.txs[newId := Tx(d, size, None, false, Open)], current := Some(newId)),
         Proceed(newId, true))
  }

  function Finish(s: Sender, id: RequestId, outcome: Outcome): (s': Sender)
    requires s.Valid() && id in s.txs && !outcome.Open?
    ensures s'.Valid() && s'.txs.Keys == s.txs.Keys
  {
    var d := s.txs[id].digest;
    s.(txs := s.txs[id := s.txs[id].(outcome := outcome)],
       uncertain := map e | e in s.uncertain && e != d :: s.uncertain[e],
       blocked := if outcome.Ended? then s.blocked[d := outcome.error] else s.blocked)
  }

  function Mark(s: Sender, id: RequestId, target: Target, binding: BindingId): (s': Sender)
    requires s.Valid() && id in s.txs
    ensures s'.Valid() && s'.txs.Keys == s.txs.Keys
  {
    s.(txs := s.txs[id := s.txs[id].(committed := true, pinned := Some((target, binding)))],
       uncertain := s.uncertain[s.txs[id].digest := id])
  }

  /** appImageError: codes 2 (busy) and 5 (out of memory) stay retryable. */
  function RejectionError(r: Receipt): ImageError {
    if r.code == 2 || r.code == 5 then Retryable(r.code) else Fault(r.code)
  }

  /** The verdict of a signed receipt; None while the panel is still refreshing. */
  function Judge(tx: Tx, id: RequestId, r: Receipt): (o: Option<Outcome>)
    ensures o.Some? ==> !o.value.Open?
  {
    if r.state.Missing? then Some(Ended(OutcomeUnknown))
    else if r.id != id || r.digest != tx.digest || r.size != tx.size || r.received > r.size then
      Some(Ended(OutcomeUnknown))
    else if r.state.Processing? && r.code == 0 && r.received == r.size then None
    else if r.state.Complete? && r.code == 0 && r.received == r.size then Some(Displayed)
    else if r.state.Failed? || r.state.Canceled? then Some(Ended(Fault(r.code)))
    else Some(Ended(OutcomeUnknown))
  }

  /** The signed receipt that this very image was refreshed to its last byte. */
  predicate Completion(r: Receipt, id: RequestId, tx: Tx) {
    r == Receipt(Complete, r.op, 0, id, tx.size, tx.size, tx.digest)
  }

  /** The signed receipt that this very image is held whole and the panel is still refreshing. */
  predicate Refreshing(r: Receipt, id: RequestId, tx: Tx) {
    r == Receipt(Processing, r.op, 0, id, tx.size, tx.size, tx.digest)
  }

  /** The signed receipt that the device gave this very image up, with the code it names. */
  predicate Failure(r: Receipt, id: RequestId, tx: Tx, code: nat) {
    && (r.state.Failed? || r.state.Canceled?)
    && r == Receipt(r.state, r.op, code, id, tx.size, r.received, tx.digest)
    && r.received <= tx.size
  }

  /**
    Exactly one receipt shape proves that the panel shows this image, exactly one leaves the request
    open, the device's own failure is reported with the device's code, and every other receipt leaves
    the outcome unknown.
   */
  lemma DisplayedExactlyOnMatchingCompletion(tx: Tx, id: RequestId, r: Receipt)
    ensures Judge(tx, id, r) == Some(Displayed) <==> Completion(r, id, tx)
    ensures Judge(tx, id, r) == None <==> Refreshing(r, id, tx)
    ensures forall code :: Judge(tx, id, r) == Some(Ended(Fault(code))) <==> Failure(r, id, tx, code)
    ensures Judge(tx, id, r) == Some(Ended(OutcomeUnknown)) <==>
            !Completion(r, id, tx) && !Refreshing(r, id, tx) && !Failure(r, id, tx, r.code)
  {
  }

  datatype Conclusion = Conclusion(decided: Option<Outcome>, result: Option<ImageError>)

  /** What Send makes of a transaction after its job, or its caller, gave up; no result is success. */
  function Conclude(tx: Tx, err: Option<ImageError>): (c: Conclusion)
    ensures c.decided.Some? ==> c.decided.value.Ended? && tx.outcome.Open? && c.result == Some(c.decided.value.error)
  {
    if tx.outcome.Displayed? then Conclusion(None, None)
    else if tx.outcome.Ended? then Conclusion(None, Some(tx.outcome.error))
    else if !tx.committed && err.Some? && (err.value.NotPaired? || err.value.Authentication?) then Conclusion(None, err)
    else if err.Some? && (err.value.Authentication? || err.value.Permanent()) then
      var e := if tx.committed then OutcomeUnknown else err.value;
      Conclusion(Some(Ended(e)), Some(e))
    else if tx.committed then Conclusion(None, Some(Pending))
    else if err.None? then Conclusion(None, Some(InvalidReply))
    else Conclusion(None, err)
  }

  function PrepareExplicitPush(s: Sender, d: Digest): (r: (Sender, Option<ImageError>))
    requires s.Valid()
    ensures r.0.Valid() && r.0.txs == s.txs && r.0.uncertain == s.uncertain && r.0.blocked == s.blocked
  {
    if exists e :: e in s.uncertain && s.txs[s.uncertain[e]].outcome.Open? then (s, Some(Pending))
    else if d in s.blocked then (s, Some(s.blocked[d]))
    else if s.current.Some? && s.txs[s.current.value].digest == d && s.txs[s.current.value].outcome.Displayed?
      then (s.(current := None), None)
    else (s, None)
  }

  // ---------------------------------------------------------------- jobs, frames and runs

  datatype Transport = Gatt | Coc(sendMax: nat)

  /** `asked`: a BEGIN or CHUNK is out and its answer is not in yet. */
  datatype Phase =
    | Waiting
    | Connected
    | Uploading(target: Target, binding: BindingId, transport: Transport, next: Option<nat>, asked: bool)
    | Committing(transport: Transport)
    | Querying(transport: Transport)
    | Awaiting(op: Op)
    | Done(error: Option<ImageError>)
  {
    predicate OnRadio() {
      !Waiting? && !Done?
    }
  }

  datatype Job = Job(id: RequestId, digest: Digest, creator: bool, phase: Phase, returned: bool)

  datatype Event =
    | Frame(id: RequestId, digest: Digest, op: Op, busy: bool, admitted: bool)
    | Marked(id: RequestId, digest: Digest)
    | Verdict(id: RequestId, digest: Digest, ok: bool, receipt: Option<Receipt>)
    | Returned(id: RequestId, ok: bool)

  datatype System = System(sender: Sender, jobs: seq<Job>, radio: Option<nat>, log: seq<Event>)

  const INITIAL := System(EMPTY_SENDER, [], None, [])

  datatype Action =
    | SendStart(digest: Digest, size: nat, newId: RequestId)
    | Acquire(j: nat)
    | Route(j: nat, status: Result<(Target, BindingId), ImageError>, transport: Transport)
    | Upload(j: nat, busy: bool, admitted: bool)
    | Uploaded(j: nat, reply: Option<Receipt>)
    | MarkCommitted(j: nat)
    | SendCommit(j: nat, busy: bool, admitted: bool)
    | SendQuery(j: nat, busy: bool)
    | Reply(j: nat, reply: Option<Receipt>)
    | Abort(j: nat, error: ImageError)
    | Return(j: nat)
    | ReturnEarly(j: nat)
    | ExplicitPush(digest: Digest)

  function Min(a: nat, b: nat): nat { if a < b then a else b }

  /** Payload bytes one CHUNK carries: 128-byte GATT values, or the CoC record limit. */
  function ChunkLimit(t: Transport): nat {
    match t
    case Gatt => 106
    case Coc(sendMax) => if sendMax < 22 then 0 else sendMax - 22
  }

  /** The source's transport bounds: CoC sessions outside 54..4058 are refused. */
  predicate Usable(t: Transport) {
    t.Gatt? || 54 <= t.sendMax <= 4058
  }

  /** A BUSY is a signed refusal of one GATT command; it exists nowhere else and admits nothing. */
  predicate Rejection(t: Transport, busy: bool, admitted: bool) {
    busy ==> t.Gatt? && !admitted
  }

  /**
    A Send that returns ends its job's context. From then on the job neither starts nor passes the
    context check before a command, where its frame is logged; a mark, an answer or an error that was
    already under way may still come late.
   */
  predicate Enabled(s: System, a: Action)
    requires s.sender.Valid()
  {
    match a
    case SendStart(d, size, newId) => newId != 0 && newId !in s.sender.txs
    case Acquire(j) => j < |s.jobs| && !s.jobs[j].returned && s.jobs[j].phase.Waiting? && s.radio.None?
    case Route(j, status, t) => j < |s.jobs| && s.jobs[j].phase.Connected? && Usable(t) && s.jobs[j].id in s.sender.txs
    case Upload(j, busy, admitted) =>
      j < |s.jobs| && !s.jobs[j].returned && s.jobs[j].phase.Uploading? && !s.jobs[j].phase.asked &&
      Rejection(s.jobs[j].phase.transport, busy, admitted) && s.jobs[j].id in s.sender.txs &&
      (s.jobs[j].phase.next.Some? ==> s.jobs[j].phase.next.value < s.sender.txs[s.jobs[j].id].size)
    case Uploaded(j, reply) =>
      j < |s.jobs| && s.jobs[j].phase.Uploading? && s.jobs[j].phase.asked && s.jobs[j].id in s.sender.txs
    case MarkCommitted(j) =>
      j < |s.jobs| && s.jobs[j].phase.Uploading? && !s.jobs[j].phase.asked && s.jobs[j].id in s.sender.txs &&
      s.jobs[j].phase.next == Some(s.sender.txs[s.jobs[j].id].size)
    case SendCommit(j, busy, admitted) =>
      j < |s.jobs| && !s.jobs[j].returned && s.jobs[j].phase.Committing? &&
      Rejection(s.jobs[j].phase.transport, busy, admitted)
    case SendQuery(j, busy) =>
      j < |s.jobs| && !s.jobs[j].returned && s.jobs[j].phase.Querying? &&
      Rejection(s.jobs[j].phase.transport, busy, false)
    case Reply(j, reply) => j < |s.jobs| && s.jobs[j].phase.Awaiting? && s.jobs[j].id in s.sender.txs
    case Abort(j, error) =>
      j < |s.jobs| && !s.jobs[j].phase.Done? && (error.Transport? || error.NotPaired? || error.Authentication?)
    case Return(j) => j < |s.jobs| && s.jobs[j].phase.Done? && !s.jobs[j].returned && s.jobs[j].id in s.sender.txs
    case ReturnEarly(j) => j < |s.jobs| && !s.jobs[j].returned && s.jobs[j].id in s.sender.txs
    case ExplicitPush(d) => true
  }

  function Move(s: System, j: nat, phase: Phase): System
    requires j < |s.jobs|
  {
    s.(jobs := s.jobs[j := s.jobs[j].(phase := phase)],
       radio := if phase.Done? && s.radio == Some(j) then None else s.radio)
  }

  function Emit(s: System, e: Event): System {
    s.(log := s.log + [e])
  }

  function Decide(s: System, id: RequestId, outcome: Outcome, receipt: Option<Receipt>): System
    requires s.sender.Valid() && id in s.sender.txs && !outcome.Open?
  {
    Emit(s.(sender := Finish(s.sender, id, outcome)),
         Verdict(id, s.sender.txs[id].digest, outcome.Displayed?, receipt))
  }

  /** Hand a receipt to the sender; the job then ends. */
  function Settle(s: System, j: nat, r: Receipt): System
    requires s.sender.Valid() && j < |s.jobs| && s.jobs[j].id in s.sender.txs
  {
    var id := s.jobs[j].id;
    match Judge(s.sender.txs[id], id, r)
    case None => Move(s, j, Done(Some(Pending)))
    case Some(o) => Decide(Move(s, j, Done(if o.Ended? then Some(o.error) else None)), id, o, Some(r))
  }

  datatype Step = Go(next: nat) | Stop(error: ImageError) | Judged(receipt: Receipt)

  /** The answer to BEGIN (no offset yet) or to one CHUNK; a CoC chunk has no acknowledgement. */
  function UploadStep(tx: Tx, id: RequestId, t: Transport, next: Option<nat>, reply: Option<Receipt>): (r: Step)
    ensures r.Go? && next.Some? ==> r.next == Min(next.value + ChunkLimit(t), tx.size)
    ensures r.Go? ==> r.next <= tx.size
  {
    var end := if next.Some? then Min(next.value + ChunkLimit(t), tx.size) else 0;
    if reply.None? then Stop(Transport)
    else if next.Some? && t.Coc? then Go(end)
    else
      var r := reply.value;
      if r.op != (if next.None? then Begin else Chunk) || r.id != id then Stop(InvalidReply)
      else if r.state.Rejected? then Stop(RejectionError(r))
      else if next.None? && (r.state.Complete? || r.state.Failed? || r.state.Canceled?) then Judged(r)
      else if !r.state.Receiving? || r.code != 0 || r.size != tx.size || r.digest != tx.digest then Stop(InvalidReply)
      else if next.None? then if r.received > tx.size then Stop(InvalidReply) else Go(r.received)
      else if r.received != end then Stop(InvalidReply)
      else Go(end)
  }

  /** After a late answer the next context check ends the job. */
  function AfterUpload(s: System, j: nat, reply: Option<Receipt>): System
    requires s.sender.Valid() && j < |s.jobs| && s.jobs[j].phase.Uploading? && s.jobs[j].id in s.sender.txs
  {
    var p := s.jobs[j].phase;
    match UploadStep(s.sender.txs[s.jobs[j].id], s.jobs[j].id, p.transport, p.next, reply)
    case Go(next) =>
      Move(s, j, if s.jobs[j].returned then Done(Some(Transport)) else p.(next := Some(next), asked := false))
    case Stop(e) => Move(s, j, Done(Some(e)))
    case Judged(r) => Settle(s, j, r)
  }

  function AfterRoute(s: System, j: nat, status: Result<(Target, BindingId), ImageError>, t: Transport): System
    requires s.sender.Valid() && j < |s.jobs| && s.jobs[j].id in s.sender.txs
  {
    var id := s.jobs[j].id;
    var tx := s.sender.txs[id];
    if tx.committed && (status == Err(Unavailable) || (status.Ok? && tx.pinned != Some(status.value))) then
      Decide(Move(s, j, Done(Some(OutcomeUnknown))), id, Ended(OutcomeUnknown), None)
    else match status
      case Err(e) => Move(s, j, Done(Some(e)))
      case Ok((target, binding)) =>
        Move(s, j, if tx.committed then Querying(t) else Uploading(target, binding, t, None, false))
  }

  function Retire(s: System, j: nat, ok: bool): System
    requires j < |s.jobs|
  {
    Emit(s.(jobs := s.jobs[j := s.jobs[j].(returned := true)]), Returned(s.jobs[j].id, ok))
  }

  function AfterConclude(s: System, j: nat, err: Option<ImageError>): System
    requires s.sender.Valid() && j < |s.jobs| && s.jobs[j].id in s.sender.txs
  {
    var c := Conclude(s.sender.txs[s.jobs[j].id], err);
    var decided := if c.decided.Some? then Decide(s, s.jobs[j].id, c.decided.value, None) else s;
    Retire(decided, j, c.result.None?)
  }

  function Commitment(s: System, j: nat): System
    requires s.sender.Valid() && j < |s.jobs| && s.jobs[j].phase.Uploading? && s.jobs[j].id in s.sender.txs
  {
    var p := s.jobs[j].phase;
    Emit(Move(s.(sender := Mark(s.sender, s.jobs[j].id, p.target, p.binding)), j, Committing(p.transport)),
         Marked(s.jobs[j].id, s.sender.txs[s.jobs[j].id].digest))
  }

  function Sent(s: System, j: nat, op: Op, busy: bool, admitted: bool): System
    requires j < |s.jobs|
  {
    Emit(s, Frame(s.jobs[j].id, s.jobs[j].digest, op, busy, admitted))
  }

  function Begun(s: System, d: Digest, size: nat, newId: RequestId): System
    requires s.sender.Valid() && newId != 0 && newId !in s.sender.txs
  {
    var (sender, admission) := Admit(s.sender, d, size, newId);
    match admission
    case Refused(_) => s.(sender := sender)
    case Settled(outcome) => Emit(s.(sender := sender), Returned(sender.current.value, outcome.Displayed?))
    case Proceed(id, created) => s.(sender := sender, jobs := s.jobs + [Job(id, d, created, Waiting, false)])
  }

  function Next(s: System, a: Action): (s': System)
    requires s.sender.Valid() && Enabled(s, a)
    ensures s'.sender.Valid()
  {
    match a
    case SendStart(d, size, newId) => Begun(s, d, size, newId)
    case Acquire(j) => Move(s, j, Connected).(radio := Some(j))
    case Route(j, status, t) => AfterRoute(s, j, status, t)
    case Upload(j, busy, admitted) =>
      var p := s.jobs[j].phase;
      Sent(if busy then s else Move(s, j, p.(asked := true)), j,
           if p.next.None? then Begin else Chunk, busy, admitted)
    case Uploaded(j, reply) => AfterUpload(s, j, reply)
    case MarkCommitted(j) => Commitment(s, j)
    case SendCommit(j, busy, admitted) =>
      Sent(if busy then s else Move(s, j, Awaiting(Commit)), j, Commit, busy, admitted)
    case SendQuery(j, busy) => Sent(if busy then s else Move(s, j, Awaiting(Query)), j, Query, busy, false)
    case Reply(j, reply) =>
      if reply.None? then Move(s, j, Done(Some(Transport)))
      else if reply.value.op != s.jobs[j].phase.op || reply.value.id != s.jobs[j].id then
        Move(s, j, Done(Some(InvalidReply)))
      else Settle(s, j, reply.value)
    case Abort(j, error) => Move(s, j, Done(Some(error)))
    case Return(j) => AfterConclude(s, j, s.jobs[j].phase.error)
    case ReturnEarly(j) => AfterConclude(s, j, Some(Transport))
    case ExplicitPush(d) => s.(sender := PrepareExplicitPush(s.sender, d).0)
  }

  datatype Run = Start | Then(before: Run, step: Action)

  ghost predicate Feasible(run: Run)
    decreases run, 0
  {
    match run
    case Start => true
    case Then(before, step) => Feasible(before) && Enabled(Final(before), step)
  }

  ghost function Final(run: Run): (s: System)
    requires Feasible(run)
    ensures s.sender.Valid()
    decreases run, 1
  {
    match run
    case Start => INITIAL
    case Then(before, step) => Next(Final(before), step)
  }

  // ---------------------------------------------------------------- one COMMIT per request

  /** What an earlier event allows a later one to be. */
  predicate PairAllowed(e: Event, f: Event) {
    && (e.Frame? && f.Frame? && e.id == f.id ==>
          && (e.op.Query? || (e.op.Commit? && !e.busy) ==> f.op.Query?)
          && (e.op.Commit? ==> f.op.Commit? || f.op.Query?))
    && (e.Marked? && f.Frame? && e.id == f.id ==> f.op.Commit? || f.op.Query?)
  }

  ghost predicate Ordered(log: seq<Event>) {
    forall a, b | 0 <= a < b < |log| :: PairAllowed(log[a], log[b])
  }

  lemma OrderedAppend(log: seq<Event>, e: Event)
    requires Ordered(log) && forall a | 0 <= a < |log| :: PairAllowed(log[a], e)
    ensures Ordered(log + [e])
  {
  }

  ghost predicate JobOk(s: System, j: nat)
    requires j < |s.jobs|
  {
    var job := s.jobs[j];
    && job.id in s.sender.txs
    && s.sender.txs[job.id].digest == job.digest
    && (job.phase.OnRadio() <==> s.radio == Some(j))
    && (!job.creator ==> s.sender.txs[job.id].committed)
    && (job.phase.Uploading? || job.phase.Committing? || job.phase == Awaiting(Commit) ==> job.creator)
    && (job.phase.Uploading? ==> !s.sender.txs[job.id].committed)
    && (job.phase.Querying? || job.phase.Awaiting? || job.phase.Committing? ==> s.sender.txs[job.id].committed)
    && (job.phase.Awaiting? ==> job.phase.op.Commit? || job.phase.op.Query?)
    && (job.creator && s.sender.txs[job.id].committed ==>
          job.phase.Committing? || job.phase == Awaiting(Commit) || job.phase.Done?)
    && (job.phase.Committing? ==>
          forall a | 0 <= a < |s.log| && s.log[a].Frame? && s.log[a].id == job.id ::
            !s.log[a].op.Query? && (s.log[a].op.Commit? ==> s.log[a].busy))
  }

  ghost predicate EventOk(s: System, e: Event) {
    && e.id in s.sender.txs
    && (e.Frame? || e.Verdict? || e.Marked? ==> e.digest == s.sender.txs[e.id].digest)
    && (e.Frame? && (e.op.Commit? || e.op.Query?) ==> s.sender.txs[e.id].committed)
    && (e.Marked? ==> s.sender.txs[e.id].committed)
    && (e.Frame? && e.admitted ==> !e.busy)
    && (e.Verdict? && !e.ok ==> e.digest in s.sender.blocked)
    && (e.Verdict? && e.ok ==> e.receipt.Some? && Completion(e.receipt.value, e.id, s.sender.txs[e.id]))
    && (e.Verdict? && !e.ok && e.receipt.Some? ==>
          !Completion(e.receipt.value, e.id, s.sender.txs[e.id])
          && !Refreshing(e.receipt.value, e.id, s.sender.txs[e.id]))
  }

  ghost predicate Inv(s: System) {
    && s.sender.Valid()
    && (forall j | 0 <= j < |s.jobs| :: JobOk(s, j))
    && (forall j, k | 0 <= j < k < |s.jobs| && s.jobs[j].creator && s.jobs[k].creator :: s.jobs[j].id != s.jobs[k].id)
    && (s.radio.Some? ==> s.radio.value < |s.jobs|)
    && (forall a | 0 <= a < |s.log| :: EventOk(s, s.log[a]))
    && Ordered(s.log)
  }

  lemma EventsKeep(s: System, t: System)
    requires forall i | 0 <= i < |s.log| :: EventOk(s, s.log[i])
    requires s.log == t.log && s.sender.blocked.Keys <= t.sender.blocked.Keys
    requires forall id | id in s.sender.txs ::
               id in t.sender.txs && t.sender.txs[id].digest == s.sender.txs[id].digest
                   && t.sender.txs[id].size == s.sender.txs[id].size
               && (s.sender.txs[id].committed ==> t.sender.txs[id].committed)
    ensures forall i | 0 <= i < |t.log| :: EventOk(t, t.log[i])
  {
    forall i | 0 <= i < |t.log| ensures EventOk(t, t.log[i]) { assert EventOk(s, s.log[i]); }
  }

  lemma EmitInv(s: System, e: Event)
    requires Inv(s) && EventOk(s, e)
    requires forall i | 0 <= i < |s.log| :: PairAllowed(s.log[i], e)
    requires e.Frame? ==> forall j | 0 <= j < |s.jobs| && s.jobs[j].phase.Committing? && s.jobs[j].id == e.id ::
               !e.op.Query? && (e.op.Commit? ==> e.busy)
    ensures Inv(Emit(s, e))
  {
    var t := Emit(s, e);
    OrderedAppend(s.log, e);
    forall j | 0 <= j < |t.jobs| ensures JobOk(t, j) { assert JobOk(s, j); }
    forall i | 0 <= i < |t.log| ensures EventOk(t, t.log[i]) { if i < |s.log| { assert EventOk(s, s.log[i]); } }
  }

  lemma DecideInv(s: System, id: RequestId, outcome: Outcome, receipt: Option<Receipt>)
    requires Inv(s) && id in s.sender.txs && !outcome.Open?
    requires outcome.Displayed? ==> receipt.Some?
    requires receipt.Some? ==> Judge(s.sender.txs[id], id, receipt.value) == Some(outcome)
    ensures Inv(Decide(s, id, outcome, receipt))
  {
    var m := s.(sender := Finish(s.sender, id, outcome));
    EventsKeep(s, m);
    forall j | 0 <= j < |m.jobs| ensures JobOk(m, j) { assert JobOk(s, j); }
    EmitInv(m, Verdict(id, s.sender.txs[id].digest, outcome.Displayed?, receipt));
  }

  /** The phase changes a job makes while the sender and the log stay as they are. */
  predicate Change(tx: Tx, from: Phase, to: Phase) {
    || to.Done?
    || (from.Connected? && to.Querying? && tx.committed)
    || (from.Connected? && to.Uploading? && !tx.committed)
    || (from.Uploading? && to.Uploading?)
    || (from.Committing? && to == Awaiting(Commit))
    || (from.Querying? && to == Awaiting(Query))
  }

  lemma MoveInv(s: System, j: nat, to: Phase)
    requires Inv(s) && j < |s.jobs| && s.jobs[j].id in s.sender.txs
    requires Change(s.sender.txs[s.jobs[j].id], s.jobs[j].phase, to)
    ensures Inv(Move(s, j, to))
  {
    var t := Move(s, j, to);
    assert JobOk(s, j);
    forall k | 0 <= k < |t.jobs| ensures JobOk(t, k) { assert JobOk(s, k); }
    EventsKeep(s, t);
  }

  lemma SettleInv(s: System, j: nat, r: Receipt)
    requires Inv(s) && j < |s.jobs| && s.jobs[j].id in s.sender.txs
    ensures Inv(Settle(s, j, r))
  {
    match Judge(s.sender.txs[s.jobs[j].id], s.jobs[j].id, r)
    case None => MoveInv(s, j, Done(Some(Pending)));
    case Some(o) =>
      var to := Done(if o.Ended? then Some(o.error) else None);
      MoveInv(s, j, to);
      DecideInv(Move(s, j, to), s.jobs[j].id, o, Some(r));
  }

  lemma SentInv(s: System, j: nat, op: Op, busy: bool, admitted: bool)
    requires Inv(s) && j < |s.jobs| && (admitted ==> !busy)
    requires match op
             case Query => s.jobs[j].phase.OnRadio() && s.jobs[j].id in s.sender.txs
                 && s.sender.txs[s.jobs[j].id].committed && !s.jobs[j].phase.Committing?
             case Commit => if busy then s.jobs[j].phase.Committing? else s.jobs[j].phase == Awaiting(Commit)
             case _ => s.jobs[j].phase.Uploading?
    requires op.Commit? ==> forall i | 0 <= i < |s.log| && s.log[i].Frame? && s.log[i].id == s.jobs[j].id ::
               !s.log[i].op.Query? && (s.log[i].op.Commit? ==> s.log[i].busy)
    ensures Inv(Sent(s, j, op, busy, admitted))
  {
    assert JobOk(s, j);
    var e := Frame(s.jobs[j].id, s.jobs[j].digest, op, busy, admitted);
    forall i | 0 <= i < |s.log| ensures PairAllowed(s.log[i], e) { assert EventOk(s, s.log[i]); }
    forall k | 0 <= k < |s.jobs| && s.jobs[k].phase.Committing? && s.jobs[k].id == e.id
      ensures !e.op.Query? && (e.op.Commit? ==> e.busy)
    {
      assert JobOk(s, k);
    }
    EmitInv(s, e);
  }

  lemma CommitmentInv(s: System, j: nat)
    requires Inv(s) && j < |s.jobs| && s.jobs[j].phase.Uploading? && s.jobs[j].id in s.sender.txs
    ensures Inv(Commitment(s, j))
  {
    assert JobOk(s, j);
    var p := s.jobs[j].phase;
    var marked := s.(sender := Mark(s.sender, s.jobs[j].id, p.target, p.binding));
    EventsKeep(s, marked);
    var m := Move(marked, j, Committing(p.transport));
    forall k | 0 <= k < |m.jobs| ensures JobOk(m, k) {
      assert JobOk(s, k);
      if k == j {
        forall i | 0 <= i < |m.log| && m.log[i].Frame? && m.log[i].id == s.jobs[j].id
          ensures !m.log[i].op.Query? && !m.log[i].op.Commit?
        {
          assert EventOk(s, s.log[i]);
        }
      }
    }
    EventsKeep(marked, m);
    EmitInv(m, Marked(s.jobs[j].id, s.jobs[j].digest));
  }

  /** What a new Send makes of the state before it reports anything. */
  lemma AdmittedInv(s: System, d: Digest, size: nat, newId: RequestId, t: System)
    requires Inv(s) && newId != 0 && newId !in s.sender.txs
    requires var (sender, admission) := Admit(s.sender, d, size, newId);
             t == if admission.Settled? then s.(sender := sender) else Begun(s, d, size, newId)
    ensures Inv(t)
  {
    hide PairAllowed;
    EventsKeep(s, t);
    forall k | 0 <= k < |t.jobs| ensures JobOk(t, k) { if k < |s.jobs| { assert JobOk(s, k); } }
    forall j, k | 0 <= j < k < |t.jobs| && t.jobs[j].creator && t.jobs[k].creator
      ensures t.jobs[j].id != t.jobs[k].id
    {
      assert JobOk(s, j);
    }
  }

  lemma BegunInv(s: System, d: Digest, size: nat, newId: RequestId)
    requires Inv(s) && newId != 0 && newId !in s.sender.txs
    ensures Inv(Begun(s, d, size, newId))
  {
    hide JobOk, EventOk, Ordered;
    var (sender, admission) := Admit(s.sender, d, size, newId);
    var t := if admission.Settled? then s.(sender := sender) else Begun(s, d, size, newId);
    AdmittedInv(s, d, size, newId, t);
    if admission.Settled? { EmitInv(t, Returned(sender.current.value, admission.outcome.Displayed?)); }
  }

  lemma ConcludeInv(s: System, j: nat, err: Option<ImageError>)
    requires Inv(s) && j < |s.jobs| && s.jobs[j].id in s.sender.txs
    ensures Inv(AfterConclude(s, j, err))
  {
    var c := Conclude(s.sender.txs[s.jobs[j].id], err);
    if c.decided.Some? { DecideInv(s, s.jobs[j].id, c.decided.value, None); }
    var m := if c.decided.Some? then Decide(s, s.jobs[j].id, c.decided.value, None) else s;
    var r := m.(jobs := m.jobs[j := m.jobs[j].(returned := true)]);
    forall k | 0 <= k < |r.jobs| ensures JobOk(r, k) { assert JobOk(m, k); }
    EventsKeep(m, r);
    EmitInv(r, Returned(s.jobs[j].id, c.result.None?));
  }

  lemma RouteInv(s: System, j: nat, status: Result<(Target, BindingId), ImageError>, transport: Transport)
    requires Inv(s) && Enabled(s, Route(j, status, transport))
    ensures Inv(Next(s, Route(j, status, transport)))
  {
    assert JobOk(s, j);
    var tx := s.sender.txs[s.jobs[j].id];
    if tx.committed && (status == Err(Unavailable) || (status.Ok? && tx.pinned != Some(status.value))) {
      MoveInv(s, j, Done(Some(OutcomeUnknown)));
      DecideInv(Move(s, j, Done(Some(OutcomeUnknown))), s.jobs[j].id, Ended(OutcomeUnknown), None);
    } else if status.Err? {
      MoveInv(s, j, Done(Some(status.error)));
    } else {
      var (target, binding) := status.value;
      MoveInv(s, j, if tx.committed then Querying(transport) else Uploading(target, binding, transport, None, false));
    }
  }

  lemma UploadInv(s: System, j: nat, busy: bool, admitted: bool)
    requires Inv(s) && Enabled(s, Upload(j, busy, admitted))
    ensures Inv(Next(s, Upload(j, busy, admitted)))
  {
    assert JobOk(s, j);
    var p := s.jobs[j].phase;
    if !busy { MoveInv(s, j, p.(asked := true)); }
    SentInv(if busy then s else Move(s, j, p.(asked := true)), j,
            if p.next.None? then Begin else Chunk, busy, admitted);
  }

  lemma UploadedInv(s: System, j: nat, reply: Option<Receipt>)
    requires Inv(s) && Enabled(s, Uploaded(j, reply))
    ensures Inv(Next(s, Uploaded(j, reply)))
  {
    assert JobOk(s, j);
    var p := s.jobs[j].phase;
    match UploadStep(s.sender.txs[s.jobs[j].id], s.jobs[j].id, p.transport, p.next, reply)
    case Go(next) =>
      MoveInv(s, j, if s.jobs[j].returned then Done(Some(Transport)) else p.(next := Some(next), asked := false));
    case Stop(e) => MoveInv(s, j, Done(Some(e)));
    case Judged(r) => SettleInv(s, j, r);
  }

  lemma InvNext(s: System, a: Action)
    requires Inv(s) && Enabled(s, a)
    ensures Inv(Next(s, a))
  {
    if !a.SendStart? && !a.ExplicitPush? { assert JobOk(s, a.j); }
    match a
    case SendStart(d, size, newId) => BegunInv(s, d, size, newId);
    case Acquire(j) =>
      var t := Next(s, a);
      forall k | 0 <= k < |t.jobs| ensures JobOk(t, k) { assert JobOk(s, k); }
      EventsKeep(s, t);
    case Route(j, status, transport) => RouteInv(s, j, status, transport);
    case Upload(j, busy, admitted) => UploadInv(s, j, busy, admitted);
    case Uploaded(j, reply) => UploadedInv(s, j, reply);
    case MarkCommitted(j) => CommitmentInv(s, j);
    case SendCommit(j, busy, admitted) =>
      if !busy { MoveInv(s, j, Awaiting(Commit)); }
      SentInv(if busy then s else Move(s, j, Awaiting(Commit)), j, Commit, busy, admitted);
    case SendQuery(j, busy) =>
      if !busy { MoveInv(s, j, Awaiting(Query)); }
      SentInv(if busy then s else Move(s, j, Awaiting(Query)), j, Query, busy, false);
    case Reply(j, reply) =>
      if reply.None? { MoveInv(s, j, Done(Some(Transport))); }
      else if reply.value.op != s.jobs[j].phase.op || reply.value.id != s.jobs[j].id {
        MoveInv(s, j, Done(Some(InvalidReply)));
      } else { SettleInv(s, j, reply.value); }
    case Abort(j, error) => MoveInv(s, j, Done(Some(error)));
    case Return(j) => ConcludeInv(s, j, s.jobs[j].phase.error);
    case ReturnEarly(j) => ConcludeInv(s, j, Some(Transport));
    case ExplicitPush(d) =>
      var t := Next(s, a);
      forall k | 0 <= k < |t.jobs| ensures JobOk(t, k) { assert JobOk(s, k); }
      EventsKeep(s, t);
  }

  lemma {:induction false} InvHolds(run: Run)
    requires Feasible(run)
    ensures Inv(Final(run))
  {
    match run
    case Start =>
    case Then(before, step) =>
      InvHolds(before);
      InvNext(Final(before), step);
  }

  predicate CommitFrame(e: Event) { e.Frame? && e.op.Commit? }

  /**
    Over every run, whatever the device answers and however late a job ends: a request has at most
    one admitted COMMIT; every frame after a COMMIT that was not refused is a QUERY; and once the
    transaction is marked committed nothing but that COMMIT and QUERYs carry its ID.
   */
  lemma {:induction false} AtMostOneAdmittedCommit(run: Run, a: nat, b: nat)
    requires Feasible(run)
    requires a < b < |Final(run).log|
    ensures var log := Final(run).log;
      && !(CommitFrame(log[a]) && CommitFrame(log[b]) && log[a].admitted && log[b].admitted && log[a].id == log[b].id)
      && (CommitFrame(log[a]) && !log[a].busy && log[b].Frame? && log[b].id == log[a].id ==> log[b].op.Query?)
      && (log[a].Marked? && log[b].Frame? && log[b].id == log[a].id ==> log[b].op.Commit? || log[b].op.Query?)
  {
    InvHolds(run);
    assert PairAllowed(Final(run).log[a], Final(run).log[b]);
    assert EventOk(Final(run), Final(run).log[a]);
  }

  // ---------------------------------------------------------------- success needs a completion receipt

  /** Before `end` the log holds the matching completion receipt of request `id`. */
  ghost predicate Confirmed(log: seq<Event>, id: RequestId, end: nat)
    requires end <= |log|
  {
    exists a | 0 <= a < end :: log[a].Verdict? && log[a].ok && log[a].id == id
  }

  ghost predicate SuccessInv(s: System) {
    && (forall id | id in s.sender.txs && s.sender.txs[id].outcome.Displayed? :: Confirmed(s.log, id, |s.log|))
    && (forall b | 0 <= b < |s.log| && s.log[b].Returned? && s.log[b].ok :: Confirmed(s.log, s.log[b].id, b))
  }

  lemma EmitSuccess(s: System, e: Event)
    requires SuccessInv(s) && (e.Returned? && e.ok ==> Confirmed(s.log, e.id, |s.log|))
    ensures SuccessInv(Emit(s, e))
  {
    var t := Emit(s, e);
    forall id, end: nat | end <= |s.log| && Confirmed(s.log, id, end)
      ensures Confirmed(t.log, id, end) && Confirmed(t.log, id, |t.log|)
    {
      var a :| 0 <= a < end && s.log[a].Verdict? && s.log[a].ok && s.log[a].id == id;
      assert t.log[a] == s.log[a];
    }
  }

  lemma DecideSuccess(s: System, id: RequestId, outcome: Outcome, receipt: Option<Receipt>)
    requires s.sender.Valid() && SuccessInv(s) && id in s.sender.txs && !outcome.Open?
    ensures SuccessInv(Decide(s, id, outcome, receipt))
  {
    var t := Decide(s, id, outcome, receipt);
    EmitSuccess(s, t.log[|s.log|]);
    if outcome.Displayed? {
      assert t.log[|s.log|].Verdict? && t.log[|s.log|].ok && t.log[|s.log|].id == id;
    }
  }

  lemma SuccessNext(s: System, a: Action)
    requires Inv(s) && SuccessInv(s) && Enabled(s, a)
    ensures SuccessInv(Next(s, a))
  {
    hide EventOk, Ordered, Judge, Conclude, UploadStep;
    if !a.SendStart? && !a.ExplicitPush? { assert JobOk(s, a.j); }
    match a
    case SendStart(d, size, newId) =>
      var (sender, admission) := Admit(s.sender, d, size, newId);
      if admission.Settled? {
        EmitSuccess(s.(sender := sender), Returned(sender.current.value, admission.outcome.Displayed?));
      }
    case Route(j, status, transport) =>
      DecideSuccess(Move(s, j, Done(Some(OutcomeUnknown))), s.jobs[j].id, Ended(OutcomeUnknown), None);
    case Upload(_, _, _) => FrameSuccess(s, a);
    case Uploaded(j, reply) => UploadedSuccess(s, j, reply);
    case MarkCommitted(j) =>
      var p := s.jobs[j].phase;
      EmitSuccess(Move(s.(sender := Mark(s.sender, s.jobs[j].id, p.target, p.binding)), j, Committing(p.transport)),
                  Marked(s.jobs[j].id, s.sender.txs[s.jobs[j].id].digest));
    case SendCommit(_, _, _) => FrameSuccess(s, a);
    case SendQuery(_, _) => FrameSuccess(s, a);
    case Reply(j, reply) =>
      if reply.Some? { SettleSuccess(s, j, reply.value); }
    case Return(j) => ConcludeSuccess(s, j, s.jobs[j].phase.error);
    case ReturnEarly(j) => ConcludeSuccess(s, j, Some(Transport));
    case _ =>
  }

  lemma FrameSuccess(s: System, a: Action)
    requires s.sender.Valid() && SuccessInv(s) && Enabled(s, a) && (a.Upload? || a.SendCommit? || a.SendQuery?)
    ensures SuccessInv(Next(s, a))
  {
    var t := Next(s, a);
    EmitSuccess(t.(log := s.log), t.log[|s.log|]);
  }

  lemma UploadedSuccess(s: System, j: nat, reply: Option<Receipt>)
    requires s.sender.Valid() && SuccessInv(s) && Enabled(s, Uploaded(j, reply))
    ensures SuccessInv(Next(s, Uploaded(j, reply)))
  {
    var p := s.jobs[j].phase;
    var step := UploadStep(s.sender.txs[s.jobs[j].id], s.jobs[j].id, p.transport, p.next, reply);
    if step.Judged? { SettleSuccess(s, j, step.receipt); }
  }

  lemma SettleSuccess(s: System, j: nat, r: Receipt)
    requires s.sender.Valid() && SuccessInv(s) && j < |s.jobs| && s.jobs[j].id in s.sender.txs
    ensures SuccessInv(Settle(s, j, r))
  {
    match Judge(s.sender.txs[s.jobs[j].id], s.jobs[j].id, r)
    case None =>
    case Some(o) =>
      DecideSuccess(Move(s, j, Done(if o.Ended? then Some(o.error) else None)), s.jobs[j].id, o, Some(r));
  }

  lemma ConcludeSuccess(s: System, j: nat, err: Option<ImageError>)
    requires s.sender.Valid() && SuccessInv(s) && j < |s.jobs| && s.jobs[j].id in s.sender.txs
    ensures SuccessInv(AfterConclude(s, j, err))
  {
    var c := Conclude(s.sender.txs[s.jobs[j].id], err);
    if c.decided.Some? { DecideSuccess(s, s.jobs[j].id, c.decided.value, None); }
    var m := if c.decided.Some? then Decide(s, s.jobs[j].id, c.decided.value, None) else s;
    EmitSuccess(m.(jobs := m.jobs[j := m.jobs[j].(returned := true)]), Returned(s.jobs[j].id, c.result.None?));
  }

  lemma {:induction false} SuccessHolds(run: Run)
    requires Feasible(run)
    ensures Inv(Final(run)) && SuccessInv(Final(run))
  {
    match run
    case Start =>
    case Then(before, step) =>
      SuccessHolds(before);
      InvNext(Final(before), step);
      SuccessNext(Final(before), step);
  }

  /** Send reports success only after a Complete receipt for this ID, size and digest, received to the end. */
  lemma {:induction false} SuccessNeedsMatchingCompletion(run: Run, b: nat) returns (a: nat)
    requires Feasible(run) && b < |Final(run).log| && Final(run).log[b].Returned? && Final(run).log[b].ok
    ensures var s := Final(run); var id := s.log[b].id;
      && a < b && id in s.sender.txs && s.log[a].Verdict? && s.log[a].ok && s.log[a].id == id
      && s.log[a].receipt.Some? && Completion(s.log[a].receipt.value, id, s.sender.txs[id])
  {
    SuccessHolds(run);
    var s := Final(run);
    assert Confirmed(s.log, s.log[b].id, b);
    a :| 0 <= a < b && s.log[a].Verdict? && s.log[a].ok && s.log[a].id == s.log[b].id;
    assert EventOk(s, s.log[a]);
  }

  // ---------------------------------------------------------------- a request under refresh keeps its identity

  predicate CommitUnderWay(p: Phase) {
    p.Committing? || p == Awaiting(Commit)
  }

  predicate IsUncertain(s: Sender, d: Digest, id: RequestId) {
    d in s.uncertain && s.uncertain[d] == id
  }

  /**
    What is uncertain was committed and is undecided; so is the request of a COMMIT under way, unless
    blocked; and a request that failed blocks its PNG.
   */
  ghost predicate UncertainInv(s: System)
    requires Inv(s)
  {
    && (forall id | id in s.sender.txs && s.sender.txs[id].outcome.Ended? ::
          s.sender.txs[id].digest in s.sender.blocked)
    && (forall d | d in s.sender.uncertain ::
          s.sender.txs[s.sender.uncertain[d]].committed && s.sender.txs[s.sender.uncertain[d]].outcome.Open?)
    && (forall j | 0 <= j < |s.jobs| :: JobOk(s, j) && JobUncertain(s, s.jobs[j]))
  }

  ghost predicate JobUncertain(s: System, job: Job)
    requires job.id in s.sender.txs
  {
    && (!job.phase.Done? && !s.sender.txs[job.id].committed ==> s.sender.txs[job.id].outcome.Open?)
    && (CommitUnderWay(job.phase) ==>
          job.digest in s.sender.blocked || IsUncertain(s.sender, job.digest, job.id))
  }

  lemma MoveUncertain(s: System, j: nat, to: Phase)
    requires Inv(s) && UncertainInv(s) && j < |s.jobs| && Inv(Move(s, j, to))
    requires CommitUnderWay(to) ==> CommitUnderWay(s.jobs[j].phase)
    requires s.jobs[j].phase.Done? ==> to.Done?
    ensures UncertainInv(Move(s, j, to))
  {
    var t := Move(s, j, to);
    forall k | 0 <= k < |t.jobs| ensures JobOk(t, k) && JobUncertain(t, t.jobs[k]) {
      assert JobOk(s, k) && JobUncertain(s, s.jobs[k]);
    }
  }

  lemma DecideUncertain(s: System, id: RequestId, outcome: Outcome, receipt: Option<Receipt>)
    requires Inv(s) && UncertainInv(s) && id in s.sender.txs && !outcome.Open?
    requires Inv(Decide(s, id, outcome, receipt))
    requires forall k | 0 <= k < |s.jobs| && s.jobs[k].id == id ::
               s.jobs[k].phase.Done? || s.sender.txs[id].committed
    requires outcome.Displayed? ==> forall k | 0 <= k < |s.jobs| :: !CommitUnderWay(s.jobs[k].phase)
    ensures UncertainInv(Decide(s, id, outcome, receipt))
  {
    var t := Decide(s, id, outcome, receipt);
    forall k | 0 <= k < |t.jobs| ensures JobOk(t, k) && JobUncertain(t, t.jobs[k]) {
      assert JobOk(s, k) && JobUncertain(s, s.jobs[k]);
    }
  }

  lemma SettleUncertain(s: System, j: nat, r: Receipt)
    requires Inv(s) && UncertainInv(s) && j < |s.jobs| && s.jobs[j].id in s.sender.txs && s.jobs[j].phase.OnRadio()
    requires s.sender.txs[s.jobs[j].id].committed || s.jobs[j].creator
    ensures Inv(Settle(s, j, r)) && UncertainInv(Settle(s, j, r))
  {
    SettleInv(s, j, r);
    var id := s.jobs[j].id;
    assert JobOk(s, j);
    match Judge(s.sender.txs[id], id, r)
    case None => MoveUncertain(s, j, Done(Some(Pending)));
    case Some(o) =>
      var to := Done(if o.Ended? then Some(o.error) else None);
      MoveInv(s, j, to);
      MoveUncertain(s, j, to);
      forall k | 0 <= k < |s.jobs|
        ensures CommitUnderWay(s.jobs[k].phase) ==> k == j
        ensures s.jobs[k].id == id ==> k == j || s.sender.txs[id].committed
      {
        assert JobOk(s, k);
      }
      DecideUncertain(Move(s, j, to), id, o, Some(r));
  }

  lemma ConcludeUncertain(s: System, j: nat, err: Option<ImageError>)
    requires Inv(s) && UncertainInv(s) && j < |s.jobs| && s.jobs[j].id in s.sender.txs
    requires s.jobs[j].phase.Done? || err == Some(Transport)
    ensures Inv(AfterConclude(s, j, err)) && UncertainInv(AfterConclude(s, j, err))
  {
    ConcludeInv(s, j, err);
    hide EventOk, Ordered;
    var c := Conclude(s.sender.txs[s.jobs[j].id], err);
    if c.decided.Some? {
      forall k | 0 <= k < |s.jobs| && s.jobs[k].id == s.jobs[j].id
        ensures s.jobs[k].phase.Done? || s.sender.txs[s.jobs[j].id].committed
      {
        assert JobOk(s, k) && JobOk(s, j);
      }
      DecideInv(s, s.jobs[j].id, c.decided.value, None);
      DecideUncertain(s, s.jobs[j].id, c.decided.value, None);
    }
    var m := if c.decided.Some? then Decide(s, s.jobs[j].id, c.decided.value, None) else s;
    var t := AfterConclude(s, j, err);
    forall k | 0 <= k < |t.jobs| ensures JobOk(t, k) && JobUncertain(t, t.jobs[k]) {
      assert JobOk(m, k) && JobUncertain(m, m.jobs[k]);
    }
  }

  lemma CommitmentUncertain(s: System, j: nat)
    requires Inv(s) && UncertainInv(s) && Enabled(s, MarkCommitted(j))
    ensures Inv(Commitment(s, j)) && UncertainInv(Commitment(s, j))
  {
    CommitmentInv(s, j);
    var t := Commitment(s, j);
    assert JobOk(s, j) && JobUncertain(s, s.jobs[j]);
    forall k | 0 <= k < |t.jobs| ensures JobOk(t, k) && JobUncertain(t, t.jobs[k]) {
      assert JobOk(s, k) && JobUncertain(s, s.jobs[k]);
    }
  }

  lemma BegunUncertain(s: System, d: Digest, size: nat, newId: RequestId)
    requires Inv(s) && UncertainInv(s) && newId != 0 && newId !in s.sender.txs
    ensures Inv(Begun(s, d, size, newId)) && UncertainInv(Begun(s, d, size, newId))
  {
    BegunInv(s, d, size, newId);
    hide EventOk, Ordered;
    var t := Begun(s, d, size, newId);
    forall k | 0 <= k < |t.jobs| ensures JobOk(t, k) && JobUncertain(t, t.jobs[k]) {
      if k < |s.jobs| { assert JobOk(s, k) && JobUncertain(s, s.jobs[k]); }
    }
  }

  /** A step that moves one job along, with or without a frame, and leaves the sender alone. */
  lemma MovedUncertain(s: System, j: nat, to: Phase, t: System)
    requires Inv(s) && UncertainInv(s) && j < |s.jobs| && Inv(t)
    requires t.sender == s.sender && t.jobs == s.jobs[j := s.jobs[j].(phase := to)]
    requires CommitUnderWay(to) ==> CommitUnderWay(s.jobs[j].phase)
    requires s.jobs[j].phase.Done? ==> to.Done?
    ensures UncertainInv(t)
  {
    forall k | 0 <= k < |t.jobs| ensures JobOk(t, k) && JobUncertain(t, t.jobs[k]) {
      assert JobOk(s, k) && JobUncertain(s, s.jobs[k]) && JobOk(t, k);
    }
  }

  lemma RouteUncertain(s: System, j: nat, status: Result<(Target, BindingId), ImageError>, transport: Transport)
    requires Inv(s) && UncertainInv(s) && Enabled(s, Route(j, status, transport))
    requires Inv(Next(s, Route(j, status, transport)))
    ensures UncertainInv(Next(s, Route(j, status, transport)))
  {
    var t := Next(s, Route(j, status, transport));
    assert JobOk(s, j);
    if s.sender.txs[s.jobs[j].id].committed && t.jobs[j].phase == Done(Some(OutcomeUnknown)) {
      var to := Done(Some(OutcomeUnknown));
      MoveInv(s, j, to);
      MoveUncertain(s, j, to);
      if |t.log| > |s.log| { DecideUncertain(Move(s, j, to), s.jobs[j].id, Ended(OutcomeUnknown), None); }
    } else {
      MovedUncertain(s, j, t.jobs[j].phase, t);
    }
  }

  lemma UploadedUncertain(s: System, j: nat, reply: Option<Receipt>)
    requires Inv(s) && UncertainInv(s) && Enabled(s, Uploaded(j, reply)) && Inv(Next(s, Uploaded(j, reply)))
    ensures UncertainInv(Next(s, Uploaded(j, reply)))
  {
    var t := Next(s, Uploaded(j, reply));
    var p := s.jobs[j].phase;
    assert JobOk(s, j);
    var step := UploadStep(s.sender.txs[s.jobs[j].id], s.jobs[j].id, p.transport, p.next, reply);
    if step.Judged? { SettleUncertain(s, j, step.receipt); } else { MovedUncertain(s, j, t.jobs[j].phase, t); }
  }

  lemma ReplyUncertain(s: System, j: nat, reply: Option<Receipt>)
    requires Inv(s) && UncertainInv(s) && Enabled(s, Reply(j, reply)) && Inv(Next(s, Reply(j, reply)))
    ensures UncertainInv(Next(s, Reply(j, reply)))
  {
    var t := Next(s, Reply(j, reply));
    assert JobOk(s, j);
    if reply.Some? && reply.value.op == s.jobs[j].phase.op && reply.value.id == s.jobs[j].id {
      SettleUncertain(s, j, reply.value);
    } else {
      MovedUncertain(s, j, t.jobs[j].phase, t);
    }
  }

  lemma PushUncertain(s: System, d: Digest)
    requires Inv(s) && UncertainInv(s) && Inv(Next(s, ExplicitPush(d)))
    ensures UncertainInv(Next(s, ExplicitPush(d)))
  {
    var t := Next(s, ExplicitPush(d));
    forall k | 0 <= k < |t.jobs| ensures JobOk(t, k) && JobUncertain(t, t.jobs[k]) {
      assert JobOk(s, k) && JobUncertain(s, s.jobs[k]);
    }
  }

  lemma UncertainNext(s: System, a: Action)
    requires Inv(s) && UncertainInv(s) && Enabled(s, a)
    ensures Inv(Next(s, a)) && UncertainInv(Next(s, a))
  {
    hide Conclude, Judge, UploadStep, AfterRoute, AfterUpload, AfterConclude, Commitment, Begun, Settle;
    hide UncertainInv, EventOk, Ordered, PrepareExplicitPush;
    InvNext(s, a);
    var t := Next(s, a);
    match a
    case SendStart(d, size, newId) => BegunUncertain(s, d, size, newId);
    case Route(j, status, transport) => RouteUncertain(s, j, status, transport);
    case Uploaded(j, reply) => UploadedUncertain(s, j, reply);
    case MarkCommitted(j) => CommitmentUncertain(s, j);
    case Reply(j, reply) => ReplyUncertain(s, j, reply);
    case Return(j) => ConcludeUncertain(s, j, s.jobs[j].phase.error);
    case ReturnEarly(j) => ConcludeUncertain(s, j, Some(Transport));
    case ExplicitPush(d) => PushUncertain(s, d);
    case _ => MovedUncertain(s, a.j, t.jobs[a.j].phase, t);
  }

  lemma {:induction false} UncertainHolds(run: Run)
    requires Feasible(run)
    ensures Inv(Final(run)) && UncertainInv(Final(run))
  {
    match run
    case Start =>
    case Then(before, step) =>
      UncertainHolds(before);
      UncertainNext(Final(before), step);
  }

  /**
    Over every run, no receipt that says the panel is still refreshing, and none that says it has
    refreshed, ever decides a request against its PNG.
   */
  lemma {:induction false} RefreshingNeverFails(run: Run, a: nat)
    requires Feasible(run) && a < |Final(run).log|
    requires Final(run).log[a].Verdict? && Final(run).log[a].receipt.Some?
    ensures var s := Final(run); var e := s.log[a];
      && e.id in s.sender.txs
      && !Refreshing(e.receipt.value, e.id, s.sender.txs[e.id])
      && (e.ok <==> Completion(e.receipt.value, e.id, s.sender.txs[e.id]))
  {
    InvHolds(run);
    assert EventOk(Final(run), Final(run).log[a]);
  }

  /** An error that ends a request for good when its Send returns. */
  predicate Decisive(error: ImageError, committed: bool) {
    match error
    case OutcomeUnknown => true
    case InvalidReply => true
    case Fault(_) => true
    case NotPaired => committed
    case Authentication => committed
    case _ => false
  }

  /** The signed answer, status or final error that decides request `id` in this step. */
  ghost predicate Decides(s: System, a: Action, id: RequestId)
    requires s.sender.Valid() && Enabled(s, a) && id in s.sender.txs
  {
    var tx := s.sender.txs[id];
    match a
    case Uploaded(j, Some(r)) =>
      && s.jobs[j].id == id == r.id && s.jobs[j].phase.next.None? && r.op.Begin?
      && (r.state.Complete? || r.state.Failed? || r.state.Canceled?)
    case Reply(j, Some(r)) =>
      s.jobs[j].id == id == r.id && r.op == s.jobs[j].phase.op && !Refreshing(r, id, tx)
    case Route(j, status, _) =>
      && s.jobs[j].id == id && tx.committed
      && (if status.Ok? then tx.pinned != Some(status.value) else status.error.Unavailable?)
    case Return(j) =>
      s.jobs[j].id == id && s.jobs[j].phase.error.Some? && Decisive(s.jobs[j].phase.error.value, tx.committed)
    case _ => false
  }

  lemma ReplyDecides(s: System, a: Action, id: RequestId)
    requires Inv(s) && Enabled(s, a) && id in s.sender.txs && s.sender.txs[id].outcome.Open?
    requires a.Uploaded? || a.Reply?
    ensures id in Next(s, a).sender.txs
    ensures Next(s, a).sender.txs[id].outcome.Open? <==> !Decides(s, a, id)
  {
    hide Conclude, EventOk, Ordered;
    assert JobOk(s, a.j);
  }

  lemma EndDecides(s: System, a: Action, id: RequestId)
    requires Inv(s) && Enabled(s, a) && id in s.sender.txs && s.sender.txs[id].outcome.Open?
    requires a.Return? || a.ReturnEarly? || a.Route?
    ensures id in Next(s, a).sender.txs
    ensures Next(s, a).sender.txs[id].outcome.Open? <==> !Decides(s, a, id)
  {
    hide Judge, EventOk, Ordered;
    assert JobOk(s, a.j);
  }

  /**
    An undecided request is decided in a step exactly by one of those causes: a lost link, a timeout,
    a refreshing panel, a new Send or an explicit push never decide it.
   */
  lemma DecidedExactlyByCause(s: System, a: Action, id: RequestId)
    requires Inv(s) && Enabled(s, a) && id in s.sender.txs && s.sender.txs[id].outcome.Open?
    ensures id in Next(s, a).sender.txs
    ensures Next(s, a).sender.txs[id].outcome.Open? <==> !Decides(s, a, id)
  {
    hide EventOk, Ordered, JobOk;
    match a
    case Uploaded(_, _) => ReplyDecides(s, a, id);
    case Reply(_, _) => ReplyDecides(s, a, id);
    case Return(_) => EndDecides(s, a, id);
    case ReturnEarly(_) => EndDecides(s, a, id);
    case Route(_, _, _) => EndDecides(s, a, id);
    case _ =>
  }

  /**
    The upload goes on exactly after a signed receipt for this request that receives it up to the
    offset the sender expects, or without one after a CoC chunk. Only the codes for busy and for
    memory are worth a retry.
   */
  lemma UploadProceedsExactly(tx: Tx, id: RequestId, t: Transport, next: Option<nat>, reply: Option<Receipt>)
    ensures var step := UploadStep(tx, id, t, next, reply);
            var end := if next.None? then 0 else if next.value + ChunkLimit(t) < tx.size then next.value + ChunkLimit(t)
                       else tx.size;
      && (step.Go? <==> reply.Some? && match next {
            case None => reply.value == Receipt(Receiving, Begin, 0, id, tx.size, reply.value.received, tx.digest)
                         && reply.value.received <= tx.size
            case Some(_) => t.Coc? || reply.value == Receipt(Receiving, Chunk, 0, id, tx.size, end, tx.digest)
          })
      && (step.Go? ==> step.next == if next.None? then reply.value.received else end)
      && (step.Judged? ==> next.None? && reply == Some(step.receipt) && step.receipt.op.Begin? && step.receipt.id == id)
      && (step.Stop? ==> step.error.Transport? || step.error.Permanent() || step.error.Retryable?)
      && (step.Stop? && step.error.Retryable? ==>
            reply.Some? && reply.value.state.Rejected? && reply.value.code == step.error.code
                && step.error.code in {2, 5})
      && (step.Stop? && step.error.Fault? ==>
            reply.Some? && reply.value.state.Rejected? && reply.value.code == step.error.code
                && step.error.code !in {2, 5})
  {
  }

  /**
    A Send is refused exactly for a blocked PNG, answered at once exactly for the PNG its last request
    is known to have displayed, and resumes exactly a request of the PNG that was committed and is
    undecided; every other Send uploads under a new ID.
   */
  lemma {:induction false} AdmittedExactly(run: Run, d: Digest, size: nat, newId: RequestId)
    requires Feasible(run) && newId != 0 && newId !in Final(run).sender.txs
    ensures var s := Final(run).sender; var admission := Admit(s, d, size, newId).1;
      var last := s.current.Some? && s.txs[s.current.value].digest == d && d !in s.uncertain && d !in s.blocked;
      && (admission.Refused? <==> d in s.blocked)
      && (admission.Refused? ==> admission.error == s.blocked[d])
      && (admission.Settled? <==> last && s.txs[s.current.value].outcome.Displayed?)
      && (admission.Proceed? && !admission.created <==>
            || (d in s.uncertain && d !in s.blocked)
            || (last && s.txs[s.current.value].committed && s.txs[s.current.value].outcome.Open?))
      && (admission.Proceed? ==>
            admission.id == if admission.created then newId
                            else if d in s.uncertain then s.uncertain[d] else s.current.value)
  {
    UncertainHolds(run);
  }

  /**
    An explicit push is refused while any request is uncertain, or for a blocked PNG. Where it is
    allowed, the next Send of the PNG uploads it under a new ID even if the panel shows it already,
    unless its current request was committed and is still undecided.
   */
  lemma {:induction false} ExplicitPushSendsAgain(run: Run, d: Digest, size: nat, newId: RequestId)
    requires Feasible(run) && newId != 0 && newId !in Final(run).sender.txs
    ensures var s := Final(run).sender; var (after, error) := PrepareExplicitPush(s, d);
      && (error == Some(Pending) <==> s.uncertain != map[] || (d in s.blocked && s.blocked[d].Pending?))
      && (error.None? <==> s.uncertain == map[] && d !in s.blocked)
      && (error.None? ==>
            (Admit(after, d, size, newId).1 == Proceed(newId, true) <==>
             !(s.current.Some? && s.txs[s.current.value].digest == d && s.txs[s.current.value].committed
               && s.txs[s.current.value].outcome.Open?)))
  {
    UncertainHolds(run);
    var s := Final(run).sender;
    if s.uncertain != map[] { assert exists e :: e in s.uncertain; }
  }

  /** The answer to a COMMIT or QUERY, in a run. */
  ghost predicate Answered(run: Run, j: nat, r: Receipt) {
    && Feasible(run) && Enabled(Final(run), Reply(j, Some(r)))
    && r.op == Final(run).jobs[j].phase.op
    && Refreshing(r, Final(run).jobs[j].id, Final(run).sender.txs[Final(run).jobs[j].id])
  }

  lemma PendingReply(s: System, j: nat, r: Receipt)
    requires Inv(s) && Enabled(s, Reply(j, Some(r))) && r.op == s.jobs[j].phase.op
    requires Refreshing(r, s.jobs[j].id, s.sender.txs[s.jobs[j].id])
    ensures Next(s, Reply(j, Some(r))) == Move(s, j, Done(Some(Pending)))
    ensures s.sender.txs[s.jobs[j].id].committed && s.radio == Some(j)
  {
    assert JobOk(s, j);
  }

  lemma PendingReturn(s: System, j: nat)
    requires s.sender.Valid() && Enabled(s, Return(j)) && s.jobs[j].phase == Done(Some(Pending))
    requires s.sender.txs[s.jobs[j].id].committed && s.sender.txs[s.jobs[j].id].outcome.Open?
    ensures Next(s, Return(j)) == Retire(s, j, false)
  {
  }

  /**
    A panel that is still refreshing changes nothing the sender knows: the answer decides nothing, the
    radio is free again, and the Send that waited for it reports the request as pending and leaves it
    open.
   */
  lemma {:induction false} RefreshingLeavesTheRequestOpen(run: Run, j: nat, r: Receipt) returns (after: Run)
    requires Answered(run, j, r)
    requires !Final(run).jobs[j].returned
    requires Final(run).sender.txs[Final(run).jobs[j].id].outcome.Open?
    ensures after == Then(Then(run, Reply(j, Some(r))), Return(j)) && Feasible(after)
    ensures Final(Then(run, Reply(j, Some(r)))).log == Final(run).log
    ensures Final(after).sender == Final(run).sender && Final(after).radio.None?
    ensures Final(after).log == Final(run).log + [Returned(Final(run).jobs[j].id, false)]
    ensures Final(after).jobs[j] == Final(run).jobs[j].(phase := Done(Some(Pending)), returned := true)
  {
    hide Next, Inv;
    InvHolds(run);
    PendingReply(Final(run), j, r);
    var mid := Then(run, Reply(j, Some(r)));
    assert Feasible(mid);
    PendingReturn(Final(mid), j);
    after := Then(mid, Return(j));
  }

  /** This Send starts a job for request `id`, which it did not create and so will not upload. */
  ghost predicate Resumes(s: System, a: Action, id: RequestId)
    requires s.sender.Valid() && Enabled(s, a) && a.SendStart?
  {
    Next(s, a).jobs == s.jobs + [Job(id, a.digest, false, Waiting, false)] && Next(s, a).sender.txs == s.sender.txs
  }

  lemma ResumesExactly(s: System, a: Action, id: RequestId)
    requires s.sender.Valid() && a.SendStart? && Enabled(s, a)
    requires id in s.sender.txs && s.sender.txs[id].digest == a.digest
    requires s.sender.txs[id].committed && s.sender.txs[id].outcome.Open?
    ensures Resumes(s, a, id) <==>
              && a.digest !in s.sender.blocked
              && if a.digest in s.sender.uncertain then s.sender.uncertain[a.digest] == id
                 else s.sender.current == Some(id)
  {
    if Resumes(s, a, id) { assert Next(s, a).jobs[|s.jobs|].id == id; }
  }

  /**
    After a COMMIT answered by a panel still refreshing, the next Send of the PNG resumes that very
    request exactly when the PNG is not blocked; a QUERY so answered is resumed exactly when the PNG
    is not blocked and the request is the one the sender looks for.
   */
  lemma {:induction false} RefreshingIsResumed(run: Run, j: nat, r: Receipt, size: nat, newId: RequestId)
    returns (after: Run, again: Action)
    requires Answered(run, j, r)
    requires !Final(run).jobs[j].returned
    requires Final(run).sender.txs[Final(run).jobs[j].id].outcome.Open?
    requires newId != 0 && newId !in Final(run).sender.txs
    ensures after == Then(Then(run, Reply(j, Some(r))), Return(j)) && Feasible(after)
    ensures again == SendStart(Final(run).jobs[j].digest, size, newId) && Enabled(Final(after), again)
    ensures var job := Final(run).jobs[j]; var sender := Final(run).sender;
      && (r.op.Commit? ==> (Resumes(Final(after), again, job.id) <==> job.digest !in sender.blocked))
      && (Resumes(Final(after), again, job.id) <==>
            && job.digest !in sender.blocked
            && if job.digest in sender.uncertain then sender.uncertain[job.digest] == job.id
               else sender.current == Some(job.id))
  {
    hide Next, Resumes;
    UncertainHolds(run);
    after := RefreshingLeavesTheRequestOpen(run, j, r);
    var s, job := Final(run), Final(run).jobs[j];
    assert JobOk(s, j) && JobUncertain(s, job);
    again := SendStart(job.digest, size, newId);
    assert Enabled(Final(after), again);
    ResumesExactly(Final(after), again, job.id);
  }

  lemma ResumeUncertain(s: System, d: Digest, size: nat, newId: RequestId)
    requires Inv(s) && UncertainInv(s) && Enabled(s, SendStart(d, size, newId))
    requires d in s.sender.uncertain && d !in s.sender.blocked
    ensures var id := s.sender.uncertain[d];
            && id in s.sender.txs && s.sender.txs[id].committed && s.sender.txs[id].outcome.Open?
            && Next(s, SendStart(d, size, newId)) ==
               s.(sender := s.sender.(current := Some(id)), jobs := s.jobs + [Job(id, d, false, Waiting, false)])
  {
  }

  lemma RouteCommitted(s: System, j: nat, status: Result<(Target, BindingId), ImageError>, t: Transport)
    requires s.sender.Valid() && j < |s.jobs| && s.jobs[j].id in s.sender.txs && s.sender.txs[s.jobs[j].id].committed
    ensures var r := AfterRoute(s, j, status, t); var tx := s.sender.txs[s.jobs[j].id];
      && r.jobs[..j] == s.jobs[..j] && |r.jobs| == |s.jobs|
      && var given := (status.Ok? && tx.pinned == Some(status.value)) || (status.Err? && !status.error.Unavailable?);
      && r.jobs[j] == s.jobs[j].(phase := if !given then Done(Some(OutcomeUnknown))
                                          else if status.Ok? then Querying(t) else Done(Some(status.error)))
      && (r.log == s.log <==> given)
  {
  }

  /**
    In every state of every run, the Send of a PNG whose request may have been committed goes on with
    that request: its job is routed to QUERY on the target and bond it was committed to, and to an
    unknown outcome on any other, never to a second upload.
   */
  lemma {:induction false} UncertainIsQueried(run: Run, d: Digest, size: nat, newId: RequestId,
                                              status: Result<(Target, BindingId), ImageError>, t: Transport)
    returns (routed: Run)
    requires Feasible(run) && Enabled(Final(run), SendStart(d, size, newId)) && Final(run).radio.None? && Usable(t)
    requires d in Final(run).sender.uncertain && d !in Final(run).sender.blocked
    ensures var j := |Final(run).jobs|;
      && routed == Then(Then(Then(run, SendStart(d, size, newId)), Acquire(j)), Route(j, status, t))
      && Feasible(routed)
    ensures var s := Final(run); var id := s.sender.uncertain[d]; var tx := s.sender.txs[id];
      && Final(routed).jobs[..|s.jobs|] == s.jobs && Final(routed).jobs[|s.jobs|].id == id
      && Final(routed).jobs[|s.jobs|].phase ==
           (if status.Ok? && tx.pinned == Some(status.value) then Querying(t)
            else if status.Ok? || status.error.Unavailable? then Done(Some(OutcomeUnknown))
            else Done(Some(status.error)))
      && (Final(routed).log == s.log <==>
            Final(routed).jobs[|s.jobs|].phase.Querying? || (status.Err? && !status.error.Unavailable?))
  {
    hide Inv, AfterRoute;
    UncertainHolds(run);
    var s, j := Final(run), |Final(run).jobs|;
    ResumeUncertain(s, d, size, newId);
    var one := Then(run, SendStart(d, size, newId));
    assert Feasible(one) && Enabled(Final(one), Acquire(j));
    var two := Then(one, Acquire(j));
    assert Feasible(two) && Enabled(Final(two), Route(j, status, t));
    RouteCommitted(Final(two), j, status, t);
    routed := Then(two, Route(j, status, t));
  }

  // ---------------------------------------------------------------- the object

  /**
    The sender object. Its methods are the regions the source runs under `mu`; a transaction pointer
    is the request ID that keys `txs`. Every method moves the abstract value exactly as its function.
   */
  class AppImageSender {
    var txs: map<RequestId, Tx>
    var current: Option<RequestId>
    var uncertain: map<Digest, RequestId>
    var blocked: map<Digest, ImageError>

    ghost function View(): Sender
      reads this
    {
      Sender(txs, current, uncertain, blocked)
    }

    ghost predicate Valid()
      reads this
    {
      View().Valid()
    }

    constructor ()
      ensures Valid() && View() == EMPTY_SENDER
    {
      txs, current, uncertain, blocked := map[], None, map[], map[];
    }

    method BeginSend(d: Digest, size: nat, newId: RequestId) returns (admission: Admission)
      requires Valid() && newId != 0 && newId !in txs
      modifies this
      ensures Valid() && (View(), admission) == Admit(old(View()), d, size, newId)
    {
      if d in blocked {
        return Refused(blocked[d]);
      }
      var tx: Option<RequestId> := None;
      if d in uncertain {
        tx := Some(uncertain[d]);
      } else if current.Some? && txs[current.value].digest == d {
        tx := current;
      }
      if tx.Some? && !txs[tx.value].committed && txs[tx.value].outcome.Open? {
        tx := None;
      }
      var created := tx.None?;
      if created {
        txs := txs[newId := Tx(d, size, None, false, Open)];
        tx := Some(newId);
      }
      current := tx;
      var outcome := txs[tx.value].outcome;
      if outcome.Open? {
        admission := Proceed(tx.value, created);
      } else {
        admission := Settled(outcome);
      }
    }

    method MarkCommitted(id: RequestId, target: Target, binding: BindingId)
      requires Valid() && id in txs
      modifies this
      ensures Valid() && View() == Mark(old(View()), id, target, binding)
    {
      var tx := txs[id];
      txs := txs[id := tx.(committed := true, pinned := Some((target, binding)))];
      uncertain := uncertain[tx.digest := id];
    }

    method FinishTx(id: RequestId, outcome: Outcome)
      requires Valid() && id in txs && !outcome.Open?
      modifies this
      ensures Valid() && View() == Finish(old(View()), id, outcome)
    {
      var d := txs[id].digest;
      txs := txs[id := txs[id].(outcome := outcome)];
      uncertain := map e | e in uncertain && e != d :: uncertain[e];
      if outcome.Ended? {
        blocked := blocked[d := outcome.error];
      }
    }

    /** `receipt`: no result means success; Pending leaves the transaction open. */
    method TakeReceipt(id: RequestId, r: Receipt) returns (result: Option<ImageError>)
      requires Valid() && id in txs
      modifies this
      ensures Valid()
      ensures match Judge(old(txs)[id], id, r)
              case None => View() == old(View()) && result == Some(Pending)
              case Some(o) => View() == Finish(old(View()), id, o)
                              && result == if o.Ended? then Some(o.error) else None
      ensures result == Some(Pending) <==> Refreshing(r, id, old(txs)[id])
      ensures result == None <==> Completion(r, id, old(txs)[id])
    {
      var tx := txs[id];
      if r.state.Missing? || r.id != id || r.digest != tx.digest || r.size != tx.size || r.received > r.size {
        FinishTx(id, Ended(OutcomeUnknown));
        return Some(OutcomeUnknown);
      }
      if r.state.Processing? && r.code == 0 && r.received == r.size {
        return Some(Pending);
      }
      if r.state.Complete? && r.code == 0 && r.received == r.size {
        FinishTx(id, Displayed);
        return None;
      }
      if r.state.Failed? || r.state.Canceled? {
        FinishTx(id, Ended(Fault(r.code)));
        return Some(Fault(r.code));
      }
      FinishTx(id, Ended(OutcomeUnknown));
      return Some(OutcomeUnknown);
    }

    /** The end of Send, run with the error its job or its context reported. */
    method EndSend(id: RequestId, err: Option<ImageError>) returns (result: Option<ImageError>)
      requires Valid() && id in txs
      modifies this
      ensures Valid() && result == Conclude(old(txs)[id], err).result
      ensures var decided := Conclude(old(txs)[id], err).decided;
              View() == if decided.Some? then Finish(old(View()), id, decided.value) else old(View())
    {
      var tx := txs[id];
      match tx.outcome {
        case Displayed => return None;
        case Ended(e) => return Some(e);
        case Open =>
      }
      if !tx.committed && err.Some? && (err.value.NotPaired? || err.value.Authentication?) {
        return err;
      }
      if err.Some? && (err.value.Authentication? || err.value.Permanent()) {
        var e := if tx.committed then OutcomeUnknown else err.value;
        FinishTx(id, Ended(e));
        return Some(e);
      }
      if tx.committed {
        return Some(Pending);
      }
      return if err.None? then Some(InvalidReply) else err;
    }

    method ExplicitPush(d: Digest) returns (result: Option<ImageError>)
      requires Valid()
      modifies this
      ensures Valid() && (View(), result) == PrepareExplicitPush(old(View()), d)
    {
      var left := uncertain.Keys;
      while left != {}
        invariant View() == old(View()) && left <= uncertain.Keys
        invariant forall e | e in uncertain && e !in left :: !txs[uncertain[e]].outcome.Open?
        decreases |left|
      {
        var e :| e in left;
        if txs[uncertain[e]].outcome.Open? {
          return Some(Pending);
        }
        left := left - {e};
      }
      if d in blocked {
        return Some(blocked[d]);
      }
      if current.Some? && txs[current.value].digest == d && txs[current.value].outcome.Displayed? {
        current := None;
      }
      return None;
    }
  }
}
