/**
  When the panel repaints one image twice: the COMMITs of AppImage's runs, image by image, with
  overlapping Sends and jobs that outlive their Send. The exact guard that keeps them apart, the runs
  that break it, and the discipline of callers that is enough for it.
 */
module Repaint {
  import opened Wrappers
  import opened AppImage

  // ---------------------------------------------------------------- what the log knows of verdicts

  /** The panel showed log[a]'s request, by a matching receipt, somewhere after log[a] and before `end`. */
  ghost predicate ShownBetween(log: seq<Event>, a: nat, end: nat)
    requires a < |log| && end <= |log|
  {
    exists k | a < k < end :: log[k].Verdict? && log[k].id == log[a].id && log[k].ok
  }

  predicate WasJudged(log: seq<Event>, id: RequestId) {
    exists k | 0 <= k < |log| :: log[k].Verdict? && log[k].id == id
  }

  predicate Shown(log: seq<Event>, id: RequestId) {
    exists k | 0 <= k < |log| :: log[k].Verdict? && log[k].id == id && log[k].ok
  }

  predicate WasMarked(log: seq<Event>, id: RequestId) {
    exists k | 0 <= k < |log| :: log[k].Marked? && log[k].id == id
  }

  predicate Failure(log: seq<Event>, d: Digest) {
    exists k | 0 <= k < |log| :: log[k].Verdict? && log[k].digest == d && !log[k].ok
  }

  lemma LogGrows(log: seq<Event>, e: Event)
    ensures forall id :: WasJudged(log + [e], id) <==> WasJudged(log, id) || (e.Verdict? && e.id == id)
    ensures forall id :: Shown(log + [e], id) <==> Shown(log, id) || (e.Verdict? && e.id == id && e.ok)
    ensures forall id :: WasMarked(log + [e], id) <==> WasMarked(log, id) || (e.Marked? && e.id == id)
    ensures forall d :: Failure(log + [e], d) <==> Failure(log, d) || (e.Verdict? && e.digest == d && !e.ok)
  {
    var t := log + [e];
    assert t[|log|] == e && forall k | 0 <= k < |log| :: t[k] == log[k];
  }

  /** No COMMIT and no mark of a request follows its completion. */
  ghost predicate ShownLast(log: seq<Event>) {
    forall a, b | 0 <= a < b < |log| && log[a].Verdict? && log[a].ok && (CommitFrame(log[b]) || log[b].Marked?) ::
      log[a].id != log[b].id
  }

  ghost predicate CommitsAreMarked(log: seq<Event>) {
    forall b | 0 <= b < |log| && CommitFrame(log[b]) :: WasMarked(log[..b], log[b].id)
  }

  ghost predicate TxOk(s: System, id: RequestId)
    requires id in s.sender.txs
  {
    var tx := s.sender.txs[id];
    && (tx.outcome.Open? ==> !WasJudged(s.log, id))
    && (tx.outcome.Displayed? ==> Shown(s.log, id))
    && (tx.outcome.Ended? ==> tx.digest in s.sender.blocked)
    && (tx.committed ==> WasMarked(s.log, id))
  }

  ghost predicate JobHistory(s: System, j: nat)
    requires j < |s.jobs|
  {
    var job := s.jobs[j];
    job.id in s.sender.txs && job.creator && !job.phase.Done? ==>
      && (!s.sender.txs[job.id].committed ==> s.sender.txs[job.id].outcome.Open?)
      && (job.phase.Committing? ==> !Shown(s.log, job.id))
  }

  ghost predicate BlockedOk(s: System) {
    forall d :: d in s.sender.blocked <==> Failure(s.log, d)
  }

  /** In every run: an open request has no verdict, the blocked images are those that failed, and so on. */
  ghost predicate History(s: System) {
    && Inv(s)
    && (forall id | id in s.sender.txs :: TxOk(s, id))
    && BlockedOk(s)
    && (forall j | 0 <= j < |s.jobs| :: JobHistory(s, j))
    && ShownLast(s.log) && CommitsAreMarked(s.log)
  }

  lemma EmitHistory(s: System, e: Event)
    requires History(s) && Inv(Emit(s, e)) && !e.Verdict?
    requires CommitFrame(e) || e.Marked? ==> !Shown(s.log, e.id)
    requires CommitFrame(e) ==> WasMarked(s.log, e.id)
    ensures History(Emit(s, e))
  {
    var t := Emit(s, e);
    LogGrows(s.log, e);
    forall id | id in t.sender.txs ensures TxOk(t, id) { assert TxOk(s, id); }
    forall j | 0 <= j < |t.jobs| ensures JobHistory(t, j) { assert JobHistory(s, j); }
    GrowsInOrder(s.log, e);
  }

  lemma GrowsInOrder(log: seq<Event>, e: Event)
    requires ShownLast(log) && CommitsAreMarked(log)
    requires CommitFrame(e) || e.Marked? ==> !Shown(log, e.id)
    requires CommitFrame(e) ==> WasMarked(log, e.id)
    ensures ShownLast(log + [e]) && CommitsAreMarked(log + [e])
  {
    var t := log + [e];
    forall b | 0 <= b < |t| && CommitFrame(t[b]) ensures WasMarked(t[..b], t[b].id) {
      assert t[..b] == log[..b];
      if b == |log| { assert log[..b] == log; }
    }
  }

  /** A job's own verdict, or one that ends a committed request. */
  lemma DecideHistory(s: System, id: RequestId, outcome: Outcome, receipt: Option<Receipt>)
    requires History(s) && id in s.sender.txs && !outcome.Open? && Inv(Decide(s, id, outcome, receipt))
    requires forall j | 0 <= j < |s.jobs| && s.jobs[j].id == id && s.jobs[j].creator && !s.jobs[j].phase.Done? ::
      s.sender.txs[id].committed && (outcome.Displayed? ==> !s.jobs[j].phase.Committing?)
    ensures History(Decide(s, id, outcome, receipt))
  {
    var t := Decide(s, id, outcome, receipt);
    var e := Verdict(id, s.sender.txs[id].digest, outcome.Displayed?, receipt);
    assert t.log == s.log + [e];
    LogGrows(s.log, e);
    forall i | i in t.sender.txs ensures TxOk(t, i) { assert TxOk(s, i); }
    forall j | 0 <= j < |t.jobs| ensures JobHistory(t, j) { assert JobHistory(s, j); }
    GrowsInOrder(s.log, e);
  }

  lemma MoveHistory(s: System, j: nat, to: Phase)
    requires History(s) && j < |s.jobs| && s.jobs[j].id in s.sender.txs && !to.Committing?
    requires Change(s.sender.txs[s.jobs[j].id], s.jobs[j].phase, to)
    ensures History(Move(s, j, to))
  {
    MoveInv(s, j, to);
    var t := Move(s, j, to);
    forall k | 0 <= k < |t.jobs| ensures JobHistory(t, k) { assert JobHistory(s, k); }
    forall id | id in t.sender.txs ensures TxOk(t, id) { assert TxOk(s, id); }
  }

  /** A receipt reaches the sender only through the job that holds the radio. */
  lemma SettleHistory(s: System, j: nat, r: Receipt)
    requires History(s) && j < |s.jobs| && s.jobs[j].id in s.sender.txs && s.jobs[j].phase.OnRadio()
    ensures History(Settle(s, j, r))
  {
    SettleInv(s, j, r);
    match Judge(s.sender.txs[s.jobs[j].id], s.jobs[j].id, r)
    case None => MoveHistory(s, j, Done(Some(Pending)));
    case Some(o) =>
      var m := Move(s, j, Done(if o.Ended? then Some(o.error) else None));
      MoveHistory(s, j, Done(if o.Ended? then Some(o.error) else None));
      forall k | 0 <= k < |m.jobs| && m.jobs[k].id == m.jobs[j].id && m.jobs[k].creator && !m.jobs[k].phase.Done?
        ensures m.sender.txs[m.jobs[j].id].committed && !m.jobs[k].phase.Committing?
      {
        assert JobOk(s, k) && JobOk(s, j);
      }
      DecideHistory(m, s.jobs[j].id, o, Some(r));
  }

  lemma SentHistory(s: System, j: nat, op: Op, busy: bool, admitted: bool)
    requires History(s) && j < |s.jobs| && Inv(Sent(s, j, op, busy, admitted))
    requires op.Commit? ==> !Shown(s.log, s.jobs[j].id) && WasMarked(s.log, s.jobs[j].id)
    ensures History(Sent(s, j, op, busy, admitted))
  {
    EmitHistory(s, Frame(s.jobs[j].id, s.jobs[j].digest, op, busy, admitted));
  }

  lemma CommitmentHistory(s: System, j: nat)
    requires History(s) && j < |s.jobs| && s.jobs[j].phase.Uploading? && s.jobs[j].id in s.sender.txs
    ensures History(Commitment(s, j))
  {
    CommitmentInv(s, j);
    assert JobOk(s, j) && JobHistory(s, j) && TxOk(s, s.jobs[j].id);
    var t := Commitment(s, j);
    var e := Marked(s.jobs[j].id, s.jobs[j].digest);
    assert t.log == s.log + [e];
    LogGrows(s.log, e);
    forall id | id in t.sender.txs ensures TxOk(t, id) { assert TxOk(s, id); }
    forall k | 0 <= k < |t.jobs| ensures JobHistory(t, k) { assert JobHistory(s, k) && JobOk(s, k); }
    GrowsInOrder(s.log, e);
  }

  lemma BegunHistory(s: System, d: Digest, size: nat, newId: RequestId)
    requires History(s) && newId != 0 && newId !in s.sender.txs
    ensures History(Begun(s, d, size, newId))
  {
    BegunInv(s, d, size, newId);
    var (sender, admission) := Admit(s.sender, d, size, newId);
    match admission
    case Refused(_) =>
    case Settled(outcome) =>
      CurrentHistory(s, sender.current);
      EmitHistory(s.(sender := sender), Returned(sender.current.value, outcome.Displayed?));
    case Proceed(_, _) => ProceedHistory(s, d, size, newId);
  }

  lemma ProceedHistory(s: System, d: Digest, size: nat, newId: RequestId)
    requires History(s) && newId != 0 && newId !in s.sender.txs && Admit(s.sender, d, size, newId).1.Proceed?
    requires Inv(Begun(s, d, size, newId))
    ensures History(Begun(s, d, size, newId))
  {
    NewIsUnjudged(s, newId);
    forall k | 0 <= k < |s.jobs| ensures JobOk(s, k) {}
    hide Inv;
    var t := Begun(s, d, size, newId);
    forall id | id in t.sender.txs ensures TxOk(t, id) { if id in s.sender.txs { assert TxOk(s, id); } }
    forall k | 0 <= k < |t.jobs| ensures JobHistory(t, k) {
      if k < |s.jobs| { assert JobHistory(s, k) && JobOk(s, k); }
    }
  }

  lemma CurrentHistory(s: System, current: Option<RequestId>)
    requires History(s) && (current.Some? ==> current.value in s.sender.txs)
    ensures History(s.(sender := s.sender.(current := current)))
  {
    CurrentInv(s, current);
    var t := s.(sender := s.sender.(current := current));
    forall id | id in t.sender.txs ensures TxOk(t, id) { assert TxOk(s, id); }
    forall k | 0 <= k < |t.jobs| ensures JobHistory(t, k) { assert JobHistory(s, k); }
  }

  lemma NewIsUnjudged(s: System, id: RequestId)
    requires Inv(s) && id !in s.sender.txs
    ensures !WasJudged(s.log, id)
  {
    forall k | 0 <= k < |s.log| ensures s.log[k].id != id { assert EventOk(s, s.log[k]); }
  }

  /** Choosing another current transaction changes nothing the invariants speak of. */
  lemma CurrentInv(s: System, current: Option<RequestId>)
    requires Inv(s) && (current.Some? ==> current.value in s.sender.txs)
    ensures Inv(s.(sender := s.sender.(current := current)))
  {
    var t := s.(sender := s.sender.(current := current));
    EventsKeep(s, t);
    forall k | 0 <= k < |t.jobs| ensures JobOk(t, k) { assert JobOk(s, k); }
  }

  /** A Send that gives up decides a request only when its own job is over or the request is committed. */
  lemma ConcludeHistory(s: System, j: nat, err: Option<ImageError>)
    requires History(s) && j < |s.jobs| && s.jobs[j].id in s.sender.txs
    requires s.jobs[j].phase.Done? || err == Some(Transport)
    ensures History(AfterConclude(s, j, err))
  {
    var id := s.jobs[j].id;
    var c := Conclude(s.sender.txs[id], err);
    if c.decided.Some? {
      DecideInv(s, id, c.decided.value, None);
      forall k | 0 <= k < |s.jobs| && s.jobs[k].id == id && s.jobs[k].creator && !s.jobs[k].phase.Done?
        ensures s.sender.txs[id].committed
      {
        assert JobOk(s, k) && JobOk(s, j);
      }
      DecideHistory(s, id, c.decided.value, None);
    }
    RetireHistory(if c.decided.Some? then Decide(s, id, c.decided.value, None) else s, j, c.result.None?);
  }

  lemma RetireHistory(s: System, j: nat, ok: bool)
    requires History(s) && j < |s.jobs| && s.jobs[j].id in s.sender.txs
    ensures History(Retire(s, j, ok))
  {
    var r := s.(jobs := s.jobs[j := s.jobs[j].(returned := true)]);
    forall k | 0 <= k < |r.jobs| ensures JobOk(r, k) { assert JobOk(s, k); }
    EventsKeep(s, r);
    forall k | 0 <= k < |r.jobs| ensures JobHistory(r, k) { assert JobHistory(s, k); }
    forall id | id in r.sender.txs ensures TxOk(r, id) { assert TxOk(s, id); }
    EmitInv(r, Returned(s.jobs[j].id, ok));
    EmitHistory(r, Returned(s.jobs[j].id, ok));
  }

  lemma RouteHistory(s: System, j: nat, status: Result<(Target, BindingId), ImageError>, transport: Transport)
    requires History(s) && Enabled(s, Route(j, status, transport))
    ensures History(AfterRoute(s, j, status, transport))
  {
    RouteInv(s, j, status, transport);
    var id, tx := s.jobs[j].id, s.sender.txs[s.jobs[j].id];
    if tx.committed && (status == Err(Unavailable) || (status.Ok? && tx.pinned != Some(status.value))) {
      MoveHistory(s, j, Done(Some(OutcomeUnknown)));
      DecideHistory(Move(s, j, Done(Some(OutcomeUnknown))), id, Ended(OutcomeUnknown), None);
    } else if status.Err? {
      MoveHistory(s, j, Done(Some(status.error)));
    } else {
      var (target, binding) := status.value;
      MoveHistory(s, j, if tx.committed then Querying(transport)
                        else Uploading(target, binding, transport, None, false));
    }
  }

  lemma UploadedHistory(s: System, j: nat, reply: Option<Receipt>)
    requires History(s) && Enabled(s, Uploaded(j, reply))
    ensures History(Next(s, Uploaded(j, reply)))
  {
    assert JobOk(s, j);
    var p := s.jobs[j].phase;
    match UploadStep(s.sender.txs[s.jobs[j].id], s.jobs[j].id, p.transport, p.next, reply)
    case Go(next) =>
      MoveHistory(s, j, if s.jobs[j].returned then Done(Some(Transport)) else p.(next := Some(next), asked := false));
    case Stop(e) => MoveHistory(s, j, Done(Some(e)));
    case Judged(r) => SettleHistory(s, j, r);
  }

  lemma FrameHistory(s: System, a: Action)
    requires History(s) && Enabled(s, a) && (a.Upload? || a.SendCommit? || a.SendQuery?)
    ensures History(Next(s, a))
  {
    InvNext(s, a);
    assert JobOk(s, a.j) && JobHistory(s, a.j) && TxOk(s, s.jobs[a.j].id);
    match a
    case Upload(j, busy, admitted) =>
      var p := s.jobs[j].phase;
      if !busy { MoveHistory(s, j, p.(asked := true)); }
      SentHistory(if busy then s else Move(s, j, p.(asked := true)), j,
                  if p.next.None? then Begin else Chunk, busy, admitted);
    case SendCommit(j, busy, admitted) =>
      if !busy { MoveHistory(s, j, Awaiting(Commit)); }
      SentHistory(if busy then s else Move(s, j, Awaiting(Commit)), j, Commit, busy, admitted);
    case SendQuery(j, busy) =>
      if !busy { MoveHistory(s, j, Awaiting(Query)); }
      SentHistory(if busy then s else Move(s, j, Awaiting(Query)), j, Query, busy, false);
  }

  lemma ReplyHistory(s: System, j: nat, reply: Option<Receipt>)
    requires History(s) && Enabled(s, Reply(j, reply))
    ensures History(Next(s, Reply(j, reply)))
  {
    if reply.None? { MoveHistory(s, j, Done(Some(Transport))); }
    else if reply.value.op != s.jobs[j].phase.op || reply.value.id != s.jobs[j].id {
      MoveHistory(s, j, Done(Some(InvalidReply)));
    } else { SettleHistory(s, j, reply.value); }
  }

  /** Steps that touch neither the log nor a transaction. */
  lemma QuietHistory(s: System, a: Action)
    requires History(s) && Enabled(s, a) && (a.Acquire? || a.ExplicitPush?)
    ensures History(Next(s, a))
  {
    InvNext(s, a);
    var t := Next(s, a);
    forall k | 0 <= k < |t.jobs| ensures JobHistory(t, k) { assert JobHistory(s, k); }
    forall id | id in t.sender.txs ensures TxOk(t, id) { assert TxOk(s, id); }
  }

  lemma HistoryNext(s: System, a: Action)
    requires History(s) && Enabled(s, a)
    ensures History(Next(s, a))
  {
    match a
    case SendStart(d, size, newId) => BegunHistory(s, d, size, newId);
    case Acquire(_) => QuietHistory(s, a);
    case Route(j, status, transport) => RouteHistory(s, j, status, transport);
    case Upload(_, _, _) => FrameHistory(s, a);
    case Uploaded(j, reply) => UploadedHistory(s, j, reply);
    case MarkCommitted(j) => CommitmentHistory(s, j);
    case SendCommit(_, _, _) => FrameHistory(s, a);
    case SendQuery(_, _) => FrameHistory(s, a);
    case Reply(j, reply) => ReplyHistory(s, j, reply);
    case Abort(j, error) =>
      assert JobOk(s, j);
      MoveHistory(s, j, Done(Some(error)));
    case Return(j) => ConcludeHistory(s, j, s.jobs[j].phase.error);
    case ReturnEarly(j) => ConcludeHistory(s, j, Some(Transport));
    case ExplicitPush(_) => QuietHistory(s, a);
  }

  lemma {:induction false} HistoryHolds(run: Run)
    requires Feasible(run)
    ensures History(Final(run))
  {
    match run
    case Start =>
    case Then(before, step) =>
      HistoryHolds(before);
      HistoryNext(Final(before), step);
  }

  // ---------------------------------------------------------------- one repaint per completed image

  /** Two requests of one image are marked for COMMIT only with the first one's completion in between. */
  ghost predicate MarksSeparated(log: seq<Event>) {
    forall a, b | 0 <= a < b < |log| && log[a].Marked? && log[b].Marked?
                  && log[a].digest == log[b].digest && log[a].id != log[b].id ::
      ShownBetween(log, a, b)
  }

  /** An image whose outcome was failed or unknown is never marked again. */
  ghost predicate NeverMarkedAgain(log: seq<Event>) {
    forall a, b | 0 <= a < b < |log| && log[a].Verdict? && !log[a].ok && log[b].Marked? ::
      log[a].digest != log[b].digest
  }

  ghost predicate MarksOk(log: seq<Event>) { MarksSeparated(log) && NeverMarkedAgain(log) }

  /** The same two statements about the COMMIT frames themselves. */
  ghost predicate Separated(log: seq<Event>) {
    forall a, b | 0 <= a < b < |log| && CommitFrame(log[a]) && CommitFrame(log[b])
                  && log[a].digest == log[b].digest && log[a].id != log[b].id ::
      ShownBetween(log, a, b)
  }

  ghost predicate NeverAgain(log: seq<Event>) {
    forall a, b | 0 <= a < b < |log| && log[a].Verdict? && !log[a].ok && CommitFrame(log[b]) ::
      log[a].digest != log[b].digest
  }

  ghost predicate CommitsOk(log: seq<Event>) { Separated(log) && NeverAgain(log) }

  ghost predicate OthersShown(s: System, job: Job) {
    forall id | id in s.sender.txs && id != job.id && s.sender.txs[id].committed
                && s.sender.txs[id].digest == job.digest :: s.sender.txs[id].outcome.Displayed?
  }

  /** What the region that marks a request could test: no failure of the image, no other request open. */
  ghost predicate MayMark(s: System, j: nat)
    requires j < |s.jobs|
  {
    s.jobs[j].digest !in s.sender.blocked && OthersShown(s, s.jobs[j])
  }

  ghost predicate MarkGuard(s: System, a: Action)
    requires s.sender.Valid() && Enabled(s, a)
  {
    a.MarkCommitted? ==> MayMark(s, a.j)
  }

  predicate CommitSent(log: seq<Event>, id: RequestId) {
    exists k | 0 <= k < |log| :: CommitFrame(log[k]) && log[k].id == id
  }

  ghost predicate OtherCommitsShown(s: System, job: Job) {
    forall id | id in s.sender.txs && id != job.id && s.sender.txs[id].digest == job.digest && CommitSent(s.log, id) ::
      s.sender.txs[id].outcome.Displayed?
  }

  /** The same at each COMMIT frame: no failure of the image, no COMMIT of another request still open. */
  ghost predicate MayCommit(s: System, j: nat)
    requires j < |s.jobs|
  {
    s.jobs[j].digest !in s.sender.blocked && OtherCommitsShown(s, s.jobs[j])
  }

  ghost predicate FrameGuard(s: System, a: Action)
    requires s.sender.Valid() && Enabled(s, a)
  {
    a.SendCommit? ==> MayCommit(s, a.j)
  }

  ghost predicate MarksGuarded(run: Run)
    requires Feasible(run)
  {
    run.Then? ==> MarksGuarded(run.before) && MarkGuard(Final(run.before), run.step)
  }

  ghost predicate FramesGuarded(run: Run)
    requires Feasible(run)
  {
    run.Then? ==> FramesGuarded(run.before) && FrameGuard(Final(run.before), run.step)
  }

  /** Nothing was appended that a repaint could come from. */
  ghost predicate Quietly(log: seq<Event>, longer: seq<Event>) {
    log <= longer && forall k | |log| <= k < |longer| :: !longer[k].Marked? && !CommitFrame(longer[k])
  }

  lemma SettleAppends(s: System, j: nat, r: Receipt)
    requires s.sender.Valid() && j < |s.jobs| && s.jobs[j].id in s.sender.txs
    ensures Quietly(s.log, Settle(s, j, r).log)
  {
  }

  lemma ConcludeAppends(s: System, j: nat, err: Option<ImageError>)
    requires s.sender.Valid() && j < |s.jobs| && s.jobs[j].id in s.sender.txs
    ensures Quietly(s.log, AfterConclude(s, j, err).log)
  {
    hide Conclude;
  }

  lemma UploadedAppends(s: System, j: nat, reply: Option<Receipt>)
    requires Inv(s) && Enabled(s, Uploaded(j, reply))
    ensures Quietly(s.log, Next(s, Uploaded(j, reply)).log)
  {
    assert s.sender.Valid();
    hide Inv, UploadStep;
    var p := s.jobs[j].phase;
    var step := UploadStep(s.sender.txs[s.jobs[j].id], s.jobs[j].id, p.transport, p.next, reply);
    if step.Judged? { SettleAppends(s, j, step.receipt); }
  }

  /** A step appends to the log; which events it can append. */
  lemma Appends(s: System, a: Action)
    requires Inv(s) && Enabled(s, a)
    ensures s.log <= Next(s, a).log
    ensures a.MarkCommitted? ==> Next(s, a).log == s.log + [Marked(s.jobs[a.j].id, s.jobs[a.j].digest)]
    ensures a.SendCommit? ==>
      Next(s, a).log == s.log + [Frame(s.jobs[a.j].id, s.jobs[a.j].digest, Commit, a.busy, a.admitted)]
    ensures !a.MarkCommitted? && !a.SendCommit? ==> Quietly(s.log, Next(s, a).log)
  {
    if !a.SendStart? && !a.ExplicitPush? { assert JobOk(s, a.j); }
    hide Inv, Settle, Conclude, AfterConclude, AfterUpload, Admit, PrepareExplicitPush;
    match a
    case Uploaded(j, reply) => UploadedAppends(s, j, reply);
    case Reply(j, reply) => if reply.Some? { SettleAppends(s, j, reply.value); }
    case Return(j) => ConcludeAppends(s, j, s.jobs[j].phase.error);
    case ReturnEarly(j) => ConcludeAppends(s, j, Some(Transport));
    case _ =>
  }

  /** Every pair that a longer log keeps from a shorter one is as it was. */
  lemma PrefixShown(log: seq<Event>, longer: seq<Event>, a: nat, b: nat)
    requires log <= longer && a < b < |log|
    ensures ShownBetween(longer, a, b) <==> ShownBetween(log, a, b)
  {
    assert forall k | a <= k < b :: longer[k] == log[k];
  }

  lemma ShownInPrefix(log: seq<Event>, longer: seq<Event>, a: nat)
    requires log <= longer && a < |log|
    ensures ShownBetween(longer, a, |log|) <==> ShownBetween(log, a, |log|)
  {
    assert forall k | a <= k < |log| :: longer[k] == log[k];
  }

  lemma OkOfPrefix(log: seq<Event>, longer: seq<Event>)
    requires log <= longer
    ensures MarksOk(longer) ==> MarksOk(log)
    ensures CommitsOk(longer) ==> CommitsOk(log)
    ensures MarksOk(log) && (forall k | |log| <= k < |longer| :: !longer[k].Marked?) ==> MarksOk(longer)
    ensures CommitsOk(log) && (forall k | |log| <= k < |longer| :: !CommitFrame(longer[k])) ==> CommitsOk(longer)
  {
    assert forall k | 0 <= k < |log| :: longer[k] == log[k];
    forall a, b | 0 <= a < b < |log| ensures ShownBetween(longer, a, b) <==> ShownBetween(log, a, b) {
      PrefixShown(log, longer, a, b);
    }
  }

  /** A request's completion lies after its mark and after its COMMIT frames. */
  lemma ShownAfter(s: System, a: nat)
    requires History(s) && a < |s.log| && (s.log[a].Marked? || CommitFrame(s.log[a])) && Shown(s.log, s.log[a].id)
    ensures ShownBetween(s.log, a, |s.log|)
  {
    var k :| 0 <= k < |s.log| && s.log[k].Verdict? && s.log[k].id == s.log[a].id && s.log[k].ok;
    assert k != a && !(k < a);
  }

  /** A request of an image that never failed is open until it is displayed: nothing was shown for it. */
  lemma OpenIsNotShown(s: System, a: nat, b: nat)
    requires History(s) && a < b <= |s.log| && s.log[a].id in s.sender.txs
    requires var tx := s.sender.txs[s.log[a].id]; !tx.outcome.Displayed? && tx.digest !in s.sender.blocked
    ensures !ShownBetween(s.log, a, b)
  {
    assert TxOk(s, s.log[a].id);
  }

  lemma GuardedMarkIsOk(s: System, j: nat)
    requires History(s) && MarksOk(s.log) && Enabled(s, MarkCommitted(j)) && MayMark(s, j)
    ensures MarksOk(Next(s, MarkCommitted(j)).log)
  {
    Appends(s, MarkCommitted(j));
    var log := Next(s, MarkCommitted(j)).log;
    forall a, b | 0 <= a < b < |log| && log[a].Marked? && log[b].Marked?
                  && log[a].digest == log[b].digest && log[a].id != log[b].id
      ensures ShownBetween(log, a, b)
    {
      if b < |s.log| {
        PrefixShown(s.log, log, a, b);
      } else {
        assert log[a] == s.log[a] && EventOk(s, s.log[a]) && TxOk(s, s.log[a].id);
        ShownAfter(s, a);
        ShownInPrefix(s.log, log, a);
      }
    }
    forall a, b | 0 <= a < b < |log| && log[a].Verdict? && !log[a].ok && log[b].Marked?
      ensures log[a].digest != log[b].digest
    {
      assert log[a] == s.log[a] && EventOk(s, s.log[a]);
    }
  }

  lemma UnguardedMarkIsNot(s: System, j: nat)
    requires History(s) && Enabled(s, MarkCommitted(j)) && !MayMark(s, j)
    ensures !MarksOk(Next(s, MarkCommitted(j)).log)
  {
    Appends(s, MarkCommitted(j));
    var log, b, d := Next(s, MarkCommitted(j)).log, |s.log|, s.jobs[j].digest;
    assert JobOk(s, j);
    if d in s.sender.blocked {
      FailureBefore(s, d, log, b);
    } else {
      var id :| id in s.sender.txs && id != s.jobs[j].id && s.sender.txs[id].committed
                && s.sender.txs[id].digest == d && !s.sender.txs[id].outcome.Displayed?;
      assert TxOk(s, id);
      var a :| 0 <= a < |s.log| && s.log[a].Marked? && s.log[a].id == id;
      assert EventOk(s, s.log[a]);
      OpenIsNotShown(s, a, b);
      ShownInPrefix(s.log, log, a);
      assert log[a] == s.log[a] && !ShownBetween(log, a, b);
    }
  }

  lemma FailureBefore(s: System, d: Digest, log: seq<Event>, b: nat)
    requires History(s) && d in s.sender.blocked && s.log <= log && b == |s.log| < |log|
    requires log[b].Marked? || CommitFrame(log[b])
    requires log[b].digest == d
    ensures (log[b].Marked? ==> !NeverMarkedAgain(log)) && (CommitFrame(log[b]) ==> !NeverAgain(log))
  {
    var a :| 0 <= a < |s.log| && s.log[a].Verdict? && s.log[a].digest == d && !s.log[a].ok;
    assert log[a] == s.log[a];
  }

  lemma GuardedCommitIsOk(s: System, a: Action)
    requires History(s) && CommitsOk(s.log) && Enabled(s, a) && a.SendCommit? && MayCommit(s, a.j)
    ensures CommitsOk(Next(s, a).log)
  {
    Appends(s, a);
    var log := Next(s, a).log;
    forall i, b | 0 <= i < b < |log| && CommitFrame(log[i]) && CommitFrame(log[b])
                  && log[i].digest == log[b].digest && log[i].id != log[b].id
      ensures ShownBetween(log, i, b)
    {
      if b < |s.log| {
        PrefixShown(s.log, log, i, b);
      } else {
        assert log[i] == s.log[i] && EventOk(s, s.log[i]) && CommitSent(s.log, s.log[i].id);
        assert TxOk(s, s.log[i].id);
        ShownAfter(s, i);
        ShownInPrefix(s.log, log, i);
      }
    }
    forall i, b | 0 <= i < b < |log| && log[i].Verdict? && !log[i].ok && CommitFrame(log[b])
      ensures log[i].digest != log[b].digest
    {
      assert log[i] == s.log[i] && EventOk(s, s.log[i]);
    }
  }

  lemma UnguardedCommitIsNot(s: System, a: Action)
    requires History(s) && Enabled(s, a) && a.SendCommit? && !MayCommit(s, a.j)
    ensures !CommitsOk(Next(s, a).log)
  {
    Appends(s, a);
    var log, b, d := Next(s, a).log, |s.log|, s.jobs[a.j].digest;
    if d in s.sender.blocked {
      FailureBefore(s, d, log, b);
    } else {
      var id :| id in s.sender.txs && id != s.jobs[a.j].id && s.sender.txs[id].digest == d
                && CommitSent(s.log, id) && !s.sender.txs[id].outcome.Displayed?;
      var i :| 0 <= i < |s.log| && CommitFrame(s.log[i]) && s.log[i].id == id;
      assert EventOk(s, s.log[i]);
      OpenIsNotShown(s, i, b);
      ShownInPrefix(s.log, log, i);
      assert log[i] == s.log[i] && !ShownBetween(log, i, b);
    }
  }

  /**
    Over every run, overlapping Sends and late jobs included: two requests of one image are marked for
    COMMIT only with the first one's authenticated completion between them, and a failed image is
    never marked again, if and only if every mark was made while the image was not blocked and every
    other request of it that may have been committed was displayed.
   */
  lemma {:induction false} MarksOkExactlyWhenGuarded(run: Run)
    requires Feasible(run)
    ensures MarksOk(Final(run).log) <==> MarksGuarded(run)
  {
    match run
    case Start =>
    case Then(before, step) =>
      MarksOkExactlyWhenGuarded(before);
      HistoryHolds(before);
      var s := Final(before);
      Appends(s, step);
      OkOfPrefix(s.log, Next(s, step).log);
      if step.MarkCommitted? && MarksOk(s.log) {
        if MayMark(s, step.j) { GuardedMarkIsOk(s, step.j); } else { UnguardedMarkIsNot(s, step.j); }
      }
  }

  /**
    The same about the COMMIT frames themselves: two requests of one image put COMMITs on the wire only
    with the first one's completion between them, and a failed image's COMMIT never leaves again, if and
    only if every COMMIT left while the image was not blocked and every other request of it whose COMMIT
    had left was displayed.
   */
  lemma {:induction false} CommitsOkExactlyWhenGuarded(run: Run)
    requires Feasible(run)
    ensures CommitsOk(Final(run).log) <==> FramesGuarded(run)
  {
    match run
    case Start =>
    case Then(before, step) =>
      CommitsOkExactlyWhenGuarded(before);
      HistoryHolds(before);
      var s := Final(before);
      Appends(s, step);
      OkOfPrefix(s.log, Next(s, step).log);
      if step.SendCommit? && CommitsOk(s.log) {
        if MayCommit(s, step.j) { GuardedCommitIsOk(s, step); } else { UnguardedCommitIsNot(s, step); }
      }
  }

  /** The completion between the marks at m and n lies between the COMMIT frames at a and b as well. */
  lemma ShownBetweenFrames(log: seq<Event>, m: nat, n: nat, a: nat, b: nat)
    requires MarksSeparated(log) && ShownLast(log) && m < a < b < |log| && n < b
    requires CommitFrame(log[a]) && CommitFrame(log[b]) && log[a].id != log[b].id
    requires log[m].Marked? && log[m].id == log[a].id && log[n].Marked? && log[n].id == log[b].id
    requires log[m].digest == log[n].digest
    ensures ShownBetween(log, a, b)
  {
    if m < n {
      assert ShownBetween(log, m, n);
      var k :| m < k < n && log[k].Verdict? && log[k].id == log[m].id && log[k].ok;
      assert a < k < b;
    } else {
      assert false;
    }
  }

  /** What separates the marks separates the COMMIT frames. */
  lemma MarksSeparateCommits(s: System)
    requires History(s) && MarksSeparated(s.log)
    ensures Separated(s.log)
  {
    hide MarksSeparated, ShownLast, ShownBetween, Inv, TxOk, BlockedOk, JobHistory, CommitsAreMarked;
    var log := s.log;
    forall a: nat, b: nat | a < b < |log| && CommitFrame(log[a]) && CommitFrame(log[b])
                            && log[a].digest == log[b].digest && log[a].id != log[b].id
      ensures ShownBetween(log, a, b)
    {
      var m := MarkOf(s, a);
      var n := MarkOf(s, b);
      ShownBetweenFrames(log, m, n, a, b);
    }
  }

  lemma MarkOf(s: System, b: nat) returns (m: nat)
    requires History(s) && b < |s.log| && CommitFrame(s.log[b])
    ensures m < b && s.log[m].Marked? && s.log[m].id == s.log[b].id && s.log[m].digest == s.log[b].digest
  {
    assert WasMarked(s.log[..b], s.log[b].id);
    var k :| 0 <= k < b && s.log[..b][k].Marked? && s.log[..b][k].id == s.log[b].id;
    m := k;
    assert EventOk(s, s.log[m]) && EventOk(s, s.log[b]);
  }

  /** So the guard where a request is marked already separates the COMMITs of one image. */
  lemma {:induction false} GuardedMarksSeparateCommits(run: Run)
    requires Feasible(run) && MarksGuarded(run)
    ensures Separated(Final(run).log)
  {
    MarksOkExactlyWhenGuarded(run);
    HistoryHolds(run);
    MarksSeparateCommits(Final(run));
  }

  // ---------------------------------------------------------------- Sends that do not overlap are guarded

  /** A Send of a PNG starts only when every earlier Send of it has returned. */
  ghost predicate Apart(s: System, a: Action) {
    a.SendStart? ==> forall k | 0 <= k < |s.jobs| :: s.jobs[k].digest == a.digest ==> s.jobs[k].returned
  }

  ghost predicate OneSendAtATime(run: Run)
    requires Feasible(run)
  {
    run.Then? ==> OneSendAtATime(run.before) && Apart(Final(run.before), run.step)
  }

  /** No Send returns before its native job ended. */
  predicate NoEarlyReturn(run: Run) {
    run.Then? ==> NoEarlyReturn(run.before) && !run.step.ReturnEarly?
  }

  ghost predicate Orderly(s: System, a: Action) {
    Apart(s, a) && !a.ReturnEarly?
  }

  ghost predicate LiveOk(s: System, j: nat)
    requires j < |s.jobs|
  {
    var job := s.jobs[j];
    && (job.returned ==> job.phase.Done?)
    && (!job.returned ==> job.id in s.sender.txs && OthersShown(s, job))
    && (!job.returned && !job.phase.Done? ==>
          s.sender.txs[job.id].outcome.Open? && job.digest !in s.sender.blocked)
  }

  ghost predicate Tracked(s: System, id: RequestId)
    requires id in s.sender.txs
  {
    var tx := s.sender.txs[id];
    tx.committed ==> tx.outcome.Displayed? || tx.digest in s.sender.blocked
                     || (tx.outcome.Open? && tx.digest in s.sender.uncertain && s.sender.uncertain[tx.digest] == id)
  }

  ghost predicate OrderlyInv(s: System) {
    && Inv(s)
    && (forall j | 0 <= j < |s.jobs| :: LiveOk(s, j))
    && (forall j, k | 0 <= j < k < |s.jobs| && !s.jobs[j].returned && !s.jobs[k].returned ::
          s.jobs[j].digest != s.jobs[k].digest)
    && (forall id | id in s.sender.txs :: Tracked(s, id))
    && (forall d | d in s.sender.uncertain :: s.sender.txs[s.sender.uncertain[d]].committed)
  }

  lemma EmitOrderly(s: System, e: Event)
    requires OrderlyInv(s) && Inv(Emit(s, e))
    ensures OrderlyInv(Emit(s, e))
  {
    var t := Emit(s, e);
    forall j | 0 <= j < |t.jobs| ensures LiveOk(t, j) { assert LiveOk(s, j); }
    forall id | id in t.sender.txs ensures Tracked(t, id) { assert Tracked(s, id); }
  }

  lemma MoveOrderly(s: System, j: nat, to: Phase)
    requires OrderlyInv(s) && j < |s.jobs| && s.jobs[j].id in s.sender.txs
    requires Change(s.sender.txs[s.jobs[j].id], s.jobs[j].phase, to)
    ensures OrderlyInv(Move(s, j, to))
  {
    MoveInv(s, j, to);
    var t := Move(s, j, to);
    forall k | 0 <= k < |t.jobs| ensures LiveOk(t, k) { assert LiveOk(s, k); }
    forall id | id in t.sender.txs ensures Tracked(t, id) { assert Tracked(s, id); }
  }

  /** The one live job of an image may decide its transaction once the job itself is over. */
  lemma DecideOrderly(s: System, j: nat, outcome: Outcome, receipt: Option<Receipt>)
    requires OrderlyInv(s) && j < |s.jobs| && !s.jobs[j].returned && s.jobs[j].phase.Done? && !outcome.Open?
    requires s.jobs[j].id in s.sender.txs
    requires outcome.Displayed? ==> receipt.Some?
    requires receipt.Some? ==> Judge(s.sender.txs[s.jobs[j].id], s.jobs[j].id, receipt.value) == Some(outcome)
    ensures OrderlyInv(Decide(s, s.jobs[j].id, outcome, receipt))
  {
    var id := s.jobs[j].id;
    DecideInv(s, id, outcome, receipt);
    assert LiveOk(s, j) && JobOk(s, j);
    var t := Decide(s, id, outcome, receipt);
    forall k | 0 <= k < |t.jobs| ensures LiveOk(t, k) { assert LiveOk(s, k) && JobOk(s, k); }
    forall i | i in t.sender.txs ensures Tracked(t, i) { assert Tracked(s, i); }
  }

  lemma SettleOrderly(s: System, j: nat, r: Receipt)
    requires OrderlyInv(s) && j < |s.jobs| && !s.jobs[j].returned && s.jobs[j].id in s.sender.txs
    ensures OrderlyInv(Settle(s, j, r))
  {
    match Judge(s.sender.txs[s.jobs[j].id], s.jobs[j].id, r)
    case None => MoveOrderly(s, j, Done(Some(Pending)));
    case Some(o) =>
      var to := Done(if o.Ended? then Some(o.error) else None);
      MoveOrderly(s, j, to);
      DecideOrderly(Move(s, j, to), j, o, Some(r));
  }

  lemma CommitmentOrderly(s: System, j: nat)
    requires OrderlyInv(s) && j < |s.jobs| && s.jobs[j].phase.Uploading? && s.jobs[j].id in s.sender.txs
    ensures OrderlyInv(Commitment(s, j))
  {
    CommitmentInv(s, j);
    assert LiveOk(s, j) && JobOk(s, j);
    var t := Commitment(s, j);
    forall k | 0 <= k < |t.jobs| ensures LiveOk(t, k) { assert LiveOk(s, k) && JobOk(s, k); }
    forall i | i in t.sender.txs ensures Tracked(t, i) { assert Tracked(s, i); }
  }

  lemma CurrentOrderly(s: System, current: Option<RequestId>)
    requires OrderlyInv(s) && (current.Some? ==> current.value in s.sender.txs)
    ensures OrderlyInv(s.(sender := s.sender.(current := current)))
  {
    CurrentInv(s, current);
    var t := s.(sender := s.sender.(current := current));
    forall k | 0 <= k < |t.jobs| ensures LiveOk(t, k) { assert LiveOk(s, k); }
    forall id | id in t.sender.txs ensures Tracked(t, id) { assert Tracked(s, id); }
  }

  lemma BegunOrderly(s: System, d: Digest, size: nat, newId: RequestId)
    requires OrderlyInv(s) && newId != 0 && newId !in s.sender.txs
    requires forall k | 0 <= k < |s.jobs| :: s.jobs[k].digest == d ==> s.jobs[k].returned
    ensures OrderlyInv(Begun(s, d, size, newId))
  {
    BegunInv(s, d, size, newId);
    var (sender, admission) := Admit(s.sender, d, size, newId);
    forall i | i in s.sender.txs ensures Tracked(s, i) {}
    match admission
    case Refused(_) =>
    case Settled(outcome) =>
      CurrentOrderly(s, sender.current);
      EmitOrderly(s.(sender := sender), Returned(sender.current.value, outcome.Displayed?));
    case Proceed(id, created) =>
      var t := Begun(s, d, size, newId);
      forall i | i in t.sender.txs ensures Tracked(t, i) { if i in s.sender.txs { assert Tracked(s, i); } }
      forall k | 0 <= k < |t.jobs| ensures LiveOk(t, k) {
        if k < |s.jobs| { assert LiveOk(s, k) && JobOk(s, k); }
      }
  }

  lemma ConcludeOrderly(s: System, j: nat)
    requires OrderlyInv(s) && j < |s.jobs| && s.jobs[j].phase.Done? && !s.jobs[j].returned
    requires s.jobs[j].id in s.sender.txs
    ensures OrderlyInv(AfterConclude(s, j, s.jobs[j].phase.error))
  {
    var c := Conclude(s.sender.txs[s.jobs[j].id], s.jobs[j].phase.error);
    ConcludeInv(s, j, s.jobs[j].phase.error);
    if c.decided.Some? { DecideOrderly(s, j, c.decided.value, None); }
    RetireOrderly(if c.decided.Some? then Decide(s, s.jobs[j].id, c.decided.value, None) else s, j, c.result.None?);
  }

  lemma RetireOrderly(m: System, j: nat, ok: bool)
    requires OrderlyInv(m) && j < |m.jobs| && m.jobs[j].phase.Done? && Inv(Retire(m, j, ok))
    ensures OrderlyInv(Retire(m, j, ok))
  {
    var r := m.(jobs := m.jobs[j := m.jobs[j].(returned := true)]);
    forall k | 0 <= k < |r.jobs| ensures JobOk(r, k) { assert JobOk(m, k); }
    EventsKeep(m, r);
    forall k | 0 <= k < |r.jobs| ensures LiveOk(r, k) { assert LiveOk(m, k); }
    forall i | i in r.sender.txs ensures Tracked(r, i) { assert Tracked(m, i); }
    EmitOrderly(r, Returned(m.jobs[j].id, ok));
  }

  lemma RouteOrderly(s: System, j: nat, status: Result<(Target, BindingId), ImageError>, transport: Transport)
    requires OrderlyInv(s) && Enabled(s, Route(j, status, transport))
    ensures OrderlyInv(AfterRoute(s, j, status, transport))
  {
    assert LiveOk(s, j) && JobOk(s, j);
    var tx := s.sender.txs[s.jobs[j].id];
    if tx.committed && (status == Err(Unavailable) || (status.Ok? && tx.pinned != Some(status.value))) {
      MoveOrderly(s, j, Done(Some(OutcomeUnknown)));
      DecideOrderly(Move(s, j, Done(Some(OutcomeUnknown))), j, Ended(OutcomeUnknown), None);
    } else if status.Err? {
      MoveOrderly(s, j, Done(Some(status.error)));
    } else {
      var (target, binding) := status.value;
      MoveOrderly(s, j, if tx.committed then Querying(transport)
                        else Uploading(target, binding, transport, None, false));
    }
  }

  lemma UploadedOrderly(s: System, j: nat, reply: Option<Receipt>)
    requires OrderlyInv(s) && Enabled(s, Uploaded(j, reply))
    ensures OrderlyInv(Next(s, Uploaded(j, reply)))
  {
    assert LiveOk(s, j) && JobOk(s, j);
    var p := s.jobs[j].phase;
    match UploadStep(s.sender.txs[s.jobs[j].id], s.jobs[j].id, p.transport, p.next, reply)
    case Go(next) =>
      MoveOrderly(s, j, if s.jobs[j].returned then Done(Some(Transport)) else p.(next := Some(next), asked := false));
    case Stop(e) => MoveOrderly(s, j, Done(Some(e)));
    case Judged(r) => SettleOrderly(s, j, r);
  }

  lemma FrameOrderly(s: System, a: Action)
    requires OrderlyInv(s) && Enabled(s, a) && (a.Upload? || a.SendCommit? || a.SendQuery?)
    ensures OrderlyInv(Next(s, a))
  {
    InvNext(s, a);
    assert JobOk(s, a.j);
    match a
    case Upload(j, busy, admitted) =>
      var p := s.jobs[j].phase;
      if !busy { MoveOrderly(s, j, p.(asked := true)); }
      EmitOrderly(if busy then s else Move(s, j, p.(asked := true)),
                  Frame(s.jobs[j].id, s.jobs[j].digest, if p.next.None? then Begin else Chunk, busy, admitted));
    case SendCommit(j, busy, admitted) =>
      if !busy { MoveOrderly(s, j, Awaiting(Commit)); }
      EmitOrderly(if busy then s else Move(s, j, Awaiting(Commit)),
                  Frame(s.jobs[j].id, s.jobs[j].digest, Commit, busy, admitted));
    case SendQuery(j, busy) =>
      if !busy { MoveOrderly(s, j, Awaiting(Query)); }
      EmitOrderly(if busy then s else Move(s, j, Awaiting(Query)),
                  Frame(s.jobs[j].id, s.jobs[j].digest, Query, busy, false));
  }

  lemma ReplyOrderly(s: System, j: nat, reply: Option<Receipt>)
    requires OrderlyInv(s) && Enabled(s, Reply(j, reply))
    ensures OrderlyInv(Next(s, Reply(j, reply)))
  {
    assert LiveOk(s, j) && JobOk(s, j);
    if reply.None? { MoveOrderly(s, j, Done(Some(Transport))); }
    else if reply.value.op != s.jobs[j].phase.op || reply.value.id != s.jobs[j].id {
      MoveOrderly(s, j, Done(Some(InvalidReply)));
    } else { SettleOrderly(s, j, reply.value); }
  }

  lemma QuietOrderly(s: System, a: Action)
    requires OrderlyInv(s) && Enabled(s, a) && (a.Acquire? || a.ExplicitPush?)
    ensures OrderlyInv(Next(s, a))
  {
    InvNext(s, a);
    if a.Acquire? { assert LiveOk(s, a.j); }
    var t := Next(s, a);
    forall k | 0 <= k < |t.jobs| ensures LiveOk(t, k) { assert LiveOk(s, k); }
    forall id | id in t.sender.txs ensures Tracked(t, id) { assert Tracked(s, id); }
  }

  lemma OrderlyNext(s: System, a: Action)
    requires OrderlyInv(s) && Enabled(s, a) && Orderly(s, a)
    ensures OrderlyInv(Next(s, a))
  {
    match a
    case SendStart(d, size, newId) => BegunOrderly(s, d, size, newId);
    case Acquire(_) => QuietOrderly(s, a);
    case Route(j, status, transport) => RouteOrderly(s, j, status, transport);
    case Upload(_, _, _) => FrameOrderly(s, a);
    case Uploaded(j, reply) => UploadedOrderly(s, j, reply);
    case MarkCommitted(j) => CommitmentOrderly(s, j);
    case SendCommit(_, _, _) => FrameOrderly(s, a);
    case SendQuery(_, _) => FrameOrderly(s, a);
    case Reply(j, reply) => ReplyOrderly(s, j, reply);
    case Abort(j, error) =>
      assert JobOk(s, j);
      MoveOrderly(s, j, Done(Some(error)));
    case Return(j) => ConcludeOrderly(s, j);
    case ReturnEarly(_) =>
    case ExplicitPush(_) => QuietOrderly(s, a);
  }

  lemma MarkedIsEnough(s: System, j: nat)
    requires Inv(s) && j < |s.jobs| && MayMark(s, j)
    ensures MayCommit(s, j)
  {
    forall id | id in s.sender.txs && CommitSent(s.log, id) ensures s.sender.txs[id].committed {
      var k :| 0 <= k < |s.log| && CommitFrame(s.log[k]) && s.log[k].id == id;
      assert EventOk(s, s.log[k]);
    }
  }

  /** Sends of one PNG that do not overlap, with jobs that end before they return, meet both guards. */
  lemma {:induction false} OrderlyIsGuarded(run: Run)
    requires Feasible(run) && OneSendAtATime(run) && NoEarlyReturn(run)
    ensures OrderlyInv(Final(run)) && MarksGuarded(run) && FramesGuarded(run)
  {
    match run
    case Start =>
    case Then(before, step) =>
      OrderlyIsGuarded(before);
      if step.MarkCommitted? || step.SendCommit? { assert LiveOk(Final(before), step.j); }
      if step.SendCommit? { MarkedIsEnough(Final(before), step.j); }
      OrderlyNext(Final(before), step);
  }

  /**
    When Sends of one PNG do not overlap and no job outlives its Send, the marks and the COMMIT frames
    of one PNG under different requests have the first request's matching completion between them, and
    once a request of a PNG ended badly that PNG is neither marked nor committed again.
   */
  lemma {:induction false} OrderlyImagesAreCommittedOnce(run: Run)
    requires Feasible(run) && OneSendAtATime(run) && NoEarlyReturn(run)
    ensures CommitsOk(Final(run).log) && MarksOk(Final(run).log)
  {
    OrderlyIsGuarded(run);
    CommitsOkExactlyWhenGuarded(run);
    MarksOkExactlyWhenGuarded(run);
  }

  // ---------------------------------------------------------------- and with jobs that outlive their Send

  /** Every request of the image but `except` that put a COMMIT on the wire was shown. */
  predicate CommitsShown(s: System, d: Digest, except: RequestId) {
    forall id | id in s.sender.txs && id != except && s.sender.txs[id].digest == d && CommitSent(s.log, id) ::
      Shown(s.log, id)
  }

  /** A job that may still send, or is on the radio, is the only one of its image with an open COMMIT. */
  predicate Alone(s: System, j: nat)
    requires j < |s.jobs|
  {
    !s.jobs[j].returned || s.radio == Some(j) ==> CommitsShown(s, s.jobs[j].digest, s.jobs[j].id)
  }

  /** A request whose COMMIT left was shown, or its image is blocked, or the next Send will find it. */
  predicate Found(s: System, id: RequestId)
    requires id in s.sender.txs
  {
    var d := s.sender.txs[id].digest;
    CommitSent(s.log, id) ==>
      Shown(s.log, id) || d in s.sender.blocked || (d in s.sender.uncertain && s.sender.uncertain[d] == id)
  }

  predicate Findable(s: System, j: nat)
    requires j < |s.jobs|
  {
    !s.jobs[j].returned && s.jobs[j].phase.Committing? ==>
      s.jobs[j].digest in s.sender.uncertain && s.sender.uncertain[s.jobs[j].digest] == s.jobs[j].id
  }

  ghost predicate ApartInv(s: System) {
    && s.sender.Valid()
    && (forall j | 0 <= j < |s.jobs| :: Alone(s, j) && Findable(s, j))
    && (forall id | id in s.sender.txs :: Found(s, id))
    && (forall d | d in s.sender.uncertain :: s.sender.txs[s.sender.uncertain[d]].committed)
    && (forall j, k | 0 <= j < k < |s.jobs| && !s.jobs[j].returned && !s.jobs[k].returned ::
          s.jobs[j].digest != s.jobs[k].digest)
  }

  lemma SentGrows(log: seq<Event>, e: Event)
    ensures forall id :: CommitSent(log + [e], id) <==> CommitSent(log, id) || (CommitFrame(e) && e.id == id)
    ensures forall id :: Shown(log, id) ==> Shown(log + [e], id)
  {
    var t := log + [e];
    assert t[|log|] == e && forall k | 0 <= k < |log| :: t[k] == log[k];
    LogGrows(log, e);
  }

  lemma EmitApart(s: System, e: Event)
    requires ApartInv(s) && !CommitFrame(e)
    ensures ApartInv(Emit(s, e))
  {
    hide CommitSent, Shown;
    SentGrows(s.log, e);
    var t := Emit(s, e);
    forall j | 0 <= j < |t.jobs| ensures Alone(t, j) && Findable(t, j) { assert Alone(s, j) && Findable(s, j); }
    forall id | id in t.sender.txs ensures Found(t, id) { assert Found(s, id); }
  }

  /** A job that stays or leaves the radio, without being marked. */
  lemma MoveApart(s: System, j: nat, to: Phase)
    requires ApartInv(s) && j < |s.jobs| && !to.Committing?
    ensures ApartInv(Move(s, j, to))
  {
    hide CommitSent, Shown;
    var t := Move(s, j, to);
    forall k | 0 <= k < |t.jobs| ensures Alone(t, k) && Findable(t, k) { assert Alone(s, k) && Findable(s, k); }
    forall id | id in t.sender.txs ensures Found(t, id) { assert Found(s, id); }
  }

  /** A verdict that blocks the image, or one that leaves no other COMMIT of it open. */
  lemma DecideApart(s: System, id: RequestId, outcome: Outcome, receipt: Option<Receipt>)
    requires ApartInv(s) && id in s.sender.txs && !outcome.Open?
    requires outcome.Displayed? ==> CommitsShown(s, s.sender.txs[id].digest, id)
    requires forall k | 0 <= k < |s.jobs| && !s.jobs[k].returned && s.jobs[k].phase.Committing? ::
      s.jobs[k].digest != s.sender.txs[id].digest
    ensures ApartInv(Decide(s, id, outcome, receipt))
  {
    hide CommitSent, Shown;
    var e := Verdict(id, s.sender.txs[id].digest, outcome.Displayed?, receipt);
    SentGrows(s.log, e);
    LogGrows(s.log, e);
    var t := Decide(s, id, outcome, receipt);
    assert t.log == s.log + [e];
    forall k | 0 <= k < |t.jobs| ensures Alone(t, k) && Findable(t, k) { assert Alone(s, k) && Findable(s, k); }
    forall i | i in t.sender.txs ensures Found(t, i) { assert Found(s, i); }
  }

  /** While one job is on the radio before or after its COMMIT, no job is about to send one. */
  lemma NoneCommits(s: System, j: nat)
    requires Inv(s) && j < |s.jobs| && s.jobs[j].phase.OnRadio() && !s.jobs[j].phase.Committing?
    ensures forall k | 0 <= k < |s.jobs| :: !s.jobs[k].phase.Committing?
  {
    assert JobOk(s, j);
    forall k | 0 <= k < |s.jobs| ensures !s.jobs[k].phase.Committing? { assert JobOk(s, k); }
  }

  lemma SettleApart(s: System, j: nat, r: Receipt)
    requires Inv(s) && ApartInv(s) && j < |s.jobs| && s.jobs[j].phase.OnRadio() && !s.jobs[j].phase.Committing?
    requires s.jobs[j].id in s.sender.txs
    ensures ApartInv(Settle(s, j, r))
  {
    assert JobOk(s, j) && Alone(s, j);
    match Judge(s.sender.txs[s.jobs[j].id], s.jobs[j].id, r)
    case None => MoveApart(s, j, Done(Some(Pending)));
    case Some(o) =>
      var to := Done(if o.Ended? then Some(o.error) else None);
      MoveApart(s, j, to);
      NoneCommits(s, j);
      DecideApart(Move(s, j, to), s.jobs[j].id, o, Some(r));
  }

  /** A mark, late or not, replaces another request of its image only when that one was shown. */
  lemma CommitmentApart(s: System, j: nat)
    requires Inv(s) && ApartInv(s) && j < |s.jobs| && s.jobs[j].phase.Uploading? && s.jobs[j].id in s.sender.txs
    ensures ApartInv(Commitment(s, j))
  {
    assert JobOk(s, j) && Alone(s, j);
    NoneCommits(s, j);
    hide CommitSent, Shown, Inv;
    var p := s.jobs[j].phase;
    var m := Move(s.(sender := Mark(s.sender, s.jobs[j].id, p.target, p.binding)), j, Committing(p.transport));
    forall k | 0 <= k < |m.jobs| ensures Alone(m, k) && Findable(m, k) { assert Alone(s, k); }
    forall id | id in m.sender.txs ensures Found(m, id) { assert Found(s, id); }
    EmitApart(m, Marked(s.jobs[j].id, s.jobs[j].digest));
  }

  /** The COMMIT of a job whose Send still waits: no other such job has its image. */
  lemma CommitApart(s: System, j: nat, busy: bool, admitted: bool)
    requires Inv(s) && ApartInv(s) && Enabled(s, SendCommit(j, busy, admitted))
    ensures ApartInv(Next(s, SendCommit(j, busy, admitted)))
  {
    assert JobOk(s, j) && Findable(s, j);
    forall k | 0 <= k < |s.jobs| && k != j && s.jobs[k].digest == s.jobs[j].digest
      ensures s.jobs[k].returned && s.radio != Some(k)
    {
    }
    hide CommitSent, Shown, Inv;
    var e := Frame(s.jobs[j].id, s.jobs[j].digest, Commit, busy, admitted);
    SentGrows(s.log, e);
    var t := Next(s, SendCommit(j, busy, admitted));
    assert t.log == s.log + [e];
    forall k | 0 <= k < |t.jobs| ensures Alone(t, k) && Findable(t, k) { assert Alone(s, k) && Findable(s, k); }
    forall id | id in t.sender.txs ensures Found(t, id) { assert Found(s, id); }
  }

  lemma CurrentApart(s: System, current: Option<RequestId>)
    requires ApartInv(s) && (current.Some? ==> current.value in s.sender.txs)
    ensures ApartInv(s.(sender := s.sender.(current := current)))
  {
    hide CommitSent, Shown;
    var t := s.(sender := s.sender.(current := current));
    forall k | 0 <= k < |t.jobs| ensures Alone(t, k) && Findable(t, k) { assert Alone(s, k) && Findable(s, k); }
    forall id | id in t.sender.txs ensures Found(t, id) { assert Found(s, id); }
  }

  /** A Send of an image reuses the one request of it whose COMMIT may still be open. */
  lemma AdmittedIsAlone(s: System, d: Digest, size: nat, newId: RequestId)
    requires ApartInv(s) && newId != 0 && newId !in s.sender.txs && Admit(s.sender, d, size, newId).1.Proceed?
    ensures CommitsShown(s, d, Admit(s.sender, d, size, newId).1.id)
  {
    hide CommitSent, Shown;
    var id := Admit(s.sender, d, size, newId).1.id;
    forall i | i in s.sender.txs && i != id && s.sender.txs[i].digest == d && CommitSent(s.log, i)
      ensures Shown(s.log, i)
    {
      assert Found(s, i);
    }
  }

  lemma BegunApart(s: System, d: Digest, size: nat, newId: RequestId)
    requires Inv(s) && ApartInv(s) && newId != 0 && newId !in s.sender.txs
    requires forall k | 0 <= k < |s.jobs| :: s.jobs[k].digest == d ==> s.jobs[k].returned
    ensures ApartInv(Begun(s, d, size, newId))
  {
    var (sender, admission) := Admit(s.sender, d, size, newId);
    match admission
    case Refused(_) =>
    case Settled(outcome) =>
      CurrentApart(s, sender.current);
      EmitApart(s.(sender := sender), Returned(sender.current.value, outcome.Displayed?));
    case Proceed(id, created) =>
      AdmittedIsAlone(s, d, size, newId);
      NewIsUnsent(s, newId);
      ProceedApart(s, d, size, newId);
  }

  lemma NewIsUnsent(s: System, id: RequestId)
    requires Inv(s) && id !in s.sender.txs
    ensures !CommitSent(s.log, id)
  {
    forall k | 0 <= k < |s.log| ensures s.log[k].id != id { assert EventOk(s, s.log[k]); }
  }

  lemma ProceedApart(s: System, d: Digest, size: nat, newId: RequestId)
    requires Inv(s) && ApartInv(s) && newId != 0 && newId !in s.sender.txs && !CommitSent(s.log, newId)
    requires Admit(s.sender, d, size, newId).1.Proceed?
    requires CommitsShown(s, d, Admit(s.sender, d, size, newId).1.id)
    requires forall k | 0 <= k < |s.jobs| :: s.jobs[k].digest == d ==> s.jobs[k].returned
    ensures ApartInv(Begun(s, d, size, newId))
  {
    assert s.radio.Some? ==> s.radio.value < |s.jobs|;
    hide CommitSent, Shown, Inv;
    var t := Begun(s, d, size, newId);
    forall id | id in t.sender.txs ensures Found(t, id) { if id in s.sender.txs { assert Found(s, id); } }
    forall k | 0 <= k < |t.jobs| ensures Alone(t, k) && Findable(t, k) {
      if k < |s.jobs| { assert Alone(s, k) && Findable(s, k); }
    }
  }

  lemma RetireApart(s: System, j: nat, ok: bool)
    requires ApartInv(s) && j < |s.jobs|
    ensures ApartInv(Retire(s, j, ok))
  {
    hide CommitSent, Shown;
    var r := s.(jobs := s.jobs[j := s.jobs[j].(returned := true)]);
    forall k | 0 <= k < |r.jobs| ensures Alone(r, k) && Findable(r, k) { assert Alone(s, k) && Findable(s, k); }
    forall id | id in r.sender.txs ensures Found(r, id) { assert Found(s, id); }
    EmitApart(r, Returned(s.jobs[j].id, ok));
  }

  lemma ConcludeApart(s: System, a: Action)
    requires Inv(s) && ApartInv(s) && Enabled(s, a) && (a.Return? || a.ReturnEarly?)
    ensures ApartInv(Next(s, a))
  {
    assert JobOk(s, a.j);
    var err := if a.Return? then s.jobs[a.j].phase.error else Some(Transport);
    var c := Conclude(s.sender.txs[s.jobs[a.j].id], err);
    if c.decided.Some? { DecideApart(s, s.jobs[a.j].id, c.decided.value, None); }
    RetireApart(if c.decided.Some? then Decide(s, s.jobs[a.j].id, c.decided.value, None) else s, a.j, c.result.None?);
  }

  lemma RouteApart(s: System, j: nat, status: Result<(Target, BindingId), ImageError>, transport: Transport)
    requires Inv(s) && ApartInv(s) && Enabled(s, Route(j, status, transport))
    ensures ApartInv(AfterRoute(s, j, status, transport))
  {
    assert JobOk(s, j);
    NoneCommits(s, j);
    var tx := s.sender.txs[s.jobs[j].id];
    if tx.committed && (status == Err(Unavailable) || (status.Ok? && tx.pinned != Some(status.value))) {
      MoveApart(s, j, Done(Some(OutcomeUnknown)));
      DecideApart(Move(s, j, Done(Some(OutcomeUnknown))), s.jobs[j].id, Ended(OutcomeUnknown), None);
    } else if status.Err? {
      MoveApart(s, j, Done(Some(status.error)));
    } else {
      var (target, binding) := status.value;
      MoveApart(s, j, if tx.committed then Querying(transport) else Uploading(target, binding, transport, None, false));
    }
  }

  /** Answers that come in, late or not, through the job on the radio. */
  lemma AnswerApart(s: System, a: Action)
    requires Inv(s) && ApartInv(s) && Enabled(s, a) && (a.Uploaded? || a.Reply? || a.Abort?)
    ensures ApartInv(Next(s, a))
  {
    assert JobOk(s, a.j);
    match a
    case Uploaded(j, reply) =>
      var p := s.jobs[j].phase;
      match UploadStep(s.sender.txs[s.jobs[j].id], s.jobs[j].id, p.transport, p.next, reply) {
        case Go(next) =>
          MoveApart(s, j, if s.jobs[j].returned then Done(Some(Transport)) else p.(next := Some(next), asked := false));
        case Stop(e) => MoveApart(s, j, Done(Some(e)));
        case Judged(r) => SettleApart(s, j, r);
      }
    case Reply(j, reply) =>
      if reply.None? { MoveApart(s, j, Done(Some(Transport))); }
      else if reply.value.op != s.jobs[j].phase.op || reply.value.id != s.jobs[j].id {
        MoveApart(s, j, Done(Some(InvalidReply)));
      } else { SettleApart(s, j, reply.value); }
    case Abort(j, error) => MoveApart(s, j, Done(Some(error)));
  }

  lemma QuietApart(s: System, a: Action)
    requires ApartInv(s) && Enabled(s, a) && (a.Acquire? || a.Upload? || a.SendQuery? || a.ExplicitPush?)
    ensures ApartInv(Next(s, a))
  {
    hide CommitSent, Shown;
    match a
    case Acquire(j) =>
      MoveApart(s, j, Connected);
      var m := Move(s, j, Connected);
      assert Alone(s, j);
      var t := Next(s, a);
      forall k | 0 <= k < |t.jobs| ensures Alone(t, k) && Findable(t, k) { assert Alone(m, k) && Findable(m, k); }
      forall id | id in t.sender.txs ensures Found(t, id) { assert Found(m, id); }
    case Upload(j, busy, admitted) =>
      var p := s.jobs[j].phase;
      if !busy { MoveApart(s, j, p.(asked := true)); }
      EmitApart(if busy then s else Move(s, j, p.(asked := true)),
                Frame(s.jobs[j].id, s.jobs[j].digest, if p.next.None? then Begin else Chunk, busy, admitted));
    case SendQuery(j, busy) =>
      if !busy { MoveApart(s, j, Awaiting(Query)); }
      EmitApart(if busy then s else Move(s, j, Awaiting(Query)),
                Frame(s.jobs[j].id, s.jobs[j].digest, Query, busy, false));
    case ExplicitPush(d) => CurrentApart(s, PrepareExplicitPush(s.sender, d).0.current);
  }

  lemma ApartNext(s: System, a: Action)
    requires Inv(s) && ApartInv(s) && Enabled(s, a) && Apart(s, a)
    ensures ApartInv(Next(s, a))
  {
    hide ApartInv, Inv;
    match a
    case SendStart(d, size, newId) => BegunApart(s, d, size, newId);
    case Route(j, status, transport) => RouteApart(s, j, status, transport);
    case MarkCommitted(j) => CommitmentApart(s, j);
    case SendCommit(j, busy, admitted) => CommitApart(s, j, busy, admitted);
    case Return(_) => ConcludeApart(s, a);
    case ReturnEarly(_) => ConcludeApart(s, a);
    case Uploaded(_, _) => AnswerApart(s, a);
    case Reply(_, _) => AnswerApart(s, a);
    case Abort(_, _) => AnswerApart(s, a);
    case _ => QuietApart(s, a);
  }

  lemma {:induction false} ApartHolds(run: Run)
    requires Feasible(run) && OneSendAtATime(run)
    ensures ApartInv(Final(run))
  {
    match run
    case Start =>
    case Then(before, step) =>
      ApartHolds(before);
      InvHolds(before);
      ApartNext(Final(before), step);
  }

  lemma SeparatedNext(s: System, a: Action)
    requires History(s) && ApartInv(s) && Separated(s.log) && Enabled(s, a)
    ensures Separated(Next(s, a).log)
  {
    Appends(s, a);
    var log := Next(s, a).log;
    forall i, b | 0 <= i < b < |log| && CommitFrame(log[i]) && CommitFrame(log[b])
                  && log[i].digest == log[b].digest && log[i].id != log[b].id
      ensures ShownBetween(log, i, b)
    {
      assert log[i] == s.log[i];
      if b < |s.log| {
        PrefixShown(s.log, log, i, b);
      } else {
        assert EventOk(s, s.log[i]) && CommitSent(s.log, s.log[i].id) && Alone(s, a.j) && JobOk(s, a.j);
        ShownAfter(s, i);
        ShownInPrefix(s.log, log, i);
      }
    }
  }

  /**
    When Sends of one PNG do not overlap, and however late their jobs end, two COMMIT frames of that
    PNG under different requests always have the first request's matching completion between them,
    whatever other images are sent in between.
   */
  lemma {:induction false} CommitsOfOneImageAreSeparated(run: Run)
    requires Feasible(run) && OneSendAtATime(run)
    ensures Separated(Final(run).log)
  {
    match run
    case Start =>
    case Then(before, step) =>
      CommitsOfOneImageAreSeparated(before);
      ApartHolds(before);
      HistoryHolds(before);
      SeparatedNext(Final(before), step);
  }

  // ---------------------------------------------------------------- what overlapping and late jobs do

  lemma {:induction false} Extend(run: Run, a: Action, s: System, t: System)
    requires Feasible(run) && Final(run) == s && s.sender.Valid() && Enabled(s, a) && Next(s, a) == t
    ensures Feasible(Then(run, a)) && Final(Then(run, a)) == t
    ensures NoEarlyReturn(run) && !a.ReturnEarly? ==> NoEarlyReturn(Then(run, a))
    ensures OneSendAtATime(run) && Apart(s, a) ==> OneSendAtATime(Then(run, a))
  {
  }

  const PLACE: (Target, BindingId) := (Target(1, 1), 5)

  /** The device already holds all 57 bytes of the upload. */
  function HeldReceipt(id: RequestId): Receipt { Receipt(Receiving, Begin, 0, id, 57, 57, 7) }

  ghost predicate Fresh(s: System, j: nat, id: RequestId) {
    && s.sender.Valid() && j < |s.jobs| && s.radio.None? && s.jobs[j].phase.Waiting? && !s.jobs[j].returned
    && s.jobs[j].id == id && s.jobs[j].digest == 7
    && id in s.sender.txs && s.sender.txs[id] == Tx(7, 57, None, false, Open)
  }

  /** The job's BEGIN is out. */
  function AtBegin(s: System, j: nat, id: RequestId): System
    requires Fresh(s, j, id)
  {
    System(s.sender, s.jobs[j := s.jobs[j].(phase := Uploading(PLACE.0, PLACE.1, Gatt, None, true))], Some(j),
           s.log + [Frame(id, 7, Begin, false, true)])
  }

  /** The upload is complete and nothing is marked yet. */
  function AtMark(s: System, j: nat, id: RequestId): System
    requires Fresh(s, j, id)
  {
    System(s.sender, s.jobs[j := s.jobs[j].(phase := Uploading(PLACE.0, PLACE.1, Gatt, Some(57), false))], Some(j),
           s.log + [Frame(id, 7, Begin, false, true)])
  }

  function AtCommit(s: System, j: nat, id: RequestId): System
    requires Fresh(s, j, id)
  {
    System(Mark(s.sender, id, PLACE.0, PLACE.1), s.jobs[j := s.jobs[j].(phase := Awaiting(Commit))], Some(j),
           s.log + [Frame(id, 7, Begin, false, true), Marked(id, 7), Frame(id, 7, Commit, false, true)])
  }

  lemma {:induction false} BeginPath(run: Run, s: System, j: nat, id: RequestId) returns (end: Run)
    requires Feasible(run) && Final(run) == s && Fresh(s, j, id)
    ensures Feasible(end) && Final(end) == AtBegin(s, j, id)
    ensures (NoEarlyReturn(run) ==> NoEarlyReturn(end)) && (OneSendAtATime(run) ==> OneSendAtATime(end))
  {
    var s1 := Next(s, Acquire(j));
    Extend(run, Acquire(j), s, s1);
    end := Then(run, Acquire(j));
    var s2 := Next(s1, Route(j, Ok(PLACE), Gatt));
    assert s2.jobs[j].phase == Uploading(PLACE.0, PLACE.1, Gatt, None, false);
    Extend(end, Route(j, Ok(PLACE), Gatt), s1, s2);
    end := Then(end, Route(j, Ok(PLACE), Gatt));
    var s3 := Next(s2, Upload(j, false, true));
    Extend(end, Upload(j, false, true), s2, s3);
    assert s3 == AtBegin(s, j, id);
    end := Then(end, Upload(j, false, true));
  }

  lemma {:induction false} MarkPath(run: Run, s: System, j: nat, id: RequestId) returns (end: Run)
    requires Feasible(run) && Final(run) == s && Fresh(s, j, id)
    ensures Feasible(end) && Final(end) == AtMark(s, j, id)
    ensures (NoEarlyReturn(run) ==> NoEarlyReturn(end)) && (OneSendAtATime(run) ==> OneSendAtATime(end))
  {
    end := BeginPath(run, s, j, id);
    var s3 := AtBegin(s, j, id);
    assert UploadStep(s3.sender.txs[id], id, Gatt, None, Some(HeldReceipt(id))) == Go(57);
    Extend(end, Uploaded(j, Some(HeldReceipt(id))), s3, AtMark(s, j, id));
    end := Then(end, Uploaded(j, Some(HeldReceipt(id))));
  }

  lemma {:induction false} CommitPath(run: Run, s: System, j: nat, id: RequestId) returns (end: Run)
    requires Feasible(run) && Final(run) == s && Fresh(s, j, id)
    ensures Feasible(end) && Final(end) == AtCommit(s, j, id)
    ensures (NoEarlyReturn(run) ==> NoEarlyReturn(end)) && (OneSendAtATime(run) ==> OneSendAtATime(end))
  {
    end := MarkPath(run, s, j, id);
    var s4 := Next(AtMark(s, j, id), MarkCommitted(j));
    Extend(end, MarkCommitted(j), AtMark(s, j, id), s4);
    end := Then(end, MarkCommitted(j));
    var s5 := Next(s4, SendCommit(j, false, true));
    Extend(end, SendCommit(j, false, true), s4, s5);
    assert s5 == AtCommit(s, j, id);
    end := Then(end, SendCommit(j, false, true));
  }

  /** The second request, fresh, is committed. */
  lemma {:induction false} SecondCommits(run: Run, s: System) returns (end: Run)
    requires Feasible(run) && Final(run) == s && Fresh(s, 1, 2)
    ensures Feasible(end)
    ensures Final(end).log == s.log + [Frame(2, 7, Begin, false, true), Marked(2, 7), Frame(2, 7, Commit, false, true)]
    ensures (NoEarlyReturn(run) ==> NoEarlyReturn(end)) && (OneSendAtATime(run) ==> OneSendAtATime(end))
  {
    hide Next, Enabled, Feasible, OneSendAtATime, NoEarlyReturn;
    end := CommitPath(run, s, 1, 2);
  }

  /**
    Two Sends of one PNG overlap: the second starts before the first marked its request, so it draws
    its own ID, and after a lost COMMIT reply the same PNG is committed twice with no completion in
    between.
   */
  lemma {:induction false} OverlappingSendsRepaint() returns (end: Run)
    ensures Feasible(end) && NoEarlyReturn(end) && !Separated(Final(end).log)
  {
    var run, s := OverlappingStarts();
    run, s := FirstCommits(run, s);
    hide Next, Enabled, Feasible, NoEarlyReturn, Fresh;
    end := SecondCommits(run, s);
    var log := Final(end).log;
    assert log == [Frame(1, 7, Begin, false, true), Marked(1, 7), Frame(1, 7, Commit, false, true),
                   Frame(2, 7, Begin, false, true), Marked(2, 7), Frame(2, 7, Commit, false, true)];
    assert !ShownBetween(log, 2, 5);
  }

  lemma {:induction false} OverlappingStarts() returns (run: Run, s: System)
    ensures Feasible(run) && NoEarlyReturn(run) && Final(run) == s && s.log == [] && Fresh(s, 0, 1) && Fresh(s, 1, 2)
  {
    var s1 := Next(INITIAL, SendStart(7, 57, 1));
    Extend(Start, SendStart(7, 57, 1), INITIAL, s1);
    run := Then(Start, SendStart(7, 57, 1));
    s := Next(s1, SendStart(7, 57, 2));
    Extend(run, SendStart(7, 57, 2), s1, s);
    run := Then(run, SendStart(7, 57, 2));
  }

  /** The first request is committed and the reply is lost. */
  lemma {:induction false} FirstCommits(before: Run, s: System) returns (run: Run, t: System)
    requires Feasible(before) && NoEarlyReturn(before) && Final(before) == s && Fresh(s, 0, 1) && Fresh(s, 1, 2)
    ensures Feasible(run) && NoEarlyReturn(run) && Final(run) == t && Fresh(t, 1, 2)
    ensures t.log == s.log + [Frame(1, 7, Begin, false, true), Marked(1, 7), Frame(1, 7, Commit, false, true)]
  {
    run := CommitPath(before, s, 0, 1);
    var m := AtCommit(s, 0, 1);
    t := Next(m, Reply(0, None));
    Extend(run, Reply(0, None), m, t);
    run := Then(run, Reply(0, None));
  }

  lemma FirstStart() returns (run: Run, s: System)
    ensures Feasible(run) && OneSendAtATime(run) && Final(run) == s && Fresh(s, 0, 1)
    ensures s == System(Sender(map[1 := Tx(7, 57, None, false, Open)], Some(1), map[], map[]),
                        [Job(1, 7, true, Waiting, false)], None, [])
  {
    s := Next(INITIAL, SendStart(7, 57, 1));
    Extend(Start, SendStart(7, 57, 1), INITIAL, s);
    run := Then(Start, SendStart(7, 57, 1));
  }

  /** The first Send gives up while its job is in `phase` on the radio; a second one starts. */
  lemma {:induction false} SecondStart(before: Run, phase: Phase, log: seq<Event>) returns (run: Run, s: System)
    requires Feasible(before) && OneSendAtATime(before) && phase.Uploading?
    requires Final(before) == System(Sender(map[1 := Tx(7, 57, None, false, Open)], Some(1), map[], map[]),
                                     [Job(1, 7, true, phase, false)], Some(0), log)
    ensures Feasible(run) && OneSendAtATime(run) && Final(run) == s
    ensures s == System(Sender(map[1 := Tx(7, 57, None, false, Open), 2 := Tx(7, 57, None, false, Open)],
                               Some(2), map[], map[]),
                        [Job(1, 7, true, phase, true), Job(2, 7, true, Waiting, false)], Some(0),
                        log + [Returned(1, false)])
  {
    var s0 := Final(before);
    var s1 := Next(s0, ReturnEarly(0));
    Extend(before, ReturnEarly(0), s0, s1);
    run := Then(before, ReturnEarly(0));
    assert s1.jobs == [Job(1, 7, true, phase, true)] && s1.sender == s0.sender;
    s := Next(s1, SendStart(7, 57, 2));
    Extend(run, SendStart(7, 57, 2), s1, s);
    run := Then(run, SendStart(7, 57, 2));
  }

  /** The job of the first Send marks its request late, and then fails its next context check. */
  lemma {:induction false} LateMark(before: Run, t: System) returns (run: Run, v: System)
    requires Feasible(before) && OneSendAtATime(before) && Final(before) == t && t.sender.Valid()
    requires |t.jobs| == 2 && t.jobs[0] == Job(1, 7, true, Uploading(PLACE.0, PLACE.1, Gatt, Some(57), false), true)
    requires t.radio == Some(0) && Fresh(t.(radio := None), 1, 2)
    requires 1 in t.sender.txs && t.sender.txs[1] == Tx(7, 57, None, false, Open)
    ensures Feasible(run) && OneSendAtATime(run) && Final(run) == v && Fresh(v, 1, 2)
    ensures v.log == t.log + [Marked(1, 7)]
  {
    var u := Next(t, MarkCommitted(0));
    Extend(before, MarkCommitted(0), t, u);
    run := Then(before, MarkCommitted(0));
    v := Next(u, Abort(0, Transport));
    Extend(run, Abort(0, Transport), u, v);
    run := Then(run, Abort(0, Transport));
  }

  /**
    Sends do not overlap, but the first returns between the last context check and the mark: its late
    mark and the second request's have no completion in between. No COMMIT of the first ever leaves.
   */
  lemma {:induction false} LateMarkIsNotSeparated() returns (end: Run)
    ensures Feasible(end) && OneSendAtATime(end) && !MarksSeparated(Final(end).log) && !CommitSent(Final(end).log, 1)
  {
    hide Next, Enabled, Feasible, OneSendAtATime;
    var run, s := FirstStart();
    run := MarkPath(run, s, 0, 1);
    run, s := SecondStart(run, Uploading(PLACE.0, PLACE.1, Gatt, Some(57), false), [Frame(1, 7, Begin, false, true)]);
    run, s := LateMark(run, s);
    hide Fresh;
    end := SecondCommits(run, s);
    var log := Final(end).log;
    assert log == [Frame(1, 7, Begin, false, true), Returned(1, false), Marked(1, 7), Frame(2, 7, Begin, false, true),
                   Marked(2, 7), Frame(2, 7, Commit, false, true)];
    assert !ShownBetween(log, 2, 4);
  }

  /** The job of the first Send reads that its request failed: the image is blocked. */
  lemma {:induction false} LateFailure(before: Run, t: System, failed: Receipt) returns (run: Run, v: System)
    requires Feasible(before) && OneSendAtATime(before) && Final(before) == t && t.sender.Valid()
    requires |t.jobs| == 2 && t.jobs[0] == Job(1, 7, true, Uploading(PLACE.0, PLACE.1, Gatt, None, true), true)
    requires t.radio == Some(0) && Fresh(t.(radio := None), 1, 2)
    requires 1 in t.sender.txs && t.sender.txs[1] == Tx(7, 57, None, false, Open)
    requires failed == Receipt(Failed, Begin, 9, 1, 57, 0, 7)
    ensures Feasible(run) && OneSendAtATime(run) && Final(run) == v && Fresh(v, 1, 2)
    ensures v.log == t.log + [Verdict(1, 7, false, Some(failed))]
  {
    assert UploadStep(t.sender.txs[1], 1, Gatt, None, Some(failed)) == Judged(failed);
    v := Next(t, Uploaded(0, Some(failed)));
    Extend(before, Uploaded(0, Some(failed)), t, v);
    run := Then(before, Uploaded(0, Some(failed)));
  }

  /**
    Sends do not overlap, but the first returns while the answer to its BEGIN is being read. The answer
    says the request failed: the image is blocked after the second Send was let in, which commits it.
   */
  lemma {:induction false} LateFailureIsCommittedAgain() returns (end: Run)
    ensures Feasible(end) && OneSendAtATime(end) && !NeverAgain(Final(end).log)
  {
    hide Next, Enabled, Feasible, OneSendAtATime;
    var run, s := FirstStart();
    run := BeginPath(run, s, 0, 1);
    run, s := SecondStart(run, Uploading(PLACE.0, PLACE.1, Gatt, None, true), [Frame(1, 7, Begin, false, true)]);
    var failed := Receipt(Failed, Begin, 9, 1, 57, 0, 7);
    run, s := LateFailure(run, s, failed);
    hide Fresh;
    end := SecondCommits(run, s);
    var log := Final(end).log;
    assert log == [Frame(1, 7, Begin, false, true), Returned(1, false), Verdict(1, 7, false, Some(failed)),
                   Frame(2, 7, Begin, false, true), Marked(2, 7), Frame(2, 7, Commit, false, true)];
    assert log[2].Verdict? && !log[2].ok && CommitFrame(log[5]);
  }
}
