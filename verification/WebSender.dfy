/**
  The browser's image sender: web/src/photoframe/sender.ts and store.ts with the page lock of
  web/src/lock.ts. Any number of tabs share one durable record; a tab may close or die at any step,
  and any reply may be lost or refused.
 */
module WebSender {
  import opened Wrappers

  type RequestId = nat
  type Digest = nat

  datatype Record = Record(device: nat, binding: nat, id: RequestId, digest: Digest, size: nat)

  /** Receipt state numbers of the image service. */
  const RECEIVING: nat := 1
  const PROCESSING: nat := 2
  const COMPLETE: nat := 3
  const CANCELED: nat := 5

  datatype Receipt = Receipt(state: nat, code: nat, id: RequestId, size: nat, received: nat, digest: Digest)

  predicate Matches(r: Record, m: Receipt) {
    m.id == r.id && m.digest == r.digest && m.size == r.size && m.received <= r.size
  }

  predicate Receiving(r: Record, m: Receipt, offset: nat) {
    Matches(r, m) && m.state == RECEIVING && m.code == 0 && m.received == offset
  }

  predicate Completes(r: Record, m: Receipt) {
    Matches(r, m) && m.state == COMPLETE && m.code == 0 && m.received == r.size
  }

  predicate Cancels(r: Record, m: Receipt) {
    Matches(r, m) && m.state == CANCELED && m.code == 0
  }

  predicate StillDisplaying(r: Record, m: Receipt) {
    Matches(r, m) && m.state == PROCESSING && m.code == 0 && m.received == r.size
  }

  /**
    The one receipt of each kind, by its numbers on the wire: receiving up to the offset asked for,
    displaying and complete with every byte received, canceled at any byte.
   */
  lemma ReceiptsExactly(r: Record, m: Receipt, offset: nat)
    ensures Receiving(r, m, offset) <==> m == Receipt(1, 0, r.id, r.size, offset, r.digest) && offset <= r.size
    ensures StillDisplaying(r, m) <==> m == Receipt(2, 0, r.id, r.size, r.size, r.digest)
    ensures Completes(r, m) <==> m == Receipt(3, 0, r.id, r.size, r.size, r.digest)
    ensures Cancels(r, m) <==> m == Receipt(5, 0, r.id, r.size, m.received, r.digest) && m.received <= r.size
  {
  }

  /** Why a tab asks the store to drop its record. */
  datatype Cause = Completed(receipt: Receipt) | Withdrawn(receipt: Receipt) | Acknowledged

  /**
    A tab: unconnected, connected with nothing under way, or somewhere in send, recover or
    acknowledge. Uploading has no offset until BEGIN is answered.
   */
  datatype Phase =
    | Unconnected
    | Connected
    | Uploading(record: Record, chunk: nat, offset: Option<nat>)
    | Putting(record: Record)
    | Stored(record: Record)
    | Cancelling(record: Record)
    | Resending(record: Record)
    | Awaiting(record: Record)
    | Asking(record: Record)
    | Removing(record: Record, cause: Cause)
    | Gone
  {
    predicate HasRecord() { !Unconnected? && !Connected? && !Gone? }

    /** The tab created this record and may still COMMIT it. */
    predicate Owns() { Uploading? || Putting? || Stored? || Cancelling? || Resending? }

    /** The record is on disk and no COMMIT of it has been admitted. */
    predicate Held() { Stored? || Cancelling? || Resending? }
  }

  /** A hidden page has released the lock; a storage transaction it had issued may still finish. */
  datatype Tab = Tab(phase: Phase, hidden: bool)

  datatype Event =
    | Commit(record: Record, busy: bool, admitted: bool)
    | Query(record: Record)
    | Cancel(record: Record)
    | Removed(record: Record, cause: Cause)

  datatype System = System(tabs: seq<Tab>, lock: Option<nat>, store: Option<Record>,
                           ids: set<RequestId>, stored: set<Record>, log: seq<Event>)

  const INITIAL := System([], None, None, {}, {}, [])

  datatype Action =
    | Open
    | Connect(t: nat)
    | Disconnect(t: nat)
    | Send(t: nat, record: Record, chunk: nat)
    | Upload(t: nat, reply: Option<Receipt>)
    | Put(t: nat)
    | PutDone(t: nat, ok: bool)
    | SendCommit(t: nat, busy: bool, admitted: bool)
    | SendCancel(t: nat)
    | Reply(t: nat, reply: Option<Receipt>)
    | Recover(t: nat)
    | Ask(t: nat)
    | Acknowledge(t: nat, record: Record)
    | RemoveDone(t: nat)
    | CancelUpload(t: nat)
    | Abort(t: nat)
    | Hide(t: nat)
    | Die(t: nat)

  predicate In(s: System, t: nat) { t < |s.tabs| }

  function At(s: System, t: nat): Phase
    requires In(s, t)
  {
    s.tabs[t].phase
  }

  /** A tab still showing its page. */
  predicate Live(s: System, t: nat) { In(s, t) && !s.tabs[t].hidden }

  predicate Enabled(s: System, a: Action) {
    match a
    case Open => true
    case Connect(t) => Live(s, t) && At(s, t).Unconnected? && s.lock.None?
    case Disconnect(t) => Live(s, t) && At(s, t).Connected?
    case Send(t, r, chunk) =>
      Live(s, t) && At(s, t).Connected? && s.store.None? && r.id !in s.ids && r.size > 0 && chunk > 0
    case Upload(t, reply) => Live(s, t) && At(s, t).Uploading? && At(s, t).offset != Some(At(s, t).record.size)
    case Put(t) => Live(s, t) && At(s, t).Uploading? && At(s, t).offset == Some(At(s, t).record.size)
    case PutDone(t, ok) => In(s, t) && At(s, t).Putting?
    case SendCommit(t, busy, admitted) =>
      Live(s, t) && (At(s, t).Stored? || At(s, t).Resending?) && (busy ==> !admitted)
    case SendCancel(t) => Live(s, t) && At(s, t).Stored?
    case Reply(t, reply) => Live(s, t) && (At(s, t).Cancelling? || At(s, t).Awaiting?)
    case Recover(t) => Live(s, t) && At(s, t).Connected? && s.store.Some?
    case Ask(t) => Live(s, t) && At(s, t).Asking?
    case Acknowledge(t, r) => Live(s, t) && At(s, t).Unconnected? && s.lock.None? && r in s.stored
    case RemoveDone(t) => In(s, t) && At(s, t).Removing?
    // A stop before the record is stored: whatever CANCEL is answered, this send is over.
    case CancelUpload(t) => Live(s, t) && At(s, t).Uploading? && At(s, t).offset.Some?
    // A user abort, a deadline or a lost connection; a storage transaction ends in its own way.
    case Abort(t) => Live(s, t) && At(s, t).HasRecord() && !At(s, t).Putting? && !At(s, t).Removing?
    case Hide(t) => Live(s, t)
    case Die(t) => In(s, t)
  }

  function Go(s: System, t: nat, phase: Phase): System
    requires In(s, t)
  {
    s.(tabs := s.tabs[t := s.tabs[t].(phase := phase)])
  }

  function Emit(s: System, e: Event): System { s.(log := s.log + [e]) }

  function Unlock(s: System, t: nat): System { if s.lock == Some(t) then s.(lock := None) else s }

  function Min(a: nat, b: nat): nat { if a < b then a else b }

  /** The reply to BEGIN, or to the chunk that ends at `end`. */
  function Uploaded(s: System, t: nat, reply: Option<Receipt>): System
    requires In(s, t) && At(s, t).Uploading?
  {
    var p := At(s, t);
    var end := if p.offset.None? then 0 else Min(p.offset.value + p.chunk, p.record.size);
    if reply.Some? && Receiving(p.record, reply.value, end) then Go(s, t, p.(offset := Some(end)))
    else Go(s, t, Connected)
  }

  /** `add` in one durable transaction: it fails when a record is there. */
  function PutEnds(s: System, t: nat, ok: bool): System
    requires In(s, t) && At(s, t).Putting?
  {
    var r := At(s, t).record;
    if ok && s.store.None? then
      Go(s.(store := Some(r), stored := s.stored + {r}), t, if s.tabs[t].hidden then Gone else Stored(r))
    else Go(s, t, if s.tabs[t].hidden then Gone else Connected)
  }

  predicate SameRecord(a: Record, b: Record) {
    a.device == b.device && a.binding == b.binding && a.id == b.id && a.digest == b.digest
  }

  /** `delete` in one durable transaction: it aborts when the record changed. */
  function RemoveEnds(s: System, t: nat): System
    requires In(s, t) && At(s, t).Removing?
  {
    var p := At(s, t);
    var after := if s.tabs[t].hidden then Gone else if p.cause.Acknowledged? then Unconnected else Connected;
    var freed := if p.cause.Acknowledged? then Unlock(s, t) else s;
    if s.store.Some? && SameRecord(s.store.value, p.record) then
      Go(Emit(freed.(store := None), Removed(p.record, p.cause)), t, after)
    else Go(freed, t, after)
  }

  /** The reply to a CANCEL, to the COMMIT, or to a QUERY. */
  function Replied(s: System, t: nat, reply: Option<Receipt>): System
    requires In(s, t) && (At(s, t).Cancelling? || At(s, t).Awaiting?)
  {
    var p := At(s, t);
    if reply.None? then Go(s, t, Connected)
    else if p.Cancelling? then
      if Cancels(p.record, reply.value) then Go(s, t, Removing(p.record, Withdrawn(reply.value)))
          else Go(s, t, Connected)
    else if Completes(p.record, reply.value) then Go(s, t, Removing(p.record, Completed(reply.value)))
    else if StillDisplaying(p.record, reply.value) then Go(s, t, Asking(p.record))
    else Go(s, t, Connected)
  }

  function Next(s: System, a: Action): System
    requires Enabled(s, a)
  {
    match a
    case Open => s.(tabs := s.tabs + [Tab(Unconnected, false)])
    case Connect(t) => Go(s.(lock := Some(t)), t, Connected)
    case Disconnect(t) => Go(Unlock(s, t), t, Unconnected)
    case Send(t, r, chunk) => Go(s.(ids := s.ids + {r.id}), t, Uploading(r, chunk, None))
    case Upload(t, reply) => Uploaded(s, t, reply)
    case Put(t) => Go(s, t, Putting(At(s, t).record))
    case PutDone(t, ok) => PutEnds(s, t, ok)
    case SendCommit(t, busy, admitted) =>
      var r := At(s, t).record;
      Go(Emit(s, Commit(r, busy, admitted)), t, if busy then Resending(r) else Awaiting(r))
    case SendCancel(t) => Go(Emit(s, Cancel(At(s, t).record)), t, Cancelling(At(s, t).record))
    case Reply(t, reply) => Replied(s, t, reply)
    case Recover(t) => Go(s, t, Asking(s.store.value))
    case Ask(t) => Go(Emit(s, Query(At(s, t).record)), t, Awaiting(At(s, t).record))
    case Acknowledge(t, r) => Go(s.(lock := Some(t)), t, Removing(r, Acknowledged))
    case RemoveDone(t) => RemoveEnds(s, t)
    case CancelUpload(t) => Go(Emit(s, Cancel(At(s, t).record)), t, Connected)
    case Abort(t) => Go(s, t, Connected)
    case Hide(t) =>
      var p := At(s, t);
      Unlock(s, t).(tabs := s.tabs[t := Tab(if p.Putting? || p.Removing? then p else Gone, true)])
    case Die(t) => Go(Unlock(s, t), t, Gone)
  }

  datatype Run = Start | Then(before: Run, step: Action)

  ghost predicate Feasible(run: Run)
    decreases run, 0
  {
    run.Then? ==> Feasible(run.before) && Enabled(Final(run.before), run.step)
  }

  ghost function Final(run: Run): System
    requires Feasible(run)
    decreases run, 1
  {
    if run.Start? then INITIAL else Next(Final(run.before), run.step)
  }

  // ---------------------------------------------------------------- what every run keeps

  predicate Committed(log: seq<Event>, id: RequestId) {
    exists e :: e in log && e.Commit? && e.record.id == id
  }

  predicate CommitTaken(log: seq<Event>, id: RequestId) {
    exists e :: e in log && e.Commit? && e.record.id == id && !e.busy
  }

  ghost predicate TabOk(s: System, t: nat)
    requires In(s, t)
  {
    var p := At(s, t);
    && (p.HasRecord() ==> p.record.id in s.ids)
    && (!s.tabs[t].hidden && !p.Unconnected? && !p.Gone? ==> s.lock == Some(t))
    && (s.tabs[t].hidden ==> p.Putting? || p.Removing? || p.Gone?)
    && (p.Uploading? || p.Putting? ==> p.record !in s.stored)
    && (p.Held() ==> s.store == Some(p.record) && !CommitTaken(s.log, p.record.id))
    && (p.Uploading? || p.Putting? || p.Stored? || p.Cancelling? ==> !Committed(s.log, p.record.id))
    && (p.Awaiting? || p.Asking? || p.Removing? ==> p.record in s.stored)
    && (p.Uploading? && p.offset.Some? ==> p.offset.value <= p.record.size)
    && (p.Removing? ==> CauseOk(s.log, p.record, p.cause))
  }

  /** What justifies dropping a record. */
  ghost predicate CauseOk(log: seq<Event>, r: Record, cause: Cause) {
    match cause
    case Completed(m) => Completes(r, m)
    case Withdrawn(m) => Cancels(r, m) && !Committed(log, r.id)
    case Acknowledged => true
  }

  /** Two tabs never share a record one of them may still commit. */
  ghost predicate Apart(s: System, t: nat, u: nat)
    requires In(s, t) && In(s, u)
  {
    t != u && At(s, t).Owns() && At(s, u).HasRecord() ==> At(s, t).record.id != At(s, u).record.id
  }

  ghost predicate StoreOk(s: System) {
    && (s.store.Some? ==> s.store.value in s.stored)
    && (forall r | r in s.stored :: r.id in s.ids)
    && (forall q, r | q in s.stored && r in s.stored :: q.id == r.id ==> q == r)
    && (forall t: nat, r | In(s, t) && r in s.stored && At(s, t).HasRecord() && At(s, t).record.id == r.id ::
          At(s, t).record == r)
    && (s.lock.Some? ==> In(s, s.lock.value))
  }

  ghost predicate EventOk(s: System, k: nat)
    requires k < |s.log|
  {
    var e := s.log[k];
    e.record.id in s.ids && (e.Removed? ==> e.record in s.stored)
  }

  ghost predicate Inv(s: System) {
    && StoreOk(s)
    && (forall t: nat | In(s, t) :: TabOk(s, t))
    && (forall t: nat, u: nat | In(s, t) && In(s, u) :: Apart(s, t, u))
    && (forall k: nat | k < |s.log| :: EventOk(s, k))
  }

  lemma LogGrows(log: seq<Event>, e: Event, id: RequestId)
    ensures Committed(log + [e], id) <==> Committed(log, id) || (e.Commit? && e.record.id == id)
    ensures CommitTaken(log + [e], id) <==> CommitTaken(log, id) || (e.Commit? && e.record.id == id && !e.busy)
  {
    if Committed(log, id) {
      var f :| f in log && f.Commit? && f.record.id == id;
      assert f in log + [e];
    }
    if CommitTaken(log, id) {
      var f :| f in log && f.Commit? && f.record.id == id && !f.busy;
      assert f in log + [e];
    }
    assert e in log + [e];
  }

  predicate By(a: Action, t: nat) {
    match a
    case Open => false
    case _ => a.t == t
  }

  lemma CommittedIsKnown(s: System, id: RequestId)
    requires Inv(s) && Committed(s.log, id)
    ensures id in s.ids
  {
    var e :| e in s.log && e.Commit? && e.record.id == id;
    var k :| 0 <= k < |s.log| && s.log[k] == e;
    assert EventOk(s, k);
  }

  lemma OwnStep(s: System, a: Action, t: nat)
    requires Inv(s) && Enabled(s, a) && In(s, t) && By(a, t)
    ensures In(Next(s, a), t) && TabOk(Next(s, a), t)
  {
    assert TabOk(s, t);
    if a.Send? && Committed(s.log, a.record.id) { CommittedIsKnown(s, a.record.id); }
    if |Next(s, a).log| > |s.log| {
      var p := At(s, t);
      LogGrows(s.log, Next(s, a).log[|s.log|], p.record.id);
    }
  }

  lemma OthersStep(s: System, a: Action, t: nat)
    requires Inv(s) && Enabled(s, a) && In(s, t) && !By(a, t)
    ensures In(Next(s, a), t) && TabOk(Next(s, a), t) && Next(s, a).tabs[t] == s.tabs[t]
  {
    assert TabOk(s, t);
    OthersTab(s, a, t);
    if !a.Open? {
      assert TabOk(s, a.t) && Apart(s, t, a.t) && Apart(s, a.t, t);
      if At(s, t).HasRecord() { OthersLog(s, a, t); }
    }
  }

  lemma OthersTab(s: System, a: Action, t: nat)
    requires Enabled(s, a) && In(s, t) && !By(a, t)
    ensures In(Next(s, a), t) && Next(s, a).tabs[t] == s.tabs[t] && s.stored <= Next(s, a).stored
  {
  }

  /** Another tab's step commits nothing of this tab's record while this tab may still act on it. */
  lemma OthersLog(s: System, a: Action, t: nat)
    requires Enabled(s, a) && In(s, t) && !By(a, t) && !a.Open? && At(s, t).HasRecord()
    ensures var id, n := At(s, t).record.id, Next(s, a);
      && (Committed(n.log, id) <==> Committed(s.log, id) || (a.SendCommit? && At(s, a.t).record.id == id))
      && (CommitTaken(n.log, id) <==>
            CommitTaken(s.log, id) || (a.SendCommit? && At(s, a.t).record.id == id && !a.busy))
  {
    if |Next(s, a).log| > |s.log| { LogGrows(s.log, Next(s, a).log[|s.log|], At(s, t).record.id); }
  }

  /** What a tab holds under a stored identity is that stored record. */
  lemma RecordsAgree(s: System, a: Action, t: nat, r: Record)
    requires Inv(s) && Enabled(s, a)
    requires var n := Next(s, a); In(n, t) && r in n.stored && At(n, t).HasRecord() && At(n, t).record.id == r.id
    ensures At(Next(s, a), t).record == r
  {
    hide TabOk, EventOk;
    if TakesUp(a) {
      TakenRecordsAgree(s, a, t, r);
    } else if In(s, t) {
      KeepsRecord(s, a, t);
      hide Next;
      if a.PutDone? {
        assert Apart(s, a.t, t);
        PutStores(s, a.t, a.ok);
      } else {
        StoredGrows(s, a);
      }
    }
  }

  lemma TakenRecordsAgree(s: System, a: Action, t: nat, r: Record)
    requires StoreOk(s) && Enabled(s, a) && TakesUp(a)
    requires var n := Next(s, a); In(n, t) && r in n.stored && At(n, t).HasRecord() && At(n, t).record.id == r.id
    ensures At(Next(s, a), t).record == r
  {
    assert In(s, t) && r in s.stored;
    if a.t != t { assert Next(s, a).tabs[t] == s.tabs[t]; }
  }

  lemma StoredGrows(s: System, a: Action)
    requires Enabled(s, a)
    ensures !a.PutDone? ==> Next(s, a).stored == s.stored
  {
  }

  lemma PutStores(s: System, t: nat, ok: bool)
    requires Enabled(s, PutDone(t, ok))
    ensures Next(s, PutDone(t, ok)).stored <= s.stored + {At(s, t).record}
    ensures forall u: nat | In(s, u) && u != t ::
              In(Next(s, PutDone(t, ok)), u) && Next(s, PutDone(t, ok)).tabs[u] == s.tabs[u]
    ensures At(Next(s, PutDone(t, ok)), t).HasRecord() ==> At(Next(s, PutDone(t, ok)), t).record == At(s, t).record
  {
  }

  lemma StoreNext(s: System, a: Action)
    requires Inv(s) && Enabled(s, a)
    ensures StoreOk(Next(s, a))
  {
    var n := Next(s, a);
    forall t: nat, r | In(n, t) && r in n.stored && At(n, t).HasRecord() && At(n, t).record.id == r.id
      ensures At(n, t).record == r
    {
      RecordsAgree(s, a, t, r);
    }
    if a.PutDone? { PutKeepsStore(s, a.t, a.ok); } else { assert n.stored == s.stored; }
  }

  lemma PutKeepsStore(s: System, t: nat, ok: bool)
    requires Inv(s) && Enabled(s, PutDone(t, ok))
    ensures var n := Next(s, PutDone(t, ok));
            && (n.store.Some? ==> n.store.value in n.stored)
            && (forall r | r in n.stored :: r.id in n.ids)
            && (forall q, r | q in n.stored && r in n.stored :: q.id == r.id ==> q == r)
  {
    assert TabOk(s, t);
  }

  /** Taking up a stored record is no threat to a tab that may still commit its own. */
  lemma OwnersAreElsewhere(s: System, u: nat, r: Record)
    requires Inv(s) && In(s, u) && r in s.stored && At(s, u).Owns() && At(s, u).record.id == r.id
    ensures s.lock == Some(u)
  {
    assert TabOk(s, u);
  }

  predicate TakesUp(a: Action) { a.Send? || a.Recover? || a.Acknowledge? }

  lemma ApartNext(s: System, a: Action, t: nat, u: nat)
    requires Inv(s) && Enabled(s, a) && In(Next(s, a), t) && In(Next(s, a), u)
    ensures Apart(Next(s, a), t, u)
  {
    if In(s, t) && In(s, u) && t != u {
      assert TabOk(s, t) && TabOk(s, u) && Apart(s, t, u) && Apart(s, u, t);
      if TakesUp(a) { TakingUpApart(s, a, t, u); } else { KeepsRecord(s, a, t); KeepsRecord(s, a, u); }
    }
  }

  lemma KeepsRecord(s: System, a: Action, t: nat)
    requires Enabled(s, a) && In(s, t) && !TakesUp(a)
    ensures In(Next(s, a), t)
    ensures At(Next(s, a), t).HasRecord() ==> At(s, t).HasRecord() && At(Next(s, a), t).record == At(s, t).record
    ensures At(Next(s, a), t).Owns() ==> At(s, t).Owns()
  {
  }

  lemma TakingUpApart(s: System, a: Action, t: nat, u: nat)
    requires Inv(s) && Enabled(s, a) && In(s, t) && In(s, u) && t != u && TakesUp(a)
    ensures Apart(Next(s, a), t, u)
  {
    assert TabOk(s, t) && TabOk(s, u) && Apart(s, t, u) && TabOk(s, a.t);
    if !a.Send? && u == a.t && At(s, t).Owns() {
      var r := if a.Recover? then s.store.value else a.record;
      if At(s, t).record.id == r.id { OwnersAreElsewhere(s, t, r); }
    }
  }

  lemma SameTabs(s: System, a: Action)
    requires Enabled(s, a)
    ensures forall t: nat | In(Next(s, a), t) :: In(s, t) || TabOk(Next(s, a), t)
  {
  }

  lemma EventsNext(s: System, a: Action, k: nat)
    requires Inv(s) && Enabled(s, a) && k < |Next(s, a).log|
    ensures EventOk(Next(s, a), k)
  {
    if k < |s.log| { assert EventOk(s, k); }
    if !a.Open? { assert TabOk(s, a.t); }
  }

  lemma InvNext(s: System, a: Action)
    requires Inv(s) && Enabled(s, a)
    ensures Inv(Next(s, a))
  {
    hide TabOk, Apart, EventOk, StoreOk, Next;
    var n := Next(s, a);
    SameTabs(s, a);
    StoreNext(s, a);
    forall t: nat | In(n, t) ensures TabOk(n, t) {
      if In(s, t) {
        if By(a, t) { OwnStep(s, a, t); } else { OthersStep(s, a, t); }
      }
    }
    forall t: nat, u: nat | In(n, t) && In(n, u) ensures Apart(n, t, u) { ApartNext(s, a, t, u); }
    forall k: nat | k < |n.log| ensures EventOk(n, k) { EventsNext(s, a, k); }
  }

  lemma {:induction false} InvHolds(run: Run)
    requires Feasible(run)
    ensures Inv(Final(run))
    decreases run
  {
    if run.Then? {
      InvHolds(run.before);
      InvNext(Final(run.before), run.step);
    }
  }

  // ---------------------------------------------------------------- histories

  ghost predicate RemovedIn(log: seq<Event>, a: nat, b: nat)
    requires a < b <= |log|
  {
    exists k: nat :: a < k < b && log[k].Removed? && log[k].record == log[a].record
  }

  /** Of two COMMIT frames of one request, the first was answered BUSY: it was not admitted. */
  ghost predicate Once(log: seq<Event>) {
    forall a: nat, b: nat | a < b < |log| && log[a].Commit? && log[b].Commit? &&
                            log[a].record.id == log[b].record.id :: log[a].busy && !log[a].admitted
  }

  /** Between COMMITs of two requests the first one's record has left the store. */
  ghost predicate Separated(log: seq<Event>) {
    forall a: nat, b: nat | a < b < |log| && log[a].Commit? && log[b].Commit? &&
                            log[a].record.id != log[b].record.id :: RemovedIn(log, a, b)
  }

  ghost predicate Resolved(s: System) {
    forall a: nat | a < |s.log| && s.log[a].Commit? ::
      s.store == Some(s.log[a].record) || RemovedIn(s.log, a, |s.log|)
  }

  ghost predicate Justified(s: System) {
    forall k: nat | k < |s.log| && s.log[k].Removed? ::
      s.store != Some(s.log[k].record) && CauseOk(s.log, s.log[k].record, s.log[k].cause)
  }

  ghost predicate History(s: System) {
    && (forall k: nat | k < |s.log| && s.log[k].Commit? ::
          s.log[k].record in s.stored && (s.log[k].busy ==> !s.log[k].admitted))
    && Once(s.log) && Separated(s.log) && Resolved(s) && Justified(s)
  }

  lemma RemovedStays(log: seq<Event>, e: Event, a: nat, b: nat)
    requires a < b <= |log|
    ensures RemovedIn(log, a, b) ==> RemovedIn(log + [e], a, b) && RemovedIn(log + [e], a, |log| + 1)
  {
    if RemovedIn(log, a, b) {
      var k: nat :| a < k < b && log[k].Removed? && log[k].record == log[a].record;
      assert (log + [e])[k] == log[k] && (log + [e])[a] == log[a];
    }
  }

  /** The log and the store after one step: at most one event, and what it means. */
  lemma StepShape(s: System, a: Action)
    requires Inv(s) && Enabled(s, a)
    ensures var n := Next(s, a);
            || n.log == s.log
            || (|n.log| == |s.log| + 1 && n.log == s.log + [n.log[|s.log|]])
    ensures var n := Next(s, a);
            a.SendCommit? ==> n.log == s.log + [Commit(At(s, a.t).record, a.busy, a.admitted)] && n.store == s.store
    ensures var n := Next(s, a);
            a.RemoveDone? ==> (n.store == s.store && n.log == s.log) ||
                              (s.store == Some(At(s, a.t).record) && n.store.None? &&
                               n.log == s.log + [Removed(At(s, a.t).record, At(s, a.t).cause)])
    ensures var n := Next(s, a);
            !a.SendCommit? && !a.RemoveDone? ==>
              && (|n.log| > |s.log| ==> n.log[|s.log|].Query? || n.log[|s.log|].Cancel?)
              && (n.store == s.store || (a.PutDone? && s.store.None? && n.store == Some(At(s, a.t).record)))
    ensures a.SendCommit? ==>
              s.store == Some(At(s, a.t).record) && !CommitTaken(s.log, At(s, a.t).record.id) &&
              (At(s, a.t).Stored? ==> !Committed(s.log, At(s, a.t).record.id)) && s.lock == Some(a.t)
  {
    if !a.Open? { assert TabOk(s, a.t); }
  }

  lemma SeparatedNext(s: System, e: Event)
    requires History(s) && (e.Commit? ==> s.store == Some(e.record))
    ensures Separated(s.log + [e])
  {
    var log := s.log + [e];
    forall a: nat, b: nat | a < b < |log| && log[a].Commit? && log[b].Commit? && log[a].record.id != log[b].record.id
      ensures RemovedIn(log, a, b)
    {
      RemovedStays(s.log, e, a, b);
    }
  }

  lemma ResolvedNext(s: System, e: Event, store: Option<Record>)
    requires History(s)
    requires e.Commit? ==> store == Some(e.record)
    requires store == s.store || (s.store.None? && !e.Removed?) || (e.Removed? && s.store == Some(e.record))
    ensures Resolved(s.(store := store, log := s.log + [e]))
  {
    var log := s.log + [e];
    forall a: nat | a < |log| && log[a].Commit?
      ensures store == Some(log[a].record) || RemovedIn(log, a, |log|)
    {
      if a < |s.log| {
        RemovedStays(s.log, e, a, |s.log|);
        if s.store == Some(log[a].record) && e.Removed? && e.record == log[a].record {
          assert log[|s.log|] == e;
        }
      }
    }
  }

  /** A withdrawn request is never committed afterwards. */
  lemma JustifiedNext(s: System, a: Action)
    requires Inv(s) && History(s) && Enabled(s, a)
    ensures Justified(Next(s, a))
  {
    var n := Next(s, a);
    StepShape(s, a);
    InvNext(s, a);
    forall k: nat | k < |n.log| && n.log[k].Removed?
      ensures n.store != Some(n.log[k].record) && CauseOk(n.log, n.log[k].record, n.log[k].cause)
    {
      var r := n.log[k].record;
      if k < |s.log| {
        assert n.log[k] == s.log[k] && EventOk(s, k);
        if |n.log| > |s.log| { LogGrows(s.log, n.log[|s.log|], r.id); }
        if a.PutDone? { assert TabOk(s, a.t); }
      } else {
        assert TabOk(s, a.t);
        LogGrows(s.log, n.log[|s.log|], r.id);
      }
    }
  }

  lemma OnceNext(s: System, e: Event)
    requires History(s)
    requires e.Commit? ==> !CommitTaken(s.log, e.record.id)
    ensures Once(s.log + [e])
  {
    var log := s.log + [e];
    forall a: nat, b: nat | a < b < |log| && log[a].Commit? && log[b].Commit? && log[a].record.id == log[b].record.id
      ensures log[a].busy && !log[a].admitted
    {
      if b == |s.log| { assert s.log[a] in s.log; }
    }
  }

  lemma HistoryNext(s: System, a: Action)
    requires Inv(s) && History(s) && Enabled(s, a)
    ensures History(Next(s, a))
  {
    var n := Next(s, a);
    StepShape(s, a);
    JustifiedNext(s, a);
    if |n.log| > |s.log| {
      var e := n.log[|s.log|];
      SeparatedNext(s, e);
      OnceNext(s, e);
      ResolvedNext(s, e, n.store);
    }
  }

  lemma {:induction false} HistoryHolds(run: Run)
    requires Feasible(run)
    ensures Inv(Final(run)) && History(Final(run))
    decreases run
  {
    InvHolds(run);
    if run.Then? {
      HistoryHolds(run.before);
      HistoryNext(Final(run.before), run.step);
    }
  }

  // ---------------------------------------------------------------- main results

  /** Write-ahead: a COMMIT frame leaves only while the store holds exactly its record, under the lock. */
  lemma {:induction false} CommitIsWrittenAhead(run: Run, t: nat, busy: bool, admitted: bool)
    requires Feasible(Then(run, SendCommit(t, busy, admitted)))
    ensures var s := Final(run);
            s.store == Some(At(s, t).record) && s.lock == Some(t) && !CommitTaken(s.log, At(s, t).record.id)
  {
    InvHolds(run);
    StepShape(Final(run), SendCommit(t, busy, admitted));
  }

  /** However tabs interleave, close and die, no request is admitted twice. */
  lemma {:induction false} AdmittedAtMostOnce(run: Run, a: nat, b: nat)
    requires Feasible(run) && a < |Final(run).log| && b < |Final(run).log|
    requires var e, f := Final(run).log[a], Final(run).log[b];
             e.Commit? && f.Commit? && e.record.id == f.record.id && e.admitted && f.admitted
    ensures a == b
  {
    HistoryHolds(run);
  }

  /**
    A second physical refresh is never sent while the first is unresolved: between COMMITs of two
    requests the first record left the store, on a matching completion or on acknowledgement.
   */
  lemma {:induction false} CommitsAreSeparatedByResolution(run: Run, a: nat, b: nat) returns (k: nat)
    requires Feasible(run) && a < b < |Final(run).log|
    requires var log := Final(run).log; log[a].Commit? && log[b].Commit? && log[a].record.id != log[b].record.id
    ensures a < k < b && Final(run).log[k].Removed? && Final(run).log[k].record == Final(run).log[a].record
    ensures var e := Final(run).log[k];
            e.cause.Acknowledged? || (e.cause.Completed? && Completes(e.record, e.cause.receipt))
  {
    HistoryHolds(run);
    var s := Final(run);
    k :| a < k < b && s.log[k].Removed? && s.log[k].record == s.log[a].record;
    assert CauseOk(s.log, s.log[k].record, s.log[k].cause);
    assert s.log[a] in s.log;
  }

  /**
    Over every run, a reply never touches the store. A tab that awaits the outcome asks again exactly
    after the receipt that the panel is still displaying, drops the record exactly after the one that
    it is complete, and on any other, or on none, leaves the record for a later recovery.
   */
  lemma {:induction false} RepliesLeaveTheRecord(run: Run, t: nat, reply: Option<Receipt>)
    requires Feasible(Then(run, Reply(t, reply))) && At(Final(run), t).Awaiting?
    ensures var s, n := Final(run), Final(Then(run, Reply(t, reply))); var r := At(s, t).record;
      && n.store == s.store && n.log == s.log && n.lock == s.lock == Some(t) && r in n.stored && In(n, t)
      && (At(n, t) == Asking(r) <==> reply == Some(Receipt(2, 0, r.id, r.size, r.size, r.digest)))
      && (At(n, t).Removing? <==> reply == Some(Receipt(3, 0, r.id, r.size, r.size, r.digest)))
      && (At(n, t).Removing? ==> At(n, t) == Removing(r, Completed(reply.value)))
      && (At(n, t) == Asking(r) || At(n, t).Removing? || At(n, t) == Connected)
  {
    InvHolds(run);
    assert TabOk(Final(run), t);
    if reply.Some? { ReceiptsExactly(At(Final(run), t).record, reply.value, 0); }
  }

  /** The record leaves the store in no other way. */
  lemma {:induction false} RecordLeavesOnlyWithCause(run: Run, a: Action)
    requires Feasible(Then(run, a))
    ensures var s, n := Final(run), Final(Then(run, a));
            s.store.Some? && n.store != s.store ==>
              && a.RemoveDone? && n.store.None? && At(s, a.t).record == s.store.value
              && (match At(s, a.t).cause
                  case Completed(m) => Completes(s.store.value, m)
                  case Withdrawn(m) => Cancels(s.store.value, m) && !Committed(n.log, s.store.value.id)
                  case Acknowledged => Live(s, a.t) ==> s.lock == Some(a.t))
  {
    HistoryHolds(run);
    var s := Final(run);
    StepShape(s, a);
    if a.RemoveDone? {
      assert TabOk(s, a.t);
      LogGrows(s.log, Removed(At(s, a.t).record, At(s, a.t).cause), At(s, a.t).record.id);
    }
  }

  // ---------------------------------------------------------------- the store and the polling loop, in place

  const MAX_IMAGE: nat := 5 * 1024 * 1024

  predicate ValidPending(r: Record) { r.id != 0 && 1 <= r.size <= MAX_IMAGE }

  /** The single durable slot; each method is one transaction. */
  class PendingStore {
    var slot: Option<Record>

    constructor ()
      ensures slot == None
    {
      slot := None;
    }

    method Put(r: Record) returns (ok: bool)
      modifies this
      ensures ok <==> ValidPending(r) && old(slot).None?
      ensures slot == if ok then Some(r) else old(slot)
    {
      ok := ValidPending(r) && slot.None?;
      if ok { slot := Some(r); }
    }

    method Remove(expected: Record) returns (ok: bool)
      modifies this
      ensures ok <==> old(slot).Some? && SameRecord(old(slot).value, expected)
      ensures slot == if ok then None else old(slot)
    {
      ok := slot.Some? && SameRecord(slot.value, expected);
      if ok { slot := None; }
    }
  }

  datatype Outcome = Done | Unknown | Unresolved

  /** What a series of replies to one COMMIT or QUERY and the QUERYs after it amounts to. */
  function Verdict(r: Record, replies: seq<Option<Receipt>>): Outcome
    decreases |replies|
  {
    if replies == [] || replies[0].None? then Unresolved
    else if Completes(r, replies[0].value) then Done
    else if StillDisplaying(r, replies[0].value) then Verdict(r, replies[1..])
    else Unknown
  }

  predicate Displaying(r: Record, replies: seq<Option<Receipt>>, n: nat)
    requires n <= |replies|
  {
    forall j | 0 <= j < n :: replies[j].Some? && StillDisplaying(r, replies[j].value)
  }

  /** Success needs a matching completion that only still-displaying receipts precede. */
  lemma {:induction false} DoneExactlyOnMatchingCompletion(r: Record, replies: seq<Option<Receipt>>)
    ensures Verdict(r, replies).Done? <==>
            exists n: nat :: n < |replies| && Displaying(r, replies, n) && replies[n].Some?
                && Completes(r, replies[n].value)
    decreases |replies|
  {
    if replies != [] {
      var rest := replies[1..];
      DoneExactlyOnMatchingCompletion(r, rest);
      if Verdict(r, replies).Done? {
        if replies[0].Some? && Completes(r, replies[0].value) {
          assert Displaying(r, replies, 0);
        } else {
          var n: nat :| n < |rest| && Displaying(r, rest, n) && rest[n].Some? && Completes(r, rest[n].value);
          assert forall j | 0 < j <= n :: replies[j] == rest[j - 1];
          assert Displaying(r, replies, n + 1) && replies[n + 1] == rest[n];
        }
      }
      if n: nat :| n < |replies| && Displaying(r, replies, n) && replies[n].Some? && Completes(r, replies[n].value) {
        if n > 0 { assert Displaying(r, rest, n - 1) && rest[n - 1] == replies[n]; }
      }
    }
  }

  /** The outcome is unknown exactly when a receipt comes that is neither, after still-displaying ones only. */
  lemma {:induction false} UnknownExactlyOnAnotherReceipt(r: Record, replies: seq<Option<Receipt>>)
    ensures Verdict(r, replies).Unknown? <==>
            exists n: nat :: n < |replies| && Displaying(r, replies, n) && Another(r, replies[n])
    decreases |replies|
  {
    if replies != [] {
      var rest := replies[1..];
      UnknownExactlyOnAnotherReceipt(r, rest);
      if Verdict(r, replies).Unknown? {
        if Another(r, replies[0]) {
          assert Displaying(r, replies, 0);
        } else {
          var n: nat :| n < |rest| && Displaying(r, rest, n) && Another(r, rest[n]);
          assert forall j | 0 < j <= n :: replies[j] == rest[j - 1];
          assert Displaying(r, replies, n + 1) && replies[n + 1] == rest[n];
        }
      }
      if n: nat :| n < |replies| && Displaying(r, replies, n) && Another(r, replies[n]) {
        if n > 0 { assert Displaying(r, rest, n - 1) && rest[n - 1] == replies[n]; }
      }
    }
  }

  predicate Another(r: Record, reply: Option<Receipt>) {
    reply.Some? && !Completes(r, reply.value) && !StillDisplaying(r, reply.value)
  }

  method FinishOrPoll(r: Record, replies: seq<Option<Receipt>>, store: PendingStore) returns (outcome: Outcome)
    modifies store
    ensures outcome == if Verdict(r, replies).Done? && !(old(store.slot).Some? && SameRecord(old(store.slot).value, r))
                       then Unresolved else Verdict(r, replies)
    ensures store.slot == if outcome.Done? then None else old(store.slot)
  {
    var next := 0;
    while next < |replies|
      invariant next <= |replies| && Verdict(r, replies) == Verdict(r, replies[next..])
      invariant store.slot == old(store.slot)
    {
      if replies[next].None? { return Unresolved; }
      var receipt := replies[next].value;
      if !Matches(r, receipt) { return Unknown; }
      if receipt.state == COMPLETE && receipt.code == 0 && receipt.received == r.size {
        var removed := store.Remove(r);
        return if removed then Done else Unresolved;
      }
      if receipt.state != PROCESSING || receipt.code != 0 || receipt.received != r.size { return Unknown; }
      next := next + 1;
    }
    return Unresolved;
  }
}
