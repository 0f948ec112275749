/**
  The private pairing files of internal/ble/bond.go for one device: a candidate, an active record
  and the public selection, changed by atomic link, rename and remove steps under the per-device
  lock of internal/ble/bond_lock_unix.go. A process may die between any two steps.
 */
module BondStore {
  import opened Wrappers

  type DeviceId = nat

  datatype Bond = Bond(device: DeviceId, client: nat, binding: nat, secret: nat, code: Option<nat>,
                       created: nat, paired: Option<nat>, pending: bool)

  /** validateBond, with 0 for the all-zero identity and the zero time. */
  predicate Wellformed(b: Bond) {
    && b.client != 0 && b.binding != 0 && b.created != 0
    && (!b.pending ==> b.paired.Some?)
    && (b.pending ==> b.code.Some? && b.code.value < 1_000_000)
  }

  predicate Same(a: Bond, b: Bond) {
    a.device == b.device && a.client == b.client && a.binding == b.binding && a.secret == b.secret
  }

  /** A file whose writer died holds a torn record. */
  datatype File = Torn | Record(bond: Bond)

  datatype Disk = Disk(active: Option<File>, pending: Option<File>, selected: Option<DeviceId>)

  datatype Reading = Missing | Corrupt | Found(bond: Bond)

  function ReadBond(me: DeviceId, disk: Disk, pending: bool): Reading {
    var file := if pending then disk.pending else disk.active;
    if file.None? then Missing
    else if file.value.Record? && file.value.bond.device == me && file.value.bond.pending == pending &&
            Wellformed(file.value.bond) then Found(file.value.bond)
    else Corrupt
  }

  /** LoadBond: a candidate, which the device may already have approved, comes first. */
  function LoadBond(me: DeviceId, disk: Disk): Reading {
    var candidate := ReadBond(me, disk, true);
    if candidate.Missing? then ReadBond(me, disk, false) else candidate
  }

  predicate Holds(r: Reading, b: Bond) { r.Found? && Same(r.bond, b) }

  // ---------------------------------------------------------------- operations as atomic steps

  datatype Call = Save(bond: Bond) | Confirm(bond: Bond, now: nat) | Forget | Discard(bond: Bond)

  datatype Op =
    | Validate(bond: Bond)
    | Create
    | Fill(bond: Bond)
    | Link
    | Rename
    | CheckConfirm(bond: Bond, now: nat)
    | CheckActive(bond: Bond)
    | CheckDiscard(bond: Bond)
    | DropActive
    | DropPending
    | LookSelection
    | Select
    | Unselect

  /** An operation that holds the lock: what is left to do, and its own temporary file. */
  datatype Process = Process(call: Call, temp: Option<File>, todo: seq<Op>)

  datatype Effect = Next(disk: Disk, process: Process) | Fail

  function Candidate(b: Bond): Bond { b.(pending := true, paired := None) }

  function Confirmed(b: Bond, now: nat): Bond {
    b.(pending := false, code := None, paired := if b.paired.Some? then b.paired else Some(now))
  }

  function Plan(call: Call): seq<Op> {
    match call
    case Save(b) => [Validate(Candidate(b)), Create, Fill(Candidate(b)), Link]
    case Confirm(b, now) => [CheckConfirm(b, now)]
    case Forget => [DropActive, DropPending, LookSelection]
    case Discard(b) => [CheckDiscard(b), DropPending]
  }

  function ConfirmPlan(b: Bond, now: nat): seq<Op> {
    var c := Confirmed(b, now);
    [Validate(c), Create, Fill(c), Rename, DropPending, Select]
  }

  function Perform(me: DeviceId, disk: Disk, p: Process): (e: Effect)
    requires p.todo != []
  {
    var rest := p.(todo := p.todo[1..]);
    match p.todo[0]
    case Validate(b) => if b.device == me && Wellformed(b) then Next(disk, rest) else Fail
    case Create => Next(disk, rest.(temp := Some(Torn)))
    case Fill(b) => Next(disk, rest.(temp := Some(Record(b))))
    case Link => if disk.pending.None? then Next(disk.(pending := p.temp), rest.(temp := None)) else Fail
    case Rename => Next(disk.(active := p.temp), rest.(temp := None))
    case CheckConfirm(b, now) =>
      (match ReadBond(me, disk, true)
       case Corrupt => Fail
       case Missing => Next(disk, p.(todo := [CheckActive(b), Select]))
       case Found(c) => if Same(c, b) then Next(disk, p.(todo := ConfirmPlan(b, now))) else Fail)
    case CheckActive(b) => if Holds(ReadBond(me, disk, false), b) then Next(disk, rest) else Fail
    case CheckDiscard(b) => if Holds(ReadBond(me, disk, true), b) then Next(disk, rest) else Fail
    case DropActive => Next(disk.(active := None), rest)
    case DropPending => Next(disk.(pending := None), rest)
    case LookSelection => Next(disk, p.(todo := if disk.selected == Some(me) then [Unselect] else []))
    case Select => Next(disk.(selected := Some(me)), rest)
    case Unselect => Next(disk.(selected := None), rest)
  }

  // ---------------------------------------------------------------- runs of many processes

  datatype Event = Linked(bond: Bond) | Finished(call: Call) | Refused(call: Call)

  /** The lock admits one operation at a time; a second one is refused at once. */
  datatype System = System(disk: Disk, holder: Option<Process>, log: seq<Event>)

  const EMPTY := System(Disk(None, None, None), None, [])

  datatype Action =
    | Begin(call: Call)
    | Advance
    | Break
    | Crash
    | SelectOther(selected: Option<DeviceId>)

  predicate Enabled(s: System, a: Action) {
    match a
    case Begin(call) => true
    case Advance => s.holder.Some?
    case Break => s.holder.Some?
    case Crash => s.holder.Some?
    case SelectOther(selected) => true
  }

  function Step(me: DeviceId, s: System, a: Action): (s': System)
    requires Enabled(s, a)
  {
    match a
    case Begin(call) =>
      if s.holder.Some? then s.(log := s.log + [Refused(call)])
      else s.(holder := Some(Process(call, None, Plan(call))))
    case Advance =>
      var p := s.holder.value;
      if p.todo == [] then s.(holder := None, log := s.log + [Finished(p.call)])
      else
        (match Perform(me, s.disk, p)
         case Fail => s.(holder := None, log := s.log + [Refused(p.call)])
         case Next(disk, p') =>
           System(disk, Some(p'), if p.todo[0].Link? && p.call.Save? then s.log + [Linked(p.call.bond)] else s.log))
    case Break => s.(holder := None, log := s.log + [Refused(s.holder.value.call)])
    case Crash => s.(holder := None)
    case SelectOther(selected) => s.(disk := s.disk.(selected := selected))
  }

  datatype Run = Start | Then(before: Run, step: Action)

  ghost predicate Feasible(me: DeviceId, run: Run)
    decreases run, 0
  {
    run.Then? ==> Feasible(me, run.before) && Enabled(Final(me, run.before), run.step)
  }

  ghost function Final(me: DeviceId, run: Run): System
    requires Feasible(me, run)
    decreases run, 1
  {
    if run.Start? then EMPTY else Step(me, Final(me, run.before), run.step)
  }

  // ---------------------------------------------------------------- what every run keeps

  predicate FileOk(me: DeviceId, file: Option<File>, pending: bool) {
    file.Some? ==> file.value.Record? && file.value.bond.device == me && file.value.bond.pending == pending &&
                   Wellformed(file.value.bond)
  }

  predicate IsRecord(file: Option<File>, b: Bond) { file.Some? && file.value.Record? && Same(file.value.bond, b) }

  /** What holds while an operation has `todo` left. */
  predicate Stage(me: DeviceId, disk: Disk, p: Process) {
    match p.call
    case Save(b) =>
      var c := Candidate(b);
      || p.todo == Plan(p.call)
      || (c.device == me && Wellformed(c) &&
          (|| p.todo == [Create, Fill(c), Link]
           || p.todo == [Fill(c), Link]
           || (p.todo == [Link] && p.temp == Some(Record(c)))
           || p.todo == []))
    case Confirm(b, now) =>
      var c := Confirmed(b, now);
      || p.todo == Plan(p.call)
      || (p.todo == [CheckActive(b), Select] && disk.pending.None?)
      || (p.todo == ConfirmPlan(b, now) && IsRecord(disk.pending, b))
      || (c.device == me && Wellformed(c) && IsRecord(disk.pending, b) &&
          (|| p.todo == [Create, Fill(c), Rename, DropPending, Select]
           || p.todo == [Fill(c), Rename, DropPending, Select]
           || (p.todo == [Rename, DropPending, Select] && p.temp == Some(Record(c)))
           || (p.todo == [DropPending, Select] && IsRecord(disk.active, b))))
      || ((p.todo == [Select] || p.todo == []) && disk.pending.None? && IsRecord(disk.active, b))
    case Forget =>
      || p.todo == Plan(p.call)
      || (disk.active.None? && p.todo == [DropPending, LookSelection])
      || (disk.active.None? && disk.pending.None?
         && (p.todo == [LookSelection] || p.todo == [Unselect] || p.todo == []))
    case Discard(b) =>
      || p.todo == Plan(p.call)
      || (p.todo == [DropPending] && IsRecord(disk.pending, b))
      || (p.todo == [] && disk.pending.None?)
  }

  /** The latest of forgetting and of saving a candidate was forgetting. */
  predicate ForgottenLast(log: seq<Event>)
    decreases |log|
  {
    && log != []
    && var e := log[|log| - 1];
       e == Finished(Forget) || (!e.Linked? && ForgottenLast(log[..|log| - 1]))
  }

  ghost predicate Inv(me: DeviceId, s: System) {
    && FileOk(me, s.disk.active, false) && FileOk(me, s.disk.pending, true)
    && (s.holder.Some? ==> Stage(me, s.disk, s.holder.value))
    && (ForgottenLast(s.log) ==> s.disk.active.None? && s.disk.pending.None?)
  }

  lemma LogGrows(log: seq<Event>, e: Event)
    ensures ForgottenLast(log + [e]) <==> e == Finished(Forget) || (!e.Linked? && ForgottenLast(log))
  {
    assert (log + [e])[..|log|] == log;
  }

  lemma PerformKeeps(me: DeviceId, disk: Disk, p: Process)
    requires FileOk(me, disk.active, false) && FileOk(me, disk.pending, true)
    requires p.todo != [] && Stage(me, disk, p) && Perform(me, disk, p).Next?
    ensures var e := Perform(me, disk, p);
            && FileOk(me, e.disk.active, false) && FileOk(me, e.disk.pending, true)
            && Stage(me, e.disk, e.process) && e.process.call == p.call
    ensures disk.active.None? && disk.pending.None? && !p.todo[0].Link? ==>
            Perform(me, disk, p).disk.active.None? && Perform(me, disk, p).disk.pending.None?
  {
    if p.call.Confirm? { ConfirmKeeps(me, disk, p); }
  }

  lemma ConfirmKeeps(me: DeviceId, disk: Disk, p: Process)
    requires FileOk(me, disk.active, false) && FileOk(me, disk.pending, true) && p.call.Confirm?
    requires p.todo != [] && Stage(me, disk, p) && Perform(me, disk, p).Next?
    ensures var e := Perform(me, disk, p);
            && FileOk(me, e.disk.active, false) && FileOk(me, e.disk.pending, true)
            && Stage(me, e.disk, e.process) && e.process.call == p.call
    ensures disk.active.None? && disk.pending.None? ==>
            Perform(me, disk, p).disk.active.None? && Perform(me, disk, p).disk.pending.None?
  {
  }

  lemma InvStep(me: DeviceId, s: System, a: Action)
    requires Inv(me, s) && Enabled(s, a)
    ensures Inv(me, Step(me, s, a))
  {
    hide Perform, Stage, ForgottenLast;
    match a
    case Begin(call) =>
      LogGrows(s.log, Refused(call));
      assert Stage(me, s.disk, Process(call, None, Plan(call))) by { PlanIsAStage(me, s.disk, call); }
    case Advance =>
      var p := s.holder.value;
      LogGrows(s.log, Refused(p.call));
      LogGrows(s.log, Finished(p.call));
      if p.todo == [] {
        if p.call.Forget? { ForgetLeavesNothing(me, s.disk, p); }
      } else if Perform(me, s.disk, p).Next? {
        PerformKeeps(me, s.disk, p);
        if p.todo[0].Link? {
          LinkMeansSave(me, s.disk, p);
          LogGrows(s.log, Linked(p.call.bond));
        }
      }
    case Break => LogGrows(s.log, Refused(s.holder.value.call));
    case Crash =>
    case SelectOther(selected) =>
      if s.holder.Some? { SelectionIsFree(me, s.disk, s.holder.value, selected); }
  }

  lemma PlanIsAStage(me: DeviceId, disk: Disk, call: Call)
    ensures Stage(me, disk, Process(call, None, Plan(call)))
  {
  }

  lemma ForgetLeavesNothing(me: DeviceId, disk: Disk, p: Process)
    requires Stage(me, disk, p) && p.todo == [] && p.call.Forget?
    ensures disk.active.None? && disk.pending.None?
  {
  }

  lemma LinkMeansSave(me: DeviceId, disk: Disk, p: Process)
    requires Stage(me, disk, p) && p.todo != [] && p.todo[0].Link?
    ensures p.call.Save?
  {
  }

  lemma SelectionIsFree(me: DeviceId, disk: Disk, p: Process, selected: Option<DeviceId>)
    requires Stage(me, disk, p)
    ensures Stage(me, disk.(selected := selected), p)
  {
  }

  lemma {:induction false} InvHolds(me: DeviceId, run: Run)
    requires Feasible(me, run)
    ensures Inv(me, Final(me, run))
    decreases run
  {
    if run.Then? {
      InvHolds(me, run.before);
      InvStep(me, Final(me, run.before), run.step);
    }
  }

  // ---------------------------------------------------------------- main results

  /** However the operations interleave and die, LoadBond yields one whole relationship or none. */
  lemma {:induction false} WholeOrNone(me: DeviceId, run: Run)
    requires Feasible(me, run)
    ensures !LoadBond(me, Final(me, run).disk).Corrupt?
  {
    InvHolds(me, run);
  }

  /** The relationship two readings stand for is the same one, or there is none in either. */
  predicate Equivalent(a: Reading, b: Reading) {
    (a.Missing? && b.Missing?) || (a.Found? && b.Found? && Same(a.bond, b.bond))
  }

  /** How one atomic step of an operation may change what LoadBond yields. */
  predicate Allowed(me: DeviceId, disk: Disk, call: Call, after: Disk) {
    var before, now := LoadBond(me, disk), LoadBond(me, after);
    || Equivalent(before, now)
    || (call.Save? && disk.pending.None? && Holds(now, call.bond) && now.bond.pending)
    || (call.Discard? && Holds(before, call.bond) && before.bond.pending && now == ReadBond(me, disk, false))
    || (call.Forget? && now.Missing?)
  }

  lemma PerformAllows(me: DeviceId, disk: Disk, p: Process)
    requires FileOk(me, disk.active, false) && FileOk(me, disk.pending, true)
    requires p.todo != [] && Stage(me, disk, p) && Perform(me, disk, p).Next?
    ensures Allowed(me, disk, p.call, Perform(me, disk, p).disk)
  {
  }

  lemma PerformNeverReplaces(me: DeviceId, disk: Disk, p: Process)
    requires p.todo != [] && Perform(me, disk, p).Next? && disk.pending.Some?
    ensures var after := Perform(me, disk, p).disk.pending; after.None? || after == disk.pending
  {
  }

  /**
    One step, a crash included, changes what LoadBond yields only in three ways: a candidate is
    published where there was none, a discarded candidate uncovers the active record, or forgetting
    removes it. No step of a confirmation, and no crash, changes it; forgetting never uncovers an
    older relationship; a candidate never replaces a candidate.
   */
  lemma {:induction false} EveryStepKeepsTheRelationship(me: DeviceId, run: Run, a: Action)
    requires Feasible(me, Then(run, a))
    ensures var s, t := Final(me, run), Final(me, Then(run, a));
            || Equivalent(LoadBond(me, s.disk), LoadBond(me, t.disk))
            || (a.Advance? && Allowed(me, s.disk, s.holder.value.call, t.disk))
    ensures var s, t := Final(me, run), Final(me, Then(run, a));
            s.disk.pending.Some? ==> t.disk.pending.None? || t.disk.pending == s.disk.pending
  {
    hide Perform, Stage, Allowed;
    InvHolds(me, run);
    var s := Final(me, run);
    if a.Advance? && s.holder.value.todo != [] && Perform(me, s.disk, s.holder.value).Next? {
      PerformAllows(me, s.disk, s.holder.value);
      if s.disk.pending.Some? { PerformNeverReplaces(me, s.disk, s.holder.value); }
    }
  }

  /** Run one operation with nobody else, to its end or to its first refusal. */
  function Alone(me: DeviceId, disk: Disk, p: Process, fuel: nat): (Disk, bool)
    decreases fuel
  {
    if p.todo == [] then (disk, true)
    else if fuel == 0 then (disk, false)
    else match Perform(me, disk, p)
      case Fail => (disk, false)
      case Next(disk', p') => Alone(me, disk', p', fuel - 1)
  }

  lemma {:induction false} ConfirmTail(me: DeviceId, disk: Disk, p: Process, fuel: nat)
    requires FileOk(me, disk.active, false) && FileOk(me, disk.pending, true)
    requires p.call.Confirm? && Stage(me, disk, p) && p.todo != Plan(p.call) && |p.todo| <= fuel
    requires Wellformed(Confirmed(p.call.bond, p.call.now)) && p.call.bond.device == me
    requires p.todo == [CheckActive(p.call.bond), Select] ==> IsRecord(disk.active, p.call.bond)
    ensures Alone(me, disk, p, fuel).1
    ensures var d := Alone(me, disk, p, fuel).0;
            d.pending.None? && IsRecord(d.active, p.call.bond) && FileOk(me, d.active, false) &&
            (p.todo != [] ==> d.selected == Some(me))
    decreases |p.todo|
  {
    if p.todo != [] {
      assert Perform(me, disk, p).Next?;
      PerformKeeps(me, disk, p);
      var e := Perform(me, disk, p);
      assert e.process.todo == p.todo[1..];
      ConfirmTail(me, e.disk, e.process, fuel - 1);
      if p.todo == [Select] { assert e.disk.selected == Some(me); }
    }
  }

  /**
    Confirming a bond that was loaded or saved earlier succeeds exactly when LoadBond still yields
    that relationship, whatever crashes came before; it then leaves it active, with no candidate
    and selected.
   */
  lemma {:induction false} ConfirmCompletesExactlyWhatIsLoaded(me: DeviceId, run: Run, b: Bond, now: nat)
    requires Feasible(me, run) && b.device == me && Wellformed(Confirmed(b, now))
    ensures var disk := Final(me, run).disk;
            var r := Alone(me, disk, Process(Confirm(b, now), None, Plan(Confirm(b, now))), 8);
            && (r.1 <==> Holds(LoadBond(me, disk), b))
            && (r.1 ==> r.0.pending.None? && Holds(ReadBond(me, r.0, false), b) && r.0.selected == Some(me))
  {
    InvHolds(me, run);
    var disk := Final(me, run).disk;
    var p := Process(Confirm(b, now), None, Plan(Confirm(b, now)));
    var e := Perform(me, disk, p);
    assert Alone(me, disk, p, 8) == if e.Fail? then (disk, false) else Alone(me, e.disk, e.process, 7);
    if Holds(LoadBond(me, disk), b) {
      ConfirmTail(me, e.disk, e.process, 7);
    } else if e.Next? {
      assert Perform(me, e.disk, e.process).Fail?;
    }
  }

  /** Once ForgetBond has returned, nothing short of a new candidate brings a relationship back. */
  lemma {:induction false} ForgottenStaysForgotten(me: DeviceId, run: Run)
    requires Feasible(me, run) && ForgottenLast(Final(me, run).log)
    ensures LoadBond(me, Final(me, run).disk).Missing?
  {
    InvHolds(me, run);
  }

  /** A confirmation that started before, or comes after, that return is refused. */
  lemma {:induction false} LateConfirmIsRefused(me: DeviceId, run: Run, b: Bond, now: nat)
    requires Feasible(me, run) && ForgottenLast(Final(me, run).log) && b.device == me && Wellformed(Confirmed(b, now))
    ensures !Alone(me, Final(me, run).disk, Process(Confirm(b, now), None, Plan(Confirm(b, now))), 8).1
  {
    ForgottenStaysForgotten(me, run);
    ConfirmCompletesExactlyWhatIsLoaded(me, run, b, now);
  }

  /** The relationship a confirmation is about survives its death after any number of steps. */
  lemma {:induction false} CrashInsideConfirmKeepsTheSecret(me: DeviceId, disk: Disk, p: Process, steps: nat)
    requires FileOk(me, disk.active, false) && FileOk(me, disk.pending, true)
    requires p.call.Confirm? && Stage(me, disk, p) && Holds(LoadBond(me, disk), p.call.bond)
    ensures Holds(LoadBond(me, Alone(me, disk, p, steps).0), p.call.bond)
    decreases steps
  {
    if p.todo != [] && steps > 0 {
      var e := Perform(me, disk, p);
      if e.Next? {
        PerformKeeps(me, disk, p);
        CrashInsideConfirmKeepsTheSecret(me, e.disk, e.process, steps - 1);
      }
    }
  }

  // ---------------------------------------------------------------- loading among other processes

  /** LoadBond takes no lock: other processes' steps may lie between its two reads. */
  function TwoReads(me: DeviceId, first: Disk, second: Disk): Reading {
    var candidate := ReadBond(me, first, true);
    if candidate.Missing? then ReadBond(me, second, false) else candidate
  }

  predicate Reaches(run: Run, later: Run) {
    run == later || (later.Then? && Reaches(run, later.before))
  }

  lemma {:induction false} ReachesFurther(a: Run, b: Run)
    requires b.Then? && Reaches(a, b.before)
    ensures Reaches(a, b)
  {
  }

  lemma {:induction false} FeasibleBefore(me: DeviceId, run: Run, later: Run)
    requires Feasible(me, later) && Reaches(run, later)
    ensures Feasible(me, run)
    decreases later
  {
    if run != later { FeasibleBefore(me, run, later.before); }
  }

  /** The only step that gives the active record a new value renames it from the candidate's relationship. */
  lemma RenamedFromCandidate(me: DeviceId, s: System, a: Action)
    requires Inv(me, s) && Enabled(s, a) && Step(me, s, a).disk.active != s.disk.active
    requires Step(me, s, a).disk.active.Some?
    ensures IsRecord(s.disk.pending, Step(me, s, a).disk.active.value.bond)
  {
    var p := s.holder.value;
    assert a.Advance? && p.todo != [] && p.todo[0].Rename?;
    assert p.call.Confirm?;
  }

  /** An active record that is there at the second read was what LoadBond yields at some instant in between. */
  lemma {:induction false} ActiveWasLoaded(me: DeviceId, run: Run, later: Run) returns (mid: Run)
    requires Feasible(me, later) && Reaches(run, later) && Feasible(me, run)
    requires Final(me, run).disk.pending.None? && ReadBond(me, Final(me, later).disk, false).Found?
    ensures Reaches(run, mid) && Reaches(mid, later) && Feasible(me, mid)
    ensures Holds(LoadBond(me, Final(me, mid).disk), ReadBond(me, Final(me, later).disk, false).bond)
    decreases later
  {
    mid := later;
    if run != later {
      var s := Final(me, later.before);
      InvHolds(me, later.before);
      if s.disk.active == Final(me, later).disk.active {
        mid := ActiveWasLoaded(me, run, later.before);
      } else {
        RenamedFromCandidate(me, s, later.step);
        mid := later.before;
      }
      ReachesFurther(mid, later);
    }
  }

  /**
    A relationship that a load finds, whatever other processes do between its two reads, is the one
    LoadBond would have yielded at some instant from the first read to the second.
   */
  lemma {:induction false} LoadedBondWasThere(me: DeviceId, run: Run, later: Run) returns (mid: Run)
    requires Feasible(me, later) && Reaches(run, later) && Feasible(me, run)
    requires TwoReads(me, Final(me, run).disk, Final(me, later).disk).Found?
    ensures Reaches(run, mid) && Reaches(mid, later) && Feasible(me, mid)
    ensures Holds(LoadBond(me, Final(me, mid).disk), TwoReads(me, Final(me, run).disk, Final(me, later).disk).bond)
  {
    if ReadBond(me, Final(me, run).disk, true).Missing? {
      mid := ActiveWasLoaded(me, run, later);
    } else {
      mid := run;
    }
  }

  /** Forgetting removes the active record while a candidate lies beside it. */
  predicate ForgetsBeside(s: System, a: Action) {
    && a.Advance? && s.holder.Some? && s.holder.value.todo != [] && s.holder.value.todo[0].DropActive?
    && s.disk.active.Some? && s.disk.pending.Some?
  }

  ghost predicate NeverBeside(me: DeviceId, run: Run, later: Run)
    requires Feasible(me, later) && Reaches(run, later)
    decreases later
  {
    run == later || (NeverBeside(me, run, later.before) && !ForgetsBeside(Final(me, later.before), later.step))
  }

  /** The active record goes only when forgetting drops it. */
  lemma ActiveGoesByForgetting(me: DeviceId, s: System, a: Action)
    requires Inv(me, s) && Enabled(s, a) && s.disk.active.Some? && Step(me, s, a).disk.active.None?
    ensures ForgetsBeside(s, a) || Step(me, s, a).disk.pending.None?
  {
    var p := s.holder.value;
    assert a.Advance? && p.todo != [] && (p.todo[0].DropActive? || p.todo[0].Rename?);
  }

  /**
    And a load that finds nothing: there was an instant from the first read to the second without any
    relationship, unless a forgetting in between removed the active record beside a candidate.
   */
  lemma {:induction false} NothingWasThere(me: DeviceId, run: Run, later: Run) returns (mid: Run)
    requires Feasible(me, later) && Reaches(run, later) && Feasible(me, run) && NeverBeside(me, run, later)
    requires TwoReads(me, Final(me, run).disk, Final(me, later).disk).Missing?
    ensures Reaches(run, mid) && Reaches(mid, later) && Feasible(me, mid)
    ensures LoadBond(me, Final(me, mid).disk).Missing?
    decreases later
  {
    InvHolds(me, run);
    mid := later;
    if run != later {
      var s := Final(me, later.before);
      InvHolds(me, later.before);
      if s.disk.active.None? {
        mid := NothingWasThere(me, run, later.before);
        ReachesFurther(mid, later);
      } else {
        ActiveGoesByForgetting(me, s, later.step);
      }
    }
  }

  /** At every instant from `run` to `later` there is a relationship. */
  ghost predicate AlwaysThere(me: DeviceId, run: Run, later: Run)
    requires Feasible(me, later)
    decreases later
  {
    LoadBond(me, Final(me, later).disk).Found? && (run == later || (later.Then? && AlwaysThere(me, run, later.before)))
  }

  lemma {:induction false} Extend(me: DeviceId, start: Run, run: Run, a: Action, t: System) returns (longer: Run)
    requires Feasible(me, run) && Enabled(Final(me, run), a) && Step(me, Final(me, run), a) == t
    ensures longer == Then(run, a) && Feasible(me, longer) && Final(me, longer) == t
    ensures Reaches(start, run) ==> Reaches(start, longer)
    ensures AlwaysThere(me, start, run) && LoadBond(me, t.disk).Found? ==> AlwaysThere(me, start, longer)
  {
    longer := Then(run, a);
  }

  const OWN := Bond(1, 1, 1, 1, Some(0), 1, None, true)
  const OTHER := Bond(1, 2, 2, 2, Some(0), 1, None, true)
  const OWNED := Disk(Some(Record(Confirmed(OWN, 5))), None, None)
  const BOTH := OWNED.(pending := Some(Record(OTHER)))

  /** A candidate is published, and the process dies. */
  lemma {:induction false} Published(start: Run, run: Run, disk: Disk, b: Bond) returns (longer: Run, log: seq<Event>)
    requires b.device == 1 && Candidate(b) == b && Wellformed(b) && disk.pending.None?
    requires Feasible(1, run) && Final(1, run).disk == disk && Final(1, run).holder.None?
    ensures Feasible(1, longer) && Final(1, longer) == System(disk.(pending := Some(Record(b))), None, log)
    ensures Reaches(start, run) ==> Reaches(start, longer)
    ensures AlwaysThere(1, start, run) && ReadBond(1, disk, false).Found? ==> AlwaysThere(1, start, longer)
  {
    var call, l := Save(b), Final(1, run).log;
    assert Plan(call) == [Validate(b), Create, Fill(b), Link];
    longer := Extend(1, start, run, Begin(call), System(disk, Some(Process(call, None, Plan(call))), l));
    longer := Extend(1, start, longer, Advance, System(disk, Some(Process(call, None, [Create, Fill(b), Link])), l));
    longer := Extend(1, start, longer, Advance, System(disk, Some(Process(call, Some(Torn), [Fill(b), Link])), l));
    longer := Extend(1, start, longer, Advance, System(disk, Some(Process(call, Some(Record(b)), [Link])), l));
    log := l + [Linked(b)];
    var after := disk.(pending := Some(Record(b)));
    longer := Extend(1, start, longer, Advance, System(after, Some(Process(call, None, [])), log));
    longer := Extend(1, start, longer, Crash, System(after, None, log));
  }

  lemma {:induction false} Owned() returns (run: Run)
    ensures Feasible(1, run) && Final(1, run).disk == OWNED && Final(1, run).holder.None?
  {
    var log;
    run, log := Published(Start, Start, EMPTY.disk, OWN);
    run := FilledAgain(run, log);
    var call, c, disk := Confirm(OWN, 5), Confirmed(OWN, 5), EMPTY.disk.(pending := Some(Record(OWN)));
    var renamed, rest := disk.(active := Some(Record(c))), [DropPending, Select];
    run := Extend(1, Start, run, Advance, System(renamed, Some(Process(call, None, rest)), log));
    run := Extend(1, Start, run, Advance, System(OWNED, Some(Process(call, None, rest[1..])), log));
    run := Extend(1, Start, run, Crash, System(OWNED, None, log));
  }

  /** A confirmation up to its rename. */
  lemma {:induction false} FilledAgain(before: Run, log: seq<Event>) returns (run: Run)
    requires Feasible(1, before) && Final(1, before) == System(EMPTY.disk.(pending := Some(Record(OWN))), None, log)
    ensures Feasible(1, run)
    ensures Final(1, run) == System(EMPTY.disk.(pending := Some(Record(OWN))),
      Some(Process(Confirm(OWN, 5), Some(Record(Confirmed(OWN, 5))), [Rename, DropPending, Select])), log)
  {
    var call, c, disk := Confirm(OWN, 5), Confirmed(OWN, 5), EMPTY.disk.(pending := Some(Record(OWN)));
    var rest := [Create, Fill(c), Rename, DropPending, Select];
    run := Extend(1, Start, before, Begin(call), System(disk, Some(Process(call, None, Plan(call))), log));
    run := Extend(1, Start, run, Advance, System(disk, Some(Process(call, None, ConfirmPlan(OWN, 5))), log));
    run := Extend(1, Start, run, Advance, System(disk, Some(Process(call, None, rest)), log));
    run := Extend(1, Start, run, Advance, System(disk, Some(Process(call, Some(Torn), rest[1..])), log));
    run := Extend(1, Start, run, Advance, System(disk, Some(Process(call, Some(Record(c)), rest[2..])), log));
  }

  /**
    That exception happens: a candidate is published and a forgetting takes its first step between the
    two reads. The load finds nothing, although a relationship was there at every instant.
   */
  lemma {:induction false} LoadCanMissEveryBond() returns (run: Run, later: Run)
    ensures Feasible(1, run) && Feasible(1, later) && Reaches(run, later) && AlwaysThere(1, run, later)
    ensures TwoReads(1, Final(1, run).disk, Final(1, later).disk).Missing?
  {
    run := Owned();
    var log;
    later, log := Published(run, run, OWNED, OTHER);
    var rest := [DropActive, DropPending, LookSelection];
    later := Extend(1, run, later, Begin(Forget), System(BOTH, Some(Process(Forget, None, rest)), log));
    later := Extend(1, run, later, Advance,
                    System(BOTH.(active := None), Some(Process(Forget, None, rest[1..])), log));
  }

  // ---------------------------------------------------------------- the files, changed in place

  /**
    The operations of bond.go on the files themselves. `steps` is how many of its atomic steps the
    process lives for; a method that returns false was refused or died.
   */
  class BondFiles {
    const me: DeviceId
    var active: Option<File>
    var pending: Option<File>
    var selected: Option<DeviceId>

    function View(): Disk
      reads this
    {
      Disk(active, pending, selected)
    }

    constructor (me: DeviceId)
      ensures this.me == me && View() == Disk(None, None, None)
    {
      this.me := me;
      active, pending, selected := None, None, None;
    }

    method Load() returns (r: Reading)
      ensures r == LoadBond(me, View())
    {
      r := ReadBond(me, View(), true);
      if r.Missing? { r := ReadBond(me, View(), false); }
    }

    method SavePending(b: Bond, steps: nat) returns (ok: bool)
      modifies this
      ensures (View(), ok) == Alone(me, old(View()), Process(Save(b), None, Plan(Save(b))), steps)
    {
      hide Alone;
      var c := b.(pending := true, paired := None);
      var left := steps;
      ghost var p := Process(Save(b), None, Plan(Save(b)));
      Once(me, View(), p, left);
      if left == 0 || c.device != me || !Wellformed(c) { return false; }
      left, p := left - 1, p.(todo := [Create, Fill(c), Link]);
      Once(me, View(), p, left);
      if left == 0 { return false; }
      var temp := Torn;
      left, p := left - 1, Process(Save(b), Some(temp), [Fill(c), Link]);
      Once(me, View(), p, left);
      if left == 0 { return false; }
      temp := Record(c);
      left, p := left - 1, Process(Save(b), Some(temp), [Link]);
      Once(me, View(), p, left);
      if left == 0 || pending.Some? { return false; }
      pending := Some(temp);
      assert [Link][1..] == [];
      Once(me, View(), Process(Save(b), None, []), left - 1);
      return true;
    }

    /** writeBond for an active record: `left` steps remain of the `steps` it was given. */
    method WriteActive(c: Bond, steps: nat, ghost p: Process) returns (ok: bool, left: nat)
      requires p.temp.None? && p.todo == [Validate(c), Create, Fill(c), Rename, DropPending, Select]
      modifies this`active
      ensures Alone(me, old(View()), p, steps) ==
              if ok then Alone(me, View(), p.(todo := [DropPending, Select]), left) else (View(), false)
    {
      hide Alone, Wellformed;
      left := steps;
      Once(me, View(), p, left);
      if left == 0 || c.device != me || !Wellformed(c) { return false, left; }
      left := left - 1;
      Once(me, View(), p.(todo := [Create, Fill(c), Rename, DropPending, Select]), left);
      if left == 0 { return false, left; }
      var temp := Torn;
      left := left - 1;
      Once(me, View(), p.(temp := Some(temp), todo := [Fill(c), Rename, DropPending, Select]), left);
      if left == 0 { return false, left; }
      temp := Record(c);
      left := left - 1;
      Once(me, View(), p.(temp := Some(temp), todo := [Rename, DropPending, Select]), left);
      if left == 0 { return false, left; }
      active := Some(temp);
      return true, left - 1;
    }

    method Confirm(b: Bond, now: nat, steps: nat) returns (ok: bool)
      modifies this
      ensures (View(), ok) ==
              Alone(me, old(View()), Process(Call.Confirm(b, now), None, Plan(Call.Confirm(b, now))), steps)
    {
      hide Alone, ReadBond, Same, Confirmed, Holds;
      ghost var p := Process(Call.Confirm(b, now), None, Plan(Call.Confirm(b, now)));
      var left := steps;
      Once(me, View(), p, left);
      if left == 0 { return false; }
      left := left - 1;
      var candidate := ReadBond(me, View(), true);
      match candidate {
        case Corrupt => return false;
        case Missing =>
          p := p.(todo := [CheckActive(b), Select]);
          Once(me, View(), p, left);
          if left == 0 || !Holds(ReadBond(me, View(), false), b) { return false; }
          left := left - 1;
        case Found(found) =>
          if !Same(found, b) { return false; }
          var c := Confirmed(b, now);
          var written;
          written, left := WriteActive(c, left, p.(todo := ConfirmPlan(b, now)));
          if !written { return false; }
          p := p.(todo := [DropPending, Select]);
          Once(me, View(), p, left);
          if left == 0 { return false; }
          pending := None;
          left := left - 1;
      }
      p := p.(todo := [Select]);
      Once(me, View(), p, left);
      if left == 0 { return false; }
      selected := Some(me);
      assert [Select][1..] == [];
      Once(me, View(), p.(todo := []), left - 1);
      return true;
    }

    method ForgetBond(steps: nat) returns (ok: bool)
      modifies this
      ensures (View(), ok) == Alone(me, old(View()), Process(Forget, None, Plan(Forget)), steps)
    {
      hide Alone;
      var left := steps;
      Once(me, View(), Process(Forget, None, Plan(Forget)), left);
      if left == 0 { return false; }
      left, active := left - 1, None;
      Once(me, View(), Process(Forget, None, [DropPending, LookSelection]), left);
      if left == 0 { return false; }
      left, pending := left - 1, None;
      Once(me, View(), Process(Forget, None, [LookSelection]), left);
      if left == 0 { return false; }
      left := left - 1;
      if selected == Some(me) {
        Once(me, View(), Process(Forget, None, [Unselect]), left);
        if left == 0 { return false; }
        left, selected := left - 1, None;
        assert [Unselect][1..] == [];
      }
      Once(me, View(), Process(Forget, None, []), left);
      return true;
    }

    method DiscardPending(expected: Bond, steps: nat) returns (ok: bool)
      modifies this
      ensures (View(), ok) == Alone(me, old(View()), Process(Discard(expected), None, Plan(Discard(expected))), steps)
    {
      hide Alone;
      var current := ReadBond(me, View(), true);
      Once(me, View(), Process(Discard(expected), None, Plan(Discard(expected))), steps);
      if steps == 0 || !Holds(current, expected) { return false; }
      Once(me, View(), Process(Discard(expected), None, [DropPending]), steps - 1);
      if steps == 1 { return false; }
      pending := None;
      Once(me, View(), Process(Discard(expected), None, []), steps - 2);
      return true;
    }
  }

  lemma Once(me: DeviceId, disk: Disk, p: Process, fuel: nat)
    ensures Alone(me, disk, p, fuel) ==
            if p.todo == [] then (disk, true)
            else if fuel == 0 || Perform(me, disk, p).Fail? then (disk, false)
            else var e := Perform(me, disk, p); Alone(me, e.disk, e.process, fuel - 1)
  {
  }

  // ---------------------------------------------------------------- the browser's transactional form

  /** web/src/ble/bonds.ts compares public identities only. */
  predicate SamePublic(a: Bond, b: Bond) { a.device == b.device && a.binding == b.binding && a.client == b.client }

  datatype Stores = Stores(bonds: Option<Bond>, candidates: Option<Bond>)

  /** The transaction of confirm: both stores change, or it aborts. */
  function Transacted(s: Stores, expected: Bond, now: nat): (Stores, bool) {
    if Wellformed(expected) && s.candidates.Some? && SamePublic(s.candidates.value, expected) then
      (Stores(Some(expected.(pending := false, code := None, paired := Some(now))), None), true)
    else (s, false)
  }

  /** Two object stores of one device; every method is one transaction. */
  class IndexedBondStore {
    var bonds: Option<Bond>
    var candidates: Option<Bond>

    constructor ()
      ensures bonds == None && candidates == None
    {
      bonds, candidates := None, None;
    }

    function View(): Disk
      reads this
    {
      Disk(if bonds.None? then None else Some(Record(bonds.value)),
           if candidates.None? then None else Some(Record(candidates.value)), None)
    }

    method PutCandidate(b: Bond) returns (ok: bool)
      modifies this
      ensures ok <==> b.pending && Wellformed(b) && old(candidates).None?
      ensures bonds == old(bonds) && candidates == if ok then Some(b) else old(candidates)
    {
      ok := Wellformed(b) && b.pending && candidates.None?;
      if ok { candidates := Some(b); }
    }

    method Confirm(expected: Bond, now: nat) returns (ok: bool)
      modifies this
      ensures ok <==> Wellformed(expected) && old(candidates).Some? && SamePublic(old(candidates).value, expected)
      ensures (Stores(bonds, candidates), ok) == Transacted(old(Stores(bonds, candidates)), expected, now)
    {
      ok := Wellformed(expected) && candidates.Some? && SamePublic(candidates.value, expected);
      if ok { bonds, candidates := Some(expected.(pending := false, code := None, paired := Some(now))), None; }
    }

    method DiscardCandidate(expected: Bond) returns (ok: bool)
      modifies this
      ensures ok <==> old(candidates).Some? && SamePublic(old(candidates).value, expected)
      ensures bonds == old(bonds) && candidates == if ok then None else old(candidates)
    {
      ok := candidates.Some? && SamePublic(candidates.value, expected);
      if ok { candidates := None; }
    }

    method Forget()
      modifies this
      ensures bonds == None && candidates == None
    {
      bonds, candidates := None, None;
    }
  }

  function Read(file: Option<File>): Option<Bond> {
    if file.Some? && file.value.Record? then Some(file.value.bond) else None
  }

  function StoresOf(disk: Disk): Stores { Stores(Read(disk.active), Read(disk.pending)) }

  /** The file steps of a confirmation, run to their end on the expected candidate. */
  lemma ConfirmedAlone(me: DeviceId, disk: Disk, b: Bond, now: nat)
    requires Holds(ReadBond(me, disk, true), b) && b.device == me && Wellformed(Confirmed(b, now))
    ensures Alone(me, disk, Process(Confirm(b, now), None, Plan(Confirm(b, now))), 8) ==
            (Disk(Some(Record(Confirmed(b, now))), None, Some(me)), true)
  {
    hide Alone;
    var call, c := Confirm(b, now), Confirmed(b, now);
    Once(me, disk, Process(call, None, Plan(call)), 8);
    Once(me, disk, Process(call, None, ConfirmPlan(b, now)), 7);
    assert ConfirmPlan(b, now)[1..] == [Create, Fill(c), Rename, DropPending, Select];
    Once(me, disk, Process(call, None, [Create, Fill(c), Rename, DropPending, Select]), 6);
    Once(me, disk, Process(call, Some(Torn), [Fill(c), Rename, DropPending, Select]), 5);
    RenamedAlone(me, disk, call, c);
  }

  lemma RenamedAlone(me: DeviceId, disk: Disk, call: Call, c: Bond)
    ensures Alone(me, disk, Process(call, Some(Record(c)), [Rename, DropPending, Select]), 4) ==
            (Disk(Some(Record(c)), None, Some(me)), true)
  {
    hide Alone;
    var made := disk.(active := Some(Record(c)));
    Once(me, disk, Process(call, Some(Record(c)), [Rename, DropPending, Select]), 4);
    Once(me, made, Process(call, None, [DropPending, Select]), 3);
    Once(me, made.(pending := None), Process(call, None, [Select]), 2);
    Once(me, Disk(Some(Record(c)), None, Some(me)), Process(call, None, []), 1);
  }

  /**
    The browser's transaction and the file steps run to their end, on the same two records. With a
    candidate there, both succeed and leave the same records, or both leave everything alone, except
    that the browser also takes a candidate with the expected public identities and another secret.
    With none, only the files succeed, and only for the bond that is already active.
   */
  lemma TransactionAgreesWithFiles(me: DeviceId, disk: Disk, b: Bond, now: nat)
    requires FileOk(me, disk.active, false) && FileOk(me, disk.pending, true)
    requires b.device == me && Wellformed(b) && b.paired.None?
    ensures var files := Alone(me, disk, Process(Confirm(b, now), None, Plan(Confirm(b, now))), 8);
            var browser := Transacted(StoresOf(disk), b, now);
            && (disk.pending.Some? ==>
                  (files.1 <==> browser.1 && StoresOf(disk).candidates.value.secret == b.secret))
            && (files.1 && disk.pending.Some? ==> StoresOf(files.0) == browser.0)
            && (!(files.1 && disk.pending.Some?) ==> StoresOf(files.0) == StoresOf(disk))
            && (!browser.1 ==> browser.0 == StoresOf(disk))
            && (disk.pending.None? ==> !browser.1 && (files.1 <==> Holds(ReadBond(me, disk, false), b)))
  {
    var p := Process(Confirm(b, now), None, Plan(Confirm(b, now)));
    if Holds(ReadBond(me, disk, true), b) {
      ConfirmedAlone(me, disk, b, now);
    } else {
      Once(me, disk, p, 8);
      var e := Perform(me, disk, p);
      if e.Next? {
        Once(me, disk, e.process, 7);
        assert e.process.todo[1..] == [Select];
        Once(me, disk, e.process.(todo := [Select]), 6);
      }
    }
  }
}
