/**
  Physical pairing: internal/ble/pairing.go and web/src/ble/pairing.ts against a device, over a
  link that may lose any reply, with the candidate and active records of BondStore and a crash
  possible at every step. A bond stands for one negotiated relationship: client identity, binding
  identity and secret.
 */
module Pairing {
  import opened Wrappers

  type Bond = nat

  // ---------------------------------------------------------------- device, files and ceremonies

  datatype Progress = Ready | Armed | Cancelled | Expired {
    predicate Live() { Ready? || Armed? }
  }

  datatype Session = Session(bond: Bond, progress: Progress)

  /** What a signed state says of a bond; Other is every state that is none of these, such as a fault. */
  datatype Report = Owned | Going(progress: Progress) | Other {
    predicate Terminal() { Going? && !progress.Live() }
  }

  /** A state and an error code, bound to one connection's challenge. */
  datatype Signed = Signed(bond: Bond, challenge: nat, report: Report, code: nat) {
    /** Neither an end, nor an owner, nor an error: polling goes on. */
    predicate Waiting() { code == 0 && report.Going? && report.progress.Live() }
  }

  datatype Device = Device(owner: Option<Bond>, session: Option<Session>, challenge: nat) {
    /** A new ceremony starts only on an unowned device with none in progress. */
    predicate Accepts() { owner.None? && (session.Some? ==> !session.value.progress.Live()) }
  }

  datatype Phase =
    | Checked
    | Negotiated(bond: Bond)
    | Polling(bond: Bond)
    | Proving(bond: Bond)
    | Confirming(bond: Bond)
    | Renaming(bond: Bond)
    | Dropping(bond: Bond)
    | Discarding(evidence: Signed)
    | ForgetActive
    | ForgetCandidate
    | Over
  {
    /** The phases between two file steps of one locked operation. */
    predicate Locking() { Renaming? || Dropping? || ForgetActive? || ForgetCandidate? }

    function Bonds(): set<Bond> {
      match this
      case Negotiated(b) => {b}
      case Polling(b) => {b}
      case Proving(b) => {b}
      case Confirming(b) => {b}
      case Renaming(b) => {b}
      case Dropping(b) => {b}
      case Discarding(m) => {m.bond}
      case _ => {}
    }
  }

  datatype Ceremony = Ceremony(web: bool, challenge: nat, phase: Phase)

  datatype Files = Files(active: Option<Bond>, pending: Option<Bond>, lock: Option<nat>)

  /** What happened: bonds ever named, negotiated here, saved, approved, ended, forgotten; evidence used. */
  datatype History = History(used: set<Bond>, mine: set<Bond>, saved: set<Bond>, approved: set<Bond>,
                             ended: set<Bond>, forgotten: set<Bond>, issued: set<Signed>, discarded: set<Signed>)

  datatype System = System(device: Device, files: Files, ceremonies: seq<Ceremony>, history: History)

  const INITIAL := System(Device(None, None, 0), Files(None, None, None), [], History({}, {}, {}, {}, {}, {}, {}, {}))

  /** LoadBond: the candidate first. */
  function Loaded(f: Files): Option<Bond> { if f.pending.Some? then f.pending else f.active }

  // ---------------------------------------------------------------- steps

  datatype Action =
    | StartPairing(web: bool)
    | Resume(web: bool)
    | Connect(web: bool)
    | StartForget(web: bool)
    | Negotiate(c: nat, bond: Bond, delivered: bool)
    | Save(c: nat)
    | Poll(c: nat, code: nat, faulty: bool)
    | Cancel(c: nat, code: nat, faulty: bool)
    | Receive(c: nat, message: Signed)
    | Doubt(c: nat)
    | Prove(c: nat)
    | Confirm(c: nat)
    | FileStep(c: nat)
    | Discard(c: nat)
    | Fail(c: nat)
    | Foreign(bond: Bond)
    | ForeignArm
    | Approve
    | EndSession(progress: Progress)
    | Reset

  predicate In(s: System, c: nat) { c < |s.ceremonies| }

  predicate Enabled(s: System, a: Action) {
    match a
    case StartPairing(web) => s.files.pending.None?
    case Resume(web) => s.files.pending.Some?
    case Connect(web) => Loaded(s.files).Some?
    case StartForget(web) => s.files.lock.None?
    case Negotiate(c, b, delivered) =>
      In(s, c) && s.ceremonies[c].phase.Checked? && s.ceremonies[c].challenge == s.device.challenge &&
      b !in s.history.used && s.device.Accepts()
    case Save(c) => In(s, c) && s.ceremonies[c].phase.Negotiated? && s.files.lock.None?
    case Poll(c, _, _) => In(s, c) && s.ceremonies[c].phase.Polling?
    case Cancel(c, _, _) => In(s, c) && s.ceremonies[c].phase.Polling? && s.ceremonies[c].web
    case Receive(c, m) =>
      In(s, c) && s.ceremonies[c].phase.Polling? && m in s.history.issued &&
      m.bond == s.ceremonies[c].phase.bond && m.challenge == s.ceremonies[c].challenge
    case Doubt(c) => In(s, c) && s.ceremonies[c].phase.Polling?
    case Prove(c) => In(s, c) && s.ceremonies[c].phase.Proving?
    case Confirm(c) => In(s, c) && s.ceremonies[c].phase.Confirming? && s.files.lock.None?
    case FileStep(c) => In(s, c) && s.ceremonies[c].phase.Locking()
    case Discard(c) => In(s, c) && s.ceremonies[c].phase.Discarding? && s.files.lock.None?
    case Fail(c) => In(s, c) && !s.ceremonies[c].phase.Over?
    case Foreign(b) => b !in s.history.used && s.device.Accepts()
    case ForeignArm => s.device.session.Some? && s.device.session.value.progress.Ready? &&
                       s.device.session.value.bond !in s.history.mine
    case Approve => s.device.session.Some? && s.device.session.value.progress.Armed?
    case EndSession(p) => s.device.session.Some? && s.device.session.value.progress.Live() && !p.Live()
    case Reset => true
  }

  function Join(s: System, web: bool, phase: Phase): System {
    s.(device := s.device.(challenge := s.device.challenge + 1),
       ceremonies := s.ceremonies + [Ceremony(web, s.device.challenge + 1, phase)])
  }

  function Go(s: System, c: nat, phase: Phase): System
    requires In(s, c)
  {
    s.(ceremonies := s.ceremonies[c := s.ceremonies[c].(phase := phase)])
  }

  function WithSession(s: System, b: Bond, p: Progress): System {
    s.(device := s.device.(session := Some(Session(b, p))))
  }

  /** What the device will sign for bond b on the connection with this challenge. */
  function Answer(d: Device, b: Bond, challenge: nat, code: nat, faulty: bool): set<Signed> {
    if challenge != d.challenge then {}
    else if d.owner == Some(b) then {Signed(b, challenge, if faulty then Other else Owned, code)}
    else if d.session.Some? && d.session.value.bond == b then
      {Signed(b, challenge, if faulty then Other else Going(d.session.value.progress), code)}
    else {}
  }

  function Issue(s: System, c: nat, code: nat, faulty: bool): System
    requires In(s, c) && s.ceremonies[c].phase.Polling?
  {
    s.(history := s.history.(issued :=
      s.history.issued + Answer(s.device, s.ceremonies[c].phase.bond, s.ceremonies[c].challenge, code, faulty)))
  }

  /** The device hears a proof for the bond of its session, on its current connection. */
  predicate Heard(s: System, c: nat)
    requires In(s, c) && s.ceremonies[c].phase.Polling?
  {
    && s.ceremonies[c].challenge == s.device.challenge
    && s.device.session.Some? && s.device.session.value.bond == s.ceremonies[c].phase.bond
  }

  function Lock(s: System, c: nat): System { s.(files := s.files.(lock := Some(c))) }

  function End(s: System, b: Bond, p: Progress): System {
    WithSession(s, b, p).(history := s.history.(ended := s.history.ended + {b}))
  }

  function Dropped(o: Option<Bond>): set<Bond> { if o.Some? then {o.value} else {} }

  function ForgetBoth(s: System): System {
    s.(files := s.files.(active := None, pending := None),
       history := s.history.(forgotten := s.history.forgotten + Dropped(s.files.active) + Dropped(s.files.pending)))
  }

  /** One file step of the locked operation that ceremony c is in. */
  function OnDisk(s: System, c: nat): System
    requires In(s, c) && s.ceremonies[c].phase.Locking()
  {
    match s.ceremonies[c].phase
    case Renaming(b) => Go(s.(files := s.files.(active := Some(b))), c, Dropping(b))
    case Dropping(b) => Go(s.(files := s.files.(pending := None, lock := None)), c, Over)
    case ForgetActive =>
      Go(s.(files := s.files.(active := None),
            history := s.history.(forgotten :=
              s.history.forgotten + (Dropped(s.files.active) - Dropped(s.files.pending)))), c, ForgetCandidate)
    case ForgetCandidate =>
      Go(s.(files := s.files.(pending := None, lock := None),
            history := s.history.(forgotten := s.history.forgotten + Dropped(s.files.pending))), c, Over)
  }

  function Saved(s: System, c: nat): System
    requires In(s, c) && s.ceremonies[c].phase.Negotiated?
  {
    var b := s.ceremonies[c].phase.bond;
    if s.files.pending.Some? then Go(s, c, Over)
    else
      var h := s.history.(saved := s.history.saved + {b});
      Go(s.(files := s.files.(pending := Some(b)), history := h), c, Polling(b))
  }

  /** A signed end counts whatever its code; the browser's cancelling also takes an owner with an error code. */
  function Received(s: System, c: nat, m: Signed): System
    requires In(s, c)
  {
    if m.report.Terminal() then Go(s, c, Discarding(m))
    else if m.report.Owned? && (m.code == 0 || s.ceremonies[c].web) then Go(s, c, Proving(m.bond))
    else if m.Waiting() then s
    else Go(s, c, Over)
  }

  /** The candidate is checked first; the browser's confirmation is one transaction. */
  function Confirmed(s: System, c: nat): System
    requires In(s, c) && s.ceremonies[c].phase.Confirming?
  {
    var b := s.ceremonies[c].phase.bond;
    if s.files.pending != Some(b) then Go(s, c, Over)
    else if s.ceremonies[c].web then Go(s.(files := s.files.(active := Some(b), pending := None)), c, Over)
    else Go(Lock(s, c), c, Renaming(b))
  }

  function Discarded(s: System, c: nat): System
    requires In(s, c) && s.ceremonies[c].phase.Discarding?
  {
    var m := s.ceremonies[c].phase.evidence;
    if s.files.pending != Some(m.bond) then Go(s, c, Over)
    else
      var h := s.history.(discarded := s.history.discarded + {m});
      Go(s.(files := s.files.(pending := None), history := h), c, Over)
  }

  function Begun(s: System, c: nat, b: Bond, delivered: bool): System
    requires In(s, c)
  {
    var h := s.history;
    var h' := h.(used := h.used + {b}, mine := if delivered then h.mine + {b} else h.mine);
    Go(WithSession(s, b, Ready).(history := h'), c, if delivered then Negotiated(b) else Over)
  }

  function Next(s: System, a: Action): System
    requires Enabled(s, a)
  {
    match a
    case StartPairing(web) => Join(s, web, Checked)
    case Resume(web) => Join(s, web, Polling(s.files.pending.value))
    case Connect(web) => Join(s, web, Proving(Loaded(s.files).value))
    case StartForget(web) =>
      if web then Join(ForgetBoth(s), web, Over) else Lock(Join(s, web, ForgetActive), |s.ceremonies|)
    case Negotiate(c, b, delivered) => Begun(s, c, b, delivered)
    case Save(c) => Saved(s, c)
    case Poll(c, code, faulty) =>
      Issue(if code == 0 && Heard(s, c) && s.device.session.value.progress.Ready?
            then WithSession(s, s.ceremonies[c].phase.bond, Armed) else s, c, code, faulty)
    case Cancel(c, code, faulty) =>
      Issue(if code == 0 && Heard(s, c) && s.device.session.value.progress.Live()
            then End(s, s.ceremonies[c].phase.bond, Cancelled) else s, c, code, faulty)
    case Receive(c, m) => Received(s, c, m)
    case Doubt(c) => Go(s, c, if s.ceremonies[c].web then Proving(s.ceremonies[c].phase.bond) else Over)
    case Prove(c) =>
      Go(s, c, if s.device.owner == Some(s.ceremonies[c].phase.bond) then Confirming(s.ceremonies[c].phase.bond)
          else Over)
    case Confirm(c) => Confirmed(s, c)
    case FileStep(c) => OnDisk(s, c)
    case Discard(c) => Discarded(s, c)
    case Fail(c) => Go(s.(files := s.files.(lock := if s.files.lock == Some(c) then None else s.files.lock)), c, Over)
    case Foreign(b) => WithSession(s, b, Ready).(history := s.history.(used := s.history.used + {b}))
    case ForeignArm => WithSession(s, s.device.session.value.bond, Armed)
    case Approve =>
      s.(device := s.device.(owner := Some(s.device.session.value.bond), session := None),
         history := s.history.(approved := s.history.approved + {s.device.session.value.bond}))
    case EndSession(p) => End(s, s.device.session.value.bond, p)
    case Reset => s.(device := s.device.(owner := None))
  }

  datatype Run = Start | Then(before: Run, step: Action)

  ghost predicate Feasible(run: Run)
    decreases run, 0
  {
    run.Then? ==> Feasible(run.before) && Enabled(Final(run.before), run.step)
  }

  ghost function Final(run: Run): System
    requires Feasible(run)
    decreases run, 1
  {
    if run.Start? then INITIAL else Next(Final(run.before), run.step)
  }

  // ---------------------------------------------------------------- what every run keeps

  /** A bond has one life: session, then approved or ended for good. */
  ghost predicate DeviceOk(s: System) {
    var d, h := s.device, s.history;
    && h.mine <= h.used && h.approved <= h.used && h.ended <= h.used && h.approved !! h.ended
    && h.saved <= h.mine
    && (d.owner.Some? ==> d.owner.value in h.approved && (d.session.Some? ==> !d.session.value.progress.Live()))
    && (d.session.Some? ==>
          var x := d.session.value;
          && x.bond in h.used
          && (if x.progress.Live() then x.bond !in h.approved && x.bond !in h.ended else x.bond in h.ended)
          && (x.progress.Armed? && x.bond in h.mine ==> x.bond in h.saved))
    && (forall b :: b in h.approved && b in h.mine ==> b in h.saved)
  }

  ghost predicate SignedOk(h: History, m: Signed) {
    (m.report.Owned? ==> m.bond in h.approved) && (m.report.Terminal() ==> m.bond in h.ended)
  }

  ghost predicate IssuedOk(s: System) {
    && (forall m | m in s.history.issued :: SignedOk(s.history, m))
    && (forall m | m in s.history.discarded :: m in s.history.issued && m.report.Terminal())
  }

  /** The bond whose approval is still possible. */
  function LiveOf(d: Device): Option<Bond> {
    if d.session.Some? && d.session.value.progress.Live() then Some(d.session.value.bond) else None
  }

  ghost predicate FilesOk(s: System) {
    var f, h := s.files, s.history;
    && (f.pending.Some? ==> f.pending.value in h.saved)
    && (f.active.Some? ==> f.active.value in h.saved)
    && h.forgotten <= h.saved
    && (f.pending.Some? ==> f.pending.value !in h.forgotten)
    && (f.active.Some? ==> f.active.value !in h.forgotten)
    && (f.lock.Some? ==> In(s, f.lock.value) && s.ceremonies[f.lock.value].phase.Locking())
    && (LiveOf(s.device).Some? && LiveOf(s.device).value in h.saved && LiveOf(s.device).value !in h.forgotten ==>
          f.pending == LiveOf(s.device))
  }

  ghost predicate CeremonyOk(s: System, c: nat)
    requires In(s, c)
  {
    var p, h := s.ceremonies[c].phase, s.history;
    && p.Bonds() <= h.mine
    && (p.Negotiated? ==> p.bond !in h.saved)
    && (p.Polling? ==> p.bond in h.saved)
    && (p.Confirming? || p.Renaming? || p.Dropping? ==> p.bond in h.approved)
    && (p.Renaming? || p.Dropping? ==> s.files.pending == Some(p.bond))
    && (p.Dropping? ==> s.files.active == Some(p.bond))
    && (p.ForgetCandidate? ==> s.files.active.None?)
    && (p.Discarding? ==> p.evidence in h.issued && p.evidence.report.Terminal())
    && (p.Locking() ==> s.files.lock == Some(c))
  }

  ghost predicate CeremoniesOk(s: System) {
    && (forall c: nat | In(s, c) :: CeremonyOk(s, c))
    && (forall c: nat, d: nat | In(s, c) && In(s, d) && s.ceremonies[c].phase.Negotiated? &&
          s.ceremonies[d].phase == s.ceremonies[c].phase :: c == d)
  }

  ghost predicate Inv(s: System) { DeviceOk(s) && IssuedOk(s) && FilesOk(s) && CeremoniesOk(s) }

  lemma InvNext(s: System, a: Action)
    requires Inv(s) && Enabled(s, a)
    ensures Inv(Next(s, a))
  {
    DeviceNext(s, a);
    IssuedNext(s, a);
    FilesNext(s, a);
    CeremoniesNext(s, a);
  }

  lemma DeviceNext(s: System, a: Action)
    requires Inv(s) && Enabled(s, a)
    ensures DeviceOk(Next(s, a))
  {
    if a.Negotiate? || a.Save? || a.Poll? || a.Cancel? { SessionSteps(s, a); } else { OwnerSteps(s, a); }
  }

  lemma SessionSteps(s: System, a: Action)
    requires Inv(s) && Enabled(s, a) && (a.Negotiate? || a.Save? || a.Poll? || a.Cancel?)
    ensures DeviceOk(Next(s, a))
  {
    assert CeremonyOk(s, a.c);
  }

  lemma OwnerSteps(s: System, a: Action)
    requires Inv(s) && Enabled(s, a) && !(a.Negotiate? || a.Save? || a.Poll? || a.Cancel?)
    ensures DeviceOk(Next(s, a))
  {
  }

  lemma IssuedNext(s: System, a: Action)
    requires Inv(s) && Enabled(s, a)
    ensures IssuedOk(Next(s, a))
  {
    if a.Poll? || a.Cancel? { AnswersOk(s, a); }
    else if a.Discard? { assert CeremonyOk(s, a.c); }
  }

  lemma AnswersOk(s: System, a: Action)
    requires Inv(s) && Enabled(s, a) && (a.Poll? || a.Cancel?)
    ensures IssuedOk(Next(s, a))
  {
    assert CeremonyOk(s, a.c);
    hide FilesOk, CeremoniesOk, CeremonyOk;
  }

  lemma FilesNext(s: System, a: Action)
    requires Inv(s) && Enabled(s, a)
    ensures FilesOk(Next(s, a))
  {
    if a.Save? || a.Confirm? || a.Discard? { CandidateSteps(s, a); }
    else if a.FileStep? || a.StartForget? { LockedSteps(s, a); }
    else if a.Negotiate? || a.Poll? || a.Cancel? { DeviceSteps(s, a); }
    else { OtherSteps(s, a); }
  }

  lemma CandidateSteps(s: System, a: Action)
    requires Inv(s) && Enabled(s, a) && (a.Save? || a.Confirm? || a.Discard?)
    ensures FilesOk(Next(s, a))
  {
    assert CeremonyOk(s, a.c);
    hide CeremonyOk;
  }

  lemma LockedSteps(s: System, a: Action)
    requires Inv(s) && Enabled(s, a) && (a.FileStep? || a.StartForget?)
    ensures FilesOk(Next(s, a))
  {
    if a.FileStep? { assert CeremonyOk(s, a.c); }
  }

  lemma DeviceSteps(s: System, a: Action)
    requires Inv(s) && Enabled(s, a) && (a.Negotiate? || a.Poll? || a.Cancel?)
    ensures FilesOk(Next(s, a))
  {
    assert CeremonyOk(s, a.c);
  }

  lemma OtherSteps(s: System, a: Action)
    requires Inv(s) && Enabled(s, a) && !(a.Save? || a.Confirm? || a.Discard? || a.FileStep?)
    requires !(a.StartForget? || a.Negotiate? || a.Poll? || a.Cancel?)
    ensures FilesOk(Next(s, a))
  {
  }

  lemma CeremoniesNext(s: System, a: Action)
    requires Inv(s) && Enabled(s, a)
    ensures CeremoniesOk(Next(s, a))
  {
    var t := Next(s, a);
    forall c: nat | In(t, c) ensures CeremonyOk(t, c) {
      if In(s, c) { CeremonyKept(s, a, c); }
    }
    forall c: nat, d: nat | In(t, c) && In(t, d) && t.ceremonies[c].phase.Negotiated? &&
                            t.ceremonies[d].phase == t.ceremonies[c].phase
      ensures c == d
    {
      assert CeremonyOk(s, c) && CeremonyOk(s, d);
    }
  }

  predicate By(a: Action, c: nat) {
    match a
    case Negotiate(d, _, _) => d == c
    case Save(d) => d == c
    case Poll(d, _, _) => d == c
    case Cancel(d, _, _) => d == c
    case Receive(d, _) => d == c
    case Doubt(d) => d == c
    case Prove(d) => d == c
    case Confirm(d) => d == c
    case FileStep(d) => d == c
    case Discard(d) => d == c
    case Fail(d) => d == c
    case _ => false
  }

  lemma CeremonyKept(s: System, a: Action, c: nat)
    requires Inv(s) && Enabled(s, a) && In(s, c)
    ensures In(Next(s, a), c) && CeremonyOk(Next(s, a), c)
  {
    if By(a, c) { OwnStep(s, a, c); } else { OthersStep(s, a, c); }
  }

  lemma OwnStep(s: System, a: Action, c: nat)
    requires Inv(s) && Enabled(s, a) && In(s, c) && By(a, c)
    ensures In(Next(s, a), c) && CeremonyOk(Next(s, a), c)
  {
    assert CeremonyOk(s, c);
  }

  lemma OthersStep(s: System, a: Action, c: nat)
    requires Inv(s) && Enabled(s, a) && In(s, c) && !By(a, c)
    ensures In(Next(s, a), c) && CeremonyOk(Next(s, a), c)
  {
    assert CeremonyOk(s, c);
    assert Next(s, a).ceremonies[c] == s.ceremonies[c];
    if a.Save? || a.FileStep? {
      assert CeremonyOk(s, a.c);
    }
  }

  lemma {:induction false} InvHolds(run: Run)
    requires Feasible(run)
    ensures Inv(Final(run))
    decreases run
  {
    if run.Then? {
      InvHolds(run.before);
      InvNext(Final(run.before), run.step);
    }
  }

  // ---------------------------------------------------------------- client, device and disk agree

  predicate Ours(s: System, o: Option<Bond>) {
    o.Some? && o.value in s.history.mine && o.value !in s.history.forgotten
  }

  /** A secret the device honours, negotiated here and not forgotten, is the one LoadBond yields. */
  predicate Joint(s: System) {
    Ours(s, s.device.owner) ==> Loaded(s.files) == s.device.owner
  }

  /**
    No candidate is published while the active record is one the device still honours, which a client
    can find out by authenticating with that record before it saves the candidate.
   */
  predicate SafeStep(s: System, a: Action) {
    a.Save? && s.files.pending.None? && s.files.active.Some? ==> s.device.owner != s.files.active
  }

  ghost predicate AlwaysJoint(run: Run)
    requires Feasible(run)
  {
    Joint(Final(run)) && (run.Then? ==> AlwaysJoint(run.before))
  }

  ghost predicate AllSafe(run: Run)
    requires Feasible(run)
  {
    run.Then? ==> AllSafe(run.before) && SafeStep(Final(run.before), run.step)
  }

  lemma JointNext(s: System, a: Action)
    requires Inv(s) && Enabled(s, a) && Joint(s) && SafeStep(s, a)
    ensures Joint(Next(s, a))
  {
    if (a.FileStep? || a.Discard? || a.Confirm? || a.Save?) {
      assert CeremonyOk(s, a.c);
    }
  }

  lemma UnsafeSaveBreaks(s: System, a: Action)
    requires Inv(s) && Enabled(s, a) && !SafeStep(s, a)
    ensures !Joint(Next(s, a))
  {
    assert CeremonyOk(s, a.c);
  }

  /**
    With any message lost, a crash at any step, forgetting and cancelling at any time and any number
    of overlapping ceremonies, the three stores agree throughout a run exactly when no candidate was
    published while the active record was still the device's owner.
   */
  lemma {:induction false} JointExactlyWhenSavesAreSafe(run: Run)
    requires Feasible(run)
    ensures AlwaysJoint(run) <==> AllSafe(run)
    decreases run
  {
    if run.Then? {
      JointExactlyWhenSavesAreSafe(run.before);
      InvHolds(run.before);
      var s := Final(run.before);
      if AllSafe(run.before) {
        if SafeStep(s, run.step) { JointNext(s, run.step); } else { UnsafeSaveBreaks(s, run.step); }
      }
    }
  }

  // ---------------------------------------------------------------- one negotiation at a time

  predicate Negotiating(s: System, c: nat) {
    In(s, c) && (s.ceremonies[c].phase.Checked? || s.ceremonies[c].phase.Negotiated?)
  }

  /** A new ceremony looks at the disk only when no other is between that look and its save. */
  ghost predicate OneAtATime(run: Run)
    requires Feasible(run)
  {
    run.Then? ==>
      && OneAtATime(run.before)
      && (run.step.StartPairing? ==> forall c: nat :: !Negotiating(Final(run.before), c))
  }

  ghost predicate Quiet(s: System) {
    && (forall c: nat, d: nat | Negotiating(s, c) && Negotiating(s, d) :: c == d)
    && (forall c: nat | Negotiating(s, c) && s.ceremonies[c].phase.Negotiated? ::
          var b := s.ceremonies[c].phase.bond;
          && (s.device.owner.Some? && s.device.owner.value in s.history.mine ==> s.device.owner.value == b)
          && (s.device.session.Some? && s.device.session.value.bond in s.history.mine ==>
                s.device.session.value.bond == b))
  }

  lemma NegotiatingStep(s: System, a: Action, c: nat)
    requires Enabled(s, a) && Negotiating(Next(s, a), c)
    ensures Negotiating(s, c) || (a.StartPairing? && c == |s.ceremonies|)
    ensures In(s, c) && Next(s, a).ceremonies[c] != s.ceremonies[c] ==> a.Negotiate? && a.c == c
  {
  }

  lemma QuietNext(s: System, a: Action)
    requires Inv(s) && Enabled(s, a) && Quiet(s)
    requires a.StartPairing? ==> forall c: nat :: !Negotiating(s, c)
    ensures Quiet(Next(s, a)) && SafeStep(s, a)
  {
    var t := Next(s, a);
    forall c: nat, d: nat | Negotiating(t, c) && Negotiating(t, d) ensures c == d {
      NegotiatingStep(s, a, c);
      NegotiatingStep(s, a, d);
    }
    forall c: nat | Negotiating(t, c) && t.ceremonies[c].phase.Negotiated?
      ensures var b := t.ceremonies[c].phase.bond;
        && (t.device.owner.Some? && t.device.owner.value in t.history.mine ==> t.device.owner.value == b)
        && (t.device.session.Some? && t.device.session.value.bond in t.history.mine ==>
           t.device.session.value.bond == b)
    {
      NegotiatingStep(s, a, c);
      if a.Negotiate? && a.c != c { assert Negotiating(s, a.c) && Negotiating(s, c); }
    }
    if a.Save? {
      assert CeremonyOk(s, a.c) && Negotiating(s, a.c);
    }
  }

  lemma {:induction false} QuietHolds(run: Run)
    requires Feasible(run) && OneAtATime(run)
    ensures Quiet(Final(run)) && AllSafe(run)
    decreases run
  {
    if run.Then? {
      QuietHolds(run.before);
      InvHolds(run.before);
      QuietNext(Final(run.before), run.step);
    }
  }

  /** Negotiations that do not overlap are enough, whatever else overlaps. */
  lemma {:induction false} OneNegotiationAtATimeIsJoint(run: Run)
    requires Feasible(run) && OneAtATime(run)
    ensures AlwaysJoint(run)
  {
    QuietHolds(run);
    JointExactlyWhenSavesAreSafe(run);
  }

  // ---------------------------------------------------------------- discarding

  /**
    A candidate is discarded only on a state the device signed for that bond and that connection's
    challenge, saying cancelled or expired; however cancelling raced with approval, such a bond is
    never the device's owner, then or later.
   */
  lemma {:induction false} DiscardedNeverOwns(run: Run, m: Signed)
    requires Feasible(run) && m in Final(run).history.discarded
    ensures m in Final(run).history.issued && m.report.Terminal()
    ensures Final(run).device.owner != Some(m.bond) && m.bond !in Final(run).history.approved
  {
    InvHolds(run);
  }

  ghost predicate Reaches(run: Run, later: Run)
    requires Feasible(later)
  {
    run == later || (later.Then? && Reaches(run, later.before))
  }

  lemma {:induction false} DiscardedNeverOwnsLater(run: Run, later: Run, m: Signed)
    requires Feasible(run) && Feasible(later) && Reaches(run, later) && m in Final(run).history.discarded
    ensures m in Final(later).history.discarded && Final(later).device.owner != Some(m.bond)
    decreases later
  {
    if run != later { DiscardedNeverOwnsLater(run, later.before, m); }
    DiscardedNeverOwns(later, m);
  }

  /** Every step that takes a candidate off the disk is a discard on such evidence, a confirmation, or forgetting. */
  lemma {:induction false} CandidateLeavesOnlyOn(run: Run, a: Action)
    requires Feasible(Then(run, a))
    ensures var s, t := Final(run), Final(Then(run, a));
            s.files.pending.Some? && t.files.pending != s.files.pending ==>
              && t.files.pending.None?
              && var b := s.files.pending.value;
                 || t.files.active == Some(b)
                 || b in t.history.forgotten
                 || (a.Discard? && exists m :: m in t.history.discarded && m.bond == b)
  {
    InvHolds(run);
    var s := Final(run);
    if a.FileStep? { assert CeremonyOk(s, a.c); }
    if a.Discard? && s.files.pending == Some(s.ceremonies[a.c].phase.evidence.bond) {
      assert s.ceremonies[a.c].phase.evidence in Next(s, a).history.discarded;
    }
  }

  // ---------------------------------------------------------------- overlapping negotiations

  lemma {:induction false} Extend(run: Run, a: Action, s: System, t: System) returns (longer: Run)
    requires Feasible(run) && Final(run) == s && Enabled(s, a) && Next(s, a) == t
    ensures longer == Then(run, a) && Feasible(longer) && Final(longer) == t
  {
    longer := Then(run, a);
  }

  /** The first ceremony's session expires before it saves; a second ceremony then starts, both native. */
  lemma TwoNegotiations() returns (run: Run)
    ensures Feasible(run)
    ensures Final(run) == System(Device(None, Some(Session(2, Ready)), 2), Files(None, None, None),
      [Ceremony(false, 1, Negotiated(1)), Ceremony(false, 2, Negotiated(2))],
      History({1, 2}, {1, 2}, {}, {}, {1}, {}, {}, {}))
  {
    var one := Ceremony(false, 1, Negotiated(1));
    var s1 := INITIAL.(device := Device(None, None, 1), ceremonies := [Ceremony(false, 1, Checked)]);
    run := Extend(Start, StartPairing(false), INITIAL, s1);
    var s2 := System(Device(None, Some(Session(1, Ready)), 1), INITIAL.files, [one],
                     INITIAL.history.(used := {1}, mine := {1}));
    run := Extend(run, Negotiate(0, 1, true), s1, s2);
    var s3 := s2.(device := Device(None, Some(Session(1, Expired)), 1), history := s2.history.(ended := {1}));
    run := Extend(run, EndSession(Expired), s2, s3);
    var s4 := s3.(device := Device(None, Some(Session(1, Expired)), 2),
                  ceremonies := [one, Ceremony(false, 2, Checked)]);
    run := Extend(run, StartPairing(false), s3, s4);
    var s5 := System(Device(None, Some(Session(2, Ready)), 2), INITIAL.files,
                     [one, Ceremony(false, 2, Negotiated(2))], s4.history.(used := {1, 2}, mine := {1, 2}));
    run := Extend(run, Negotiate(1, 2, true), s4, s5);
  }

  /** The second ceremony publishes its candidate and is approved. */
  lemma SecondIsApproved() returns (run: Run)
    ensures Feasible(run)
    ensures var s := Final(run);
      && s.device == Device(Some(2), None, 2) && s.files == Files(None, Some(2), None)
      && s.history.mine == {1, 2} && s.history.forgotten == {} && s.history.issued == {Signed(2, 2, Going(Armed), 0)}
      && s.ceremonies == [Ceremony(false, 1, Negotiated(1)), Ceremony(false, 2, Polling(2))]
  {
    run := TwoNegotiations();
    var s5 := Final(run);
    var s6 := s5.(files := Files(None, Some(2), None),
                  ceremonies := [Ceremony(false, 1, Negotiated(1)), Ceremony(false, 2, Polling(2))],
                  history := s5.history.(saved := {2}));
    run := Extend(run, Save(1), s5, s6);
    var s7 := s6.(device := Device(None, Some(Session(2, Armed)), 2),
                  history := s6.history.(issued := {Signed(2, 2, Going(Armed), 0)}));
    run := Extend(run, Poll(1, 0, false), s6, s7);
    var s8 := s7.(device := Device(Some(2), None, 2), history := s7.history.(approved := {2}));
    run := Extend(run, Approve, s7, s8);
  }

  /** It hears so and confirms: its record is renamed, then its candidate removed. */
  lemma SecondIsConfirmed() returns (run: Run)
    ensures Feasible(run)
    ensures var s := Final(run);
      && s.device.owner == Some(2) && s.files == Files(Some(2), None, None)
      && s.history.mine == {1, 2} && s.history.forgotten == {}
      && |s.ceremonies| == 2 && s.ceremonies[0].phase == Negotiated(1)
  {
    run := SecondIsApproved();
    var s8 := Final(run);
    var one, m := Ceremony(false, 1, Negotiated(1)), Signed(2, 2, Owned, 0);
    var s9 := s8.(history := s8.history.(issued := {Signed(2, 2, Going(Armed), 0), m}));
    run := Extend(run, Poll(1, 0, false), s8, s9);
    var s10 := s9.(ceremonies := [one, Ceremony(false, 2, Proving(2))]);
    run := Extend(run, Receive(1, m), s9, s10);
    var s11 := s9.(ceremonies := [one, Ceremony(false, 2, Confirming(2))]);
    run := Extend(run, Prove(1), s10, s11);
    var s12 := s11.(files := Files(None, Some(2), Some(1)), ceremonies := [one, Ceremony(false, 2, Renaming(2))]);
    run := Extend(run, Confirm(1), s11, s12);
    var s13 := s12.(files := Files(Some(2), Some(2), Some(1)), ceremonies := [one, Ceremony(false, 2, Dropping(2))]);
    run := Extend(run, FileStep(1), s12, s13);
    var s14 := s13.(files := Files(Some(2), None, None), ceremonies := [one, Ceremony(false, 2, Over)]);
    run := Extend(run, FileStep(1), s13, s14);
  }

  /** The first ceremony's late save then hides the secret the device honours. */
  lemma {:induction false} LateCandidateHidesTheOwner() returns (run: Run)
    ensures Feasible(run) && !Joint(Final(run)) && !OneAtATime(run)
  {
    run := SecondIsConfirmed();
    var s := Final(run);
    run := Extend(run, Save(0), s, Next(s, Save(0)));
    if OneAtATime(run) { OneNegotiationAtATimeIsJoint(run); }
  }

  // ---------------------------------------------------------------- the polling loop, step by step

  /** How polling ends: nothing proved, an owner to authenticate, or evidence to discard the candidate. */
  datatype Decision = GiveUp | ProveIt | DiscardIt(evidence: Signed)

  /** `replies` are what the polls bring; no reply is a lost or unauthentic one, no more replies a cancelled wait. */
  function Decided(b: Bond, challenge: nat, replies: seq<Option<Signed>>): (d: Decision)
    ensures d.DiscardIt? ==>
      d.evidence.bond == b && d.evidence.challenge == challenge && d.evidence.report.Terminal()
          && Some(d.evidence) in replies
    decreases |replies|
  {
    if replies == [] || replies[0].None? then GiveUp
    else
      var m := replies[0].value;
      if m.bond != b || m.challenge != challenge then GiveUp
      else if m.report.Terminal() then DiscardIt(m)
      else if m.code != 0 || m.report.Other? then GiveUp
      else if m.report.Owned? then ProveIt
      else Decided(b, challenge, replies[1..])
  }

  predicate Authentic(b: Bond, challenge: nat, reply: Option<Signed>) {
    reply.Some? && reply.value.bond == b && reply.value.challenge == challenge
  }

  /** Every reply before the i-th was authentic and said to wait. */
  predicate WaitedUntil(b: Bond, challenge: nat, replies: seq<Option<Signed>>, i: nat) {
    i < |replies| && forall k | 0 <= k < i :: Authentic(b, challenge, replies[k]) && replies[k].value.Waiting()
  }

  /**
    Polling discards exactly on an authentic end, whatever its error code, and proves exactly on an
    authentic owner without one, each after nothing but authentic replies that said to wait.
   */
  lemma {:induction false} DecidedExactly(b: Bond, challenge: nat, replies: seq<Option<Signed>>)
    ensures Decided(b, challenge, replies).DiscardIt? <==>
            exists i: nat :: WaitedUntil(b, challenge, replies, i) && Authentic(b, challenge, replies[i]) &&
                             replies[i].value.report.Terminal()
    ensures Decided(b, challenge, replies).ProveIt? <==>
            exists i: nat :: WaitedUntil(b, challenge, replies, i) && Authentic(b, challenge, replies[i]) &&
                             replies[i].value.report.Owned? && replies[i].value.code == 0
    decreases |replies|
  {
    if replies != [] {
      if Authentic(b, challenge, replies[0]) && replies[0].value.Waiting() {
        var rest := replies[1..];
        DecidedExactly(b, challenge, rest);
        forall i: nat | i < |rest|
          ensures WaitedUntil(b, challenge, rest, i) <==> WaitedUntil(b, challenge, replies, i + 1)
        {
          assert rest[i] == replies[i + 1] && forall k | 0 <= k < i :: rest[k] == replies[k + 1];
          assert forall k | 0 < k < i + 1 :: replies[k] == rest[k - 1];
        }
        forall i: nat | WaitedUntil(b, challenge, replies, i) && 0 < i ensures rest[i - 1] == replies[i] {}
      } else {
        assert WaitedUntil(b, challenge, replies, 0);
      }
    }
  }

  method WaitForPairing(b: Bond, challenge: nat, replies: seq<Option<Signed>>) returns (d: Decision)
    ensures d == Decided(b, challenge, replies)
  {
    for i := 0 to |replies|
      invariant Decided(b, challenge, replies) == Decided(b, challenge, replies[i..])
    {
      if replies[i].None? { return GiveUp; }
      var m := replies[i].value;
      if m.bond != b || m.challenge != challenge { return GiveUp; }
      if m.report.Terminal() { return DiscardIt(m); }
      if m.code != 0 || m.report.Other? { return GiveUp; }
      if m.report.Owned? { return ProveIt; }
      assert replies[i..][1..] == replies[i + 1..];
    }
    return GiveUp;
  }

  /** The loop is one of the state machine's runs, for whatever genuine replies it is given. */
  lemma {:induction false} WaitIsARun(run: Run, c: nat, replies: seq<Option<Signed>>) returns (longer: Run)
    requires Feasible(run) && In(Final(run), c) && Final(run).ceremonies[c].phase.Polling?
             && !Final(run).ceremonies[c].web
    requires forall i | 0 <= i < |replies| && replies[i].Some? :: replies[i].value in Final(run).history.issued
    ensures Feasible(longer) && In(Final(longer), c)
    ensures var s := Final(run);
            Final(longer).ceremonies[c].phase ==
              match Decided(s.ceremonies[c].phase.bond, s.ceremonies[c].challenge, replies)
              case GiveUp => Over
              case ProveIt => Proving(s.ceremonies[c].phase.bond)
              case DiscardIt(m) => Discarding(m)
    decreases |replies|
  {
    var s := Final(run);
    var b, challenge := s.ceremonies[c].phase.bond, s.ceremonies[c].challenge;
    if replies == [] || replies[0].None? || replies[0].value.bond != b || replies[0].value.challenge != challenge {
      longer := Extend(run, Doubt(c), s, Next(s, Doubt(c)));
    } else {
      var m := replies[0].value;
      longer := Extend(run, Receive(c, m), s, Next(s, Receive(c, m)));
      if m.Waiting() { longer := WaitIsARun(longer, c, replies[1..]); }
    }
  }
}
