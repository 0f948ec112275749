/**
  The session actor of internal/aqf/link.go until shutdown: Run's loop, the job that a dial starts
  (possibly after the dial has returned), and the claim that decides which of the two answers the
  first call. Work and exclusive work return with any result.
 */
module Link {
  import opened Wrappers

  type Call = nat

  datatype Claim = Nobody | ByJob | ByRun

  datatype Job = Waiting | Working(call: Call) | Listening | Closing | Ended {
    /** The connection is open. */
    predicate Open() { Working? || Listening? || Closing? }
  }

  datatype Dial = Dial(first: Call, claim: Claim, job: Job)

  /** Where Run is; Returned is between the dial's return and Run's own attempt at the claim. */
  datatype Loop = Top | Selecting | Dialing(dial: nat) | Returned(dial: nat) | Excluding(call: Call)

  datatype Result = Succeeded | Refused | Broken

  datatype Event =
    | Started(call: Call, on: Option<nat>)
    | Replied(call: Call)
    | Failed(session: nat)

  /** `late` names the dials whose job won the claim after the dial had returned. */
  datatype System = System(loop: Loop, next: Option<Call>, dials: seq<Dial>, accepted: set<Call>,
                           started: set<Call>, replied: set<Call>, late: set<nat>, log: seq<Event>)

  const INITIAL := System(Top, None, [], {}, {}, {}, {}, [])

  datatype Action =
    | TakeNext
    | Receive(call: Call, exclusive: bool)
    | ExclusiveDone
    | DialReturns
    | RunClaims
    | JobStarts(k: nat)
    | WorkDone(k: nat, result: Result)
    | JobReceives(k: nat, call: Call, exclusive: bool)
    | JobStops(k: nat)
    | JobEnds(k: nat)

  predicate In(s: System, k: nat) { k < |s.dials| }

  predicate Enabled(s: System, a: Action) {
    match a
    case TakeNext => s.loop.Top?
    case Receive(c, exclusive) => s.loop.Selecting? && c !in s.accepted
    case ExclusiveDone => s.loop.Excluding?
    // Until shutdown a dial whose job has begun returns only with the job's result.
    case DialReturns => s.loop.Dialing? && In(s, s.loop.dial)
        && (s.dials[s.loop.dial].job.Waiting? || s.dials[s.loop.dial].job.Ended?)
    case RunClaims => s.loop.Returned? && In(s, s.loop.dial)
    case JobStarts(k) => In(s, k) && s.dials[k].job.Waiting?
    case WorkDone(k, result) => In(s, k) && s.dials[k].job.Working?
    case JobReceives(k, c, exclusive) => In(s, k) && s.dials[k].job.Listening? && c !in s.accepted
    case JobStops(k) => In(s, k) && s.dials[k].job.Listening?
    case JobEnds(k) => In(s, k) && s.dials[k].job.Closing?
  }

  function Accept(s: System, c: Call): System { s.(accepted := s.accepted + {c}) }

  function StartWork(s: System, c: Call, dial: Option<nat>): System {
    s.(started := s.started + {c}, log := s.log + [Started(c, dial)])
  }

  function Reply(s: System, c: Call): System {
    s.(replied := s.replied + {c}, log := s.log + [Replied(c)])
  }

  function SetJob(s: System, k: nat, job: Job): System
    requires In(s, k)
  {
    s.(dials := s.dials[k := s.dials[k].(job := job)])
  }

  function SetClaim(s: System, k: nat, claim: Claim): System
    requires In(s, k)
  {
    s.(dials := s.dials[k := s.dials[k].(claim := claim)])
  }

  function Next(s: System, a: Action): System
    requires Enabled(s, a)
  {
    match a
    case TakeNext =>
      if s.next.Some? then StartWork(s.(loop := Excluding(s.next.value), next := None), s.next.value, None)
      else s.(loop := Selecting)
    case Receive(c, exclusive) =>
      if exclusive then StartWork(Accept(s, c).(loop := Excluding(c)), c, None)
      else Accept(s, c).(loop := Dialing(|s.dials|), dials := s.dials + [Dial(c, Nobody, Waiting)])
    case ExclusiveDone => Reply(s, s.loop.call).(loop := Top)
    case DialReturns => s.(loop := Returned(s.loop.dial))
    case RunClaims =>
      var k := s.loop.dial;
      if s.dials[k].claim.Nobody? then Reply(SetClaim(s, k, ByRun), s.dials[k].first).(loop := Top)
      else s.(loop := Top)
    case JobStarts(k) =>
      if s.dials[k].claim.Nobody? then
        StartWork(SetJob(SetClaim(s, k, ByJob), k, Working(s.dials[k].first)), s.dials[k].first, Some(k))
          .(late := if s.loop == Returned(k) then s.late + {k} else s.late)
      else SetJob(s, k, Ended)
    case WorkDone(k, result) =>
      var answered := Reply(s, s.dials[k].job.call);
      if result.Broken? then SetJob(answered.(log := answered.log + [Failed(k)]), k, Closing)
      else SetJob(answered, k, Listening)
    case JobReceives(k, c, exclusive) =>
      if exclusive then SetJob(Accept(s, c).(next := Some(c)), k, Closing)
      else StartWork(SetJob(Accept(s, c), k, Working(c)), c, Some(k))
    case JobStops(k) => SetJob(s, k, Closing)
    case JobEnds(k) => SetJob(s, k, Ended)
  }

  datatype Run = Start | Then(before: Run, step: Action)

  ghost predicate Feasible(run: Run)
    decreases run, 0
  {
    run.Then? ==> Feasible(run.before) && Enabled(Final(run.before), run.step)
  }

  ghost function Final(run: Run): System
    requires Feasible(run)
    decreases run, 1
  {
    if run.Start? then INITIAL else Next(Final(run.before), run.step)
  }

  // ---------------------------------------------------------------- who answers which call

  /** Dial k answers for call c: its job is working on it, or nobody has claimed it yet. */
  predicate HeldBy(s: System, k: nat, c: Call) {
    In(s, k) && ((s.dials[k].job.Working? && s.dials[k].job.call == c)
        || (s.dials[k].claim.Nobody? && s.dials[k].first == c))
  }

  ghost predicate Held(s: System, c: Call) {
    s.loop == Excluding(c) || s.next == Some(c) || exists k :: HeldBy(s, k, c)
  }

  ghost predicate DialOk(s: System, k: nat)
    requires In(s, k)
  {
    var d := s.dials[k];
    && (d.claim.Nobody? ==> d.job.Waiting? && (s.loop == Dialing(k) || s.loop == Returned(k)))
    && (d.claim.ByRun? ==> d.job.Waiting? || d.job.Ended?)
    && (d.claim.ByJob? ==> !d.job.Waiting?)
    && (d.job.Working? ==> d.job.call in s.started)
    && (d.claim.Nobody? ==> d.first !in s.started)
    && (d.job.Open() && s.loop != Dialing(k) ==> k in s.late)
  }

  /** A call still to be answered has one holder. */
  ghost predicate HolderOk(s: System, k: nat, c: Call) {
    HeldBy(s, k, c) ==>
      && c in s.accepted && c !in s.replied
      && s.loop != Excluding(c) && s.next != Some(c)
      && forall j :: HeldBy(s, j, c) ==> j == k
  }

  ghost predicate LoopOk(s: System) {
    && (s.loop.Excluding? ==>
          s.loop.call in s.accepted && s.loop.call in s.started && s.loop.call !in s.replied
              && s.next != Some(s.loop.call))
    && (s.next.Some? ==> s.next.value in s.accepted && s.next.value !in s.started && s.next.value !in s.replied)
    && (s.loop.Dialing? || s.loop.Returned? ==> In(s, s.loop.dial))
    && s.started <= s.accepted && s.replied <= s.accepted
  }

  ghost predicate Inv(s: System) {
    && LoopOk(s)
    && (forall k: nat | In(s, k) :: DialOk(s, k))
    && (forall k: nat, c: Call :: HolderOk(s, k, c))
  }

  lemma InvNext(s: System, a: Action)
    requires Inv(s) && Enabled(s, a)
    ensures Inv(Next(s, a))
  {
    var t := Next(s, a);
    forall k: nat | In(t, k) ensures DialOk(t, k) { DialNext(s, a, k); }
    forall k: nat, c: Call ensures HolderOk(t, k, c) { HolderNext(s, a, k, c); }
    LoopNext(s, a);
  }

  lemma LoopNext(s: System, a: Action)
    requires Inv(s) && Enabled(s, a)
    ensures LoopOk(Next(s, a))
  {
    match a
    case WorkDone(k, result) => assert HolderOk(s, k, s.dials[k].job.call) && HeldBy(s, k, s.dials[k].job.call);
    case RunClaims => assert HolderOk(s, s.loop.dial, s.dials[s.loop.dial].first);
    case JobStarts(k) => assert HolderOk(s, k, s.dials[k].first);
    case _ =>
  }

  lemma DialNext(s: System, a: Action, k: nat)
    requires Inv(s) && Enabled(s, a) && In(Next(s, a), k)
    ensures DialOk(Next(s, a), k)
  {
    if In(s, k) {
      assert DialOk(s, k);
      assert HolderOk(s, k, s.dials[k].first);
      match a
      case JobStarts(j) => assert DialOk(s, j) && HolderOk(s, j, s.dials[j].first);
      case _ =>
    }
  }

  predicate Taken(s: System, a: Action, k: nat, c: Call) {
    || (a == Receive(c, false) && k == |s.dials|)
    || a == JobReceives(k, c, false)
  }

  lemma HeldStep(s: System, a: Action, k: nat, c: Call)
    requires Inv(s) && Enabled(s, a) && HeldBy(Next(s, a), k, c)
    ensures HeldBy(s, k, c) || Taken(s, a, k, c)
    ensures HeldBy(s, k, c) && (a == RunClaims || a.WorkDone?) ==> c !in Next(s, a).replied - s.replied
  {
    if In(s, k) { assert DialOk(s, k); }
    match a
    case WorkDone(j, result) => assert HeldBy(s, j, s.dials[j].job.call) && HolderOk(s, j, s.dials[j].job.call)
        && DialOk(s, j);
    case RunClaims => assert HolderOk(s, s.loop.dial, s.dials[s.loop.dial].first);
    case _ =>
  }

  lemma HolderNext(s: System, a: Action, k: nat, c: Call)
    requires Inv(s) && Enabled(s, a)
    ensures HolderOk(Next(s, a), k, c)
  {
    var t := Next(s, a);
    if HeldBy(t, k, c) {
      HeldStep(s, a, k, c);
      assert HolderOk(s, k, c);
      forall j | HeldBy(t, j, c) ensures j == k {
        HeldStep(s, a, j, c);
        assert HolderOk(s, j, c);
      }
      if HeldBy(s, k, c) { HeldStays(s, a, k, c); }
    }
  }

  lemma HeldStays(s: System, a: Action, k: nat, c: Call)
    requires Inv(s) && Enabled(s, a) && HeldBy(s, k, c) && HeldBy(Next(s, a), k, c)
    ensures var t := Next(s, a); c in t.accepted && c !in t.replied && t.loop != Excluding(c) && t.next != Some(c)
  {
    assert HolderOk(s, k, c);
    HeldStep(s, a, k, c);
  }

  lemma {:induction false} InvHolds(run: Run)
    requires Feasible(run)
    ensures Inv(Final(run))
    decreases run
  {
    if run.Then? {
      InvHolds(run.before);
      InvNext(Final(run.before), run.step);
    }
  }

  // ---------------------------------------------------------------- histories

  /** No call is started twice or answered twice. */
  ghost predicate Once(log: seq<Event>) {
    forall a, b | 0 <= a < b < |log| ::
      !(log[a].Started? && log[b].Started? && log[a].call == log[b].call) &&
      !(log[a].Replied? && log[b].Replied? && log[a].call == log[b].call)
  }

  /** After a failure that invalidates a session, nothing more starts on it. */
  ghost predicate NothingAfterFailure(log: seq<Event>) {
    forall a, b | 0 <= a < b < |log| && log[a].Failed? && log[b].Started? :: log[b].on != Some(log[a].session)
  }

  ghost predicate LogOk(s: System) {
    && (forall a | 0 <= a < |s.log| ::
          match s.log[a]
          case Started(c, on) => c in s.started
          case Replied(c) => c in s.replied
          case Failed(k) => In(s, k) && (s.dials[k].job.Closing? || s.dials[k].job.Ended?) && s.dials[k].claim.ByJob?)
    && (forall c: Call | c in s.replied :: exists a :: 0 <= a < |s.log| && s.log[a] == Replied(c))
    && Once(s.log) && NothingAfterFailure(s.log)
  }

  lemma StartKeepsLog(s: System, c: Call, on: Option<nat>)
    requires LogOk(s) && c !in s.started
    requires on.Some? ==> In(s, on.value) && !s.dials[on.value].job.Closing? && !s.dials[on.value].job.Ended?
    ensures LogOk(StartWork(s, c, on))
  {
    var t := StartWork(s, c, on);
    forall x: Call | x in t.replied ensures exists a :: 0 <= a < |t.log| && t.log[a] == Replied(x) {
      var a :| 0 <= a < |s.log| && s.log[a] == Replied(x);
      assert t.log[a] == Replied(x);
    }
  }

  lemma ReplyKeepsLog(s: System, c: Call)
    requires LogOk(s) && c !in s.replied
    ensures LogOk(Reply(s, c))
  {
    var t := Reply(s, c);
    forall x: Call | x in t.replied ensures exists a :: 0 <= a < |t.log| && t.log[a] == Replied(x) {
      if x == c {
        assert t.log[|s.log|] == Replied(c);
      } else {
        var a :| 0 <= a < |s.log| && s.log[a] == Replied(x);
        assert t.log[a] == Replied(x);
      }
    }
  }

  lemma FailKeepsLog(s: System, k: nat)
    requires LogOk(s) && In(s, k) && (s.dials[k].job.Closing? || s.dials[k].job.Ended?) && s.dials[k].claim.ByJob?
    ensures LogOk(s.(log := s.log + [Failed(k)]))
  {
    var t := s.(log := s.log + [Failed(k)]);
    forall x: Call | x in t.replied ensures exists a :: 0 <= a < |t.log| && t.log[a] == Replied(x) {
      var a :| 0 <= a < |s.log| && s.log[a] == Replied(x);
      assert t.log[a] == Replied(x);
    }
  }

  /** Steps that log nothing, and leave closed sessions closed. */
  lemma QuietKeepsLog(s: System, t: System)
    requires LogOk(s) && t.log == s.log && t.started == s.started && t.replied == s.replied && |t.dials| >= |s.dials|
    requires forall k: nat | In(s, k) && (s.dials[k].job.Closing? || s.dials[k].job.Ended?)
             && s.dials[k].claim.ByJob? ::
      (t.dials[k].job.Closing? || t.dials[k].job.Ended?) && t.dials[k].claim.ByJob?
    ensures LogOk(t)
  {
  }

  lemma LogNext(s: System, a: Action)
    requires Inv(s) && LogOk(s) && Enabled(s, a)
    ensures LogOk(Next(s, a))
  {
    hide LogOk;
    match a
    case TakeNext =>
      QuietKeepsLog(s, s.(loop := Selecting));
      if s.next.Some? {
        var t := s.(loop := Excluding(s.next.value), next := None);
        QuietKeepsLog(s, t);
        StartKeepsLog(t, s.next.value, None);
      }
    case Receive(c, exclusive) =>
      if exclusive {
        var t := Accept(s, c).(loop := Excluding(c));
        QuietKeepsLog(s, t);
        StartKeepsLog(t, c, None);
      } else {
        QuietKeepsLog(s, Next(s, a));
      }
    case ExclusiveDone =>
      ReplyKeepsLog(s, s.loop.call);
      QuietKeepsLog(Reply(s, s.loop.call), Next(s, a));
    case DialReturns => QuietKeepsLog(s, Next(s, a));
    case RunClaims =>
      var k := s.loop.dial;
      QuietKeepsLog(s, s.(loop := Top));
      if s.dials[k].claim.Nobody? {
        assert HolderOk(s, k, s.dials[k].first) && DialOk(s, k);
        var t := SetClaim(s, k, ByRun);
        QuietKeepsLog(s, t);
        ReplyKeepsLog(t, s.dials[k].first);
        QuietKeepsLog(Reply(t, s.dials[k].first), Next(s, a));
      }
    case JobStarts(k) =>
      assert DialOk(s, k);
      if s.dials[k].claim.Nobody? {
        var t := SetJob(SetClaim(s, k, ByJob), k, Working(s.dials[k].first));
        QuietKeepsLog(s, t);
        StartKeepsLog(t, s.dials[k].first, Some(k));
        QuietKeepsLog(StartWork(t, s.dials[k].first, Some(k)), Next(s, a));
      } else {
        QuietKeepsLog(s, Next(s, a));
      }
    case WorkDone(k, result) =>
      var c := s.dials[k].job.call;
      assert DialOk(s, k) && HeldBy(s, k, c) && HolderOk(s, k, c);
      ReplyKeepsLog(s, c);
      var u := SetJob(Reply(s, c), k, if result.Broken? then Closing else Listening);
      QuietKeepsLog(Reply(s, c), u);
      if result.Broken? { FailKeepsLog(u, k); }
    case JobReceives(k, c, exclusive) =>
      assert DialOk(s, k);
      if exclusive {
        QuietKeepsLog(s, Next(s, a));
      } else {
        var t := SetJob(Accept(s, c), k, Working(c));
        QuietKeepsLog(s, t);
        StartKeepsLog(t, c, Some(k));
      }
    case JobStops(k) => QuietKeepsLog(s, Next(s, a));
    case JobEnds(k) => QuietKeepsLog(s, Next(s, a));
  }

  lemma {:induction false} LogHolds(run: Run)
    requires Feasible(run)
    ensures Inv(Final(run)) && LogOk(Final(run))
    decreases run
  {
    InvHolds(run);
    if run.Then? {
      LogHolds(run.before);
      LogNext(Final(run.before), run.step);
    }
  }

  // ---------------------------------------------------------------- no call is forgotten

  /** A job leaves an exclusive call in the slot while another one is still waiting there. */
  predicate Overwrites(s: System, a: Action) { a.JobReceives? && a.exclusive && s.next.Some? }

  ghost predicate NeverOverwritten(run: Run)
    requires Feasible(run)
  {
    run.Then? ==> NeverOverwritten(run.before) && !Overwrites(Final(run.before), run.step)
  }

  ghost predicate Forgotten(s: System, c: Call) { c in s.accepted && c !in s.replied && !Held(s, c) }

  ghost predicate NothingForgotten(s: System) { forall c: Call :: !Forgotten(s, c) }

  lemma HeldMoves(s: System, a: Action, c: Call)
    requires Inv(s) && Enabled(s, a) && !Overwrites(s, a) && c in s.accepted && !Forgotten(s, c)
    ensures !Forgotten(Next(s, a), c)
  {
    var t := Next(s, a);
    if c !in s.replied && s.loop != Excluding(c) && s.next != Some(c) {
      var k :| HeldBy(s, k, c);
      assert DialOk(s, k) && HolderOk(s, k, c);
      if c !in t.replied { assert HeldBy(t, k, c); }
    }
  }

  lemma NewIsHeld(s: System, a: Action, c: Call)
    requires Enabled(s, a) && c !in s.accepted && c in Next(s, a).accepted
    ensures Held(Next(s, a), c)
  {
    var t := Next(s, a);
    if a == Receive(c, false) {
      assert HeldBy(t, |s.dials|, c);
    } else if a.JobReceives? && !a.exclusive {
      assert HeldBy(t, a.k, c);
    }
  }

  lemma OverwrittenIsForgotten(s: System, a: Action)
    requires Inv(s) && Enabled(s, a) && Overwrites(s, a)
    ensures Forgotten(Next(s, a), s.next.value)
  {
    var t, c := Next(s, a), s.next.value;
    forall k ensures !HeldBy(t, k, c) {
      assert HolderOk(s, k, c);
      assert HeldBy(t, k, c) ==> HeldBy(s, k, c);
    }
  }

  lemma ForgottenStays(s: System, a: Action, c: Call)
    requires Inv(s) && Enabled(s, a) && Forgotten(s, c)
    ensures Forgotten(Next(s, a), c)
  {
    var t := Next(s, a);
    forall k ensures !HeldBy(t, k, c) { if HeldBy(t, k, c) { HeldStep(s, a, k, c); } }
    if a == RunClaims { assert !HeldBy(s, s.loop.dial, c); }
    if a.WorkDone? { assert !HeldBy(s, a.k, c); }
  }

  /**
    Over every run, late claims included: every accepted call has been answered or is still held by
    Run, by the slot for an exclusive call, or by one dial, if and only if no session ever put an
    exclusive call into the slot while another one was waiting there.
   */
  lemma {:induction false} NothingForgottenExactlyWhenNeverOverwritten(run: Run)
    requires Feasible(run)
    ensures NothingForgotten(Final(run)) <==> NeverOverwritten(run)
    decreases run
  {
    if run.Then? {
      NothingForgottenExactlyWhenNeverOverwritten(run.before);
      InvHolds(run.before);
      var s := Final(run.before);
      if Overwrites(s, run.step) {
        OverwrittenIsForgotten(s, run.step);
      } else if NothingForgotten(s) {
        forall c: Call ensures !Forgotten(Next(s, run.step), c) {
          if c in s.accepted { HeldMoves(s, run.step, c); }
          else if c in Next(s, run.step).accepted { NewIsHeld(s, run.step, c); }
        }
      } else {
        var c :| Forgotten(s, c);
        ForgottenStays(s, run.step, c);
      }
    }
  }

  /** With no late claim there is one session, and the slot for an exclusive call is free while it listens. */
  ghost predicate OneSession(s: System) {
    && (forall k: nat | In(s, k) && s.dials[k].job.Open() :: s.loop == Dialing(k))
    && (s.next.Some? ==> s.loop.Top? || s.loop.Dialing? || s.loop.Returned?)
    && (s.next.Some? && s.loop.Dialing? && In(s, s.loop.dial) ==>
          s.dials[s.loop.dial].job.Closing? || s.dials[s.loop.dial].job.Ended?)
    && (s.next.Some? && s.loop.Returned? && In(s, s.loop.dial) ==> s.dials[s.loop.dial].job.Ended?)
  }

  lemma OneSessionNext(s: System, a: Action)
    requires Inv(s) && OneSession(s) && Enabled(s, a) && Next(s, a).late == {} && s.late == {}
    ensures OneSession(Next(s, a)) && !Overwrites(s, a)
  {
    var t := Next(s, a);
    InvNext(s, a);
    forall k: nat | In(t, k) && t.dials[k].job.Open() ensures t.loop == Dialing(k) { assert DialOk(t, k); }
    if a.JobReceives? || a.JobStarts? { assert DialOk(s, a.k); }
  }

  /** A claim is never withdrawn, so neither is its lateness. */
  lemma LateGrows(s: System, a: Action)
    requires Enabled(s, a)
    ensures s.late <= Next(s, a).late
  {
  }

  lemma {:induction false} OneSessionHolds(run: Run)
    requires Feasible(run) && Final(run).late == {}
    ensures OneSession(Final(run)) && NeverOverwritten(run)
    decreases run
  {
    if run.Then? {
      LateGrows(Final(run.before), run.step);
      OneSessionHolds(run.before);
      InvHolds(run.before);
      OneSessionNext(Final(run.before), run.step);
    }
  }

  // ---------------------------------------------------------------- main results

  /** However dials fail and jobs start late, no work runs twice and no call is answered twice. */
  lemma {:induction false} WorkAndRepliesHappenOnce(run: Run, a: nat, b: nat)
    requires Feasible(run) && a < |Final(run).log| && b < |Final(run).log|
    requires var e, f := Final(run).log[a], Final(run).log[b];
             (e.Started? && f.Started? && e.call == f.call) || (e.Replied? && f.Replied? && e.call == f.call)
    ensures a == b
  {
    LogHolds(run);
  }

  /** After an error other than a device's refusal, no further work starts on that connection. */
  lemma {:induction false} BrokenSessionRunsNothingMore(run: Run, a: nat, b: nat)
    requires Feasible(run) && a < b < |Final(run).log| && Final(run).log[a].Failed? && Final(run).log[b].Started?
    ensures Final(run).log[b].on != Some(Final(run).log[a].session)
  {
    LogHolds(run);
  }

  /**
    Exclusive work runs beside an open session only if that session's job won the claim after its
    dial had returned: a job that starts later still finds the claim taken.
   */
  lemma {:induction false} ExclusiveRunsAloneUnlessAClaimIsLate(run: Run, k: nat)
    requires Feasible(run) && Final(run).loop.Excluding? && In(Final(run), k) && Final(run).dials[k].job.Open()
    ensures k in Final(run).late
  {
    InvHolds(run);
    assert DialOk(Final(run), k);
  }

  /** Run waits for a call, no session is working and the slot is free. */
  ghost predicate AtRest(s: System) {
    s.loop.Selecting? && s.next.None? && forall k: nat | In(s, k) :: !s.dials[k].job.Working?
  }

  ghost predicate AnsweredOnce(s: System, c: Call) {
    exists a: nat | a < |s.log| && s.log[a] == Replied(c) ::
      forall b: nat | b < |s.log| && s.log[b] == Replied(c) :: b == a
  }

  lemma AnsweredAtRest(s: System, c: Call)
    requires Inv(s) && LogOk(s) && AtRest(s) && c in s.accepted
    ensures AnsweredOnce(s, c) <==> !Forgotten(s, c)
  {
    forall k ensures !HeldBy(s, k, c) {
      if In(s, k) { assert DialOk(s, k); }
    }
    if c in s.replied {
      var a: nat :| a < |s.log| && s.log[a] == Replied(c);
      assert forall b: nat | b < |s.log| && s.log[b] == Replied(c) :: b == a;
    } else {
      assert forall b: nat | b < |s.log| :: s.log[b] != Replied(c);
    }
  }

  /** At rest, every accepted call has exactly one reply if and only if the slot was never overwritten. */
  lemma {:induction false} AllAnsweredOnceExactlyWhenNeverOverwritten(run: Run)
    requires Feasible(run) && AtRest(Final(run))
    ensures (forall c: Call | c in Final(run).accepted :: AnsweredOnce(Final(run), c)) <==> NeverOverwritten(run)
  {
    LogHolds(run);
    NothingForgottenExactlyWhenNeverOverwritten(run);
    hide Inv, LogOk, AtRest, AnsweredOnce, Held;
    forall c: Call | c in Final(run).accepted ensures AnsweredOnce(Final(run), c) <==> !Forgotten(Final(run), c) {
      AnsweredAtRest(Final(run), c);
    }
  }

  /** With no late claim every accepted call has been answered exactly once whenever Run is idle. */
  lemma EveryAcceptedCallIsAnswered(run: Run, c: Call) returns (a: nat)
    requires Feasible(run) && Final(run).late == {} && c in Final(run).accepted && Final(run).loop.Selecting?
    ensures a < |Final(run).log| && Final(run).log[a] == Replied(c)
    ensures forall b: nat | b < |Final(run).log| && Final(run).log[b] == Replied(c) :: b == a
  {
    OneSessionHolds(run);
    AllAnsweredOnceExactlyWhenNeverOverwritten(run);
    assert AnsweredOnce(Final(run), c);
    a :| a < |Final(run).log| && Final(run).log[a] == Replied(c);
  }

  // ---------------------------------------------------------------- the late claim

  lemma {:induction false} Extend(run: Run, a: Action, s: System, t: System) returns (longer: Run)
    requires Feasible(run) && Final(run) == s && Enabled(s, a) && Next(s, a) == t
    ensures longer == Then(run, a) && Feasible(longer) && Final(longer) == t
  {
    longer := Then(run, a);
  }

  /** The job wins the claim between the dial's return and Run's attempt; Run then goes on beside it. */
  lemma LateClaim() returns (run: Run)
    ensures Feasible(run)
    ensures Final(run) == System(Selecting, None, [Dial(1, ByJob, Working(1))], {1}, {1}, {}, {0},
            [Started(1, Some(0))])
  {
    var s1 := INITIAL.(loop := Selecting);
    run := Extend(Start, TakeNext, INITIAL, s1);
    var s2 := s1.(loop := Dialing(0), dials := [Dial(1, Nobody, Waiting)], accepted := {1});
    run := Extend(run, Receive(1, false), s1, s2);
    var s3 := s2.(loop := Returned(0));
    run := Extend(run, DialReturns, s2, s3);
    var s4 := s3.(dials := [Dial(1, ByJob, Working(1))], started := {1}, log := [Started(1, Some(0))], late := {0});
    run := Extend(run, JobStarts(0), s3, s4);
    var s5 := s4.(loop := Top);
    run := Extend(run, RunClaims, s4, s5);
    run := Extend(run, TakeNext, s5, s4.(loop := Selecting));
  }

  /** Beside it Run then does exclusive work. */
  lemma {:induction false} LateClaimOverlaps() returns (run: Run)
    ensures Feasible(run) && Final(run).loop == Excluding(2)
    ensures |Final(run).dials| == 1 && Final(run).dials[0].job.Open()
  {
    run := LateClaim();
    var s := Final(run);
    var t := s.(loop := Excluding(2), accepted := {1, 2}, started := {1, 2}, log := s.log + [Started(2, None)]);
    run := Extend(run, Receive(2, true), s, t);
  }

  /** From the late session a second one is dialled, and both listen. */
  lemma TwoSessions() returns (run: Run)
    ensures Feasible(run) && Final(run).loop == Dialing(1) && Final(run).next.None?
    ensures Final(run).dials == [Dial(1, ByJob, Listening), Dial(2, ByJob, Listening)]
    ensures Final(run).accepted == {1, 2} && Final(run).replied == {1, 2}
  {
    run := LateClaim();
    var s := Final(run);
    var t := Next(s, WorkDone(0, Succeeded));
    run := Extend(run, WorkDone(0, Succeeded), s, t);
    assert t.dials == [Dial(1, ByJob, Listening)];
    s, t := t, Next(t, Receive(2, false));
    run := Extend(run, Receive(2, false), s, t);
    assert t.dials == [Dial(1, ByJob, Listening), Dial(2, Nobody, Waiting)] && t.accepted == {1, 2};
    s, t := t, Next(t, JobStarts(1));
    run := Extend(run, JobStarts(1), s, t);
    assert t.dials == [Dial(1, ByJob, Listening), Dial(2, ByJob, Working(2))];
    s, t := t, Next(t, WorkDone(1, Succeeded));
    run := Extend(run, WorkDone(1, Succeeded), s, t);
    assert t.dials == [Dial(1, ByJob, Listening), Dial(2, ByJob, Listening)] && t.replied == {1, 2};
  }

  /** Both sessions leave an exclusive call behind: the second overwrites the first, which is never answered. */
  lemma {:induction false} TwoSessionsOverwriteTheSlot() returns (run: Run)
    ensures Feasible(run) && !NeverOverwritten(run) && Forgotten(Final(run), 3)
  {
    run := TwoSessions();
    var s := Final(run);
    var t := Next(s, JobReceives(0, 3, true));
    run := Extend(run, JobReceives(0, 3, true), s, t);
    assert t.dials == [Dial(1, ByJob, Closing), Dial(2, ByJob, Listening)] && t.next == Some(3);
    InvHolds(run);
    OverwrittenIsForgotten(t, JobReceives(1, 4, true));
    run := Extend(run, JobReceives(1, 4, true), t, Next(t, JobReceives(1, 4, true)));
  }

  // ---------------------------------------------------------------- late exactly when overlap is possible

  predicate Extends(run: Run, longer: Run) {
    longer == run || (longer.Then? && Extends(run, longer.before))
  }

  /** Run may go on to exclusive work while the connection of dial k is still open. */
  ghost predicate CanOverlap(run: Run, k: nat) {
    exists longer :: Overlaps(run, longer, k)
  }

  ghost predicate Overlaps(run: Run, longer: Run, k: nat) {
    && Extends(run, longer) && Feasible(longer) && Final(longer).loop.Excluding?
    && In(Final(longer), k) && Final(longer).dials[k].job.Open()
  }

  ghost predicate LateOk(s: System) {
    forall k: nat | k in s.late :: In(s, k) && s.loop != Dialing(k)
  }

  lemma LateNext(s: System, a: Action)
    requires LateOk(s) && Enabled(s, a)
    ensures LateOk(Next(s, a))
  {
  }

  lemma {:induction false} LateHolds(run: Run)
    requires Feasible(run)
    ensures LateOk(Final(run))
    decreases run
  {
    if run.Then? {
      LateHolds(run.before);
      LateNext(Final(run.before), run.step);
    }
  }

  lemma ClaimedNext(s: System, a: Action, k: nat)
    requires Enabled(s, a) && In(s, k) && !s.dials[k].claim.Nobody?
    ensures In(Next(s, a), k) && !Next(s, a).dials[k].claim.Nobody?
    ensures k in Next(s, a).late <==> k in s.late
  {
  }

  /** Once a dial's claim is taken, later steps neither make it late nor undo that it was. */
  lemma {:induction false} ClaimedKeepsLateness(run: Run, longer: Run, k: nat)
    requires Feasible(run) && Feasible(longer) && Extends(run, longer)
    requires In(Final(run), k) && !Final(run).dials[k].claim.Nobody?
    ensures In(Final(longer), k) && !Final(longer).dials[k].claim.Nobody?
    ensures k in Final(longer).late <==> k in Final(run).late
    decreases longer
  {
    if longer != run {
      ClaimedKeepsLateness(run, longer.before, k);
      ClaimedNext(Final(longer.before), longer.step, k);
    }
  }

  ghost predicate Lingers(s: System, k: nat) {
    Inv(s) && LateOk(s) && k in s.late && In(s, k) && s.dials[k].job.Open()
  }

  /** Steps of Run, and of other dials' jobs. */
  predicate Spares(a: Action, k: nat) {
    a.JobStarts? || a.WorkDone? || a.JobReceives? || a.JobStops? || a.JobEnds? ==> a.k != k
  }

  lemma LingerNext(s: System, a: Action, k: nat)
    requires Lingers(s, k) && Enabled(s, a) && Spares(a, k)
    ensures Lingers(Next(s, a), k)
  {
    InvNext(s, a);
    LateNext(s, a);
    assert DialOk(s, k);
    hide Inv, LateOk, DialOk;
  }

  /** Such steps leave the late session open. */
  lemma {:induction false} Linger(start: Run, run: Run, a: Action, k: nat) returns (longer: Run)
    requires Extends(start, run) && Feasible(run) && Lingers(Final(run), k)
    requires Enabled(Final(run), a) && Spares(a, k)
    ensures longer == Then(run, a) && Extends(start, longer) && Feasible(longer) && Lingers(Final(longer), k)
    ensures Final(longer) == Next(Final(run), a)
  {
    hide Next, Enabled, Lingers;
    longer := Then(run, a);
    LingerNext(Final(run), a, k);
  }

  lemma {:induction false} FreshCall(calls: set<Call>) returns (c: Call)
    ensures forall x | x in calls :: x < c
  {
    c := 0;
    if calls != {} {
      var x :| x in calls;
      var above := FreshCall(calls - {x});
      c := above + x + 1;
      assert forall y | y in calls :: y == x || y in calls - {x};
    }
  }

  lemma {:induction false} FromTop(start: Run, run: Run, k: nat) returns (longer: Run)
    requires Extends(start, run) && Feasible(run) && Lingers(Final(run), k)
    requires Final(run).loop.Top? || Final(run).loop.Selecting?
    ensures Overlaps(start, longer, k)
  {
    longer := run;
    if Final(longer).loop.Top? { longer := Linger(start, longer, TakeNext, k); }
    if Final(longer).loop.Selecting? {
      var c := FreshCall(Final(longer).accepted);
      assert c !in Final(longer).accepted;
      longer := Linger(start, longer, Receive(c, true), k);
    }
  }

  /** The session Run waits for may end, whatever its job is doing. */
  lemma {:induction false} EndOther(start: Run, run: Run, k: nat, d: nat) returns (longer: Run)
    requires Extends(start, run) && Feasible(run) && Lingers(Final(run), k)
    requires Final(run).loop == Dialing(d) && d != k && In(Final(run), d)
    ensures Extends(start, longer) && Feasible(longer) && Lingers(Final(longer), k)
    ensures Final(longer).loop == Dialing(d) && In(Final(longer), d)
    ensures Final(longer).dials[d].job.Waiting? || Final(longer).dials[d].job.Ended?
  {
    hide Inv, LateOk, Feasible, Extends;
    longer := run;
    if Final(longer).dials[d].job.Working? { longer := Linger(start, longer, WorkDone(d, Broken), k); }
    if Final(longer).dials[d].job.Listening? { longer := Linger(start, longer, JobStops(d), k); }
    if Final(longer).dials[d].job.Closing? { longer := Linger(start, longer, JobEnds(d), k); }
  }

  lemma {:induction false} LateCanOverlap(run: Run, k: nat)
    requires Feasible(run) && Lingers(Final(run), k)
    ensures CanOverlap(run, k)
  {
    var longer := run;
    if Final(longer).loop.Dialing? {
      longer := EndOther(run, longer, k, Final(longer).loop.dial);
      longer := Linger(run, longer, DialReturns, k);
    }
    if Final(longer).loop.Returned? { longer := Linger(run, longer, RunClaims, k); }
    if !Final(longer).loop.Excluding? { longer := FromTop(run, longer, k); }
    assert Overlaps(run, longer, k);
  }

  /**
    Over every run: an open session's claim was late if and only if Run can get to exclusive work while
    that session is still open. Whatever Run is waiting for, nothing but the session itself ends it.
   */
  lemma {:induction false} LateExactlyWhenExclusiveWorkCanOverlap(run: Run, k: nat)
    requires Feasible(run) && In(Final(run), k) && Final(run).dials[k].job.Open()
    ensures k in Final(run).late <==> CanOverlap(run, k)
  {
    InvHolds(run);
    LateHolds(run);
    assert DialOk(Final(run), k);
    if k in Final(run).late { LateCanOverlap(run, k); }
    if CanOverlap(run, k) {
      var longer :| Overlaps(run, longer, k);
      ClaimedKeepsLateness(run, longer, k);
      ExclusiveRunsAloneUnlessAClaimIsLate(longer, k);
    }
  }

  // ---------------------------------------------------------------- the session loop, step by step

  /** What serve's select picks up: a keepalive, a reason to stop, or a call. */
  datatype Input = Keepalive(ok: bool) | Stop | Incoming(call: Call, exclusive: bool)

  /** What serve does from a call on, and the exclusive call it leaves behind; no more input is shutdown. */
  function Served(k: nat, c: Call, inputs: seq<Input>, results: Call -> Result): (seq<Event>, Option<Call>)
    decreases |inputs|, 1
  {
    if results(c).Broken? then ([Replied(c), Failed(k)], None)
    else
      var rest := Listened(k, inputs, results);
      ([Replied(c)] + rest.0, rest.1)
  }

  function Listened(k: nat, inputs: seq<Input>, results: Call -> Result): (seq<Event>, Option<Call>)
    decreases |inputs|, 0
  {
    if inputs == [] then ([], None)
    else match inputs[0]
      case Stop => ([], None)
      case Keepalive(ok) => if ok then Listened(k, inputs[1..], results) else ([], None)
      case Incoming(c, exclusive) =>
        if exclusive then ([], Some(c))
        else
          var rest := Served(k, c, inputs[1..], results);
          ([Started(c, Some(k))] + rest.0, rest.1)
  }

  /** The loop of serve: run the first call, then whatever the select picks up. */
  method Serve(k: nat, first: Call, inputs: seq<Input>, results: Call -> Result)
      returns (events: seq<Event>, next: Option<Call>)
    ensures (events, next) == Served(k, first, inputs, results)
  {
    events, next := [Replied(first)], None;
    if results(first).Broken? {
      assert events + [Failed(k)] == [Replied(first), Failed(k)];
      return events + [Failed(k)], None;
    }
    var i := 0;
    assert inputs[0..] == inputs;
    while i < |inputs|
      invariant i <= |inputs| && next.None?
      invariant Served(k, first, inputs, results) ==
                (events + Listened(k, inputs[i..], results).0, Listened(k, inputs[i..], results).1)
    {
      ghost var rest, done := inputs[i..], events;
      assert rest[0] == inputs[i] && rest[1..] == inputs[i + 1..] && events + [] == events;
      match inputs[i] {
        case Stop => return;
        case Keepalive(ok) =>
          if !ok { return; }
        case Incoming(c, exclusive) =>
          if exclusive { return events, Some(c); }
          events := events + [Started(c, Some(k)), Replied(c)];
          if results(c).Broken? {
            assert done + ([Started(c, Some(k))] + [Replied(c), Failed(k)]) == events + [Failed(k)];
            return events + [Failed(k)], None;
          }
          ghost var more := Listened(k, inputs[i + 1..], results).0;
          assert done + ([Started(c, Some(k))] + ([Replied(c)] + more)) == events + more;
      }
      i := i + 1;
    }
    assert inputs[|inputs|..] == [] && events + [] == events;
  }

  /** What ends a session: a stop, a failed keepalive, an exclusive call, or a call whose work breaks it. */
  predicate Ending(input: Input, results: Call -> Result) {
    match input
    case Stop => true
    case Keepalive(ok) => !ok
    case Incoming(c, exclusive) => exclusive || results(c) == Broken
  }

  /** Each call among the inputs started and answered, in order. */
  function Handled(k: nat, inputs: seq<Input>): seq<Event>
    decreases |inputs|
  {
    if inputs == [] then []
    else
      var rest := Handled(k, inputs[1..]);
      if inputs[0].Incoming? then [Started(inputs[0].call, Some(k)), Replied(inputs[0].call)] + rest else rest
  }

  /** The ending's own events, and the exclusive call it leaves behind. */
  function Parting(k: nat, input: Input): (seq<Event>, Option<Call>) {
    if input.Incoming? && input.exclusive then ([], Some(input.call))
    else if input.Incoming? then ([Started(input.call, Some(k)), Replied(input.call), Failed(k)], None)
    else ([], None)
  }

  lemma {:induction false} ListenedUntil(k: nat, inputs: seq<Input>, results: Call -> Result, n: nat)
    requires n <= |inputs| && forall i | 0 <= i < n :: !Ending(inputs[i], results)
    requires n < |inputs| ==> Ending(inputs[n], results)
    ensures var parting := if n < |inputs| then Parting(k, inputs[n]) else ([], None);
            Listened(k, inputs, results) == (Handled(k, inputs[..n]) + parting.0, parting.1)
    decreases n
  {
    if n > 0 {
      var rest := inputs[1..];
      ListenedUntil(k, rest, results, n - 1);
      assert inputs[..n][1..] == rest[..n - 1] && inputs[..n][0] == inputs[0];
      assert !Ending(inputs[0], results);
      var parting := if n < |inputs| then Parting(k, inputs[n]) else ([], None);
      assert n < |inputs| ==> rest[n - 1] == inputs[n];
      if inputs[0].Incoming? {
        var c, more := inputs[0].call, Handled(k, rest[..n - 1]);
        assert [Started(c, Some(k))] + ([Replied(c)] + (more + parting.0)) ==
               [Started(c, Some(k)), Replied(c)] + more + parting.0;
      }
    } else {
      assert inputs[..0] == [];
      var parting: (seq<Event>, Option<Call>) := if inputs != [] then Parting(k, inputs[0]) else ([], None);
      assert Handled(k, []) + parting.0 == parting.0;
      if inputs != [] && inputs[0].Incoming? && !inputs[0].exclusive {
        var c := inputs[0].call;
        assert Served(k, c, inputs[1..], results) == ([Replied(c), Failed(k)], None);
        assert [Started(c, Some(k))] + [Replied(c), Failed(k)] == [] + [Started(c, Some(k)), Replied(c), Failed(k)];
      }
    }
  }

  /**
    A session whose first call does not break it serves every call up to the first ending, refused ones
    included, each started and answered once and in order, and nothing after it.
   */
  lemma {:induction false} ServedUntilTheFirstEnding(k: nat, first: Call, inputs: seq<Input>,
      results: Call -> Result, n: nat)
    requires n <= |inputs| && forall i | 0 <= i < n :: !Ending(inputs[i], results)
    requires n < |inputs| ==> Ending(inputs[n], results)
    ensures var parting := if n < |inputs| then Parting(k, inputs[n]) else ([], None);
            Served(k, first, inputs, results) ==
            if results(first) == Broken then ([Replied(first), Failed(k)], None)
            else ([Replied(first)] + (Handled(k, inputs[..n]) + parting.0), parting.1)
  {
    ListenedUntil(k, inputs, results, n);
  }

  /** Calls arrive once each. */
  predicate Arriving(inputs: seq<Input>, accepted: set<Call>)
    decreases |inputs|
  {
    inputs != [] ==>
      if inputs[0].Incoming? then inputs[0].call !in accepted && Arriving(inputs[1..], accepted + {inputs[0].call})
      else Arriving(inputs[1..], accepted)
  }

  /** The session's answer to the call it is working on. */
  lemma {:induction false} AnswerStep(run: Run, k: nat, result: Result) returns (longer: Run)
    requires Feasible(run) && In(Final(run), k) && Final(run).dials[k].job.Working?
    ensures Feasible(longer)
    ensures var s, t := Final(run), Final(longer);
      && In(t, k) && t.dials[k].job == (if result.Broken? then Closing else Listening)
      && t.accepted == s.accepted && t.next == s.next
      && t.log == s.log + (if result.Broken? then [Replied(s.dials[k].job.call), Failed(k)]
         else [Replied(s.dials[k].job.call)])
  {
    longer := Then(run, WorkDone(k, result));
  }

  /** The session takes the next call; an exclusive one it leaves in the slot. */
  lemma ReceiveStep(run: Run, k: nat, c: Call, exclusive: bool) returns (longer: Run)
    requires Feasible(run) && In(Final(run), k) && Final(run).dials[k].job.Listening? && c !in Final(run).accepted
    ensures Feasible(longer)
    ensures var s, t := Final(run), Final(longer);
      && In(t, k) && t.dials[k].job == (if exclusive then Closing else Working(c))
      && t.accepted == s.accepted + {c} && t.next == (if exclusive then Some(c) else s.next)
      && t.log == s.log + (if exclusive then [] else [Started(c, Some(k))])
  {
    longer := Then(run, JobReceives(k, c, exclusive));
  }

  lemma {:induction false} StopStep(run: Run, k: nat) returns (longer: Run)
    requires Feasible(run) && In(Final(run), k) && Final(run).dials[k].job.Listening?
    ensures Feasible(longer) && In(Final(longer), k) && Final(longer).dials[k].job.Closing?
    ensures Final(longer).log == Final(run).log && Final(longer).next == Final(run).next
  {
    longer := Then(run, JobStops(k));
  }

  /** The loop is one of the state machine's runs: what it does is what the theorems above are about. */
  lemma {:induction false} ServeIsARun(run: Run, k: nat, inputs: seq<Input>, results: Call -> Result)
      returns (longer: Run)
    requires Feasible(run) && In(Final(run), k) && Final(run).dials[k].job.Working?
    requires Arriving(inputs, Final(run).accepted)
    ensures Feasible(longer) && In(Final(longer), k) && Final(longer).dials[k].job.Closing?
    ensures var done := Served(k, Final(run).dials[k].job.call, inputs, results);
            && Final(longer).log == Final(run).log + done.0
            && Final(longer).next == (if done.1.Some? then done.1 else Final(run).next)
    decreases |inputs|, 1
  {
    var s := Final(run);
    var c := s.dials[k].job.call;
    hide Feasible, Final, Listened, Arriving, In;
    longer := AnswerStep(run, k, results(c));
    if !results(c).Broken? {
      longer := ListeningIsARun(longer, k, inputs, results);
      var rest := Listened(k, inputs, results);
      assert s.log + [Replied(c)] + rest.0 == s.log + ([Replied(c)] + rest.0);
    }
  }

  lemma {:induction false} ListeningIsARun(run: Run, k: nat, inputs: seq<Input>, results: Call -> Result)
      returns (longer: Run)
    requires Feasible(run) && In(Final(run), k) && Final(run).dials[k].job.Listening?
    requires Arriving(inputs, Final(run).accepted)
    ensures Feasible(longer) && In(Final(longer), k) && Final(longer).dials[k].job.Closing?
    ensures var done := Listened(k, inputs, results);
            && Final(longer).log == Final(run).log + done.0
            && Final(longer).next == (if done.1.Some? then done.1 else Final(run).next)
    decreases |inputs|, 0
  {
    hide Feasible, Final;
    var s := Final(run);
    if inputs == [] || inputs[0].Stop? || inputs[0] == Keepalive(false) {
      longer := StopStep(run, k);
    } else if inputs[0].Keepalive? {
      longer := ListeningIsARun(run, k, inputs[1..], results);
    } else {
      longer := ReceiveStep(run, k, inputs[0].call, inputs[0].exclusive);
      if !inputs[0].exclusive {
        longer := ServeIsARun(longer, k, inputs[1..], results);
        var rest := Served(k, inputs[0].call, inputs[1..], results);
        assert s.log + [Started(inputs[0].call, Some(k))] + rest.0 ==
               s.log + ([Started(inputs[0].call, Some(k))] + rest.0);
      }
    }
  }
}
