/**
  A/B slot selection of cmd/ai-quota-frame/console_slots.go against any statuses the device
  reports. A mutation's own reply is ignored by the source, so it does not appear here.
 */
module Slots {
  import opened Wrappers

  /** Slots are -1 (none), 0 or 1; versions[slot] is absent when the slot holds no valid app. */
  datatype App = App(id: string, bank: int, active: int, pending: int, previous: int, versions: seq<Option<nat>>)

  datatype Device = Device(apps: seq<App>, loadedApp: int, loaded: int, version: nat, elfReady: bool, abi: int,
                           ready: bool, confirmed: bool, trialApp: int)

  datatype Request = Request(action: string, app: string, slot: Option<int>, version: Option<nat>, path: string,
      digest: string)

  datatype Package = Package(app: string, version: nat, digest: string)

  datatype Op = Switch | Activate | Rollback | Install

  /** No operation means the matching package has to be installed first. */
  datatype Plan = Plan(app: App, slot: int, version: nat, op: Option<Op>)

  /** The first app with this identity. */
  function Find(apps: seq<App>, id: string): Option<App>
    decreases |apps|
  {
    if apps == [] then None else if apps[0].id == id then Some(apps[0]) else Find(apps[1..], id)
  }

  function SlotVersion(a: Option<App>, slot: int): Option<nat> {
    if a.None? || slot < 0 || slot > 1 || slot >= |a.value.versions| then None else a.value.versions[slot]
  }

  function Chosen(r: Request, a: App): Option<int> {
    if r.action == "activate" then Some(a.pending)
    else if r.action == "rollback" then Some(a.previous)
    else if r.action == "use-slot" then if r.slot.None? || r.version.None? then None else r.slot
    else Some(a.active)
  }

  function PlanSlot(r: Request, d: Device): (p: Option<Plan>)
    ensures p.Some? ==> p.value.app.id == r.app && 0 <= p.value.slot <= 1 && d.trialApp < 0
    ensures p.Some? ==> Find(d.apps, r.app) == Some(p.value.app)
    ensures p.Some? && r.version.Some? ==> p.value.version == r.version.value
  {
    FindFinds(d.apps, r.app);
    match Find(d.apps, r.app)
    case None => None
    case Some(a) =>
      match Chosen(r, a)
      case None => None
      case Some(slot) =>
        match SlotVersion(Some(a), slot)
        case None => None
        case Some(version) =>
          if (r.version.Some? && r.version.value != version) || d.trialApp >= 0 then None
          else if slot == a.active then Some(Plan(a, slot, version, Some(Switch)))
          else if slot == a.pending then Some(Plan(a, slot, version, Some(Activate)))
          else if slot == a.previous then if a.pending >= 0 then None else Some(Plan(a, slot, version, Some(Rollback)))
          else if a.pending >= 0 || a.active < 0 || slot != 1 - a.active || r.path == "" then None
          else Some(Plan(a, slot, version, None))
  }

  lemma {:induction false} FindFinds(apps: seq<App>, id: string)
    ensures Find(apps, id).Some? ==> Find(apps, id).value.id == id && Find(apps, id).value in apps
    decreases |apps|
  {
    if apps != [] { FindFinds(apps[1..], id); }
  }

  /** The slot the request asks for: the one waiting, the one before, the one named, or else the active one. */
  predicate Asked(r: Request, a: App, slot: int) {
    && (r.action == "activate" ==> slot == a.pending)
    && (r.action == "rollback" ==> slot == a.previous)
    && (r.action == "use-slot" ==> r.slot == Some(slot) && r.version.Some?)
    && (r.action !in ["activate", "rollback", "use-slot"] ==> slot == a.active)
  }

  /** The slot, 0 or 1, holds a valid app of this version. */
  predicate Holds(a: App, slot: int, version: nat) {
    0 <= slot <= 1 && slot < |a.versions| && a.versions[slot] == Some(version)
  }

  /** The first app of the catalogue with this identity. */
  ghost predicate FirstNamed(apps: seq<App>, id: string, a: App) {
    exists k :: 0 <= k < |apps| && apps[k] == a && a.id == id && forall j | 0 <= j < k :: apps[j].id != id
  }

  lemma {:induction false} FindIsFirst(apps: seq<App>, id: string, a: App)
    ensures Find(apps, id) == Some(a) <==> FirstNamed(apps, id, a)
    decreases |apps|
  {
    if apps != [] && apps[0].id != id {
      FindIsFirst(apps[1..], id, a);
      if FirstNamed(apps[1..], id, a) {
        var k :| 0 <= k < |apps| - 1 && apps[1..][k] == a && forall j | 0 <= j < k :: apps[1..][j].id != id;
        assert apps[k + 1] == a && forall j | 0 < j < k + 1 :: apps[j] == apps[1..][j - 1];
      }
      if FirstNamed(apps, id, a) {
        var k :| 0 <= k < |apps| && apps[k] == a && a.id == id && forall j | 0 <= j < k :: apps[j].id != id;
        assert apps[1..][k - 1] == a && forall j | 0 <= j < k - 1 :: apps[1..][j] == apps[j + 1];
      }
    } else if apps != [] && FirstNamed(apps, id, a) {
      var k :| 0 <= k < |apps| && apps[k] == a && a.id == id && forall j | 0 <= j < k :: apps[j].id != id;
      assert k == 0;
    }
  }

  /**
    A plan exists exactly for an app of the catalogue whose asked slot holds the version asked for, with
    no trial running. The active slot is switched to, the waiting one activated; with nothing waiting
    the previous one is rolled back to, and the other slot of an active app is installed again when a
    package is at hand.
   */
  lemma PlannedExactly(r: Request, d: Device, p: Plan)
    ensures PlanSlot(r, d) == Some(p) <==>
              && FirstNamed(d.apps, r.app, p.app) && Asked(r, p.app, p.slot) && Holds(p.app, p.slot, p.version)
              && (r.version.Some? ==> r.version.value == p.version) && d.trialApp < 0
              && match p.op {
                   case Some(Switch) => p.slot == p.app.active
                   case Some(Activate) => p.slot == p.app.pending && p.slot != p.app.active
                   case Some(Rollback) => p.slot == p.app.previous && p.slot != p.app.active && p.app.pending < 0
                   case Some(Install) => false
                   case None => p.slot != p.app.previous && p.slot + p.app.active == 1 && 0 <= p.app.active
                                && p.app.pending < 0 && r.path != ""
                 }
  {
    FindIsFirst(d.apps, r.app, p.app);
    hide FirstNamed, Find;
  }

  /** The device runs the planned version from the planned slot. */
  predicate Reached(d: Device, p: Plan) {
    && d.loadedApp == p.app.bank && d.loaded == p.slot && d.version == p.version && d.elfReady
    && (d.abi == 1 ||
        (d.ready && d.confirmed && Find(d.apps, p.app.id).Some? && Find(d.apps, p.app.id).value.active == p.slot))
  }

  /** The catalogue shows what Install should have left: the version waits in the slot, nothing else moved. */
  predicate Staged(d: Device, p: Plan) {
    var a := Find(d.apps, p.app.id);
    && SlotVersion(a, p.slot) == Some(p.version)
    && a.value.bank == p.app.bank && a.value.active == p.app.active && a.value.pending == p.slot && d.trialApp < 0
  }

  /** The catalogue shows what Rollback should have left. */
  predicate RolledBack(d: Device, p: Plan) {
    var a := Find(d.apps, p.app.id);
    SlotVersion(a, p.slot) == Some(p.version) && a.value.bank == p.app.bank && a.value.active == p.slot
  }

  datatype Event = Read(status: Option<Device>) | Sent(op: Op)

  /** What a whole selection did, and whether it reported success. */
  datatype Outcome = Outcome(events: seq<Event>, done: bool)

  type Answers = nat -> Option<Device>

  /** The statuses still to come after the first k. */
  function From(answers: Answers, k: nat): Answers { (i: nat) => answers(k + i) }

  predicate PackageFits(r: Request, p: Plan, package: Option<Package>) {
    && package.Some? && r.digest != "" && package.value.digest == r.digest
    && package.value.app == p.app.id && package.value.version == p.version
  }

  /** The last mutation, unless the selection is reached already. */
  function Finished(p: Plan, op: Op, d: Device, events: seq<Event>, answers: Answers, k: nat): Outcome {
    if Reached(d, p) then Outcome(events, true)
    else
      var more := events + [Sent(op), Read(answers(k))];
      Outcome(more, answers(k).Some? && Reached(answers(k).value, p))
  }

  /** From the second status on; `answers(k)` is the device's k-th status. */
  function Continued(p: Plan, d: Device, r: Request, package: Option<Package>, answers: Answers): Outcome {
    var start := [Read(Some(d))];
    match p.op
    case None =>
      if !PackageFits(r, p, package) then Outcome(start, false)
      else
        var events := start + [Sent(Install), Read(answers(1))];
        if answers(1).None? || !Staged(answers(1).value, p) then Outcome(events, false)
        else Finished(p, Activate, answers(1).value, events, answers, 2)
    case Some(Rollback) =>
      var events := start + [Sent(Rollback), Read(answers(1))];
      if answers(1).None? || !RolledBack(answers(1).value, p) then Outcome(events, false)
      else if Reached(answers(1).value, p) then Outcome(events, true)
      else if answers(1).value.loadedApp == p.app.bank then Outcome(events, false)
      else Finished(p, Switch, answers(1).value, events, answers, 2)
    case Some(op) => Finished(p, op, d, start, answers, 1)
  }

  function Selected(r: Request, uncertain: bool, package: Option<Package>, answers: Answers): Outcome {
    if uncertain then Outcome([], false)
    else match answers(0)
      case None => Outcome([Read(None)], false)
      case Some(d) =>
        match PlanSlot(r, d)
        case None => Outcome([Read(Some(d))], false)
        case Some(p) => Continued(p, d, r, package, answers)
  }

  function Mutations(events: seq<Event>): seq<Op>
    decreases |events|
  {
    if events == [] then []
    else
      var init, e := Mutations(events[..|events| - 1]), events[|events| - 1];
      if e.Sent? then init + [e.op] else init
  }

  lemma MutationsOfPair(events: seq<Event>, op: Op, status: Option<Device>)
    ensures Mutations(events + [Sent(op), Read(status)]) == Mutations(events) + [op]
  {
    var one := events + [Sent(op)];
    assert one[..|one| - 1] == events;
    var both := events + [Sent(op), Read(status)];
    assert both[..|both| - 1] == one;
  }

  lemma MutationsOfRead(status: Option<Device>)
    ensures Mutations([Read(status)]) == []
  {
  }

  /** Against any statuses, what is sent is a prefix of one of four sequences: nothing is ever repeated. */
  lemma SentIsAPrefixOfOneSequence(r: Request, uncertain: bool, package: Option<Package>, answers: Answers)
    ensures var m := Mutations(Selected(r, uncertain, package, answers).events);
            m <= [Switch] || m <= [Activate] || m <= [Install, Activate] || m <= [Rollback, Switch]
  {
    hide Mutations, PlanSlot, Reached, Staged, RolledBack, PackageFits;
    assert Mutations([]) == [] by { NothingSent(); }
    if !uncertain {
      MutationsOfRead(answers(0));
      MutationsOfPair([Read(answers(0))], Switch, answers(1));
      MutationsOfPair([Read(answers(0))], Activate, answers(1));
      MutationsOfPair([Read(answers(0))], Install, answers(1));
      MutationsOfPair([Read(answers(0))], Rollback, answers(1));
      MutationsOfPair([Read(answers(0))] + [Sent(Install), Read(answers(1))], Activate, answers(2));
      MutationsOfPair([Read(answers(0))] + [Sent(Rollback), Read(answers(1))], Switch, answers(2));
      if answers(0).Some? && PlanSlot(r, answers(0).value).Some? { OpsOfPlan(r, answers(0).value); }
    }
  }

  lemma NothingSent()
    ensures Mutations([]) == []
  {
  }

  lemma OpsOfPlan(r: Request, d: Device)
    requires PlanSlot(r, d).Some?
    ensures PlanSlot(r, d).value.op != Some(Install)
  {
  }

  /** Success is reported only when the last status read shows the planned slot and version running. */
  lemma SuccessMeansReached(r: Request, uncertain: bool, package: Option<Package>, answers: Answers)
    requires Selected(r, uncertain, package, answers).done
    ensures var events := Selected(r, uncertain, package, answers).events;
            && |events| > 0 && events[0].Read? && events[0].status.Some?
            && PlanSlot(r, events[0].status.value).Some?
            && var last, p := events[|events| - 1], PlanSlot(r, events[0].status.value).value;
               && last.Read? && last.status.Some? && Reached(last.status.value, p)
               && var d := last.status.value;
                  && d.loadedApp == p.app.bank && d.loaded == p.slot && d.version == p.version && d.elfReady
                  && (d.abi != 1 ==> d.ready && d.confirmed && exists a ::
                        FirstNamed(d.apps, p.app.id, a) && a.active == p.slot)
  {
    var events := Selected(r, uncertain, package, answers).events;
    hide PlanSlot, Reached, Staged, RolledBack, PackageFits;
    assert |events| > 0 && events[0].Read? && events[0].status.Some? && PlanSlot(r, events[0].status.value).Some?;
    assert events[|events| - 1].Read? && events[|events| - 1].status.Some?;
    ReachedMeans(events[|events| - 1].status.value, PlanSlot(r, events[0].status.value).value);
  }

  lemma ReachedMeans(d: Device, p: Plan)
    ensures Reached(d, p) <==>
              && d.loadedApp == p.app.bank && d.loaded == p.slot && d.version == p.version && d.elfReady
              && (d.abi != 1 ==> d.ready && d.confirmed && exists a ::
                    FirstNamed(d.apps, p.app.id, a) && a.active == p.slot)
  {
    forall a ensures Find(d.apps, p.app.id) == Some(a) <==> FirstNamed(d.apps, p.app.id, a) {
      FindIsFirst(d.apps, p.app.id, a);
    }
    hide FirstNamed, Find;
  }

  /** What a status must show of the first mutation before a second is sent. */
  predicate TookEffect(first: Op, d: Device, p: Plan) {
    if first.Install? then Staged(d, p) else first.Rollback? && RolledBack(d, p) && d.loadedApp != p.app.bank
  }

  /**
    A second mutation follows a status read after the first, one that shows the first took effect and
    the selection not yet reached.
   */
  lemma SecondMutationFollowsProof(r: Request, uncertain: bool, package: Option<Package>, answers: Answers, i: nat,
      j: nat)
    requires var events := Selected(r, uncertain, package, answers).events;
             i < j < |events| && events[i].Sent? && events[j].Sent?
    ensures var events := Selected(r, uncertain, package, answers).events;
            && j == i + 2 && events[0].Read? && events[0].status.Some? && PlanSlot(r, events[0].status.value).Some?
            && events[i + 1].Read? && events[i + 1].status.Some?
            && TookEffect(events[i].op, events[i + 1].status.value, PlanSlot(r, events[0].status.value).value)
            && !Reached(events[i + 1].status.value, PlanSlot(r, events[0].status.value).value)
  {
    hide PlanSlot, Reached, Staged, RolledBack, PackageFits;
  }

  /** A plan that starts by installing or rolling back, whose first mutation a status then shows done. */
  predicate FirstIsSeen(p: Plan, events: seq<Event>) {
    p.op.None? || p.op.value.Rollback? ==>
      && |events| >= 3 && events[1] == Sent(if p.op.None? then Install else Rollback)
      && events[2].Read? && events[2].status.Some?
      && if p.op.None? then Staged(events[2].status.value, p) else RolledBack(events[2].status.value, p)
  }

  /**
    Success is reported exactly when a plan could be made, its first mutation, where it needs one, was
    seen to take effect, and the last status shows the selection reached. A selection that is already
    reached, or is reached unseen, is not enough for a plan that has to install or roll back first.
   */
  lemma SuccessExactlyWhenSeen(r: Request, uncertain: bool, package: Option<Package>, answers: Answers)
    ensures var o := Selected(r, uncertain, package, answers); var n := |o.events|;
            o.done <==>
              && n > 0 && o.events[0].Read? && o.events[0].status.Some? && PlanSlot(r, o.events[0].status.value).Some?
              && var p := PlanSlot(r, o.events[0].status.value).value;
                 && o.events[n - 1].Read? && o.events[n - 1].status.Some? && Reached(o.events[n - 1].status.value, p)
                 && FirstIsSeen(p, o.events)
  {
    hide Reached, Staged, RolledBack, PackageFits;
    if answers(0).Some? && PlanSlot(r, answers(0).value).Some? { OpsOfPlan(r, answers(0).value); }
    hide PlanSlot;
  }

  // ---------------------------------------------------------------- the console, in place

  class ConsoleBridge {
    /** What the device will answer to each status read. */
    const answers: Answers
    var readings: nat
    var device: Option<Device>
    var uncertain: bool
    var events: seq<Event>

    constructor (answers: Answers, uncertain: bool)
      ensures this.answers == answers && readings == 0 && device == None && events == [] && this.uncertain == uncertain
    {
      this.answers, this.uncertain := answers, uncertain;
      readings, device, events := 0, None, [];
    }

    method ReadDevice() returns (ok: bool)
      modifies this`readings, this`device, this`events
      ensures readings == old(readings) + 1 && events == old(events) + [Read(answers(old(readings)))]
      ensures ok == answers(old(readings)).Some?
      ensures device == if ok then answers(old(readings)) else old(device)
    {
      var answer := answers(readings);
      readings, events := readings + 1, events + [Read(answer)];
      ok := answer.Some?;
      if ok { device := answer; }
    }

    /** A missing reply never replays the mutation: the outcome is only read. */
    method ManageOnce(op: Op) returns (ok: bool)
      modifies this`readings, this`device, this`events
      ensures readings == old(readings) + 1 && events == old(events) + [Sent(op), Read(answers(old(readings)))]
      ensures ok == answers(old(readings)).Some?
      ensures device == if ok then answers(old(readings)) else old(device)
    {
      events := events + [Sent(op)];
      ok := ReadDevice();
    }

    method SelectSlot(r: Request, package: Option<Package>) returns (done: bool)
      modifies this`readings, this`device, this`events
      ensures var outcome := Selected(r, uncertain, package, From(answers, old(readings)));
              events == old(events) + outcome.events && done == outcome.done
    {
      hide PlanSlot, Reached, Staged, RolledBack, PackageFits;
      if uncertain { return false; }
      var ok := ReadDevice();
      if !ok { return false; }
      var planned := PlanSlot(r, device.value);
      if planned.None? { return false; }
      var p := planned.value;
      var op := p.op.GetOr(Activate);
      if p.op.None? {
        if !PackageFits(r, p, package) { return false; }
        ok := ManageOnce(Install);
        if !ok || !Staged(device.value, p) { return false; }
      }
      if op == Rollback {
        ok := ManageOnce(Rollback);
        if !ok || !RolledBack(device.value, p) { return false; }
        if Reached(device.value, p) { return true; }
        if device.value.loadedApp == p.app.bank { return false; }
        op := Switch;
      }
      if Reached(device.value, p) { return true; }
      ok := ManageOnce(op);
      return ok && Reached(device.value, p);
    }
  }
}
