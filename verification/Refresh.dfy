/**
  internal/service/service.go: what one refresh, failed or successful, makes of the snapshot, the
  retention of the best known windows, and when the time of the data moves.
 */
module Refresh {
  import opened Wrappers
  import opened Lists
  import opened Quota
  import opened Layout
  import opened ViewModel

  // ---------------------------------------------------------------- retention

  datatype Identity = ByRetention(provider: string, id: string) | ByName(provider: string, name: string)

  function IdentityOf(a: Account): Identity {
    if a.retention != "" then ByRetention(a.provider, a.retention) else ByName(a.provider, a.name)
  }

  /** The last account of each identity. */
  function Known(accounts: seq<Account>): map<Identity, Account>
    decreases |accounts|
  {
    if accounts == [] then map[]
    else
      var a := accounts[|accounts| - 1];
      Known(accounts[..|accounts| - 1])[IdentityOf(a) := a]
  }

  function Find(known: map<Identity, Account>, id: Identity): Option<Account> {
    if id in known then Some(known[id]) else None
  }

  predicate After(a: Option<Instant>, b: Option<Instant>) { a.Some? && (b.None? || a.value > b.value) }

  /** The latest time the account is known to have been observed. */
  function NewestAmong(first: Option<Instant>, windows: seq<Window>): Option<Instant>
    decreases |windows|
  {
    if windows == [] then first
    else
      var newest, w := NewestAmong(first, windows[..|windows| - 1]), windows[|windows| - 1];
      if After(w.observed, newest) then w.observed else newest
  }

  function Newest(a: Account): Option<Instant> { NewestAmong(a.lastFresh, a.windows) }

  method NewestAccountObservation(a: Account) returns (newest: Option<Instant>)
    ensures newest == Newest(a)
  {
    newest := a.lastFresh;
    for i := 0 to |a.windows|
      invariant newest == NewestAmong(a.lastFresh, a.windows[..i])
    {
      Grow(a.windows, i);
      var w := a.windows[i];
      if w.observed.Some? && (newest.None? || w.observed.value > newest.value) { newest := w.observed; }
    }
    assert a.windows[..|a.windows|] == a.windows;
  }

  /** The lowest remaining share; shares are below the starting value. */
  function LowestShare(windows: seq<Window>): real
    decreases |windows|
  {
    if windows == [] then 101.0
    else
      var low, w := LowestShare(windows[..|windows| - 1]), windows[|windows| - 1];
      if w.remaining.Some? && w.remaining.value < low then w.remaining.value else low
  }

  predicate AnyShare(windows: seq<Window>) { exists i | 0 <= i < |windows| :: windows[i].remaining.Some? }

  function StatusForWindows(windows: seq<Window>): string {
    if !AnyShare(windows) then "unknown"
    else if LowestShare(windows) <= 0.0 then "exhausted"
    else if LowestShare(windows) <= 20.0 then "low"
    else "ok"
  }

  const SHOWING_PREVIOUS := "refresh failed; showing the previous successful quota snapshot"
  const SHOWING_NEWER := "active refresh failed; showing a newer previous quota snapshot"

  predicate Retains(a: Account, prior: Account) {
    || (a.error != "" && a.windows == [])
    || (a.stale && |a.windows| > 0 && After(Newest(prior), Newest(a)))
  }

  function RetainOne(fetched: Account, before: Option<Account>): Account {
    var a := if before.Some? && fetched.cards.None? then fetched.(cards := before.value.cards) else fetched;
    if before.None? || before.value.windows == [] then a
    else
      var prior := before.value;
      if !Retains(a, prior) then if a.lastFresh.None? then a.(lastFresh := prior.lastFresh) else a
      else
        a.(windows := prior.windows, lastFresh := prior.lastFresh, stale := true,
            status := StatusForWindows(prior.windows),
           warning := if a.error != "" then SHOWING_PREVIOUS else SHOWING_NEWER, error := "")
  }

  function Retained(current: seq<Account>, previous: seq<Account>): seq<Account> {
    var known := Known(previous);
    Map((a: Account) => RetainOne(a, Find(known, IdentityOf(a))), current)
  }

  method RetainAccount(current: Account, before: Option<Account>) returns (a: Account)
    ensures a == RetainOne(current, before)
  {
    hide StatusForWindows, Newest;
    a := current;
    if before.None? { return; }
    var prior := before.value;
    if a.cards.None? { a := a.(cards := prior.cards); }
    if |prior.windows| == 0 { return; }
    var retainPrevious := a.error != "" && |a.windows| == 0;
    if a.stale && |a.windows| > 0 {
      var left := NewestAccountObservation(prior);
      var right := NewestAccountObservation(a);
      if After(left, right) { retainPrevious := true; }
    }
    if !retainPrevious {
      if a.lastFresh.None? { a := a.(lastFresh := prior.lastFresh); }
      return;
    }
    a := a.(windows := prior.windows, lastFresh := prior.lastFresh, stale := true);
    if a.error != "" {
      a := a.(status := StatusForWindows(a.windows), warning := SHOWING_PREVIOUS, error := "");
    } else {
      a := a.(status := StatusForWindows(a.windows), warning := SHOWING_NEWER);
    }
  }

  method RetainBestKnownAccountWindows(current: seq<Account>, previous: seq<Account>) returns (result: array<Account>)
    ensures fresh(result) && result[..] == Retained(current, previous)
  {
    hide RetainOne;
    var known: map<Identity, Account> := map[];
    for i := 0 to |previous|
      invariant known == Known(previous[..i])
    {
      Grow(previous, i);
      known := known[IdentityOf(previous[i]) := previous[i]];
    }
    assert previous[..|previous|] == previous;
    ghost var retain := (a: Account) => RetainOne(a, Find(known, IdentityOf(a)));
    result := new Account[|current|](i requires 0 <= i < |current| => current[i]);
    for i := 0 to |current|
      invariant result.Length == |current| && result[..i] == Map(retain, current[..i])
      invariant forall k | i <= k < |current| :: result[k] == current[k]
    {
      ghost var done := result[..i];
      var a := RetainAccount(result[i], Find(known, IdentityOf(result[i])));
      result[i] := a;
      Grow(current, i);
      assert result[..i + 1] == done + [a];
    }
    assert result[..] == result[..|current|] && current[..|current|] == current;
  }

  lemma {:induction false} NewestIsLater(first: Option<Instant>, windows: seq<Window>)
    ensures var rest := NewestAmong(None, windows);
            NewestAmong(first, windows) == if After(rest, first) then rest else first
    decreases |windows|
  {
    if windows != [] { NewestIsLater(first, windows[..|windows| - 1]); }
  }

  /** A failed or stale answer never makes the frame show an older observation than before. */
  lemma ObservationsNeverGoBack(fetched: Account, prior: Account)
    requires |prior.windows| > 0
    requires (fetched.error != "" && fetched.windows == []) || (fetched.stale && |fetched.windows| > 0)
    ensures !After(Newest(prior), Newest(RetainOne(fetched, Some(prior))))
  {
    hide StatusForWindows, NewestAmong;
    NewestIsLater(prior.lastFresh, fetched.windows);
    NewestIsLater(fetched.lastFresh, fetched.windows);
  }

  /** Fetching the same answer again, after retention, shows the same account. */
  lemma SameAnswerSameAccount(fetched: Account, before: Option<Account>)
    ensures var r := RetainOne(fetched, before);
            NormalAccount(RetainOne(fetched, Some(r)), true) == NormalAccount(r, true)
  {
    hide StatusForWindows, NewestAmong;
    if before.Some? {
      var prior := before.value;
      NewestIsLater(prior.lastFresh, prior.windows);
      NewestIsLater(prior.lastFresh, fetched.windows);
      NewestIsLater(fetched.lastFresh, fetched.windows);
    }
  }

  // ---------------------------------------------------------------- one refresh

  /** What the fetcher answered. A cancelled refresh leaves everything as it was. */
  datatype Answer = Stopped | Failed(message: string) | Answered(accounts: seq<Account>, errors: seq<string>)

  datatype Event = Event(answer: Answer, usage: Option<Usage>, now: Instant)

  datatype State = State(snapshot: Snapshot, fingerprint: Content, hasData: bool, ready: bool)

  const NO_SNAPSHOT := Snapshot(0, None, None, 0, false, [], None, [])
  const INITIAL := State(NO_SNAPSHOT, Content(false, [], None, []), false, false)

  predicate HasQuota(windows: seq<Window>) {
    exists i | 0 <= i < |windows| :: windows[i].used.Some? || windows[i].remaining.Some?
  }

  predicate AllQuotaUnavailable(accounts: seq<Account>) {
    forall i | 0 <= i < |accounts| ::
      var a := accounts[i];
      a.status == "disabled" || a.error != "" || a.warning != "" || a.stale || !HasQuota(a.windows)
  }

  function AfterFailure(st: State, message: string, usage: Option<Usage>, now: Instant, interval: Instant): State {
    if st.hasData then
      var snapshot := st.snapshot.(refreshedAt := now, nextRefresh := now + interval, stale := true,
          errors := [message],
                                   usage := if usage.Some? then usage else st.snapshot.usage);
      if Fingerprint(snapshot) != st.fingerprint then
        st.(snapshot := snapshot.(updatedAt := Some(now)), fingerprint := Fingerprint(snapshot))
      else st.(snapshot := snapshot)
    else
      var snapshot := Snapshot(now, Some(now), None, now + interval, true, [], None, [message]);
      st.(snapshot := snapshot, fingerprint := Fingerprint(snapshot), hasData := true)
  }

  function AfterSuccess(st: State, accounts: seq<Account>, errors: seq<string>, usage: Option<Usage>,
                        now: Instant, interval: Instant): State {
    var stale := AllQuotaUnavailable(accounts);
    var known := if st.hasData then Retained(accounts, st.snapshot.accounts) else accounts;
    var snapshot := Snapshot(now, Some(now), if stale then st.snapshot.lastFresh else Some(now), now + interval, stale,
                             known, if usage.Some? then usage else st.snapshot.usage, errors);
    var steady := st.hasData && Fingerprint(snapshot) == st.fingerprint && st.snapshot.updatedAt.Some?;
    State(if steady then snapshot.(updatedAt := st.snapshot.updatedAt) else snapshot, Fingerprint(snapshot), true, true)
  }

  function Refreshed(st: State, e: Event, interval: Instant): State {
    match e.answer
    case Stopped => st
    case Failed(message) => AfterFailure(st, message, e.usage, e.now, interval)
    case Answered(accounts, errors) => AfterSuccess(st, accounts, errors, e.usage, e.now, interval)
  }

  class Service {
    const interval: Instant
    var snapshot: Snapshot
    var fingerprint: Content
    var hasData: bool
    var ready: bool

    function View(): State
      reads this
    {
      State(snapshot, fingerprint, hasData, ready)
    }

    constructor (interval: Instant)
      ensures View() == INITIAL && this.interval == interval
    {
      this.interval := interval;
      snapshot, fingerprint, hasData, ready := NO_SNAPSHOT, INITIAL.fingerprint, false, false;
    }

    method UpdateFingerprint(now: Instant)
      modifies this`snapshot, this`fingerprint
      ensures fingerprint == Fingerprint(old(snapshot))
      ensures snapshot == if Fingerprint(old(snapshot)) != old(fingerprint) then old(snapshot).(updatedAt := Some(now))
                          else old(snapshot)
    {
      var next := Fingerprint(snapshot);
      if next != fingerprint {
        snapshot := snapshot.(updatedAt := Some(now));
        fingerprint := next;
      }
    }

    /** The observer is told of the new snapshot and whether the refresh succeeded. */
    method Refresh(e: Event) returns (told: Option<(Snapshot, bool)>)
      modifies this
      ensures View() == Refreshed(old(View()), e, interval)
      ensures told == if e.answer.Stopped? then None else Some((snapshot, e.answer.Answered?))
    {
      hide Retained, AllQuotaUnavailable, Fingerprint;
      var now := e.now;
      match e.answer {
        case Stopped => return None;
        case Failed(message) =>
          if hasData {
            snapshot := snapshot.(refreshedAt := now, nextRefresh := now + interval, stale := true,
                errors := [message]);
            if e.usage.Some? { snapshot := snapshot.(usage := e.usage); }
            SameFingerprint(snapshot, snapshot.(updatedAt := Some(now)));
            UpdateFingerprint(now);
          } else {
            snapshot := Snapshot(now, Some(now), None, now + interval, true, [], None, [message]);
            hasData := true;
            fingerprint := Fingerprint(snapshot);
          }
          told := Some((snapshot, false));
        case Answered(fetched, errors) =>
          var accounts := fetched;
          var previousUpdatedAt, previousUsage, lastFresh := snapshot.updatedAt, snapshot.usage, snapshot.lastFresh;
          var stale := AllQuotaUnavailable(accounts);
          if !stale { lastFresh := Some(now); }
          if hasData {
            var kept := RetainBestKnownAccountWindows(accounts, snapshot.accounts);
            accounts := kept[..];
          }
          snapshot := Snapshot(now, Some(now), lastFresh, now + interval, stale, accounts,
                               if e.usage.Some? then e.usage else previousUsage, errors);
          var next := Fingerprint(snapshot);
          if hasData && next == fingerprint && previousUpdatedAt.Some? {
            snapshot := snapshot.(updatedAt := previousUpdatedAt);
          }
          fingerprint := next;
          hasData, ready := true, true;
          told := Some((snapshot, true));
      }
    }
  }

  lemma SameFingerprint(s: Snapshot, t: Snapshot)
    requires s.stale == t.stale && s.accounts == t.accounts && s.usage == t.usage && s.errors == t.errors
    ensures Fingerprint(s) == Fingerprint(t)
  {
  }

  // ---------------------------------------------------------------- every mix of refreshes

  function AfterAll(events: seq<Event>, interval: Instant): State
    decreases |events|
  {
    if events == [] then INITIAL
    else Refreshed(AfterAll(events[..|events| - 1], interval), events[|events| - 1], interval)
  }

  predicate ClockAdvances(events: seq<Event>) {
    forall i, j | 0 <= i < j < |events| :: events[i].now < events[j].now
  }

  /** What every mix of refreshes keeps. */
  ghost predicate Consistent(st: State) {
    && (st.hasData ==> st.fingerprint == Fingerprint(st.snapshot) && st.snapshot.updatedAt.Some?)
    && (!st.hasData ==> st == INITIAL)
    && (st.ready ==> st.hasData)
  }

  lemma RefreshedStep(st: State, e: Event, interval: Instant)
    requires Consistent(st)
    ensures var next := Refreshed(st, e, interval);
            && Consistent(next)
            && (!e.answer.Stopped? ==> next.hasData && next.snapshot.refreshedAt == e.now)
            && (if st.hasData && (e.answer.Stopped? || Fingerprint(next.snapshot) == Fingerprint(st.snapshot))
                then next.snapshot.updatedAt == st.snapshot.updatedAt
                else e.answer.Stopped? || next.snapshot.updatedAt == Some(e.now))
  {
    hide Retained, AllQuotaUnavailable, NormalAccounts, NormalUsage;
  }

  lemma {:induction false} AllConsistent(events: seq<Event>, interval: Instant)
    ensures Consistent(AfterAll(events, interval))
    ensures var st := AfterAll(events, interval);
            st.hasData ==> exists i :: 0 <= i < |events| && st.snapshot.updatedAt == Some(events[i].now)
    decreases |events|
  {
    if events != [] {
      var n := |events| - 1;
      AllConsistent(events[..n], interval);
      var st := AfterAll(events[..n], interval);
      RefreshedStep(st, events[n], interval);
      if st.hasData {
        var i :| 0 <= i < n && st.snapshot.updatedAt == Some(events[..n][i].now);
        assert events[i] == events[..n][i];
      }
      if AfterAll(events, interval).snapshot.updatedAt == Some(events[n].now) { assert 0 <= n < |events|; }
    }
  }

  /**
    Over every mix of failed and successful refreshes with an advancing clock, the time of the data
    moves at a refresh exactly when the semantic fingerprint changes there.
   */
  lemma {:induction false} DataTimeMovesExactlyWithFingerprint(events: seq<Event>, e: Event, interval: Instant)
    requires ClockAdvances(events + [e]) && AfterAll(events, interval).hasData
    ensures var before, after := AfterAll(events, interval).snapshot, AfterAll(events + [e], interval).snapshot;
            before.updatedAt != after.updatedAt <==> Fingerprint(before) != Fingerprint(after)
  {
    hide Fingerprint, Refreshed;
    AllConsistent(events, interval);
    var st := AfterAll(events, interval);
    assert (events + [e])[..|events|] == events;
    RefreshedStep(st, e, interval);
    var i :| 0 <= i < |events| && st.snapshot.updatedAt == Some(events[i].now);
    assert (events + [e])[i] == events[i] && (events + [e])[|events|] == e;
    StoppedChangesNothing(st, e, interval);
  }

  lemma StoppedChangesNothing(st: State, e: Event, interval: Instant)
    ensures e.answer.Stopped? ==> Refreshed(st, e, interval) == st
  {
  }

  /** So two consecutive snapshots with one fingerprint are one frame, in every location and layout. */
  lemma {:induction false} UnchangedFingerprintUnchangedFrame(events: seq<Event>, e: Event, interval: Instant,
      text: Text, providers: seq<Provider>)
    requires AfterAll(events, interval).hasData
    requires Fingerprint(AfterAll(events, interval).snapshot) == Fingerprint(AfterAll(events + [e], interval).snapshot)
    ensures BuildFrame(text, providers, AfterAll(events, interval).snapshot) ==
            BuildFrame(text, providers, AfterAll(events + [e], interval).snapshot)
  {
    hide Fingerprint, Refreshed, BuildFrame;
    AllConsistent(events, interval);
    var st := AfterAll(events, interval);
    assert (events + [e])[..|events|] == events;
    RefreshedStep(st, e, interval);
    StoppedChangesNothing(st, e, interval);
    EqualFingerprintsLookEqual(text, providers, st.snapshot, AfterAll(events + [e], interval).snapshot);
  }

  // ---------------------------------------------------------------- what a refresh shows of each account

  /** One account under two answers: by its retention ID, or by its name where it has none. */
  predicate SameAccount(a: Account, b: Account) {
    a.provider == b.provider && a.retention == b.retention && (a.retention == "" ==> a.name == b.name)
  }

  /** The account at `k` is the last one that is the same as `a`. */
  predicate LastOf(accounts: seq<Account>, a: Account, k: nat) {
    && k < |accounts| && SameAccount(accounts[k], a)
    && forall m | k < m < |accounts| :: !SameAccount(accounts[m], a)
  }

  lemma {:induction false} KnownIsLast(accounts: seq<Account>, a: Account, k: nat)
    requires LastOf(accounts, a, k)
    ensures Find(Known(accounts), IdentityOf(a)) == Some(accounts[k])
    decreases |accounts|
  {
    var n := |accounts| - 1;
    if k < n {
      assert !SameAccount(accounts[n], a);
      assert accounts[..n][k] == accounts[k];
      KnownIsLast(accounts[..n], a, k);
    }
  }

  lemma {:induction false} UnknownIsNew(accounts: seq<Account>, a: Account)
    requires forall k | 0 <= k < |accounts| :: !SameAccount(accounts[k], a)
    ensures Find(Known(accounts), IdentityOf(a)).None?
    decreases |accounts|
  {
    if accounts != [] {
      assert !SameAccount(accounts[|accounts| - 1], a);
      UnknownIsNew(accounts[..|accounts| - 1], a);
    }
  }

  /** The account is known to have been observed at `t`. */
  predicate ObservedAt(a: Account, t: Instant) {
    a.lastFresh == Some(t) || exists i | 0 <= i < |a.windows| :: a.windows[i].observed == Some(t)
  }

  lemma {:induction false} NewestIsLatest(a: Account)
    ensures Newest(a).None? ==> forall t :: !ObservedAt(a, t)
    ensures Newest(a).Some? ==> ObservedAt(a, Newest(a).value) && forall t | ObservedAt(a, t) :: t <= Newest(a).value
    decreases |a.windows|
  {
    if a.windows != [] {
      var n := |a.windows| - 1;
      var b := a.(windows := a.windows[..n]);
      NewestIsLatest(b);
      assert forall t :: ObservedAt(a, t) <==> ObservedAt(b, t) || a.windows[n].observed == Some(t);
    }
  }

  /** Every observation of `a` is older than some observation of `prior`. */
  ghost predicate ObservedBefore(a: Account, prior: Account) {
    exists t :: ObservedAt(prior, t) && forall u | ObservedAt(a, u) :: u < t
  }

  lemma AfterMeansObservedBefore(a: Account, prior: Account)
    ensures After(Newest(prior), Newest(a)) <==> ObservedBefore(a, prior)
  {
    NewestIsLatest(a);
    NewestIsLatest(prior);
  }

  function Shares(windows: seq<Window>): set<real> {
    set i | 0 <= i < |windows| && windows[i].remaining.Some? :: windows[i].remaining.value
  }

  /** The status some windows give: "unknown" without a share, else by the lowest share. */
  predicate StatusOf(status: string, windows: seq<Window>) {
    var shares := Shares(windows);
    if shares == {} then status == "unknown"
    else if exists p :: p in shares && p <= 0.0 then status == "exhausted"
    else if exists p :: p in shares && p <= 20.0 then status == "low"
    else status == "ok"
  }

  lemma {:induction false} LowestShareBounds(windows: seq<Window>)
    ensures forall i | 0 <= i < |windows| && windows[i].remaining.Some? ::
              LowestShare(windows) <= windows[i].remaining.value
    ensures LowestShare(windows) == 101.0
            || exists i | 0 <= i < |windows| :: windows[i].remaining == Some(LowestShare(windows))
    decreases |windows|
  {
    if windows != [] {
      var n := |windows| - 1;
      LowestShareBounds(windows[..n]);
      if LowestShare(windows) == LowestShare(windows[..n]) && LowestShare(windows) != 101.0 {
        var i :| 0 <= i < n && windows[..n][i].remaining == Some(LowestShare(windows));
        assert windows[i] == windows[..n][i];
      }
      forall i | 0 <= i < |windows| && windows[i].remaining.Some?
        ensures LowestShare(windows) <= windows[i].remaining.value
      {
        if i < n { assert windows[..n][i] == windows[i]; }
      }
    }
  }

  lemma LowestIsAtMost(windows: seq<Window>, bound: real)
    requires bound < 101.0
    ensures LowestShare(windows) <= bound <==> exists p :: p in Shares(windows) && p <= bound
  {
    LowestShareBounds(windows);
    if LowestShare(windows) <= bound {
      var i :| 0 <= i < |windows| && windows[i].remaining == Some(LowestShare(windows));
      assert windows[i].remaining.value in Shares(windows);
    }
  }

  lemma StatusIsByLowest(windows: seq<Window>)
    ensures StatusOf(StatusForWindows(windows), windows)
  {
    hide LowestShare;
    LowestIsAtMost(windows, 0.0);
    LowestIsAtMost(windows, 20.0);
    if i :| 0 <= i < |windows| && windows[i].remaining.Some? { assert windows[i].remaining.value in Shares(windows); }
  }

  /** The answer gave no windows of its own, and an error; or stale windows older than what was known. */
  predicate Failed(a: Account) { a.error != "" && a.windows == [] }

  ghost predicate Outdated(a: Account, prior: Account) {
    a.stale && a.windows != [] && ObservedBefore(a, prior)
  }

  /** What a successful refresh shows of answered account `a`, `prior` being the account it was before. */
  ghost predicate ShownFor(shown: Account, a: Account, prior: Account) {
    && SameAccount(shown, a) && shown.name == a.name && shown.plan == a.plan
    && shown.cards == (if a.cards.None? then prior.cards else a.cards)
    && (if prior.windows != [] && (Failed(a) || Outdated(a, prior)) then
          && shown.windows == prior.windows && shown.lastFresh == prior.lastFresh && shown.stale
          && shown.error == "" && StatusOf(shown.status, prior.windows)
          && shown.warning == (if a.error != "" then SHOWING_PREVIOUS else SHOWING_NEWER)
        else
          && shown.windows == a.windows && shown.stale == a.stale && shown.error == a.error
          && shown.status == a.status && shown.warning == a.warning
          && shown.lastFresh == if prior.windows != [] && a.lastFresh.None? then prior.lastFresh else a.lastFresh)
  }

  lemma RetainOneShows(a: Account, prior: Account)
    ensures ShownFor(RetainOne(a, Some(prior)), a, prior)
  {
    hide StatusForWindows, Newest, NewestAmong, StatusOf, ObservedBefore;
    var b := if a.cards.None? then a.(cards := prior.cards) else a;
    assert Newest(b) == Newest(a) by { SameObservations(a, b); }
    AfterMeansObservedBefore(a, prior);
    StatusIsByLowest(prior.windows);
  }

  lemma SameObservations(a: Account, b: Account)
    requires a.lastFresh == b.lastFresh && a.windows == b.windows
    ensures Newest(a) == Newest(b)
  {
  }

  /**
    After every mix of refreshes, a successful one shows the answered accounts in their order. One the
    snapshot before did not hold is shown as answered; of any other the last account that was the same
    decides, whether the answer or the windows known before are shown. Windows known before thus
    survive an account's failure, marked stale, with the error replaced by a warning.
   */
  lemma {:induction false} RefreshShowsTheBestKnown(events: seq<Event>, e: Event, interval: Instant, i: nat)
    requires e.answer.Answered? && i < |e.answer.accounts|
    ensures var before := AfterAll(events, interval).snapshot.accounts;
            var after := AfterAll(events + [e], interval).snapshot.accounts;
            var a := e.answer.accounts[i];
      && |after| == |e.answer.accounts|
      && (forall k: nat | LastOf(before, a, k) :: ShownFor(after[i], a, before[k]))
      && ((forall k | 0 <= k < |before| :: !SameAccount(before[k], a)) ==> after[i] == a)
  {
    hide RetainOne, ShownFor, NormalAccounts, NormalUsage, AllQuotaUnavailable, Known, Fingerprint;
    AllConsistent(events, interval);
    assert (events + [e])[..|events|] == events;
    var st, a := AfterAll(events, interval), e.answer.accounts[i];
    var before, after := st.snapshot.accounts, AfterAll(events + [e], interval).snapshot.accounts;
    assert after == if st.hasData then Retained(e.answer.accounts, before) else e.answer.accounts;
    assert st.hasData ==> after[i] == RetainOne(a, Find(Known(before), IdentityOf(a)));
    forall k: nat | LastOf(before, a, k) ensures ShownFor(after[i], a, before[k]) {
      KnownIsLast(before, a, k);
      RetainOneShows(a, before[k]);
    }
    if forall k | 0 <= k < |before| :: !SameAccount(before[k], a) {
      UnknownIsNew(before, a);
      NewIsShownAsAnswered(a);
    }
  }

  lemma NewIsShownAsAnswered(a: Account)
    ensures RetainOne(a, None) == a
  {
  }

  /**
    So no failed and no stale answer takes an account back in time: whatever was observed of it before
    the refresh, something at least as late is observed in what is shown after.
   */
  lemma {:induction false} RefreshNeverGoesBack(events: seq<Event>, e: Event, interval: Instant, i: nat, k: nat,
      t: Instant) returns (u: Instant)
    requires e.answer.Answered? && i < |e.answer.accounts|
    requires var a := e.answer.accounts[i]; Failed(a) || (a.stale && a.windows != [])
    requires LastOf(AfterAll(events, interval).snapshot.accounts, e.answer.accounts[i], k)
    requires AfterAll(events, interval).snapshot.accounts[k].windows != []
    requires ObservedAt(AfterAll(events, interval).snapshot.accounts[k], t)
    ensures |AfterAll(events + [e], interval).snapshot.accounts| == |e.answer.accounts|
    ensures t <= u && ObservedAt(AfterAll(events + [e], interval).snapshot.accounts[i], u)
  {
    hide AfterAll;
    RefreshShowsTheBestKnown(events, e, interval, i);
    var prior := AfterAll(events, interval).snapshot.accounts[k];
    var shown, a := AfterAll(events + [e], interval).snapshot.accounts[i], e.answer.accounts[i];
    assert ShownFor(shown, a, prior);
    u := ShownIsAsLate(shown, a, prior, t);
  }

  lemma ShownIsAsLate(shown: Account, a: Account, prior: Account, t: Instant) returns (u: Instant)
    requires ShownFor(shown, a, prior) && prior.windows != [] && ObservedAt(prior, t)
    requires Failed(a) || (a.stale && a.windows != [])
    ensures t <= u && ObservedAt(shown, u)
  {
    if Failed(a) || Outdated(a, prior) {
      u := t;
    } else {
      assert exists v :: ObservedAt(a, v) && t <= v;
      u :| ObservedAt(a, u) && t <= u;
    }
  }

  /** An answered account with a quota of its own: enabled, current, without error or warning. */
  predicate FreshQuota(a: Account) {
    && a.status != "disabled" && a.error == "" && a.warning == "" && !a.stale
    && exists i | 0 <= i < |a.windows| :: a.windows[i].used.Some? || a.windows[i].remaining.Some?
  }

  /**
    The snapshot is stale after a successful refresh exactly when no answered account has a fresh
    quota; the time of the last fresh data moves otherwise. A failed refresh keeps accounts and that
    time, and a cancelled one keeps everything.
   */
  lemma {:induction false} StaleExactlyWithoutFreshQuota(events: seq<Event>, e: Event, interval: Instant)
    ensures var st, next := AfterAll(events, interval), AfterAll(events + [e], interval);
            var before, after := st.snapshot, next.snapshot;
      && (e.answer.Answered? ==>
            && (after.stale <==> forall i | 0 <= i < |e.answer.accounts| :: !FreshQuota(e.answer.accounts[i]))
            && after.lastFresh == (if after.stale then before.lastFresh else Some(e.now))
            && after.errors == e.answer.errors && next.ready)
      && (e.answer.Failed? ==>
            && after.stale && after.lastFresh == before.lastFresh && after.accounts == before.accounts
            && after.errors == [e.answer.message] && next.ready == st.ready)
      && (!e.answer.Stopped? ==>
            && after.refreshedAt == e.now && after.nextRefresh == e.now + interval
            && (if e.usage.Some? && (e.answer.Answered? || st.hasData) then after.usage == e.usage
                else after.usage == before.usage))
      && (e.answer.Stopped? ==> next == st)
  {
    hide Retained, Fingerprint;
    AllConsistent(events, interval);
    assert (events + [e])[..|events|] == events;
  }

  // ---------------------------------------------------------------- the same answer twice

  predicate DistinctIdentities(accounts: seq<Account>) {
    forall i, j | 0 <= i < j < |accounts| :: IdentityOf(accounts[i]) != IdentityOf(accounts[j])
  }

  lemma {:induction false} KnownFinds(accounts: seq<Account>, i: nat)
    requires DistinctIdentities(accounts) && i < |accounts|
    ensures Find(Known(accounts), IdentityOf(accounts[i])) == Some(accounts[i])
    decreases |accounts|
  {
    var n := |accounts| - 1;
    if i < n { KnownFinds(accounts[..n], i); }
  }

  lemma RetentionKeepsIdentity(a: Account, before: Option<Account>)
    ensures IdentityOf(RetainOne(a, before)) == IdentityOf(a)
  {
    hide Retains, StatusForWindows;
  }

  lemma SameAnswersSameAccounts(fetched: seq<Account>, previous: seq<Account>)
    requires DistinctIdentities(fetched)
    ensures var r := Retained(fetched, previous);
            NormalAccounts(Retained(fetched, r), true) == NormalAccounts(r, true)
  {
    hide RetainOne, NormalAccount, Known;
    var r := Retained(fetched, previous);
    var known := Known(previous);
    forall i | 0 <= i < |fetched| ensures IdentityOf(r[i]) == IdentityOf(fetched[i]) {
      RetentionKeepsIdentity(fetched[i], Find(known, IdentityOf(fetched[i])));
    }
    forall i | 0 <= i < |fetched|
      ensures NormalAccount(Retained(fetched, r)[i], true) == NormalAccount(r[i], true)
    {
      KnownFinds(r, i);
      SameAnswerSameAccount(fetched[i], Find(known, IdentityOf(fetched[i])));
    }
  }

  /**
    A refresh that fetches what the refresh before it fetched never repaints: fingerprint, data time
    and frame stay, retention included.
   */
  lemma {:induction false} SameAnswerNeverRepaints(events: seq<Event>, e: Event, f: Event, interval: Instant,
      text: Text, providers: seq<Provider>)
    requires e.answer.Answered? && f.answer == e.answer && f.usage == e.usage && DistinctIdentities(e.answer.accounts)
    requires AfterAll(events, interval).hasData
    ensures var s, t := AfterAll(events + [e], interval).snapshot, AfterAll(events + [e] + [f], interval).snapshot;
            && Fingerprint(s) == Fingerprint(t) && s.updatedAt == t.updatedAt
            && BuildFrame(text, providers, s) == BuildFrame(text, providers, t)
  {
    hide BuildFrame, NormalAccounts, NormalUsage, AllQuotaUnavailable, Retained;
    AllConsistent(events, interval);
    AllConsistent(events + [e], interval);
    var st := AfterAll(events, interval);
    assert (events + [e])[..|events|] == events;
    assert (events + [e] + [f])[..|events + [e]|] == events + [e];
    var st1 := AfterAll(events + [e], interval);
    assert st1.snapshot.accounts == Retained(e.answer.accounts, st.snapshot.accounts);
    SameAnswersSameAccounts(e.answer.accounts, st.snapshot.accounts);
    var st2 := AfterAll(events + [e] + [f], interval);
    assert st2.snapshot.accounts == Retained(e.answer.accounts, st1.snapshot.accounts);
    UnchangedFingerprintUnchangedFrame(events + [e], f, interval, text, providers);
    RefreshedStep(st1, f, interval);
  }
}
