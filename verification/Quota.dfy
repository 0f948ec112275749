/**
  The snapshot of internal/quota/model.go and the two projections of it that decide whether a
  frame changed: the fingerprint of internal/service/service.go and the cache key of
  internal/frame/producer.go. Times count nanoseconds; percentages and costs are real numbers.
  JSON encoding and SHA-256 are taken as injective, so a digest is the value it is taken of.
 */
module Quota {
  import opened Wrappers
  import opened Lists

  type Instant = int

  const MINUTE: int := 60_000_000_000

  datatype Window = Window(id: string, title: string, used: Option<real>, remaining: Option<real>,
                           resets: Option<Instant>, observed: Option<Instant>, source: string)

  /** A card is its expiry; None never expires. */
  type Card = Option<Instant>

  /** No card list means it could not be read. */
  datatype Account = Account(retention: string, provider: string, name: string, plan: string, status: string,
                             stale: bool, lastFresh: Option<Instant>, windows: seq<Window>,
                             cards: Option<seq<Card>>, warning: string, error: string)

  datatype UsageDay = UsageDay(date: string, tokens: int, cost: real)
  datatype Usage = Usage(todayTokens: int, todayCost: real, currency: string, source: string, days: seq<UsageDay>)

  datatype Snapshot = Snapshot(refreshedAt: Instant, updatedAt: Option<Instant>, lastFresh: Option<Instant>,
                               nextRefresh: Instant, stale: bool, accounts: seq<Account>,
                               usage: Option<Usage>, errors: seq<string>)

  function TruncateMinute(t: Instant): Instant { t / MINUTE * MINUTE }

  function Truncated(t: Option<Instant>): Option<Instant> { if t.Some? then Some(TruncateMinute(t.value)) else None }

  lemma TruncationKeepsTheMinute(t: Instant)
    ensures TruncateMinute(t) / MINUTE == t / MINUTE
    ensures TruncateMinute(t) <= t < TruncateMinute(t) + MINUTE
  {
  }

  lemma TruncationIsMonotone(a: Instant, b: Instant)
    requires a <= b
    ensures TruncateMinute(a) <= TruncateMinute(b)
  {
    if a / MINUTE > b / MINUTE {
      TruncationKeepsTheMinute(a);
      TruncationKeepsTheMinute(b);
    }
  }

  function NormalSource(source: string): string { if source == "demo" then source else "" }

  function NormalWindow(w: Window): Window {
    w.(used := None, observed := None, source := NormalSource(w.source), resets := Truncated(w.resets))
  }

  function Cards(a: Account): seq<Card> { a.cards.GetOr([]) }

  /**
    What is left of an account: the fingerprint also cuts card expiries to the minute. An absent and
    an empty card list encode alike, and the retention identity is never encoded.
   */
  function NormalAccount(a: Account, cutCards: bool): Account {
    a.(retention := "", name := "", lastFresh := None, windows := Map(NormalWindow, a.windows),
       cards := Some(if cutCards then Map(Truncated, Cards(a)) else Cards(a)))
  }

  function NormalUsage(u: Option<Usage>): Option<Usage> {
    if u.None? then None else Some(u.value.(source := NormalSource(u.value.source)))
  }

  function NormalAccounts(accounts: seq<Account>, cutCards: bool): seq<Account> {
    Map((a: Account) => NormalAccount(a, cutCards), accounts)
  }

  datatype Content = Content(stale: bool, accounts: seq<Account>, usage: Option<Usage>, errors: seq<string>)

  /** semanticFingerprint: everything shown but the time of the data. */
  function Fingerprint(s: Snapshot): Content {
    Content(s.stale, NormalAccounts(s.accounts, true), NormalUsage(s.usage), s.errors)
  }

  datatype Key = Key(updatedAt: Option<Instant>, content: Content)

  /** contentKey: the time of the data too, and card expiries in full. */
  function ContentKey(s: Snapshot): Key {
    Key(s.updatedAt, Content(s.stale, NormalAccounts(s.accounts, false), NormalUsage(s.usage), s.errors))
  }

  /** Two times that a frame cannot tell apart: none, or one minute. */
  predicate SameMinute(s: Option<Instant>, t: Option<Instant>) {
    s.Some? == t.Some? && (s.Some? ==> s.value / MINUTE == t.value / MINUTE)
  }

  predicate WindowsAlike(v: Window, w: Window) {
    && v.id == w.id && v.title == w.title && v.remaining == w.remaining && SameMinute(v.resets, w.resets)
    && (v.source == "demo" <==> w.source == "demo")
  }

  /** What a frame can show of two accounts is the same; cards to the minute or to the nanosecond. */
  predicate AccountsAlike(a: Account, b: Account, cutCards: bool) {
    && a.provider == b.provider && a.plan == b.plan && a.status == b.status && a.stale == b.stale
    && a.warning == b.warning && a.error == b.error
    && |a.windows| == |b.windows| && (forall i | 0 <= i < |a.windows| :: WindowsAlike(a.windows[i], b.windows[i]))
    && |Cards(a)| == |Cards(b)|
    && forall i | 0 <= i < |Cards(a)| ::
         if cutCards then SameMinute(Cards(a)[i], Cards(b)[i]) else Cards(a)[i] == Cards(b)[i]
  }

  predicate UsageAlike(u: Option<Usage>, v: Option<Usage>) {
    && u.Some? == v.Some?
    && (u.Some? ==>
          && u.value.todayTokens == v.value.todayTokens && u.value.todayCost == v.value.todayCost
          && u.value.currency == v.value.currency && u.value.days == v.value.days
          && (u.value.source == "demo" <==> v.value.source == "demo"))
  }

  predicate SnapshotsAlike(s: Snapshot, t: Snapshot, cutCards: bool) {
    && s.stale == t.stale && s.errors == t.errors && UsageAlike(s.usage, t.usage)
    && |s.accounts| == |t.accounts|
    && forall i | 0 <= i < |s.accounts| :: AccountsAlike(s.accounts[i], t.accounts[i], cutCards)
  }

  lemma NormalWindowExactly(v: Window, w: Window)
    ensures NormalWindow(v) == NormalWindow(w) <==> WindowsAlike(v, w)
  {
    SameMinuteExactly(v.resets, w.resets);
  }

  lemma SameMinuteExactly(s: Option<Instant>, t: Option<Instant>)
    ensures Truncated(s) == Truncated(t) <==> SameMinute(s, t)
  {
    if s.Some? && t.Some? {
      TruncationKeepsTheMinute(s.value);
      TruncationKeepsTheMinute(t.value);
    }
  }

  /** Two mapped lists are one exactly when they agree place by place. */
  lemma MappedAlike<A, B>(f: A -> B, s: seq<A>, t: seq<A>)
    ensures Map(f, s) == Map(f, t) <==> |s| == |t| && forall i | 0 <= i < |s| :: f(s[i]) == f(t[i])
  {
    if Map(f, s) == Map(f, t) {
      forall i | 0 <= i < |s| ensures f(s[i]) == f(t[i]) { assert Map(f, s)[i] == Map(f, t)[i]; }
    }
  }

  lemma WindowListsExactly(s: seq<Window>, t: seq<Window>)
    ensures Map(NormalWindow, s) == Map(NormalWindow, t) <==>
            |s| == |t| && forall i | 0 <= i < |s| :: WindowsAlike(s[i], t[i])
  {
    MappedAlike(NormalWindow, s, t);
    forall i | 0 <= i < |s| && i < |t| ensures NormalWindow(s[i]) == NormalWindow(t[i]) <==> WindowsAlike(s[i], t[i]) {
      NormalWindowExactly(s[i], t[i]);
    }
  }

  lemma CardListsExactly(s: seq<Card>, t: seq<Card>)
    ensures Map(Truncated, s) == Map(Truncated, t) <==>
            |s| == |t| && forall i | 0 <= i < |s| :: SameMinute(s[i], t[i])
  {
    MappedAlike(Truncated, s, t);
    forall i | 0 <= i < |s| && i < |t| ensures Truncated(s[i]) == Truncated(t[i]) <==> SameMinute(s[i], t[i]) {
      SameMinuteExactly(s[i], t[i]);
    }
  }

  lemma NormalAccountExactly(a: Account, b: Account, cutCards: bool)
    ensures NormalAccount(a, cutCards) == NormalAccount(b, cutCards) <==> AccountsAlike(a, b, cutCards)
  {
    hide WindowsAlike, SameMinute;
    WindowListsExactly(a.windows, b.windows);
    CardListsExactly(Cards(a), Cards(b));
    if !cutCards {
      assert Cards(a) == Cards(b) <==>
             |Cards(a)| == |Cards(b)| && forall i | 0 <= i < |Cards(a)| :: Cards(a)[i] == Cards(b)[i];
    }
  }

  /**
    Two snapshots have one fingerprint exactly when they differ in nothing but observation times, used
    shares, account names and identities, sources other than the demo's, and times inside one minute;
    and one cache key exactly when their data times and card expiries agree too.
   */
  lemma FingerprintExactly(s: Snapshot, t: Snapshot)
    ensures Fingerprint(s) == Fingerprint(t) <==> SnapshotsAlike(s, t, true)
    ensures ContentKey(s) == ContentKey(t) <==> s.updatedAt == t.updatedAt && SnapshotsAlike(s, t, false)
  {
    NormalAccountsExactly(s, t, true);
    NormalAccountsExactly(s, t, false);
  }

  lemma NormalAccountsExactly(s: Snapshot, t: Snapshot, cutCards: bool)
    ensures NormalAccounts(s.accounts, cutCards) == NormalAccounts(t.accounts, cutCards) <==>
              && |s.accounts| == |t.accounts|
              && forall i | 0 <= i < |s.accounts| :: AccountsAlike(s.accounts[i], t.accounts[i], cutCards)
  {
    hide NormalAccount, AccountsAlike;
    forall i | 0 <= i < |s.accounts| && i < |t.accounts|
      ensures NormalAccount(s.accounts[i], cutCards) == NormalAccount(t.accounts[i], cutCards) <==>
              AccountsAlike(s.accounts[i], t.accounts[i], cutCards)
    {
      NormalAccountExactly(s.accounts[i], t.accounts[i], cutCards);
    }
    MappedAlike((a: Account) => NormalAccount(a, cutCards), s.accounts, t.accounts);
  }

  /** The loop both projections share: copies of the accounts, cleared field by field. */
  method CopyNormalised(accounts: seq<Account>, cutCards: bool) returns (copies: array<Account>)
    ensures copies[..] == NormalAccounts(accounts, cutCards)
    ensures fresh(copies)
  {
    copies := new Account[|accounts|](i requires 0 <= i < |accounts| => accounts[i]);
    for i := 0 to |accounts|
      invariant copies.Length == |accounts|
      invariant copies[..i] == NormalAccounts(accounts[..i], cutCards)
      invariant forall k | i <= k < |accounts| :: copies[k] == accounts[k]
    {
      var a := copies[i];
      var windows := new Window[|a.windows|](k requires 0 <= k < |a.windows| => a.windows[k]);
      for k := 0 to windows.Length
        invariant windows[..k] == Map(NormalWindow, a.windows[..k])
        invariant forall j | k <= j < windows.Length :: windows[j] == a.windows[j]
        invariant copies[..i] == NormalAccounts(accounts[..i], cutCards)
        invariant forall j | i <= j < |accounts| :: copies[j] == accounts[j]
      {
        var w := windows[k].(used := None, observed := None);
        if w.source != "demo" { w := w.(source := ""); }
        if w.resets.Some? { w := w.(resets := Some(TruncateMinute(w.resets.value))); }
        ghost var done := windows[..k];
        windows[k] := w;
        assert w == NormalWindow(a.windows[k]);
        assert windows[..k + 1] == done + [w];
      }
      assert windows[..] == windows[..windows.Length] && a.windows[..windows.Length] == a.windows;
      ghost var before := copies[..i];
      copies[i] := a.(retention := "", name := "", lastFresh := None, windows := windows[..],
                      cards := Some(if cutCards then Map(Truncated, Cards(a)) else Cards(a)));
      assert copies[i] == NormalAccount(accounts[i], cutCards);
      assert copies[..i + 1] == before + [copies[i]];
    }
    assert copies[..] == copies[..|accounts|] && accounts[..|accounts|] == accounts;
  }
}
