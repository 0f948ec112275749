/**
  Rows, windows and reset cards of internal/dashboard/layout.go: what is chosen from the accounts
  for the frame, and why none of it depends on what the two projections of Quota clear.
 */
module Layout {
  import opened Wrappers
  import opened Lists
  import opened Quota

  datatype Provider = Provider(ids: seq<string>, group: string, title: string)

  const DEFAULT_PROVIDERS: seq<Provider> :=
    [Provider(["codex"], "codex", "CODEX"), Provider(["xai"], "xai", "GROK"), Provider(["kimi"], "kimi", "KIMI")]

  function Shown(providers: seq<Provider>): seq<Provider> {
    if providers == [] then DEFAULT_PROVIDERS else providers
  }

  // ---------------------------------------------------------------- windows

  datatype DisplayWindow = DisplayWindow(title: string, remaining: Option<real>, resets: Option<Instant>)

  function Lower(current: DisplayWindow, w: Window): DisplayWindow {
    if w.remaining.Some? && (current.remaining.None? || w.remaining.value < current.remaining.value) then
      current.(remaining := w.remaining, resets := w.resets)
    else current
  }

  /** Each window identity with its title and its lowest remaining share so far. */
  function ById(ws: seq<Window>): map<string, DisplayWindow>
    decreases |ws|
  {
    if ws == [] then map[]
    else
      var m, w := ById(ws[..|ws| - 1]), ws[|ws| - 1];
      m[w.id := Lower(if w.id in m then m[w.id] else DisplayWindow(w.title, None, None), w)]
  }

  function Ids(ws: seq<Window>): seq<string> { Map((w: Window) => w.id, ws) }

  function Preferred(group: string): seq<string> {
    if group in ["codex", "kimi", "claude", "antigravity"] then ["5h", "7d"]
    else if group == "opencode" then ["5h", "7d", "1m"]
    else []
  }

  function Limit(group: string): nat { if group == "opencode" then 3 else 2 }

  function Take<A>(s: seq<A>, n: nat): seq<A> { if |s| > n then s[..n] else s }

  /** Which windows a row shows: preferred identities first, then first come, each once. */
  function Arranged(group: string, known: set<string>, order: seq<string>): seq<string> {
    Take(Distinct(Filter((id: string) => id in known, Preferred(group) + order)), Limit(group))
  }

  function Looked(m: map<string, DisplayWindow>, id: string): DisplayWindow {
    if id in m then m[id] else DisplayWindow("", None, None)
  }

  function DisplayWindows(group: string, ws: seq<Window>): seq<DisplayWindow> {
    var m := ById(ws);
    Map((id: string) => Looked(m, id), Arranged(group, m.Keys, Distinct(Ids(ws))))
  }

  function Flat(accounts: seq<Account>): seq<Window>
    decreases |accounts|
  {
    if accounts == [] then [] else Flat(accounts[..|accounts| - 1]) + accounts[|accounts| - 1].windows
  }

  lemma OneMoreWindow(ws: seq<Window>, w: Window)
    ensures ById(ws + [w]) ==
            ById(ws)[w.id := Lower(if w.id in ById(ws) then ById(ws)[w.id] else DisplayWindow(w.title, None, None), w)]
    ensures Distinct(Ids(ws + [w])) ==
            if w.id in Distinct(Ids(ws)) then Distinct(Ids(ws)) else Distinct(Ids(ws)) + [w.id]
  {
    var longer := ws + [w];
    assert longer[..|longer| - 1] == ws;
    assert Ids(longer) == Ids(ws) + [w.id] && Ids(longer)[..|Ids(longer)| - 1] == Ids(ws);
  }

  method CollectWindows(accounts: seq<Account>) returns (byId: map<string, DisplayWindow>, order: seq<string>)
    ensures byId == ById(Flat(accounts)) && order == Distinct(Ids(Flat(accounts)))
  {
    hide ById, Ids, Lower;
    byId, order := map[], [];
    ghost var ws: seq<Window> := [];
    NoWindows();
    for i := 0 to |accounts|
      invariant ws == Flat(accounts[..i]) && byId == ById(ws) && order == Distinct(Ids(ws))
    {
      Grow(accounts, i);
      var windows := accounts[i].windows;
      ghost var before := ws;
      for j := 0 to |windows|
        invariant ws == before + windows[..j] && byId == ById(ws) && order == Distinct(Ids(ws))
      {
        var w := windows[j];
        var current := if w.id in byId then byId[w.id] else DisplayWindow(w.title, None, None);
        OneMoreWindow(ws, w);
        OrderNamesTheKnown(ws);
        if w.id !in byId { order := order + [w.id]; }
        byId := byId[w.id := Lower(current, w)];
        Grow(windows, j);
        ws := ws + [w];
      }
      assert windows[..|windows|] == windows;
    }
    assert accounts[..|accounts|] == accounts;
  }

  lemma NoWindows()
    ensures ById([]) == map[] && Distinct(Ids([])) == []
  {
  }

  lemma {:induction false} OrderNamesTheKnown(ws: seq<Window>)
    ensures forall id :: id in Distinct(Ids(ws)) <==> id in ById(ws)
    decreases |ws|
  {
    if ws == [] {
      NoWindows();
      return;
    }
    var init, w := ws[..|ws| - 1], ws[|ws| - 1];
    OneMoreWindow(init, w);
    assert ws == init + [w];
    hide ById, Ids, Lower, Distinct;
    OrderNamesTheKnown(init);
  }

  lemma OneMoreId(test: string -> bool, all: seq<string>, i: nat)
    requires i < |all|
    ensures var before := Distinct(Filter(test, all[..i]));
            Distinct(Filter(test, all[..i + 1])) ==
            if test(all[i]) && all[i] !in before then before + [all[i]] else before
  {
    Grow(all, i);
    var picked, longer := Filter(test, all[..i]), Filter(test, all[..i + 1]);
    if test(all[i]) { assert longer[..|longer| - 1] == picked && longer[|longer| - 1] == all[i]; }
  }

  lemma NothingArranged(test: string -> bool)
    ensures Distinct(Filter(test, [])) == []
  {
  }

  method Arrange(group: string, byId: map<string, DisplayWindow>, order: seq<string>) returns (ordered: seq<string>)
    ensures ordered == Arranged(group, byId.Keys, order)
  {
    hide Preferred, Limit, Distinct, Filter;
    var known := byId.Keys;
    ghost var test := (id: string) => id in known;
    var all := Preferred(group) + order;
    ordered := [];
    NothingArranged(test);
    for i := 0 to |all|
      invariant ordered == Distinct(Filter(test, all[..i]))
    {
      OneMoreId(test, all, i);
      if all[i] in byId && all[i] !in ordered { ordered := ordered + [all[i]]; }
    }
    assert all[..|all|] == all;
    if |ordered| > Limit(group) { ordered := ordered[..Limit(group)]; }
  }

  method AggregateWindows(group: string, accounts: seq<Account>) returns (result: seq<DisplayWindow>)
    ensures result == DisplayWindows(group, Flat(accounts))
  {
    hide ById, Ids, Flat, Arranged;
    var byId, order := CollectWindows(accounts);
    var ordered := Arrange(group, byId, order);
    result := [];
    for i := 0 to |ordered|
      invariant result == Map((id: string) => Looked(byId, id), ordered[..i])
    {
      Grow(ordered, i);
      result := result + [Looked(byId, ordered[i])];
    }
    assert ordered[..|ordered|] == ordered;
  }

  lemma {:induction false} EarlierComesFirst(p: string -> bool, a: seq<string>, b: seq<string>)
    ensures Distinct(Filter(p, a)) <= Distinct(Filter(p, a + b))
    decreases |b|
  {
    if b == [] {
      assert a + b == a;
    } else {
      assert (a + b)[..|a + b| - 1] == a + b[..|b| - 1];
      EarlierComesFirst(p, a, b[..|b| - 1]);
    }
  }

  lemma {:induction false} FilterIsShorter(p: string -> bool, s: seq<string>)
    ensures |Distinct(Filter(p, s))| <= |Filter(p, s)| <= |s|
    ensures forall x: string | x in s && p(x) :: x in Filter(p, s)
    decreases |s|
  {
    if s != [] {
      FilterIsShorter(p, s[..|s| - 1]);
      assert s == s[..|s| - 1] + [s[|s| - 1]];
    }
  }

  /** A row never loses a preferred window to another, shows none twice and none that nobody reported. */
  lemma PreferredWindowsAreShown(group: string, known: set<string>, order: seq<string>)
    ensures var shown := Arranged(group, known, order);
            && |shown| <= Limit(group)
            && (forall i, j | 0 <= i < j < |shown| :: shown[i] != shown[j])
            && (forall id | id in shown :: id in known)
            && (forall id | id in Preferred(group) && id in known :: id in shown)
  {
    PreferredLead(group, known, order);
    hide Preferred, Limit, Filter, Distinct;
    var test := (id: string) => id in known;
    var lead, all, shown := Filter(test, Preferred(group)), Filter(test, Preferred(group) + order),
                            Arranged(group, known, order);
    FilterSelects(test, Preferred(group));
    FilterSelects(test, Preferred(group) + order);
    assert shown <= Distinct(all) && lead <= shown;
    forall i | 0 <= i < |shown| ensures shown[i] == Distinct(all)[i] && shown[i] in all {
      assert Distinct(all)[i] in Distinct(all);
    }
    forall id | id in lead ensures id in shown {
      var i :| 0 <= i < |lead| && lead[i] == id;
      assert shown[i] == id;
    }
  }

  /**
    The identities shown are the first to come up, preferred ones before all others, and one is left
    out only when the row is full.
   */
  lemma ShownInOrder(group: string, known: set<string>, order: seq<string>)
    ensures var shown := Arranged(group, known, order); var all := Preferred(group) + order;
      && (forall i, j | 0 <= i < j < |shown| :: Sooner(all, shown[i], shown[j]))
      && (forall id | id in known && id in order && id !in shown ::
            |shown| == Limit(group) && forall i | 0 <= i < |shown| :: Sooner(all, shown[i], id))
  {
    hide Preferred;
    var test := (id: string) => id in known;
    var all := Preferred(group) + order;
    var picked := Filter(test, all);
    var once, shown := Distinct(picked), Arranged(group, known, order);
    FilterSelects(test, all);
    assert shown <= once && forall i | 0 <= i < |shown| :: shown[i] == once[i];
    forall i, j | 0 <= i < |shown| && i < j < |once| ensures Sooner(all, once[i], once[j]) {
      assert once[j] !in once[..i + 1] && once[j] in once && once[j] in picked;
      SoonerOfDistinct(picked, once[i], once[j]);
      SoonerOfFilter(test, all, once[i], once[j]);
    }
    forall id | id in known && id in order && id !in shown
      ensures |shown| == Limit(group) && forall i | 0 <= i < |shown| :: Sooner(all, shown[i], id)
    {
      assert id in all && id in picked && id in once;
      assert forall k | 0 <= k < |shown| :: shown[k] in shown;
      var j :| 0 <= j < |once| && once[j] == id;
    }
  }

  /** The groups with fixed windows lead with them, in this order; the others show what comes first. */
  lemma FixedWindowsLead(group: string, known: set<string>, order: seq<string>)
    ensures var test := (id: string) => id in known; var shown := Arranged(group, known, order);
      && (group in ["codex", "kimi", "claude", "antigravity"] ==> Filter(test, ["5h", "7d"]) <= shown && |shown| <= 2)
      && (group == "opencode" ==> Filter(test, ["5h", "7d", "1m"]) <= shown && |shown| <= 3)
      && (group !in ["codex", "kimi", "claude", "antigravity", "opencode"] ==> |shown| <= 2 && Preferred(group) == [])
  {
    hide Filter, Arranged;
    PreferredLead(group, known, order);
  }

  lemma PreferredAreDistinct(group: string)
    ensures |Preferred(group)| <= Limit(group)
    ensures forall i, j | 0 <= i < j < |Preferred(group)| :: Preferred(group)[i] != Preferred(group)[j]
  {
  }

  lemma PreferredLead(group: string, known: set<string>, order: seq<string>)
    ensures Filter((id: string) => id in known, Preferred(group)) <= Arranged(group, known, order)
    ensures |Arranged(group, known, order)| <= Limit(group)
  {
    var test := (id: string) => id in known;
    var preferred, limit := Preferred(group), Limit(group);
    PreferredAreDistinct(group);
    hide Preferred, Limit;
    EarlierComesFirst(test, preferred, order);
    FilterIsShorter(test, preferred);
    KeptOnce(test, preferred);
    assert Filter(test, preferred) <= Distinct(Filter(test, preferred + order));
  }

  lemma {:induction false} KeptOnce(p: string -> bool, s: seq<string>)
    requires forall i, j | 0 <= i < j < |s| :: s[i] != s[j]
    ensures Distinct(Filter(p, s)) == Filter(p, s)
    decreases |s|
  {
    if s != [] {
      var init, last := s[..|s| - 1], s[|s| - 1];
      KeptOnce(p, init);
      FilterSelects(p, init);
      assert last !in init;
      var picked := Filter(p, s);
      assert p(last) ==> picked[..|picked| - 1] == Filter(p, init) && picked[|picked| - 1] == last;
    }
  }

  ghost predicate Reports(w: Window, id: string) { w.id == id && w.remaining.Some? }

  lemma OneMoreOf(ws: seq<Window>, n: nat)
    requires n < |ws|
    ensures var m, w := ById(ws[..n]), ws[n];
            ById(ws[..n + 1]) == m[w.id := Lower(if w.id in m then m[w.id] else DisplayWindow(w.title, None, None), w)]
  {
    Grow(ws, n);
    OneMoreWindow(ws[..n], ws[n]);
  }

  lemma {:induction false} LowestIsBelow(ws: seq<Window>, n: nat, id: string, j: nat)
    requires j < n <= |ws| && ws[j].id == id
    ensures id in ById(ws[..n])
    ensures ws[j].remaining.Some? ==>
              ById(ws[..n])[id].remaining.Some? && ById(ws[..n])[id].remaining.value <= ws[j].remaining.value
  {
    hide ById;
    OneMoreOf(ws, n - 1);
    if j < n - 1 { LowestIsBelow(ws, n - 1, id, j); }
  }

  lemma {:induction false} LowestIsReported(ws: seq<Window>, n: nat, id: string) returns (k: nat)
    requires 0 < n <= |ws| && id in ById(ws[..n]) && ById(ws[..n])[id].remaining.Some?
    ensures k < n && Reports(ws[k], id)
    ensures ws[k].remaining == ById(ws[..n])[id].remaining && ws[k].resets == ById(ws[..n])[id].resets
    ensures forall j | 0 <= j < k && Reports(ws[j], id) :: ws[j].remaining.value > ws[k].remaining.value
  {
    NoWindows();
    assert ws[..0] == [];
    hide ById;
    OneMoreOf(ws, n - 1);
    if id in ById(ws[..n - 1]) && ById(ws[..n - 1])[id] == ById(ws[..n])[id] {
      hide Lower;
      k := LowestIsReported(ws, n - 1, id);
    } else {
      k := n - 1;
      assert Reports(ws[k], id) && ws[k].remaining == ById(ws[..n])[id].remaining;
      forall j | 0 <= j < n - 1 && Reports(ws[j], id) ensures ws[j].remaining.value > ws[k].remaining.value {
        LowestIsBelow(ws, n - 1, id, j);
      }
    }
  }

  /** A window has the title it is first reported with. */
  lemma {:induction false} TitleIsReported(ws: seq<Window>, n: nat, id: string) returns (k: nat)
    requires 0 < n <= |ws| && id in ById(ws[..n])
    ensures k < n && ws[k].id == id && ws[k].title == ById(ws[..n])[id].title
    ensures forall j | 0 <= j < k :: ws[j].id != id
  {
    NoWindows();
    assert ws[..0] == [];
    hide ById;
    OneMoreOf(ws, n - 1);
    if id in ById(ws[..n - 1]) {
      k := TitleIsReported(ws, n - 1, id);
    } else {
      k := n - 1;
      forall j | 0 <= j < n - 1 ensures ws[j].id != id {
        if ws[j].id == id { LowestIsBelow(ws, n - 1, id, j); }
      }
    }
  }

  /** A window shows the lowest remaining share any account reports, with the reset of the first that does. */
  lemma LowestIsShown(ws: seq<Window>, id: string)
    ensures id in ById(ws) <==> id in Ids(ws)
    ensures forall k | 0 <= k < |ws| && Reports(ws[k], id) ::
              id in ById(ws) && ById(ws)[id].remaining.Some? && ById(ws)[id].remaining.value <= ws[k].remaining.value
    ensures id in ById(ws) && ById(ws)[id].remaining.Some? ==>
              exists k :: 0 <= k < |ws| && Reports(ws[k], id) &&
                ws[k].remaining == ById(ws)[id].remaining && ws[k].resets == ById(ws)[id].resets &&
                forall j | 0 <= j < k && Reports(ws[j], id) :: ws[j].remaining.value > ws[k].remaining.value
  {
    hide ById, Ids;
    OrderNamesTheKnown(ws);
    NoWindows();
    assert ws[..|ws|] == ws;
    forall k | 0 <= k < |ws| && Reports(ws[k], id)
      ensures id in ById(ws) && ById(ws)[id].remaining.Some? && ById(ws)[id].remaining.value <= ws[k].remaining.value
    {
      LowestIsBelow(ws, |ws|, id, k);
    }
    if id in ById(ws) && ById(ws)[id].remaining.Some? { var k := LowestIsReported(ws, |ws|, id); }
  }

  // ---------------------------------------------------------------- reset cards

  /** Soonest expiry first; cards that never expire sort last. */
  predicate CardBefore(a: Card, b: Card) { a.Some? && (b.None? || a.value < b.value) }

  function Insert(sorted: seq<Card>, c: Card): (r: seq<Card>)
    ensures |r| == |sorted| + 1
    decreases |sorted|
  {
    if sorted == [] then [c]
    else
      var n := |sorted| - 1;
      if CardBefore(c, sorted[n]) then Insert(sorted[..n], c) + [sorted[n]] else sorted + [c]
  }

  function StableSort(cards: seq<Card>): (r: seq<Card>)
    ensures |r| == |cards|
    decreases |cards|
  {
    if cards == [] then [] else Insert(StableSort(cards[..|cards| - 1]), cards[|cards| - 1])
  }

  function AllCards(accounts: seq<Account>): seq<Card>
    decreases |accounts|
  {
    if accounts == [] then [] else AllCards(accounts[..|accounts| - 1]) + Cards(accounts[|accounts| - 1])
  }

  method AggregateResetCards(accounts: seq<Account>) returns (cards: seq<Card>)
    ensures cards == StableSort(AllCards(accounts))
  {
    cards := [];
    for i := 0 to |accounts|
      invariant cards == AllCards(accounts[..i])
    {
      Grow(accounts, i);
      cards := cards + Cards(accounts[i]);
    }
    assert accounts[..|accounts|] == accounts;
    cards := StableSort(cards);
  }

  ghost predicate Sorted(s: seq<Card>) { forall i, j | 0 <= i < j < |s| :: !CardBefore(s[j], s[i]) }

  lemma {:induction false} InsertKeepsCards(sorted: seq<Card>, c: Card)
    ensures multiset(Insert(sorted, c)) == multiset(sorted) + multiset{c}
    decreases |sorted|
  {
    if sorted != [] {
      var n := |sorted| - 1;
      assert sorted == sorted[..n] + [sorted[n]];
      if CardBefore(c, sorted[n]) { InsertKeepsCards(sorted[..n], c); }
    }
  }

  lemma {:induction false} InsertSorted(sorted: seq<Card>, c: Card)
    requires Sorted(sorted)
    ensures Sorted(Insert(sorted, c))
    ensures forall i | 0 <= i <= |sorted| :: Insert(sorted, c)[i] == c || Insert(sorted, c)[i] in sorted
    decreases |sorted|
  {
    if sorted != [] {
      var n := |sorted| - 1;
      if CardBefore(c, sorted[n]) {
        var init := sorted[..n];
        InsertSorted(init, c);
        forall i | 0 <= i <= n
          ensures !CardBefore(sorted[n], Insert(init, c)[i])
          ensures Insert(init, c)[i] == c || Insert(init, c)[i] in sorted
        {
          if Insert(init, c)[i] != c {
            var k :| 0 <= k < n && init[k] == Insert(init, c)[i];
            assert sorted[k] == init[k];
          }
        }
      }
    }
  }

  lemma {:induction false} StableSortSorts(cards: seq<Card>)
    ensures Sorted(StableSort(cards)) && multiset(StableSort(cards)) == multiset(cards)
    decreases |cards|
  {
    if cards != [] {
      var n := |cards| - 1;
      StableSortSorts(cards[..n]);
      InsertSorted(StableSort(cards[..n]), cards[n]);
      InsertKeepsCards(StableSort(cards[..n]), cards[n]);
      assert cards == cards[..n] + [cards[n]];
    }
  }

  lemma CutKeepsOrder(a: Card, b: Card)
    ensures !CardBefore(a, b) ==> !CardBefore(Truncated(a), Truncated(b))
  {
    if a.Some? && b.Some? && b.value <= a.value { TruncationIsMonotone(b.value, a.value); }
  }

  lemma {:induction false} CutCommutesWithInsert(sorted: seq<Card>, c: Card)
    requires Sorted(sorted)
    ensures Map(Truncated, Insert(sorted, c)) == Insert(Map(Truncated, sorted), Truncated(c))
    decreases |sorted|
  {
    if sorted != [] {
      var n := |sorted| - 1;
      var init, x := sorted[..n], sorted[n];
      MapSnoc(Truncated, sorted);
      MapConcat(Truncated, sorted, [c]);
      CutKeepsOrder(c, x);
      if CardBefore(c, x) {
        CutCommutesWithInsert(init, c);
        MapConcat(Truncated, Insert(init, c), [x]);
        CutKeepsOrder(x, c);
        if !CardBefore(Truncated(c), Truncated(x)) {
          // Both fall in one minute: whichever order they had, the same minutes are listed.
          assert Truncated(x) == Truncated(c);
          if n > 0 { CutKeepsOrder(x, init[n - 1]); }
        }
      }
    }
  }

  /** Cutting expiries to the minute before or after sorting lists the same minutes. */
  lemma {:induction false} CutCommutesWithSort(cards: seq<Card>)
    ensures Map(Truncated, StableSort(cards)) == StableSort(Map(Truncated, cards))
    decreases |cards|
  {
    if cards != [] {
      var n := |cards| - 1;
      MapSnoc(Truncated, cards);
      StableSortSorts(cards[..n]);
      CutCommutesWithSort(cards[..n]);
      CutCommutesWithInsert(StableSort(cards[..n]), cards[n]);
    }
  }

  // ---------------------------------------------------------------- rows

  function Rank(status: string): nat {
    if status == "error" then 5
    else if status == "exhausted" then 4
    else if status == "low" then 3
    else if status == "disabled" then 2
    else if status == "unknown" then 1
    else 0
  }

  function Worst(accounts: seq<Account>): string
    decreases |accounts|
  {
    if accounts == [] then "ok"
    else
      var worst, a := Worst(accounts[..|accounts| - 1]), accounts[|accounts| - 1];
      if Rank(a.status) > Rank(worst) then a.status else worst
  }

  function Matching(ids: seq<string>, accounts: seq<Account>): seq<Account> {
    Filter((a: Account) => a.provider in ids, accounts)
  }

  function Effective(matching: seq<Account>): seq<Account> {
    var enabled := Filter((a: Account) => a.status != "disabled", matching);
    if |enabled| > 0 then enabled else matching
  }

  predicate AnyStale(accounts: seq<Account>) {
    exists i | 0 <= i < |accounts| :: accounts[i].stale || accounts[i].warning != ""
  }

  function Plans(accounts: seq<Account>): seq<string> {
    Distinct(Filter((p: string) => p != "", Map((a: Account) => a.plan, accounts)))
  }

  /** The text under a provider: how many accounts, how many of them count, and their one plan. */
  datatype Detail = NoAccount | Accounts(effective: nat, total: nat, plan: Option<string>)

  datatype DisplayRow = DisplayRow(provider: Provider, detail: Detail, plan: string, status: string, stale: bool,
                                   windows: seq<DisplayWindow>, cards: seq<Card>)

  function RowFor(provider: Provider, accounts: seq<Account>): DisplayRow {
    var matching := Matching(provider.ids, accounts);
    if matching == [] then DisplayRow(provider, NoAccount, "", "missing", false, [], [])
    else
      var effective := Effective(matching);
      var plans := Plans(effective);
      var plan := if |plans| == 1 then Some(plans[0]) else None;
      DisplayRow(provider, Accounts(|effective|, |matching|, plan), plan.GetOr(""), Worst(effective),
                 AnyStale(effective), DisplayWindows(provider.group, Flat(effective)), StableSort(AllCards(effective)))
  }

  function Rows(providers: seq<Provider>, accounts: seq<Account>): seq<DisplayRow> {
    Map((p: Provider) => RowFor(p, accounts), Shown(providers))
  }

  method Select(ids: seq<string>, accounts: seq<Account>) returns (matching: seq<Account>, effective: seq<Account>)
    ensures matching == Matching(ids, accounts) && effective == Effective(matching)
  {
    var mine, on := (a: Account) => a.provider in ids, (a: Account) => a.status != "disabled";
    matching := [];
    for i := 0 to |accounts|
      invariant matching == Filter(mine, accounts[..i])
    {
      Grow(accounts, i);
      if accounts[i].provider in ids { matching := matching + [accounts[i]]; }
    }
    assert accounts[..|accounts|] == accounts;
    var enabled: seq<Account> := [];
    for i := 0 to |matching|
      invariant enabled == Filter(on, matching[..i])
    {
      Grow(matching, i);
      if matching[i].status != "disabled" { enabled := enabled + [matching[i]]; }
    }
    assert matching[..|matching|] == matching;
    effective := if |enabled| > 0 then enabled else matching;
  }

  lemma OneMoreAccount(accounts: seq<Account>, i: nat)
    requires i < |accounts|
    ensures var a, init, longer := accounts[i], accounts[..i], accounts[..i + 1];
            && Worst(longer) == (if Rank(a.status) > Rank(Worst(init)) then a.status else Worst(init))
            && AnyStale(longer) == (AnyStale(init) || a.stale || a.warning != "")
            && Plans(longer) == if a.plan != "" && a.plan !in Plans(init) then Plans(init) + [a.plan] else Plans(init)
  {
    var init, longer := accounts[..i], accounts[..i + 1];
    Grow(accounts, i);
    MapSnoc((a: Account) => a.plan, longer);
    if AnyStale(init) {
      var k :| 0 <= k < i && (init[k].stale || init[k].warning != "");
      assert longer[k] == init[k];
    }
    assert longer[i] == accounts[i];
  }

  method Summarise(effective: seq<Account>) returns (status: string, stale: bool, plans: seq<string>)
    ensures status == Worst(effective) && stale == AnyStale(effective) && plans == Plans(effective)
  {
    hide Worst, AnyStale, Plans, Rank;
    status, stale, plans := "ok", false, [];
    NoAccounts();
    for i := 0 to |effective|
      invariant status == Worst(effective[..i]) && stale == AnyStale(effective[..i]) && plans == Plans(effective[..i])
    {
      var a := effective[i];
      OneMoreAccount(effective, i);
      if Rank(a.status) > Rank(status) { status := a.status; }
      if a.plan != "" && a.plan !in plans { plans := plans + [a.plan]; }
      if a.stale || a.warning != "" { stale := true; }
    }
    assert effective[..|effective|] == effective;
  }

  lemma NoAccounts()
    ensures Worst([]) == "ok" && !AnyStale([]) && Plans([]) == []
  {
  }

  method AggregateRow(provider: Provider, accounts: seq<Account>) returns (row: DisplayRow)
    ensures row == RowFor(provider, accounts)
  {
    hide Worst, AnyStale, Plans, Matching, Effective, DisplayWindows, Flat, StableSort, AllCards;
    var matching, effective := Select(provider.ids, accounts);
    if |matching| == 0 { return DisplayRow(provider, NoAccount, "", "missing", false, [], []); }
    var status, stale, plans := Summarise(effective);
    var windows := AggregateWindows(provider.group, effective);
    var cards := AggregateResetCards(effective);
    var plan := if |plans| == 1 then Some(plans[0]) else None;
    row := DisplayRow(provider, Accounts(|effective|, |matching|, plan), plan.GetOr(""), status, stale, windows, cards);
  }

  method AggregateRows(providers: seq<Provider>, accounts: seq<Account>) returns (rows: seq<DisplayRow>)
    ensures rows == Rows(providers, accounts)
  {
    var shown := Shown(providers);
    rows := [];
    for i := 0 to |shown|
      invariant rows == Map((p: Provider) => RowFor(p, accounts), shown[..i])
    {
      Grow(shown, i);
      var row := AggregateRow(shown[i], accounts);
      rows := rows + [row];
    }
    assert shown[..|shown|] == shown;
  }

  lemma OneMoreStatus(accounts: seq<Account>, i: nat)
    requires i < |accounts|
    ensures Worst(accounts[..i + 1]) ==
            if Rank(accounts[i].status) > Rank(Worst(accounts[..i])) then accounts[i].status else Worst(accounts[..i])
  {
    Grow(accounts, i);
  }

  lemma {:induction false} WorstIsAbove(accounts: seq<Account>, n: nat, i: nat)
    requires i < n <= |accounts|
    ensures Rank(accounts[i].status) <= Rank(Worst(accounts[..n]))
  {
    OneMoreStatus(accounts, n - 1);
    hide Worst, Rank;
    if i < n - 1 { WorstIsAbove(accounts, n - 1, i); }
  }

  lemma {:induction false} WorstIsSomeones(accounts: seq<Account>, n: nat) returns (k: nat)
    requires n <= |accounts|
    ensures Worst(accounts[..n]) == "ok" || (k < n && accounts[k].status == Worst(accounts[..n]))
  {
    k := 0;
    if n > 0 {
      OneMoreStatus(accounts, n - 1);
      hide Worst, Rank;
      k := WorstIsSomeones(accounts, n - 1);
      if Rank(accounts[n - 1].status) > Rank(Worst(accounts[..n - 1])) { k := n - 1; }
    }
  }

  /** A row's status is the worst of its accounts, "ok" when none is worse. */
  lemma {:induction false} WorstIsWorst(accounts: seq<Account>)
    ensures forall i | 0 <= i < |accounts| :: Rank(accounts[i].status) <= Rank(Worst(accounts))
    ensures Worst(accounts) == "ok" || exists i :: 0 <= i < |accounts| && accounts[i].status == Worst(accounts)
  {
    hide Worst, Rank;
    assert accounts[..|accounts|] == accounts;
    forall i | 0 <= i < |accounts| ensures Rank(accounts[i].status) <= Rank(Worst(accounts)) {
      WorstIsAbove(accounts, |accounts|, i);
    }
    var k := WorstIsSomeones(accounts, |accounts|);
  }

  // ---------------------------------------------------------------- the accounts that count

  predicate Mine(provider: Provider, a: Account) { a.provider in provider.ids }

  predicate AnyEnabled(provider: Provider, accounts: seq<Account>) {
    exists a :: a in accounts && Mine(provider, a) && a.status != "disabled"
  }

  /** The account counts for the row: it is enabled, or no account of the provider is. */
  predicate Counts(provider: Provider, accounts: seq<Account>, a: Account) {
    a in accounts && Mine(provider, a) && (AnyEnabled(provider, accounts) ==> a.status != "disabled")
  }

  function Effectives(provider: Provider, accounts: seq<Account>): seq<Account> {
    Effective(Matching(provider.ids, accounts))
  }

  function CountTest(provider: Provider, accounts: seq<Account>): Account -> bool {
    var any := AnyEnabled(provider, accounts);
    (a: Account) => a.provider in provider.ids && (any ==> a.status != "disabled")
  }

  lemma EffectivesAreTested(provider: Provider, accounts: seq<Account>)
    ensures Effectives(provider, accounts) == Filter(CountTest(provider, accounts), accounts)
  {
    hide Filter;
    var mine, on := (a: Account) => a.provider in provider.ids, (a: Account) => a.status != "disabled";
    var counts, matching := CountTest(provider, accounts), Matching(provider.ids, accounts);
    var enabled := Filter(on, matching);
    FilterSelects(mine, accounts);
    FilterSelects(on, matching);
    if enabled != [] { assert enabled[0] in enabled && AnyEnabled(provider, accounts); }
    if AnyEnabled(provider, accounts) {
      var a :| a in accounts && Mine(provider, a) && a.status != "disabled";
      assert a in matching && a in enabled;
      FilterFilter(mine, on, counts, accounts);
    } else {
      FilterAlike(mine, counts, accounts);
    }
  }

  lemma EffectivesCount(provider: Provider, accounts: seq<Account>)
    ensures forall a :: a in Effectives(provider, accounts) <==> Counts(provider, accounts, a)
    ensures |Effectives(provider, accounts)| == |set i | 0 <= i < |accounts| && Counts(provider, accounts, accounts[i])|
    ensures |Matching(provider.ids, accounts)| == |set i | 0 <= i < |accounts| && Mine(provider, accounts[i])|
  {
    hide Filter, AnyEnabled;
    var mine, counts := (a: Account) => a.provider in provider.ids, CountTest(provider, accounts);
    EffectivesAreTested(provider, accounts);
    FilterSelects(counts, accounts);
    FilterCounts(counts, accounts);
    FilterCounts(mine, accounts);
    assert Places(counts, accounts) ==
           (set i | 0 <= i < |accounts| && Counts(provider, accounts, accounts[i]));
    assert Places(mine, accounts) ==
           (set i | 0 <= i < |accounts| && Mine(provider, accounts[i]));
  }

  /** The accounts without the disabled ones of the provider. */
  function WithoutDisabled(provider: Provider, accounts: seq<Account>): seq<Account> {
    Filter((a: Account) => !(a.provider in provider.ids && a.status == "disabled"), accounts)
  }

  /**
    While any account of the provider is enabled, its disabled accounts show in the total alone:
    without them the row is the same and the total is the number of accounts that count.
   */
  lemma DisabledShowOnlyInTheTotal(provider: Provider, accounts: seq<Account>)
    requires AnyEnabled(provider, accounts)
    ensures var row, without := RowFor(provider, accounts), RowFor(provider, WithoutDisabled(provider, accounts));
      && row.detail.Accounts? && without.detail.Accounts?
      && without == row.(detail := row.detail.(total := row.detail.effective))
  {
    hide DisplayWindows, Flat, StableSort, AllCards, Worst, AnyStale, Plans;
    var mine, on := (a: Account) => a.provider in provider.ids, (a: Account) => a.status != "disabled";
    var kept := (a: Account) => !(a.provider in provider.ids && a.status == "disabled");
    var both := (a: Account) => a.provider in provider.ids && a.status != "disabled";
    var matching := Matching(provider.ids, accounts);
    var fewer := Matching(provider.ids, WithoutDisabled(provider, accounts));
    FilterFilter(mine, on, both, accounts);
    FilterFilter(kept, mine, both, accounts);
    assert fewer == Filter(on, matching);
    FilterAll(on, fewer);
    var a :| a in accounts && Mine(provider, a) && a.status != "disabled";
    FilterSelects(both, accounts);
    assert a in fewer;
    EffectivesCount(provider, accounts);
    assert matching != [];
  }

  // ---------------------------------------------------------------- what a row shows

  const SEVERITIES: seq<string> := ["error", "exhausted", "low", "disabled", "unknown"]

  /** Some account that counts has this status. */
  ghost predicate SomeHas(provider: Provider, accounts: seq<Account>, status: string) {
    exists a :: Counts(provider, accounts, a) && a.status == status
  }

  /** The most severe status of an account that counts, "ok" when none has a severe one. */
  ghost predicate ShowsTheWorst(status: string, provider: Provider, accounts: seq<Account>) {
    || (exists k :: 0 <= k < |SEVERITIES| && status == SEVERITIES[k] && SomeHas(provider, accounts, SEVERITIES[k])
          && forall m | 0 <= m < k :: !SomeHas(provider, accounts, SEVERITIES[m]))
    || (status == "ok" && forall k | 0 <= k < |SEVERITIES| :: !SomeHas(provider, accounts, SEVERITIES[k]))
  }

  lemma StatusIsTheWorst(provider: Provider, accounts: seq<Account>)
    requires exists a :: a in accounts && Mine(provider, a)
    ensures ShowsTheWorst(RowFor(provider, accounts).status, provider, accounts)
  {
    hide Effective, Matching, DisplayWindows, Flat, StableSort, AllCards, AnyStale, Plans, Worst, Counts;
    EffectivesCount(provider, accounts);
    var effective := Effectives(provider, accounts);
    ProviderIsThere(provider, accounts);
    WorstIsWorst(effective);
    var status := Worst(effective);
    assert RowFor(provider, accounts).status == status;
    forall k | 0 <= k < |SEVERITIES| && SomeHas(provider, accounts, SEVERITIES[k])
      ensures Rank(SEVERITIES[k]) <= Rank(status)
    {
      var a :| Counts(provider, accounts, a) && a.status == SEVERITIES[k];
      assert a in effective;
    }
    assert forall k | 0 <= k < |SEVERITIES| :: Rank(SEVERITIES[k]) == 5 - k;
    if status != "ok" {
      var i :| 0 <= i < |effective| && effective[i].status == status;
      assert effective[i] in effective && SomeHas(provider, accounts, status);
      WorstIsSevere(effective);
      assert status == SEVERITIES[5 - Rank(status)];
    }
  }

  lemma ProviderIsThere(provider: Provider, accounts: seq<Account>)
    ensures Matching(provider.ids, accounts) != [] <==> exists a :: a in accounts && Mine(provider, a)
  {
    FilterSelects((a: Account) => a.provider in provider.ids, accounts);
    var matching := Matching(provider.ids, accounts);
    if matching != [] { assert matching[0] in accounts && Mine(provider, matching[0]); }
  }

  lemma {:induction false} WorstIsSevere(accounts: seq<Account>)
    ensures Worst(accounts) == "ok" || Rank(Worst(accounts)) > 0
    decreases |accounts|
  {
    if accounts != [] { WorstIsSevere(accounts[..|accounts| - 1]); }
  }

  lemma {:induction false} FlatHolds(accounts: seq<Account>)
    ensures forall w :: w in Flat(accounts) <==> exists a :: a in accounts && w in a.windows
    ensures forall c :: c in AllCards(accounts) <==> exists a :: a in accounts && c in Cards(a)
    decreases |accounts|
  {
    if accounts != [] {
      FlatHolds(accounts[..|accounts| - 1]);
      assert accounts == accounts[..|accounts| - 1] + [accounts[|accounts| - 1]];
    }
  }

  /** Some account that counts reports a window `id`. */
  ghost predicate Reported(provider: Provider, accounts: seq<Account>, id: string, w: Window) {
    w.id == id && exists a :: Counts(provider, accounts, a) && w in a.windows
  }

  /** The lowest share reported for `id` by the accounts that count, with a reset reported beside it. */
  ghost predicate ShowsTheLowest(shown: DisplayWindow, id: string, provider: Provider, accounts: seq<Account>) {
    && (exists w :: Reported(provider, accounts, id, w) && shown.title == w.title)
    && (forall w | Reported(provider, accounts, id, w) && w.remaining.Some? ::
          shown.remaining.Some? && shown.remaining.value <= w.remaining.value)
    && (shown.remaining.Some? ==>
          exists w :: Reported(provider, accounts, id, w) && w.remaining == shown.remaining && w.resets == shown.resets)
  }

  /**
    The windows of a row belong to as many distinct identities, each reported by an account that
    counts, a preferred one never missing, and show what those accounts report of them.
   */
  lemma WindowsAreReported(provider: Provider, accounts: seq<Account>) returns (ids: seq<string>)
    requires exists a :: a in accounts && Mine(provider, a)
    ensures var windows := RowFor(provider, accounts).windows;
      && |ids| == |windows| <= Limit(provider.group)
      && (forall i, j | 0 <= i < j < |ids| :: ids[i] != ids[j])
      && (forall i | 0 <= i < |ids| :: ShowsTheLowest(windows[i], ids[i], provider, accounts))
      && (forall id, w | id in Preferred(provider.group) && Reported(provider, accounts, id, w) :: id in ids)
      && (forall i, j | 0 <= i < j < |ids| :: Sooner(ReportedIds(provider, accounts), ids[i], ids[j]))
      && (forall id, w | Reported(provider, accounts, id, w) && id !in ids ::
            |ids| == Limit(provider.group)
            && forall i | 0 <= i < |ids| :: Sooner(ReportedIds(provider, accounts), ids[i], id))
  {
    hide Effective, Matching, StableSort, AllCards, Worst, AnyStale, Plans, Counts, Preferred, Arranged, Limit, Sooner;
    EffectivesCount(provider, accounts);
    ProviderIsThere(provider, accounts);
    var ws := Flat(Effectives(provider, accounts));
    var known := ById(ws).Keys;
    FlatHolds(Effectives(provider, accounts));
    ids := Arranged(provider.group, known, Distinct(Ids(ws)));
    PreferredWindowsAreShown(provider.group, known, Distinct(Ids(ws)));
    assert RowFor(provider, accounts).windows == DisplayWindows(provider.group, ws);
    assert forall id, w :: Reported(provider, accounts, id, w) <==> w in ws && w.id == id;
    forall i | 0 <= i < |ids|
      ensures ShowsTheLowest(RowFor(provider, accounts).windows[i], ids[i], provider, accounts)
    {
      assert ids[i] in ids;
      LowestOfReported(ws, ids[i], provider, accounts);
    }
    forall id, w | Reported(provider, accounts, id, w) ensures id in known && id in Distinct(Ids(ws)) {
      IdsKnown(ws, w);
    }
    ShownInOrder(provider.group, known, Distinct(Ids(ws)));
    forall x, y | Sooner(Preferred(provider.group) + Distinct(Ids(ws)), x, y)
      ensures Sooner(ReportedIds(provider, accounts), x, y)
    {
      SoonerAmongAll(Preferred(provider.group), Ids(ws), x, y);
    }
  }

  /** The preferred identities, then those the accounts that count report, account by account. */
  function ReportedIds(provider: Provider, accounts: seq<Account>): seq<string> {
    Preferred(provider.group) + Ids(Flat(Effectives(provider, accounts)))
  }

  lemma {:induction false} FlatInOrder(a: seq<Account>, b: seq<Account>)
    ensures Flat(a + b) == Flat(a) + Flat(b)
    ensures |a| == 1 ==> Flat(a) == a[0].windows
    decreases |b|
  {
    if b == [] {
      assert a + b == a;
    } else {
      assert (a + b)[..|a + b| - 1] == a + b[..|b| - 1];
      FlatInOrder(a, b[..|b| - 1]);
    }
    if |a| == 1 { assert Flat(a[..0]) == []; }
  }

  lemma SoonerAmongAll(preferred: seq<string>, ids: seq<string>, x: string, y: string)
    requires Sooner(preferred + Distinct(ids), x, y)
    ensures Sooner(preferred + ids, x, y)
  {
    var all := preferred + Distinct(ids);
    var a :| 0 <= a < |all| && all[a] == x && y !in all[..a + 1];
    if a < |preferred| {
      assert all[..a + 1] == preferred[..a + 1];
    } else {
      var b := a - |preferred|;
      assert all[..a + 1] == preferred + Distinct(ids)[..b + 1];
      assert Distinct(ids)[b] == x;
      SoonerOfDistinct(ids, x, y);
    }
    SoonerInLonger(preferred, ids, x, y);
  }

  lemma IdsKnown(ws: seq<Window>, w: Window)
    requires w in ws
    ensures w.id in ById(ws) && w.id in Distinct(Ids(ws))
  {
    hide ById;
    var k :| 0 <= k < |ws| && ws[k] == w;
    assert Ids(ws)[k] == w.id;
    OrderNamesTheKnown(ws);
  }

  lemma LowestOfReported(ws: seq<Window>, id: string, provider: Provider, accounts: seq<Account>)
    requires forall w :: Reported(provider, accounts, id, w) <==> w in ws && w.id == id
    requires id in ById(ws)
    ensures ShowsTheLowest(ById(ws)[id], id, provider, accounts)
  {
    hide ById, Reported;
    LowestIsShown(ws, id);
    assert ws[..|ws|] == ws;
    var t := TitleIsReported(ws, |ws|, id);
    var shown := ById(ws)[id];
    assert ws[t] in ws;
    forall w | Reported(provider, accounts, id, w) && w.remaining.Some?
      ensures shown.remaining.Some? && shown.remaining.value <= w.remaining.value
    {
      var k :| 0 <= k < |ws| && ws[k] == w;
      assert Reports(ws[k], id);
    }
    if shown.remaining.Some? {
      var k :| 0 <= k < |ws| && Reports(ws[k], id) && ws[k].remaining == shown.remaining
               && ws[k].resets == shown.resets;
      assert ws[k] in ws;
    }
  }

  lemma SortHolds(cards: seq<Card>)
    ensures forall c :: c in StableSort(cards) <==> c in cards
  {
    StableSortSorts(cards);
    forall c ensures c in StableSort(cards) <==> c in cards {
      assert c in StableSort(cards) <==> c in multiset(StableSort(cards));
      assert c in cards <==> c in multiset(cards);
    }
  }

  /**
    A row is "missing" exactly when no account is of its provider. Otherwise its numbers, staleness,
    plan and cards are those of the accounts that count: enabled ones, or all when none is enabled.
   */
  lemma RowShowsWhatCounts(provider: Provider, accounts: seq<Account>)
    ensures var row := RowFor(provider, accounts);
      && row.provider == provider
      && (row.detail.NoAccount? <==> !exists a :: a in accounts && Mine(provider, a))
      && (row.detail.NoAccount? ==> row == DisplayRow(provider, NoAccount, "", "missing", false, [], []))
      && (row.detail.Accounts? ==>
            && row.detail.effective == |set i | 0 <= i < |accounts| && Counts(provider, accounts, accounts[i])|
            && row.detail.total == |set i | 0 <= i < |accounts| && Mine(provider, accounts[i])|
            && (row.stale <==> exists a :: Counts(provider, accounts, a) && (a.stale || a.warning != ""))
            && (forall p :: row.detail.plan == Some(p) <==> OnePlan(provider, accounts, p))
            && row.plan == row.detail.plan.GetOr("")
            && Sorted(row.cards)
            && (forall c :: c in row.cards <==> exists a :: Counts(provider, accounts, a) && c in Cards(a)))
  {
    hide Effective, Matching, DisplayWindows, Worst, Counts, StableSort, AllCards, Sorted, Plans;
    EffectivesCount(provider, accounts);
    ProviderIsThere(provider, accounts);
    var effective := Effectives(provider, accounts);
    FlatHolds(effective);
    StableSortSorts(AllCards(effective));
    SortHolds(AllCards(effective));
    if AnyStale(effective) {
      var i :| 0 <= i < |effective| && (effective[i].stale || effective[i].warning != "");
      assert effective[i] in effective;
    }
    forall p ensures (|Plans(effective)| == 1 && Plans(effective)[0] == p) <==> OnePlan(provider, accounts, p) {
      OnePlanExactly(provider, accounts, p);
    }
  }

  /** `p` is the one plan the accounts that count name. */
  ghost predicate OnePlan(provider: Provider, accounts: seq<Account>, p: string) {
    && p != "" && (exists a :: Counts(provider, accounts, a) && a.plan == p)
    && forall a | Counts(provider, accounts, a) :: a.plan == "" || a.plan == p
  }

  lemma OnePlanExactly(provider: Provider, accounts: seq<Account>, p: string)
    ensures var plans := Plans(Effectives(provider, accounts));
            (|plans| == 1 && plans[0] == p) <==> OnePlan(provider, accounts, p)
  {
    hide Effective, Matching, Counts, Distinct, Filter;
    EffectivesCount(provider, accounts);
    var effective := Effectives(provider, accounts);
    var all := Map((a: Account) => a.plan, effective);
    var named := (q: string) => q != "";
    FilterSelects(named, all);
    var plans := Plans(effective);
    assert plans == Distinct(Filter(named, all));
    forall q ensures q in plans <==> q != "" && exists a :: Counts(provider, accounts, a) && a.plan == q {
      if q in plans {
        var k :| 0 <= k < |all| && all[k] == q;
        assert effective[k] in effective;
      }
      if a :| Counts(provider, accounts, a) && a.plan == q && q != "" {
        assert a in effective;
        var k :| 0 <= k < |effective| && effective[k] == a;
        assert all[k] == q;
      }
    }
    assert forall k | 0 <= k < |plans| :: plans[k] in plans;
    if |plans| > 1 { assert plans[0] != plans[1]; }
    if OnePlan(provider, accounts, p) { assert p in plans; }
    if |plans| == 1 && plans[0] == p {
      forall a | Counts(provider, accounts, a) ensures a.plan == "" || a.plan == p {
        if a.plan != "" { assert a.plan in plans; }
      }
    }
  }

  // ---------------------------------------------------------------- rows of a normalised snapshot

  function CutWindow(w: DisplayWindow): DisplayWindow { w.(resets := Truncated(w.resets)) }

  function CutRow(row: DisplayRow, cutCards: bool): DisplayRow {
    row.(windows := Map(CutWindow, row.windows), cards := if cutCards then Map(Truncated, row.cards) else row.cards)
  }

  lemma {:induction false} ByIdOfNormal(ws: seq<Window>)
    ensures var m, n := ById(ws), ById(Map(NormalWindow, ws));
            n.Keys == m.Keys && forall id | id in m :: n[id] == CutWindow(m[id])
    decreases |ws|
  {
    if ws != [] {
      MapSnoc(NormalWindow, ws);
      ByIdOfNormal(ws[..|ws| - 1]);
    }
  }

  lemma IdsOfNormal(ws: seq<Window>)
    ensures Ids(Map(NormalWindow, ws)) == Ids(ws)
  {
  }

  /** Clearing and truncating windows changes nothing about which are shown, only cuts their resets. */
  lemma WindowsOfNormal(group: string, ws: seq<Window>)
    ensures DisplayWindows(group, Map(NormalWindow, ws)) == Map(CutWindow, DisplayWindows(group, ws))
  {
    ByIdOfNormal(ws);
    IdsOfNormal(ws);
    var m, n := ById(ws), ById(Map(NormalWindow, ws));
    var ids := Arranged(group, m.Keys, Distinct(Ids(ws)));
    MapMap(CutWindow, (id: string) => Looked(m, id), (id: string) => Looked(n, id), ids);
  }

  lemma {:induction false} FlatOfNormal(accounts: seq<Account>, cutCards: bool)
    ensures Flat(NormalAccounts(accounts, cutCards)) == Map(NormalWindow, Flat(accounts))
    ensures AllCards(NormalAccounts(accounts, cutCards)) ==
            if cutCards then Map(Truncated, AllCards(accounts)) else AllCards(accounts)
    decreases |accounts|
  {
    if accounts != [] {
      var n := |accounts| - 1;
      var init, a := accounts[..n], accounts[n];
      MapSnoc((a: Account) => NormalAccount(a, cutCards), accounts);
      FlatOfNormal(init, cutCards);
      MapConcat(NormalWindow, Flat(init), a.windows);
      MapConcat(Truncated, AllCards(init), Cards(a));
    }
  }

  lemma {:induction false} WorstOfNormal(accounts: seq<Account>, cutCards: bool)
    ensures Worst(NormalAccounts(accounts, cutCards)) == Worst(accounts)
    decreases |accounts|
  {
    if accounts != [] {
      MapSnoc((a: Account) => NormalAccount(a, cutCards), accounts);
      WorstOfNormal(accounts[..|accounts| - 1], cutCards);
    }
  }

  lemma SelectionOfNormal(ids: seq<string>, accounts: seq<Account>, cutCards: bool)
    ensures Matching(ids, NormalAccounts(accounts, cutCards)) == NormalAccounts(Matching(ids, accounts), cutCards)
    ensures Effective(NormalAccounts(accounts, cutCards)) == NormalAccounts(Effective(accounts), cutCards)
    ensures Plans(NormalAccounts(accounts, cutCards)) == Plans(accounts)
    ensures AnyStale(NormalAccounts(accounts, cutCards)) == AnyStale(accounts)
  {
    var f := (a: Account) => NormalAccount(a, cutCards);
    FilterMap((a: Account) => a.provider in ids, f, accounts);
    FilterMap((a: Account) => a.status != "disabled", f, accounts);
    MapMap((a: Account) => a.plan, f, (a: Account) => a.plan, accounts);
    var normal := NormalAccounts(accounts, cutCards);
    forall i | 0 <= i < |accounts|
      ensures normal[i].stale == accounts[i].stale && normal[i].warning == accounts[i].warning
    {
    }
    if AnyStale(accounts) {
      var i :| 0 <= i < |accounts| && (accounts[i].stale || accounts[i].warning != "");
      assert normal[i].stale || normal[i].warning != "";
    }
  }

  /** A row of the normalised accounts is the row of the accounts, with its times cut to the minute. */
  lemma RowOfNormal(provider: Provider, accounts: seq<Account>, cutCards: bool)
    ensures RowFor(provider, NormalAccounts(accounts, cutCards)) == CutRow(RowFor(provider, accounts), cutCards)
  {
    hide NormalAccount, Matching, Effective, Plans, AnyStale, DisplayWindows;
    var matching := Matching(provider.ids, accounts);
    SelectionOfNormal(provider.ids, accounts, cutCards);
    if |matching| > 0 {
      assert |NormalAccounts(matching, cutCards)| > 0;
      var effective := Effective(matching);
      SelectionOfNormal(provider.ids, matching, cutCards);
      SelectionOfNormal(provider.ids, effective, cutCards);
      WorstOfNormal(effective, cutCards);
      FlatOfNormal(effective, cutCards);
      WindowsOfNormal(provider.group, Flat(effective));
      CutCommutesWithSort(AllCards(effective));
    }
  }
}
