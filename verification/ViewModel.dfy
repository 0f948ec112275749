/**
  The frame of internal/dashboard/viewmodel.go as a function of the snapshot, the loops that build
  it, and why it does not depend on anything the fingerprint or the cache key clears. Number and
  date texts are the parameter `Text`; the logo and tint of a row are functions of its group.
 */
module ViewModel {
  import opened Wrappers
  import opened Lists
  import opened Quota
  import opened Layout

  /** How a location and the standard library write things. `zone` is a whole number of minutes. */
  datatype Text = Text(zone: int -> int, minute: int -> string, day: int -> string, percent: real -> string,
                       tokens: int -> string, money: (string, real) -> string, usageDay: string -> string,
                       plan: string -> string, upper: string -> string, compact: (string, nat) -> string,
                       prefix: string -> Option<string>)

  const DAY: int := 1440

  function LocalMinute(text: Text, t: Instant): int { t / MINUTE + text.zone(t / MINUTE) }

  function Stamp(text: Text, t: Instant): string { text.minute(LocalMinute(text, t)) }

  function Date(text: Text, t: Instant): string { text.day(LocalMinute(text, t) / DAY) }

  datatype Tone = Urgent | Warn | Good | Muted

  // ---------------------------------------------------------------- bars

  datatype Segment = Segment(tone: Tone, width: int)

  const SEGMENTS: nat := 10

  function Clamp(v: real): real { if v < 0.0 then 0.0 else if v > 100.0 then 100.0 else v }

  /** Go's conversion of a float to an int drops the fraction. */
  function Truncate(v: real): int { if v >= 0.0 then v.Floor else -((-v).Floor) }

  function Between(n: int, low: int, high: int): int { if n < low then low else if n > high then high else n }

  function Fill(value: real, index: nat): int {
    Between(Truncate((value - (10 * index) as real) * 10.0 + 0.5), 0, 100)
  }

  function SegmentTone(index: nat): Tone { if index == 0 then Urgent else if index < 4 then Warn else Good }

  function Segments(remaining: Option<real>, n: nat): (segments: seq<Segment>)
    ensures |segments| == n
    decreases n
  {
    var value := if remaining.Some? then Clamp(remaining.value) else 0.0;
    if n == 0 then [] else Segments(remaining, n - 1) + [Segment(SegmentTone(n - 1), Fill(value, n - 1))]
  }

  method BuildBarSegments(remaining: Option<real>) returns (segments: array<Segment>)
    ensures fresh(segments) && segments[..] == Segments(remaining, SEGMENTS)
  {
    segments := new Segment[10](_ => Segment(Good, 0));
    var value := 0.0;
    if remaining.Some? { value := Clamp(remaining.value); }
    for index := 0 to 10
      invariant segments[..index] == Segments(remaining, index)
    {
      var tone := Good;
      if index == 0 { tone := Urgent; } else if index < 4 { tone := Warn; }
      var fill := Truncate((value - (10 * index) as real) * 10.0 + 0.5);
      if fill < 0 { fill := 0; }
      if fill > 100 { fill := 100; }
      ghost var done := segments[..index];
      segments[index] := Segment(tone, fill);
      assert segments[..index + 1] == done + [Segment(tone, fill)];
    }
    assert segments[..] == segments[..10];
  }

  function Filled(segments: seq<Segment>): int
    decreases |segments|
  {
    if segments == [] then 0 else Filled(segments[..|segments| - 1]) + segments[|segments| - 1].width
  }

  lemma FillIsTheRest(value: real, index: nat)
    requires 0.0 <= value
    ensures Fill(value, index) == Between((value * 10.0 + 0.5).Floor - 100 * index, 0, 100)
  {
    var r := value * 10.0 + 0.5;
    assert (value - (10 * index) as real) * 10.0 + 0.5 == r - (100 * index) as real;
    assert (r - (100 * index) as real).Floor == r.Floor - 100 * index;
  }

  lemma {:induction false} FilledTenths(remaining: Option<real>, n: nat)
    requires remaining.Some?
    ensures Filled(Segments(remaining, n)) == Between((Clamp(remaining.value) * 10.0 + 0.5).Floor, 0, 100 * n)
    decreases n
  {
    if n > 0 {
      FilledTenths(remaining, n - 1);
      FillIsTheRest(Clamp(remaining.value), n - 1);
      assert Segments(remaining, n)[..n - 1] == Segments(remaining, n - 1);
    }
  }

  /** Ten segments of 100 units together show the share rounded to a tenth of a percent. */
  lemma BarShowsTheShare(remaining: real)
    ensures Filled(Segments(Some(remaining), SEGMENTS)) == (Clamp(remaining) * 10.0 + 0.5).Floor
  {
    FilledTenths(Some(remaining), SEGMENTS);
  }

  // ---------------------------------------------------------------- windows, cards and rows

  datatype WindowView = WindowView(title: string, percent: Option<string>, tone: Tone, reset: Option<string>,
                                   segments: seq<Segment>)

  function ShareTone(remaining: real): Tone {
    if remaining < 10.0 then Urgent else if remaining < 40.0 then Warn else Good
  }

  function BuildWindow(text: Text, w: DisplayWindow): WindowView {
    WindowView(text.compact(w.title, 18),
               if w.remaining.Some? then Some(text.percent(Clamp(w.remaining.value))) else None,
               if w.remaining.Some? then ShareTone(Clamp(w.remaining.value)) else Muted,
               if w.resets.Some? then Some(Stamp(text, w.resets.value)) else None,
               Segments(w.remaining, SEGMENTS))
  }

  const MAX_CARDS: nat := 3

  function CardText(text: Text, c: Card): string { if c.Some? then Date(text, c.value) else "--" }

  function CardTexts(text: Text, cards: seq<Card>): seq<string> {
    Map((c: Card) => CardText(text, c), Take(cards, MAX_CARDS))
  }

  method BuildResetCards(text: Text, cards: seq<Card>) returns (result: seq<string>, more: nat)
    ensures result == CardTexts(text, cards) && |result| + more == |cards| && (more > 0 ==> |result| == MAX_CARDS)
  {
    if |cards| == 0 { return [], 0; }
    var shown := cards;
    if |shown| > MAX_CARDS { shown := shown[..MAX_CARDS]; }
    result := [];
    for i := 0 to |shown|
      invariant result == Map((c: Card) => CardText(text, c), shown[..i])
    {
      Grow(shown, i);
      result := result + [CardText(text, shown[i])];
    }
    assert shown[..|shown|] == shown;
    more := |cards| - |shown|;
  }

  datatype RowView = RowView(group: string, slot: nat, provider: string, detail: Detail, plan: string, status: string,
                             tone: Tone, stale: bool, windows: seq<WindowView>, cards: seq<string>, more: nat,
                             cardCount: nat, cardsPanel: bool)

  function RowTone(row: DisplayRow): Tone {
    if row.status in ["low", "exhausted", "error"] then Urgent
    else if row.status in ["disabled", "missing", "unknown"] || row.stale then Warn
    else Good
  }

  function BuildRow(text: Text, slot: nat, row: DisplayRow): RowView {
    var windows := Map((w: DisplayWindow) => BuildWindow(text, w), row.windows);
    var cards := CardTexts(text, row.cards);
    RowView(row.provider.group, slot, row.provider.title, row.detail, text.plan(row.plan), text.upper(row.status),
            RowTone(row), row.stale, windows, cards, |row.cards| - |cards|, |row.cards|, |cards| > 0 && |windows| == 1)
  }

  function BuildRows(text: Text, rows: seq<DisplayRow>, n: nat): (views: seq<RowView>)
    requires n <= |rows|
    ensures |views| == n && forall i | 0 <= i < n :: views[i] == BuildRow(text, i + 1, rows[i])
    decreases n
  {
    if n == 0 then [] else BuildRows(text, rows, n - 1) + [BuildRow(text, n, rows[n - 1])]
  }

  // ---------------------------------------------------------------- usage

  datatype DayView = DayView(peak: bool, title: string, value: string, height: int)
  datatype Metric = Metric(note: string, tokens: string, cost: string)
  datatype UsageView = UsageView(days: seq<DayView>, today: Metric, week: Metric, peak: Metric)

  const NO_DAY := UsageDay("", 0, 0.0)

  /** The first day with the most tokens; none when no day has any. */
  function Peak(days: seq<UsageDay>): UsageDay
    decreases |days|
  {
    if days == [] then NO_DAY
    else
      var best, day := Peak(days[..|days| - 1]), days[|days| - 1];
      if day.tokens > best.tokens then day else best
  }

  function SumTokens(days: seq<UsageDay>): int
    decreases |days|
  {
    if days == [] then 0 else SumTokens(days[..|days| - 1]) + days[|days| - 1].tokens
  }

  function SumCost(days: seq<UsageDay>): real
    decreases |days|
  {
    if days == [] then 0.0 else SumCost(days[..|days| - 1]) + days[|days| - 1].cost
  }

  function BarHeight(value: int, maximum: int): int {
    if value <= 0 || maximum <= 0 then 0 else Between((value as real / maximum as real * 100.0).Floor, 4, 100)
  }

  function BuildDay(text: Text, maximum: int, day: UsageDay): DayView {
    DayView(maximum > 0 && day.tokens == maximum, text.usageDay(day.date), text.tokens(day.tokens),
            BarHeight(day.tokens, maximum))
  }

  function LastWeek(days: seq<UsageDay>): seq<UsageDay> { if |days| > 7 then days[|days| - 7..] else days }

  function BuildUsage(text: Text, usage: Option<Usage>): Option<UsageView> {
    if usage.None? || |usage.value.days| == 0 then None
    else
      var u := usage.value;
      var currency := if u.currency == "" then "$" else u.currency;
      var days := LastWeek(u.days);
      var peak := Peak(days);
      Some(UsageView(Map((d: UsageDay) => BuildDay(text, peak.tokens, d), days),
                     Metric("", text.tokens(u.todayTokens), text.money(currency, u.todayCost)),
                     Metric("", text.tokens(SumTokens(days)), text.money(currency, SumCost(days))),
                     Metric(text.usageDay(peak.date), text.tokens(peak.tokens), text.money(currency, peak.cost))))
  }

  method FindPeak(days: seq<UsageDay>) returns (peak: UsageDay, maximum: int)
    ensures peak == Peak(days) && maximum == peak.tokens
  {
    peak, maximum := NO_DAY, 0;
    for i := 0 to |days|
      invariant peak == Peak(days[..i]) && maximum == peak.tokens
    {
      Grow(days, i);
      if days[i].tokens > maximum { maximum, peak := days[i].tokens, days[i]; }
    }
    assert days[..|days|] == days;
  }

  method Totals(days: seq<UsageDay>) returns (tokens: int, cost: real)
    ensures tokens == SumTokens(days) && cost == SumCost(days)
  {
    tokens, cost := 0, 0.0;
    for i := 0 to |days|
      invariant tokens == SumTokens(days[..i]) && cost == SumCost(days[..i])
    {
      Grow(days, i);
      tokens, cost := tokens + days[i].tokens, cost + days[i].cost;
    }
    assert days[..|days|] == days;
  }

  method BuildUsageData(text: Text, usage: Option<Usage>) returns (view: Option<UsageView>)
    ensures view == BuildUsage(text, usage)
  {
    if usage.None? || |usage.value.days| == 0 { return None; }
    var u := usage.value;
    var currency := u.currency;
    if currency == "" { currency := "$"; }
    var days := u.days;
    if |days| > 7 { days := days[|days| - 7..]; }
    var peak, maximum := FindPeak(days);
    var chart: seq<DayView> := [];
    for i := 0 to |days|
      invariant chart == Map((d: UsageDay) => BuildDay(text, peak.tokens, d), days[..i])
    {
      Grow(days, i);
      chart := chart + [BuildDay(text, maximum, days[i])];
    }
    assert days[..|days|] == days;
    var tokens, cost := Totals(days);
    view := Some(UsageView(chart,
      Metric("", text.tokens(u.todayTokens), text.money(currency, u.todayCost)),
      Metric("", text.tokens(tokens), text.money(currency, cost)),
      Metric(text.usageDay(peak.date), text.tokens(maximum), text.money(currency, peak.cost))));
  }

  /** The marked peak is a maximum, and the first one. */
  lemma {:induction false} PeakIsFirstMaximum(days: seq<UsageDay>)
    ensures forall i | 0 <= i < |days| :: days[i].tokens <= Peak(days).tokens
    ensures Peak(days) == NO_DAY ||
            exists k :: 0 <= k < |days| && days[k] == Peak(days) &&
                        forall i | 0 <= i < k :: days[i].tokens < days[k].tokens
    decreases |days|
  {
    if days != [] {
      var n := |days| - 1;
      var init := days[..n];
      PeakIsFirstMaximum(init);
      if Peak(days) == Peak(init) && Peak(days) != NO_DAY && days[n].tokens <= Peak(init).tokens {
        var k :| 0 <= k < |init| && init[k] == Peak(init) && forall i | 0 <= i < k :: init[i].tokens < init[k].tokens;
        assert days[k] == Peak(days) && forall i | 0 <= i < k :: days[i] == init[i];
      } else if days[n].tokens > Peak(init).tokens {
        assert days[n] == Peak(days) && forall i | 0 <= i < n :: days[i] == init[i];
      }
    }
  }

  /** The totals of consecutive days add up, and the total of one day is that day's. */
  lemma {:induction false} TotalsAdd(a: seq<UsageDay>, b: seq<UsageDay>)
    ensures SumTokens(a + b) == SumTokens(a) + SumTokens(b) && SumCost(a + b) == SumCost(a) + SumCost(b)
    ensures |a| == 1 ==> SumTokens(a) == a[0].tokens && SumCost(a) == a[0].cost
    decreases |b|
  {
    if b == [] {
      assert a + b == a;
    } else {
      assert (a + b)[..|a + b| - 1] == a + b[..|b| - 1];
      TotalsAdd(a, b[..|b| - 1]);
    }
    if |a| == 1 { assert a[..0] == []; }
  }

  /** One day's bar: none without tokens, otherwise 4 to 100 and the share of the maximum between. */
  predicate BarOf(height: int, tokens: int, maximum: int) {
    if tokens <= 0 || maximum <= 0 then height == 0
    else
      && 4 <= height <= 100
      && (4 < height ==> height as real <= tokens as real / maximum as real * 100.0)
      && (height < 100 ==> tokens as real / maximum as real * 100.0 < height as real + 1.0)
  }

  lemma HeightIsTheShare(tokens: int, maximum: int)
    ensures BarOf(BarHeight(tokens, maximum), tokens, maximum)
  {
  }

  /** `peak` is the first of the days with the most tokens, or no day when none has any. */
  predicate PeakOf(peak: UsageDay, days: seq<UsageDay>) {
    && (forall i | 0 <= i < |days| :: days[i].tokens <= peak.tokens)
    && (peak == UsageDay("", 0, 0.0)
        || exists k | 0 <= k < |days| :: days[k] == peak && forall i | 0 <= i < k :: days[i].tokens < days[k].tokens)
  }

  /**
    Usage is shown exactly when there are days: a bar for each of the last seven, today's own numbers,
    the totals of those days, and the peak among them; without a currency in dollars.
   */
  lemma UsageShowsTheLastWeek(text: Text, usage: Option<Usage>)
    ensures BuildUsage(text, usage).None? <==> usage.None? || usage.value.days == []
    ensures BuildUsage(text, usage).Some? ==>
              var u, view := usage.value, BuildUsage(text, usage).value;
              var currency := if u.currency == "" then "$" else u.currency;
              var first := if |u.days| > 7 then |u.days| - 7 else 0;
              var week := u.days[first..];
              && |view.days| == |week| && |week| == (if |u.days| < 7 then |u.days| else 7)
              && view.today.tokens == text.tokens(u.todayTokens)
              && view.today.cost == text.money(currency, u.todayCost)
              && view.week.tokens == text.tokens(SumTokens(week))
              && view.week.cost == text.money(currency, SumCost(week))
              && exists peak ::
                   && PeakOf(peak, week)
                   && view.peak == Metric(text.usageDay(peak.date), text.tokens(peak.tokens),
                                          text.money(currency, peak.cost))
                   && forall i | 0 <= i < |week| ::
                        && view.days[i].title == text.usageDay(week[i].date)
                        && view.days[i].value == text.tokens(week[i].tokens)
                        && BarOf(view.days[i].height, week[i].tokens, peak.tokens)
                        && (view.days[i].peak <==> peak.tokens > 0 && week[i].tokens == peak.tokens)
  {
    hide BarHeight, BarOf, SumTokens, SumCost, Peak, PeakOf;
    if usage.Some? && usage.value.days != [] {
      var week := LastWeek(usage.value.days);
      assert usage.value.days[0..] == usage.value.days;
      PeakIsPeak(week);
      var maximum := Peak(week).tokens;
      forall i | 0 <= i < |week| ensures BarOf(BarHeight(week[i].tokens, maximum), week[i].tokens, maximum) {
        HeightIsTheShare(week[i].tokens, maximum);
      }
    }
  }

  lemma PeakIsPeak(days: seq<UsageDay>)
    ensures PeakOf(Peak(days), days)
  {
    hide Peak;
    PeakIsFirstMaximum(days);
  }

  // ---------------------------------------------------------------- errors and the frame

  predicate Displayed(providers: seq<Provider>, id: string) {
    exists k | 0 <= k < |providers| :: id in providers[k].ids
  }

  predicate HasProvider(accounts: seq<Account>, id: string) {
    exists k | 0 <= k < |accounts| :: accounts[k].provider == id
  }

  /** An error of a provider that has accounts but no row is not for this frame. */
  predicate Relevant(text: Text, providers: seq<Provider>, accounts: seq<Account>, message: string) {
    var p := text.prefix(message);
    !(p.Some? && HasProvider(accounts, p.value) && !Displayed(Shown(providers), p.value))
  }

  function ShownErrors(text: Text, providers: seq<Provider>, s: Snapshot): seq<string> {
    Filter((m: string) => Relevant(text, providers, s.accounts, m), s.errors)
  }

  method DisplayedErrors(text: Text, providers: seq<Provider>, s: Snapshot) returns (result: seq<string>)
    ensures result == ShownErrors(text, providers, s)
  {
    var shown := Shown(providers);
    var displayed: set<string> := {};
    for i := 0 to |shown|
      invariant forall id :: id in displayed <==> Displayed(shown[..i], id)
    {
      var more := set id | id in shown[i].ids;
      forall id ensures id in displayed + more <==> Displayed(shown[..i + 1], id) {
        if Displayed(shown[..i], id) {
          var k :| 0 <= k < i && id in shown[..i][k].ids;
          assert id in shown[..i + 1][k].ids;
        }
        assert shown[..i + 1][i] == shown[i];
        if Displayed(shown[..i + 1], id) && id !in shown[i].ids {
          var k :| 0 <= k < i + 1 && id in shown[..i + 1][k].ids;
          assert id in shown[..i][k].ids;
        }
      }
      displayed := displayed + more;
    }
    assert shown[..|shown|] == shown;
    var providersSeen: set<string> := {};
    for i := 0 to |s.accounts|
      invariant forall id :: id in providersSeen <==> HasProvider(s.accounts[..i], id)
    {
      var id := s.accounts[i].provider;
      forall x ensures x in providersSeen + {id} <==> HasProvider(s.accounts[..i + 1], x) {
        if HasProvider(s.accounts[..i], x) {
          var k :| 0 <= k < i && s.accounts[..i][k].provider == x;
          assert s.accounts[..i + 1][k].provider == x;
        }
        assert s.accounts[..i + 1][i] == s.accounts[i];
        if HasProvider(s.accounts[..i + 1], x) && x != id {
          var k :| 0 <= k < i + 1 && s.accounts[..i + 1][k].provider == x;
          assert s.accounts[..i][k].provider == x;
        }
      }
      providersSeen := providersSeen + {id};
    }
    assert s.accounts[..|s.accounts|] == s.accounts;
    result := [];
    var relevant := (m: string) => Relevant(text, providers, s.accounts, m);
    for i := 0 to |s.errors|
      invariant result == Filter(relevant, s.errors[..i])
    {
      Grow(s.errors, i);
      var p := text.prefix(s.errors[i]);
      if !(p.Some? && p.value in providersSeen && p.value !in displayed) { result := result + [s.errors[i]]; }
    }
    assert s.errors[..|s.errors|] == s.errors;
  }

  datatype Status = Live | Stale | Demo

  datatype Frame = Frame(status: Status, updated: Option<string>, rows: seq<RowView>, usage: Option<UsageView>,
                         footer: Option<string>)

  predicate UsesSource(s: Snapshot, source: string) {
    || (exists i | 0 <= i < |s.accounts| ::
          exists j | 0 <= j < |s.accounts[i].windows| :: s.accounts[i].windows[j].source == source)
    || (s.usage.Some? && s.usage.value.source == source)
  }

  function BuildFrame(text: Text, providers: seq<Provider>, s: Snapshot): Frame {
    var rows := Rows(providers, s.accounts);
    var errors := ShownErrors(text, providers, s);
    Frame(if s.stale then Stale else if UsesSource(s, "demo") then Demo else Live,
          if s.updatedAt.Some? then Some(Stamp(text, s.updatedAt.value)) else None,
          BuildRows(text, rows, |rows|),
          BuildUsage(text, s.usage),
          if |errors| > 0 then Some(text.compact(errors[0], 34)) else None)
  }

  /** The error is of a provider that has accounts but no row on the frame. */
  predicate Foreign(text: Text, providers: seq<Provider>, accounts: seq<Account>, message: string) {
    && text.prefix(message).Some?
    && (exists a :: a in accounts && a.provider == text.prefix(message).value)
    && !exists p :: p in Shown(providers) && text.prefix(message).value in p.ids
  }

  lemma RelevantExactly(text: Text, providers: seq<Provider>, accounts: seq<Account>, message: string)
    ensures Relevant(text, providers, accounts, message) <==> !Foreign(text, providers, accounts, message)
  {
    var p := text.prefix(message);
    if p.Some? {
      var shown := Shown(providers);
      assert forall k | 0 <= k < |accounts| :: accounts[k] in accounts;
      assert forall k | 0 <= k < |shown| :: shown[k] in shown;
    }
  }

  lemma {:induction false} FirstSelected(p: string -> bool, s: seq<string>) returns (k: nat)
    requires Filter(p, s) != []
    ensures k < |s| && p(s[k]) && Filter(p, s)[0] == s[k] && forall j | 0 <= j < k :: !p(s[j])
    decreases |s|
  {
    var init := s[..|s| - 1];
    if Filter(p, init) != [] {
      k := FirstSelected(p, init);
    } else {
      k := |s| - 1;
      FilterSelects(p, init);
      forall j | 0 <= j < k ensures !p(s[j]) { assert init[j] in init; }
    }
  }

  /** Some window of some account, or the usage, comes from the demo. */
  ghost predicate FromDemo(s: Snapshot) {
    || (exists a, w :: a in s.accounts && w in a.windows && w.source == "demo")
    || (s.usage.Some? && s.usage.value.source == "demo")
  }

  /**
    The frame is stale when the snapshot is, otherwise a demo when any window or the usage comes from
    one; its footer is the first error that is not of a provider without a row.
   */
  lemma FrameShows(text: Text, providers: seq<Provider>, s: Snapshot)
    ensures var frame := BuildFrame(text, providers, s);
            var foreign := (m: string) => Foreign(text, providers, s.accounts, m);
      && (frame.status.Stale? <==> s.stale)
      && (frame.status.Demo? <==> !s.stale && FromDemo(s))
      && (frame.footer.None? <==> forall m | m in s.errors :: foreign(m))
      && (frame.footer.Some? ==> exists k | 0 <= k < |s.errors| ::
            frame.footer.value == text.compact(s.errors[k], 34) && !foreign(s.errors[k])
            && forall j | 0 <= j < k :: foreign(s.errors[j]))
  {
    hide BuildRows, BuildUsage, Rows, Foreign, Relevant;
    var relevant := (m: string) => Relevant(text, providers, s.accounts, m);
    forall m ensures relevant(m) <==> !Foreign(text, providers, s.accounts, m) {
      RelevantExactly(text, providers, s.accounts, m);
    }
    var errors := ShownErrors(text, providers, s);
    FilterSelects(relevant, s.errors);
    if errors != [] {
      assert errors[0] in errors;
      var k := FirstSelected(relevant, s.errors);
      assert s.errors[k] in s.errors;
    }
    forall m | m in s.errors && !Foreign(text, providers, s.accounts, m) ensures errors != [] { assert m in errors; }
    DemoExactly(s);
    hide Filter;
  }

  lemma DemoExactly(s: Snapshot)
    ensures UsesSource(s, "demo") <==> FromDemo(s)
  {
    if a, w :| a in s.accounts && w in a.windows && w.source == "demo" {
      var i :| 0 <= i < |s.accounts| && s.accounts[i] == a;
      var j :| 0 <= j < |a.windows| && a.windows[j] == w;
      assert s.accounts[i].windows[j].source == "demo";
    }
    if i, j :| 0 <= i < |s.accounts| && 0 <= j < |s.accounts[i].windows| && s.accounts[i].windows[j].source == "demo" {
      assert s.accounts[i] in s.accounts && s.accounts[i].windows[j] in s.accounts[i].windows;
    }
  }

  method BuildWindowData(text: Text, w: DisplayWindow) returns (view: WindowView)
    ensures view == BuildWindow(text, w)
  {
    var segments := BuildBarSegments(w.remaining);
    view := WindowView(text.compact(w.title, 18), None, Muted, None, segments[..]);
    if w.remaining.Some? {
      var remaining := Clamp(w.remaining.value);
      view := view.(percent := Some(text.percent(remaining)), tone := ShareTone(remaining));
    }
    if w.resets.Some? { view := view.(reset := Some(Stamp(text, w.resets.value))); }
  }

  method BuildRowData(text: Text, slot: nat, row: DisplayRow) returns (view: RowView)
    ensures view == BuildRow(text, slot, row)
  {
    hide BuildWindow, CardTexts;
    var windows: seq<WindowView> := [];
    for i := 0 to |row.windows|
      invariant windows == Map((w: DisplayWindow) => BuildWindow(text, w), row.windows[..i])
    {
      Grow(row.windows, i);
      var window := BuildWindowData(text, row.windows[i]);
      windows := windows + [window];
    }
    assert row.windows[..|row.windows|] == row.windows;
    var cards, more := BuildResetCards(text, row.cards);
    view := RowView(row.provider.group, slot, row.provider.title, row.detail, text.plan(row.plan),
      text.upper(row.status), RowTone(row), row.stale, windows, cards, more, |row.cards|,
      |cards| > 0 && |windows| == 1);
  }

  method SnapshotUsesSource(s: Snapshot, source: string) returns (uses: bool)
    ensures uses == UsesSource(s, source)
  {
    for i := 0 to |s.accounts|
      invariant forall k, j | 0 <= k < i && 0 <= j < |s.accounts[k].windows| ::
                s.accounts[k].windows[j].source != source
    {
      for j := 0 to |s.accounts[i].windows|
        invariant forall k | 0 <= k < j :: s.accounts[i].windows[k].source != source
      {
        if s.accounts[i].windows[j].source == source { return true; }
      }
    }
    return s.usage.Some? && s.usage.value.source == source;
  }

  method BuildFrameData(text: Text, providers: seq<Provider>, s: Snapshot) returns (frame: Frame)
    ensures frame == BuildFrame(text, providers, s)
  {
    hide BuildRow, Rows, ShownErrors, UsesSource, BuildUsage;
    var status := Live;
    if s.stale {
      status := Stale;
    } else {
      var demo := SnapshotUsesSource(s, "demo");
      if demo { status := Demo; }
    }
    var updated: Option<string> := None;
    if s.updatedAt.Some? { updated := Some(Stamp(text, s.updatedAt.value)); }
    var aggregated := AggregateRows(providers, s.accounts);
    var rows: seq<RowView> := [];
    for i := 0 to |aggregated|
      invariant rows == BuildRows(text, aggregated, i)
    {
      var row := BuildRowData(text, |rows| + 1, aggregated[i]);
      rows := rows + [row];
    }
    var usage := BuildUsageData(text, s.usage);
    frame := Frame(status, updated, rows, usage, None);
    var errors := DisplayedErrors(text, providers, s);
    if |errors| > 0 { frame := frame.(footer := Some(text.compact(errors[0], 34))); }
  }

  // ---------------------------------------------------------------- what a frame does not depend on

  lemma WindowOfCut(text: Text, w: DisplayWindow)
    ensures BuildWindow(text, CutWindow(w)) == BuildWindow(text, w)
  {
    if w.resets.Some? { TruncationKeepsTheMinute(w.resets.value); }
  }

  lemma CardsOfCut(text: Text, cards: seq<Card>)
    ensures CardTexts(text, Map(Truncated, cards)) == CardTexts(text, cards)
  {
    assert Take(Map(Truncated, cards), MAX_CARDS) == Map(Truncated, Take(cards, MAX_CARDS));
    forall c: Card | c in Take(cards, MAX_CARDS) ensures CardText(text, Truncated(c)) == CardText(text, c) {
      if c.Some? { TruncationKeepsTheMinute(c.value); }
    }
    var show := (c: Card) => CardText(text, c);
    MapMap(show, Truncated, show, Take(cards, MAX_CARDS));
  }

  lemma RowOfCut(text: Text, slot: nat, row: DisplayRow, cutCards: bool)
    ensures BuildRow(text, slot, CutRow(row, cutCards)) == BuildRow(text, slot, row)
  {
    hide BuildWindow, CardTexts;
    var show := (w: DisplayWindow) => BuildWindow(text, w);
    forall w: DisplayWindow | w in row.windows ensures show(CutWindow(w)) == show(w) { WindowOfCut(text, w); }
    MapMap(show, CutWindow, show, row.windows);
    CardsOfCut(text, row.cards);
    CardsFit(text, row.cards);
    CardsFit(text, Map(Truncated, row.cards));
  }

  lemma CardsFit(text: Text, cards: seq<Card>)
    ensures |CardTexts(text, cards)| <= |cards|
  {
  }

  function Normalised(s: Snapshot, cutCards: bool): Snapshot {
    s.(accounts := NormalAccounts(s.accounts, cutCards), usage := NormalUsage(s.usage))
  }

  lemma SourceOfNormal(s: Snapshot, cutCards: bool)
    ensures UsesSource(Normalised(s, cutCards), "demo") == UsesSource(s, "demo")
  {
    var n := Normalised(s, cutCards);
    forall i, j | 0 <= i < |s.accounts| && 0 <= j < |s.accounts[i].windows|
      ensures (n.accounts[i].windows[j].source == "demo") == (s.accounts[i].windows[j].source == "demo")
    {
      assert n.accounts[i] == NormalAccount(s.accounts[i], cutCards);
    }
    if UsesSource(s, "demo") && !(s.usage.Some? && s.usage.value.source == "demo") {
      var i :| 0 <= i < |s.accounts| &&
        exists j | 0 <= j < |s.accounts[i].windows| :: s.accounts[i].windows[j].source == "demo";
      var j :| 0 <= j < |s.accounts[i].windows| && s.accounts[i].windows[j].source == "demo";
      assert n.accounts[i].windows[j].source == "demo";
    }
    if UsesSource(n, "demo") && !(n.usage.Some? && n.usage.value.source == "demo") {
      var i :| 0 <= i < |n.accounts| &&
        exists j | 0 <= j < |n.accounts[i].windows| :: n.accounts[i].windows[j].source == "demo";
      var j :| 0 <= j < |n.accounts[i].windows| && n.accounts[i].windows[j].source == "demo";
      assert s.accounts[i].windows[j].source == "demo";
    }
  }

  lemma ErrorsOfNormal(text: Text, providers: seq<Provider>, s: Snapshot, cutCards: bool)
    ensures ShownErrors(text, providers, Normalised(s, cutCards)) == ShownErrors(text, providers, s)
  {
    var n := Normalised(s, cutCards);
    forall id ensures HasProvider(n.accounts, id) == HasProvider(s.accounts, id) {
      if HasProvider(s.accounts, id) {
        var k :| 0 <= k < |s.accounts| && s.accounts[k].provider == id;
        assert n.accounts[k].provider == id;
      }
      if HasProvider(n.accounts, id) {
        var k :| 0 <= k < |n.accounts| && n.accounts[k].provider == id;
        assert s.accounts[k].provider == id;
      }
    }
    SameFilter((m: string) => Relevant(text, providers, n.accounts, m),
               (m: string) => Relevant(text, providers, s.accounts, m), s.errors);
  }

  lemma {:induction false} SameFilter(p: string -> bool, q: string -> bool, s: seq<string>)
    requires forall x: string :: p(x) == q(x)
    ensures Filter(p, s) == Filter(q, s)
    decreases |s|
  {
    if s != [] { SameFilter(p, q, s[..|s| - 1]); }
  }

  /**
    Nothing that either projection clears or cuts reaches the frame: rows, windows, cards, status,
    usage and footer of the normalised snapshot are those of the snapshot, in every location.
   */
  lemma FrameOfNormal(text: Text, providers: seq<Provider>, s: Snapshot, cutCards: bool)
    ensures BuildFrame(text, providers, Normalised(s, cutCards)) == BuildFrame(text, providers, s)
  {
    hide UsesSource, ShownErrors, RowFor, BuildRow, NormalAccounts;
    var n := Normalised(s, cutCards);
    SourceOfNormal(s, cutCards);
    ErrorsOfNormal(text, providers, s, cutCards);
    var rows, cut := Rows(providers, s.accounts), Rows(providers, n.accounts);
    forall i | 0 <= i < |rows| ensures BuildRow(text, i + 1, cut[i]) == BuildRow(text, i + 1, rows[i]) {
      RowOfNormal(Shown(providers)[i], s.accounts, cutCards);
      RowOfCut(text, i + 1, rows[i], cutCards);
    }
    assert BuildRows(text, cut, |cut|) == BuildRows(text, rows, |rows|);
  }

  lemma FrameReads(text: Text, providers: seq<Provider>, s: Snapshot, t: Snapshot)
    requires s.stale == t.stale && s.updatedAt == t.updatedAt && s.errors == t.errors
    requires s.accounts == t.accounts && s.usage == t.usage
    ensures BuildFrame(text, providers, s) == BuildFrame(text, providers, t)
  {
    hide Rows, BuildRows, BuildUsage;
  }

  /** Equal fingerprints and equal data times give equal frames, card order within a minute included. */
  lemma EqualFingerprintsLookEqual(text: Text, providers: seq<Provider>, s: Snapshot, t: Snapshot)
    requires Fingerprint(s) == Fingerprint(t) && s.updatedAt == t.updatedAt
    ensures BuildFrame(text, providers, s) == BuildFrame(text, providers, t)
  {
    hide NormalAccounts, Rows, UsesSource, BuildUsage;
    FrameOfNormal(text, providers, s, true);
    FrameOfNormal(text, providers, t, true);
    FrameReads(text, providers, Normalised(s, true), Normalised(t, true));
  }

  /** Equal cache keys give equal frames. */
  lemma EqualKeysLookEqual(text: Text, providers: seq<Provider>, s: Snapshot, t: Snapshot)
    requires ContentKey(s) == ContentKey(t)
    ensures BuildFrame(text, providers, s) == BuildFrame(text, providers, t)
  {
    hide NormalAccounts, Rows, UsesSource, BuildUsage;
    FrameOfNormal(text, providers, s, false);
    FrameOfNormal(text, providers, t, false);
    FrameReads(text, providers, Normalised(s, false), Normalised(t, false));
  }
}
