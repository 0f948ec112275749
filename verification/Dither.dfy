/**
  Quantising to the six panel inks: internal/dashboard/palette.go, with exact real arithmetic for
  its floating point. `linear` stands for the gamma curve; the inks are any six (or any number of)
  colours.
 */
module Dither {
  import opened Wrappers

  type byte = b: int | 0 <= b < 256

  datatype Rgb = Rgb(r: byte, g: byte, b: byte)

  /** Six inks as the source's palette orders them; the first is black, the second white. */
  type Palette = p: seq<Rgb> | |p| >= 2 witness [Rgb(0, 0, 0), Rgb(255, 255, 255)]

  // ---------------------------------------------------------------- light

  datatype Light = Light(r: real, g: real, b: real) {
    function Plus(o: Light): Light { Light(r + o.r, g + o.g, b + o.b) }
    function Minus(o: Light): Light { Light(r - o.r, g - o.g, b - o.b) }
    /** A share in sixteenths. */
    function Share(n: int): Light { Light(r * (n as real / 16.0), g * (n as real / 16.0), b * (n as real / 16.0)) }
  }

  const DARK := Light(0.0, 0.0, 0.0)

  function Unit(v: real): real { if v < 0.0 then 0.0 else if v > 1.0 then 1.0 else v }

  function Square(v: real): real { v * v }

  /** Squared distance of an ink from a value clamped to what the panel can show. */
  function Distance(value: Light, ink: Light): real {
    Square(Unit(value.r) - ink.r) + Square(Unit(value.g) - ink.g) + Square(Unit(value.b) - ink.b)
  }

  ghost predicate Nearest(inks: seq<Light>, value: Light, k: nat) {
    && k < |inks|
    && (forall j | 0 <= j < |inks| :: Distance(value, inks[k]) <= Distance(value, inks[j]))
    && (forall j | 0 <= j < k :: Distance(value, inks[k]) < Distance(value, inks[j]))
  }

  /** The first ink at the least distance. */
  function Pick(inks: seq<Light>, value: Light, n: nat): (k: nat)
    requires 0 < n <= |inks|
    ensures k < n && Nearest(inks[..n], value, k)
    decreases n
  {
    if n == 1 then 0
    else
      var best := Pick(inks, value, n - 1);
      if Distance(value, inks[n - 1]) < Distance(value, inks[best]) then n - 1 else best
  }

  method PickNearest(inks: seq<Light>, value: Light) returns (nearest: nat)
    requires |inks| > 0
    ensures nearest == Pick(inks, value, |inks|)
  {
    nearest := 0;
    var distance: Option<real> := None;
    for candidate := 0 to |inks|
      invariant candidate == 0 ==> distance.None?
      invariant candidate > 0 ==>
                  nearest == Pick(inks, value, candidate) && distance == Some(Distance(value, inks[nearest]))
    {
      var squared := Distance(value, inks[candidate]);
      if distance.None? || squared < distance.value { nearest, distance := candidate, Some(squared); }
    }
  }

  // ---------------------------------------------------------------- the region as a state

  /** A region: its composited source colours in rows, the inks, and the gamma curve. */
  datatype Region = Region(width: nat, height: nat, source: seq<Rgb>, inks: Palette, linear: Rgb -> Light) {
    ghost predicate Valid() { |source| == height * width }

    function Index(x: nat, y: nat): nat { y * width + x }

    /** Exact inks are locked. */
    predicate Active(i: nat)
      requires i < |source|
    {
      source[i] !in inks
    }

    function Lights(): (l: seq<Light>)
      ensures |l| == |inks|
    {
      seq(|inks|, (k: nat) requires k < |inks| => linear(inks[k]))
    }
  }

  /** Light still to be quantised, the ink chosen for each pixel so far, and the error nobody took. */
  datatype State = State(work: seq<Light>, out: seq<Option<nat>>, dropped: Light)

  ghost predicate Fits(r: Region, st: State) {
    && |st.work| == |st.out| == |r.source|
    && forall i | 0 <= i < |st.out| :: st.out[i].Some? ==> r.Active(i) && st.out[i].value < |r.inks|
  }

  function Initial(r: Region): (st: State)
    ensures Fits(r, st)
  {
    State(seq(|r.source|, (i: nat) requires i < |r.source| => r.linear(r.source[i])),
          seq(|r.source|, (i: nat) => None), DARK)
  }

  lemma {:induction false} RowEnds(y: nat, v: nat, n: nat)
    requires y < v
    ensures y * n + n <= v * n
    decreases v
  {
    assert v * n == (v - 1) * n + n;
    if y < v - 1 { RowEnds(y, v - 1, n); }
  }

  lemma IndexFits(r: Region, x: nat, y: nat)
    requires r.Valid() && x < r.width && y < r.height
    ensures r.Index(x, y) < |r.source|
  {
    RowEnds(y, r.height, r.width);
  }

  lemma IndexIsInjective(r: Region, x: nat, y: nat, u: nat, v: nat)
    requires x < r.width && u < r.width && r.Index(x, y) == r.Index(u, v)
    ensures x == u && y == v
  {
    if y < v { RowEnds(y, v, r.width); }
    if y > v { RowEnds(v, y, r.width); }
  }

  /** One share of error: to the neighbour, or dropped at an edge or a locked pixel. */
  function Give(r: Region, st: State, x: int, y: nat, amount: Light): (next: State)
    requires r.Valid() && Fits(r, st)
    ensures Fits(r, next) && next.out == st.out
  {
    if x < 0 || x >= r.width || y >= r.height then st.(dropped := st.dropped.Plus(amount))
    else
      IndexFits(r, x, y);
      var i := r.Index(x, y);
      if !r.Active(i) then st.(dropped := st.dropped.Plus(amount))
      else st.(work := st.work[i := st.work[i].Plus(amount)])
  }

  /** Every other row runs backwards. */
  function Column(r: Region, y: nat, step: nat): int { if y % 2 == 0 then step else r.width - 1 - step }

  function Direction(y: nat): int { if y % 2 == 0 then 1 else -1 }

  function Visit(r: Region, st: State, x: nat, y: nat): (next: State)
    requires r.Valid() && Fits(r, st) && x < r.width && y < r.height
    ensures Fits(r, next)
  {
    IndexFits(r, x, y);
    var i := r.Index(x, y);
    if !r.Active(i) then st
    else
      var k := Pick(r.Lights(), st.work[i], |r.inks|);
      var diff := st.work[i].Minus(r.Lights()[k]);
      var d := Direction(y);
      var s0 := st.(out := st.out[i := Some(k)]);
      var s1 := Give(r, s0, x + d, y, diff.Share(7));
      var s2 := Give(r, s1, x - d, y + 1, diff.Share(3));
      var s3 := Give(r, s2, x, y + 1, diff.Share(5));
      Give(r, s3, x + d, y + 1, diff.Share(1))
  }

  /** The state after `steps` pixels of row y. */
  function After(r: Region, y: nat, steps: nat): (st: State)
    requires r.Valid() && steps <= r.width && (y < r.height || (y == r.height && steps == 0))
    ensures Fits(r, st)
    decreases y, steps
  {
    if steps > 0 then Visit(r, After(r, y, steps - 1), Column(r, y, steps - 1), y)
    else if y > 0 then After(r, y - 1, r.width)
    else Initial(r)
  }

  /** Sixteenths of a pixel's error by neighbour: `ahead` along the scan of its row, `down` to the next. */
  function Weight(ahead: int, down: int): nat {
    if down == 0 && ahead == 1 then 7
    else if down == 1 && ahead == -1 then 3
    else if down == 1 && ahead == 0 then 5
    else if down == 1 && ahead == 1 then 1
    else 0
  }

  lemma GiveAt(r: Region, st: State, x: int, y: nat, amount: Light, u: nat, v: nat)
    requires r.Valid() && Fits(r, st) && u < r.width && v < r.height
    ensures r.Index(u, v) < |r.source|
    ensures Give(r, st, x, y, amount).work[r.Index(u, v)] ==
            if u == x && v == y && r.Active(r.Index(u, v)) then st.work[r.Index(u, v)].Plus(amount)
            else st.work[r.Index(u, v)]
  {
    IndexFits(r, u, v);
    if 0 <= x < r.width && y < r.height && r.Index(x, y) == r.Index(u, v) { IndexIsInjective(r, x, y, u, v); }
  }

  lemma NoShare(l: Light, diff: Light)
    ensures l.Plus(diff.Share(0)) == l
  {
  }

  /** The four gives of one visit, pixel by pixel; `d` is the direction of the scan. */
  lemma FourShares(r: Region, s0: State, x: nat, y: nat, d: int, diff: Light, u: nat, v: nat)
    requires r.Valid() && Fits(r, s0) && u < r.width && v < r.height && (d == 1 || d == -1)
    ensures r.Index(u, v) < |r.source|
    ensures var s2 := Give(r, Give(r, s0, x + d, y, diff.Share(7)), x - d, y + 1, diff.Share(3));
            var s4 := Give(r, Give(r, s2, x, y + 1, diff.Share(5)), x + d, y + 1, diff.Share(1));
            s4.work[r.Index(u, v)] ==
            if r.Active(r.Index(u, v)) then s0.work[r.Index(u, v)].Plus(diff.Share(Weight((u - x) * d, v - y)))
            else s0.work[r.Index(u, v)]
  {
    var s1 := Give(r, s0, x + d, y, diff.Share(7));
    var s2 := Give(r, s1, x - d, y + 1, diff.Share(3));
    var s3 := Give(r, s2, x, y + 1, diff.Share(5));
    var s4 := Give(r, s3, x + d, y + 1, diff.Share(1));
    GiveAt(r, s0, x + d, y, diff.Share(7), u, v);
    GiveAt(r, s1, x - d, y + 1, diff.Share(3), u, v);
    GiveAt(r, s2, x, y + 1, diff.Share(5), u, v);
    GiveAt(r, s3, x + d, y + 1, diff.Share(1), u, v);
    hide Give, Fits, Weight;
    var m := r.Index(u, v);
    FourPluses(s0.work[m], diff, s1.work[m], s2.work[m], s3.work[m], s4.work[m], u - x, v - y, d, r.Active(m));
  }

  lemma Landing(across: int, down: int, d: int)
    requires d == 1 || d == -1
    ensures Weight(across * d, down) ==
            if down == 0 && across == d then 7
            else if down == 1 && across == -d then 3
            else if down == 1 && across == 0 then 5
            else if down == 1 && across == d then 1
            else 0
  {
    if d == 1 { assert across * d == across; } else { assert across * d == -across; }
  }

  lemma FourPluses(w: Light, diff: Light, w1: Light, w2: Light, w3: Light, w4: Light, across: int, down: int, d: int,
      active: bool)
    requires d == 1 || d == -1
    requires w1 == if across == d && down == 0 && active then w.Plus(diff.Share(7)) else w
    requires w2 == if across == -d && down == 1 && active then w1.Plus(diff.Share(3)) else w1
    requires w3 == if across == 0 && down == 1 && active then w2.Plus(diff.Share(5)) else w2
    requires w4 == if across == d && down == 1 && active then w3.Plus(diff.Share(1)) else w3
    ensures w4 == if active then w.Plus(diff.Share(Weight(across * d, down))) else w
  {
    Landing(across, down, d);
    NoShare(w, diff);
  }

  /** What one step of the scan, at pixel (x, y) in direction `d`, makes of pixel (u, v). */
  ghost predicate StepOk(r: Region, st: State, next: State, x: nat, y: nat, d: int, u: nat, v: nat)
    requires r.Valid() && Fits(r, st) && Fits(r, next)
    requires r.Index(x, y) < |r.source| && r.Index(u, v) < |r.source|
  {
    var i, m := r.Index(x, y), r.Index(u, v);
    if r.source[i] in r.inks then next == st
    else
      && next.out[i].Some? && Nearest(r.Lights(), st.work[i], next.out[i].value)
      && (m != i ==> next.out[m] == st.out[m])
      && var diff := st.work[i].Minus(r.linear(r.inks[next.out[i].value]));
         next.work[m] ==
         if r.source[m] in r.inks then st.work[m] else st.work[m].Plus(diff.Share(Weight((u - x) * d, v - y)))
  }

  lemma VisitShares(r: Region, st: State, x: nat, y: nat, u: nat, v: nat)
    requires r.Valid() && Fits(r, st) && x < r.width && y < r.height && u < r.width && v < r.height
    requires r.Index(x, y) < |r.source| && r.Index(u, v) < |r.source|
    ensures StepOk(r, st, Visit(r, st, x, y), x, y, if y % 2 == 0 then 1 else -1, u, v)
  {
    var i := r.Index(x, y);
    if r.Active(i) {
      var k := Pick(r.Lights(), st.work[i], |r.inks|);
      assert r.Lights()[..|r.inks|] == r.Lights();
      var s0 := st.(out := st.out[i := Some(k)]);
      FourShares(r, s0, x, y, Direction(y), st.work[i].Minus(r.Lights()[k]), u, v);
      hide Weight, Nearest, Give, Pick, Fits;
    }
  }

  /**
    One step of the serpentine scan: even rows run forwards and odd rows backwards; a locked pixel
    changes nothing; any other gets the first ink nearest to its light and hands on 7 sixteenths of its
    error ahead, 3 behind below, 5 below and 1 ahead below. No other pixel's light or ink changes.
   */
  lemma {:induction false} ScanStep(r: Region, y: nat, step: nat, u: nat, v: nat)
    requires r.Valid() && y < r.height && step < r.width && u < r.width && v < r.height
    ensures var x, d := if y % 2 == 0 then step else r.width - 1 - step, if y % 2 == 0 then 1 else -1;
            && r.Index(x, y) < |r.source| && r.Index(u, v) < |r.source|
            && StepOk(r, After(r, y, step), After(r, y, step + 1), x, y, d, u, v)
  {
    hide StepOk, Visit, Fits;
    var x := if y % 2 == 0 then step else r.width - 1 - step;
    IndexFits(r, x, y);
    IndexFits(r, u, v);
    VisitShares(r, After(r, y, step), x, y, u, v);
  }

  // ---------------------------------------------------------------- each pixel once, error only forwards

  predicate Visited(r: Region, x: nat, y: nat, row: nat, steps: nat) {
    y < row || (y == row && if y % 2 == 0 then x < steps else r.width - 1 - x < steps)
  }

  /** Exactly the active pixels behind the scan have an ink. */
  ghost predicate Progress(r: Region, st: State, row: nat, steps: nat)
    requires r.Valid() && Fits(r, st)
  {
    forall x: nat, y: nat | x < r.width && y < r.height ::
      r.Index(x, y) < |r.source| &&
      (st.out[r.Index(x, y)].Some? <==> r.Active(r.Index(x, y)) && Visited(r, x, y, row, steps))
  }

  lemma VisitProgress(r: Region, st: State, y: nat, step: nat)
    requires r.Valid() && Fits(r, st) && step < r.width && y < r.height && Progress(r, st, y, step)
    ensures Progress(r, Visit(r, st, Column(r, y, step), y), y, step + 1)
  {
    var x := Column(r, y, step);
    var next := Visit(r, st, x, y);
    IndexFits(r, x, y);
    forall u: nat, v: nat | u < r.width && v < r.height
      ensures r.Index(u, v) < |r.source| &&
              (next.out[r.Index(u, v)].Some? <==> r.Active(r.Index(u, v)) && Visited(r, u, v, y, step + 1))
    {
      IndexFits(r, u, v);
      if r.Index(u, v) == r.Index(x, y) { IndexIsInjective(r, x, y, u, v); }
    }
  }

  lemma StartProgress(r: Region)
    requires r.Valid()
    ensures Progress(r, Initial(r), 0, 0)
  {
    forall u: nat, v: nat | u < r.width && v < r.height ensures r.Index(u, v) < |r.source| { IndexFits(r, u, v); }
  }

  lemma NextRowProgress(r: Region, st: State, row: nat)
    requires r.Valid() && Fits(r, st) && Progress(r, st, row, r.width)
    ensures Progress(r, st, row + 1, 0)
  {
    forall x: nat, y: nat | x < r.width && y < r.height
      ensures Visited(r, x, y, row, r.width) <==> Visited(r, x, y, row + 1, 0)
    {
    }
  }

  lemma {:induction false} ProgressHolds(r: Region, y: nat, steps: nat)
    requires r.Valid() && steps <= r.width && (y < r.height || (y == r.height && steps == 0))
    ensures Progress(r, After(r, y, steps), y, steps)
    decreases y, steps
  {
    hide Progress, Visit, Initial;
    if steps > 0 {
      ProgressHolds(r, y, steps - 1);
      VisitProgress(r, After(r, y, steps - 1), y, steps - 1);
    } else if y > 0 {
      ProgressHolds(r, y - 1, r.width);
      NextRowProgress(r, After(r, y - 1, r.width), y - 1);
    } else {
      StartProgress(r);
    }
  }

  // ---------------------------------------------------------------- conservation

  /** The light at pixel i: its ink once chosen, what is still to be quantised before. */
  function LightAt(r: Region, st: State, i: nat): Light
    requires Fits(r, st) && i < |r.source|
  {
    if st.out[i].Some? then r.Lights()[st.out[i].value] else st.work[i]
  }

  /** The light of the active pixels before n, and the error dropped. */
  function Total(r: Region, st: State, n: nat): Light
    requires Fits(r, st) && n <= |r.source|
    decreases n
  {
    if n == 0 then st.dropped
    else if r.Active(n - 1) then Total(r, st, n - 1).Plus(LightAt(r, st, n - 1))
    else Total(r, st, n - 1)
  }

  /** Changing one active pixel's light moves the total by as much. */
  lemma {:induction false} TotalMoves(r: Region, st: State, next: State, i: nat, delta: Light, n: nat)
    requires Fits(r, st) && Fits(r, next) && n <= |r.source| && i < |r.source| && r.Active(i)
    requires next.dropped == st.dropped
    requires LightAt(r, next, i) == LightAt(r, st, i).Plus(delta)
    requires forall j | 0 <= j < |r.source| && j != i :: LightAt(r, next, j) == LightAt(r, st, j)
    ensures Total(r, next, n) == if i < n then Total(r, st, n).Plus(delta) else Total(r, st, n)
    decreases n
  {
    if n > 0 { TotalMoves(r, st, next, i, delta, n - 1); }
  }

  lemma {:induction false} TotalDrops(r: Region, st: State, amount: Light, n: nat)
    requires Fits(r, st) && n <= |r.source|
    ensures Total(r, st.(dropped := st.dropped.Plus(amount)), n) == Total(r, st, n).Plus(amount)
    decreases n
  {
    if n > 0 { TotalDrops(r, st, amount, n - 1); }
  }

  /** A share handed on is never lost: a pixel not yet quantised takes it, or it is counted as dropped. */
  lemma GiveConserves(r: Region, st: State, x: int, y: nat, amount: Light)
    requires r.Valid() && Fits(r, st)
    requires 0 <= x < r.width && y < r.height ==> r.Index(x, y) < |r.source| && st.out[r.Index(x, y)].None?
    ensures Total(r, Give(r, st, x, y, amount), |r.source|) == Total(r, st, |r.source|).Plus(amount)
  {
    hide Total;
    var next := Give(r, st, x, y, amount);
    if 0 <= x < r.width && y < r.height && r.Active(r.Index(x, y)) {
      TotalMoves(r, st, next, r.Index(x, y), amount, |r.source|);
    } else {
      TotalDrops(r, st, amount, |r.source|);
    }
  }

  /** The neighbours that take error lie ahead of the scan. */
  lemma AheadIsOpen(r: Region, st: State, y: nat, step: nat, u: int, v: nat)
    requires r.Valid() && Fits(r, st) && step < r.width && y < r.height && Progress(r, st, y, step)
    requires 0 <= u < r.width && v < r.height
    requires v > y || (v == y && u == Column(r, y, step) + Direction(y))
    ensures r.Index(u, v) < |r.source| && st.out[r.Index(u, v)].None?
    ensures r.Index(u, v) != r.Index(Column(r, y, step), y)
  {
    assert !Visited(r, u, v, y, step);
    if r.Index(u, v) == r.Index(Column(r, y, step), y) { IndexIsInjective(r, u, v, Column(r, y, step), y); }
  }

  lemma {:induction false} GiveAhead(r: Region, st: State, s: State, y: nat, step: nat, u: int, v: nat, amount: Light)
    requires r.Valid() && Fits(r, st) && Fits(r, s) && step < r.width && y < r.height && Progress(r, st, y, step)
    requires r.Index(Column(r, y, step), y) < |r.source|
    requires forall i | 0 <= i < |r.source| && i != r.Index(Column(r, y, step), y) :: s.out[i] == st.out[i]
    requires v > y || (v == y && u == Column(r, y, step) + Direction(y))
    ensures Total(r, Give(r, s, u, v, amount), |r.source|) == Total(r, s, |r.source|).Plus(amount)
  {
    if 0 <= u < r.width && v < r.height { AheadIsOpen(r, st, y, step, u, v); }
    GiveConserves(r, s, u, v, amount);
  }

  lemma SharesAreWhole(t: Light, diff: Light)
    ensures t.Minus(diff).Plus(diff.Share(7)).Plus(diff.Share(3)).Plus(diff.Share(5)).Plus(diff.Share(1)) == t
  {
  }

  /** Choosing an ink takes the pixel's error out of the total. */
  lemma ChoosingTakesTheError(r: Region, st: State, i: nat, k: nat)
    requires Fits(r, st) && i < |r.source| && r.Active(i) && st.out[i].None? && k < |r.inks|
    ensures var chosen := st.(out := st.out[i := Some(k)]);
            Fits(r, chosen) &&
            Total(r, chosen, |r.source|) == Total(r, st, |r.source|).Minus(st.work[i].Minus(r.Lights()[k]))
  {
    hide Total;
    TotalMoves(r, st, st.(out := st.out[i := Some(k)]), i, r.Lights()[k].Minus(st.work[i]), |r.source|);
  }

  lemma {:induction false} VisitConserves(r: Region, st: State, y: nat, step: nat)
    requires r.Valid() && Fits(r, st) && step < r.width && y < r.height && Progress(r, st, y, step)
    ensures Total(r, Visit(r, st, Column(r, y, step), y), |r.source|) == Total(r, st, |r.source|)
  {
    var x := Column(r, y, step);
    IndexFits(r, x, y);
    var i := r.Index(x, y);
    if r.Active(i) {
      assert !Visited(r, x, y, y, step);
      hide Total, Give, Progress, Pick, Visited;
      var k := Pick(r.Lights(), st.work[i], |r.inks|);
      var diff := st.work[i].Minus(r.Lights()[k]);
      var d := Direction(y);
      ChoosingTakesTheError(r, st, i, k);
      SharesConserve(r, st, st.(out := st.out[i := Some(k)]), y, step, diff);
      SharesAreWhole(Total(r, st, |r.source|), diff);
    }
  }

  lemma SharesConserve(r: Region, st: State, s0: State, y: nat, step: nat, diff: Light)
    requires r.Valid() && Fits(r, st) && Fits(r, s0) && step < r.width && y < r.height && Progress(r, st, y, step)
    requires r.Index(Column(r, y, step), y) < |r.source|
    requires forall i | 0 <= i < |r.source| && i != r.Index(Column(r, y, step), y) :: s0.out[i] == st.out[i]
    ensures var x, d := Column(r, y, step), Direction(y);
            var s2 := Give(r, Give(r, s0, x + d, y, diff.Share(7)), x - d, y + 1, diff.Share(3));
            var s3 := Give(r, s2, x, y + 1, diff.Share(5));
            Total(r, Give(r, s3, x + d, y + 1, diff.Share(1)), |r.source|) ==
            Total(r, s0, |r.source|).Plus(diff.Share(7)).Plus(diff.Share(3)).Plus(diff.Share(5)).Plus(diff.Share(1))
  {
    var x, d := Column(r, y, step), Direction(y);
    hide *;
    var s1 := Give(r, s0, x + d, y, diff.Share(7));
    GiveAhead(r, st, s0, y, step, x + d, y, diff.Share(7));
    var s2 := Give(r, s1, x - d, y + 1, diff.Share(3));
    GiveAhead(r, st, s1, y, step, x - d, y + 1, diff.Share(3));
    var s3 := Give(r, s2, x, y + 1, diff.Share(5));
    GiveAhead(r, st, s2, y, step, x, y + 1, diff.Share(5));
    GiveAhead(r, st, s3, y, step, x + d, y + 1, diff.Share(1));
  }

  lemma {:induction false} TotalHolds(r: Region, y: nat, steps: nat)
    requires r.Valid() && steps <= r.width && (y < r.height || (y == r.height && steps == 0))
    ensures Total(r, After(r, y, steps), |r.source|) == Total(r, Initial(r), |r.source|)
    decreases y, steps
  {
    hide Total, Visit, Initial;
    if steps > 0 {
      TotalHolds(r, y, steps - 1);
      ProgressHolds(r, y, steps - 1);
      VisitConserves(r, After(r, y, steps - 1), y, steps - 1);
    } else if y > 0 {
      TotalHolds(r, y - 1, r.width);
    }
  }

  /** The sum of f over the active pixels before n. */
  function ActiveSum(r: Region, f: seq<Light>, n: nat): Light
    requires |f| == |r.source| && n <= |r.source|
    decreases n
  {
    if n == 0 then DARK
    else if r.Active(n - 1) then ActiveSum(r, f, n - 1).Plus(f[n - 1])
    else ActiveSum(r, f, n - 1)
  }

  /** What the finished region shows: each active pixel's ink, nothing at locked ones. */
  function Shown(r: Region): (inks: seq<Light>)
    requires r.Valid()
    ensures |inks| == |r.source|
  {
    var out := After(r, r.height, 0).out;
    seq(|r.source|, (i: nat) requires i < |r.source| && |out| == |r.source|
        && (out[i].Some? ==> out[i].value < |r.inks|) =>
      if out[i].Some? then r.linear(r.inks[out[i].value]) else DARK)
  }

  lemma {:induction false} TotalIsSum(r: Region, st: State, f: seq<Light>, n: nat)
    requires Fits(r, st) && |f| == |r.source| && n <= |r.source|
    requires forall i | 0 <= i < |r.source| && r.Active(i) :: f[i] == LightAt(r, st, i)
    ensures Total(r, st, n) == ActiveSum(r, f, n).Plus(st.dropped)
    decreases n
  {
    if n > 0 { TotalIsSum(r, st, f, n - 1); }
  }

  lemma EveryActivePixelIsOut(r: Region, i: nat)
    requires r.Valid() && i < |r.source| && r.Active(i)
    ensures After(r, r.height, 0).out[i].Some?
  {
    ProgressHolds(r, r.height, 0);
    var y, x := RowOf(r, i), i - RowOf(r, i) * r.width;
    assert r.Index(x, y) == i && Visited(r, x, y, r.height, 0);
  }

  function RowOf(r: Region, i: nat): (y: nat)
    requires r.Valid() && i < |r.source|
    ensures y < r.height && y * r.width <= i < y * r.width + r.width
  {
    assert r.height == 0 ==> r.height * r.width == 0;
    RowOfUpTo(r, i, r.height)
  }

  function RowOfUpTo(r: Region, i: nat, rows: nat): (y: nat)
    requires rows >= 1 && i < rows * r.width
    ensures y < rows && y * r.width <= i < y * r.width + r.width
    decreases rows
  {
    assert rows * r.width == (rows - 1) * r.width + r.width;
    if rows == 1 || (rows - 1) * r.width <= i then rows - 1 else RowOfUpTo(r, i, rows - 1)
  }

  /**
    For every region, palette and curve, the light of the active source pixels is the light of the
    inks chosen for them plus the error dropped at edges and locked pixels: nothing else is lost.
   */
  lemma {:induction false} LightIsConserved(r: Region)
    requires r.Valid()
    ensures var work := Initial(r).work;
            ActiveSum(r, work, |r.source|) == ActiveSum(r, Shown(r), |r.source|).Plus(After(r, r.height, 0).dropped)
  {
    hide Total, ActiveSum;
    var last := After(r, r.height, 0);
    TotalHolds(r, r.height, 0);
    TotalIsSum(r, Initial(r), Initial(r).work, |r.source|);
    forall i | 0 <= i < |r.source| && r.Active(i) ensures Shown(r)[i] == LightAt(r, last, i) {
      EveryActivePixelIsOut(r, i);
    }
    TotalIsSum(r, last, Shown(r), |r.source|);
  }

  // ---------------------------------------------------------------- the region, in place

  method Spread(r: Region, active: array<bool>, work: array<Light>, x: int, y: nat, amount: Light, ghost st: State)
    requires r.Valid() && Fits(r, st) && work[..] == st.work
    requires active.Length == |r.source| && forall i | 0 <= i < |r.source| :: active[i] == r.Active(i)
    modifies work
    ensures work[..] == Give(r, st, x, y, amount).work
  {
    if x < 0 || x >= r.width || y >= r.height { return; }
    IndexFits(r, x, y);
    var n := y * r.width + x;
    if !active[n] { return; }
    work[n] := work[n].Plus(amount);
  }

  /** The picture while the scan is in state st. */
  function Painted(r: Region, st: State, left: nat, top: nat, column: nat, row: nat, before: Rgb): Rgb
    requires r.Valid() && Fits(r, st)
  {
    if left <= column < left + r.width && top <= row < top + r.height then
      IndexFits(r, column - left, row - top);
      var o := st.out[r.Index(column - left, row - top)];
      if o.Some? then r.inks[o.value] else before
    else before
  }

  lemma PaintedMoves(r: Region, st: State, next: State, left: nat, top: nat, x: nat, y: nat, k: nat, column: nat,
      row: nat, before: Rgb)
    requires r.Valid() && Fits(r, st) && Fits(r, next) && x < r.width && y < r.height && k < |r.inks|
    requires r.Index(x, y) < |r.source| && next.out == st.out[r.Index(x, y) := Some(k)]
    ensures Painted(r, next, left, top, column, row, before) ==
            if column == left + x && row == top + y then r.inks[k] else Painted(r, st, left, top, column, row, before)
  {
    if left <= column < left + r.width && top <= row < top + r.height {
      IndexFits(r, column - left, row - top);
      if r.Index(column - left, row - top) == r.Index(x, y) { IndexIsInjective(r, column - left, row - top, x, y); }
    }
  }

  /** One pixel of the scan: choose an ink, paint it, spread the error. */
  method QuantisePixel(r: Region, lights: seq<Light>, active: array<bool>, work: array<Light>, x: nat, y: nat,
      ghost st: State)
      returns (ink: nat)
    requires r.Valid() && Fits(r, st) && work[..] == st.work && x < r.width && y < r.height && lights == r.Lights()
    requires active.Length == |r.source| && forall i | 0 <= i < |r.source| :: active[i] == r.Active(i)
    requires r.Index(x, y) < |r.source| && r.Active(r.Index(x, y))
    modifies work
    ensures ink < |r.inks| && work[..] == Visit(r, st, x, y).work
    ensures Visit(r, st, x, y).out == st.out[r.Index(x, y) := Some(ink)]
  {
    hide Give, Pick;
    var i := y * r.width + x;
    var before := work[i];
    ink := PickNearest(lights, before);
    var diff := before.Minus(lights[ink]);
    var d := Direction(y);
    ghost var s0 := st.(out := st.out[i := Some(ink)]);
    Spread(r, active, work, x + d, y, diff.Share(7), s0);
    ghost var s1 := Give(r, s0, x + d, y, diff.Share(7));
    Spread(r, active, work, x - d, y + 1, diff.Share(3), s1);
    ghost var s2 := Give(r, s1, x - d, y + 1, diff.Share(3));
    Spread(r, active, work, x, y + 1, diff.Share(5), s2);
    ghost var s3 := Give(r, s2, x, y + 1, diff.Share(5));
    Spread(r, active, work, x + d, y + 1, diff.Share(1), s3);
  }

  type Pixels = map<(nat, nat), Rgb>

  ghost predicate Shows(r: Region, st: State, left: nat, top: nat, output: array2<Rgb>, before: Pixels)
    requires r.Valid() && Fits(r, st)
    reads output
  {
    forall row: nat, column: nat | row < output.Length0 && column < output.Length1 ::
      (row, column) in before && output[row, column] == Painted(r, st, left, top, column, row, before[(row, column)])
  }

  ghost predicate Buffers(r: Region, active: array<bool>, work: array<Light>, st: State)
    reads active, work
  {
    && active.Length == |r.source| && (forall i | 0 <= i < |r.source| :: active[i] == r.Active(i))
    && work[..] == st.work
  }

  method DitherPixel(r: Region, lights: seq<Light>, active: array<bool>, work: array<Light>, output: array2<Rgb>,
                     left: nat, top: nat, x: nat, y: nat, ghost st: State, ghost before: Pixels)
    requires r.Valid() && Fits(r, st) && Buffers(r, active, work, st) && x < r.width && y < r.height
    requires lights == r.Lights() && left + r.width <= output.Length1 && top + r.height <= output.Length0
    requires Shows(r, st, left, top, output, before)
    modifies work, output
    ensures Buffers(r, active, work, Visit(r, st, x, y))
    ensures Shows(r, Visit(r, st, x, y), left, top, output, before)
  {
    hide Visit, Painted;
    IndexFits(r, x, y);
    if !active[y * r.width + x] {
      LockedIsSkipped(r, st, x, y);
      return;
    }
    var ink := QuantisePixel(r, lights, active, work, x, y, st);
    ghost var next := Visit(r, st, x, y);
    forall row: nat, column: nat | row < output.Length0 && column < output.Length1
      ensures Painted(r, next, left, top, column, row, before[(row, column)]) ==
              if row == top + y && column == left + x then r.inks[ink] else output[row, column]
    {
      PaintedMoves(r, st, next, left, top, x, y, ink, column, row, before[(row, column)]);
    }
    output[top + y, left + x] := r.inks[ink];
  }

  /** The serpentine scan. */
  method Scan(r: Region, active: array<bool>, work: array<Light>, output: array2<Rgb>,
              left: nat, top: nat, ghost before: Pixels)
    requires r.Valid() && left + r.width <= output.Length1 && top + r.height <= output.Length0
    requires Buffers(r, active, work, Initial(r)) && Shows(r, Initial(r), left, top, output, before)
    modifies work, output
    ensures Shows(r, After(r, r.height, 0), left, top, output, before)
  {
    hide Visit, Initial, Painted, Shows, Buffers, Nearest;
    var lights := r.Lights();
    for y := 0 to r.height
      invariant Buffers(r, active, work, After(r, y, 0)) && Shows(r, After(r, y, 0), left, top, output, before)
    {
      for step := 0 to r.width
        invariant Buffers(r, active, work, After(r, y, step)) && Shows(r, After(r, y, step), left, top, output, before)
      {
        var x := if y % 2 == 0 then step else r.width - 1 - step;
        DitherPixel(r, lights, active, work, output, left, top, x, y, After(r, y, step), before);
        assert After(r, y, step + 1) == Visit(r, After(r, y, step), x, y);
      }
    }
  }

  /** Paints the active pixels of the region and nothing else. */
  method DitherRegion(r: Region, output: array2<Rgb>, left: nat, top: nat)
    requires r.Valid() && left + r.width <= output.Length1 && top + r.height <= output.Length0
    modifies output
    ensures forall row: nat, column: nat | row < output.Length0 && column < output.Length1 ::
              output[row, column] == Painted(r, After(r, r.height, 0), left, top, column, row, old(output[row, column]))
  {
    hide After;
    var n := |r.source|;
    var work := new Light[n](i requires 0 <= i < n => r.linear(r.source[i]));
    var active := new bool[n](i requires 0 <= i < n => r.source[i] !in r.inks);
    ghost var before: Pixels :=
      map row: nat, column: nat | row < output.Length0 && column < output.Length1 ::
          (row, column) := output[row, column];
    assert work[..] == Initial(r).work;
    NothingPainted(r, left, top, output, before);
    hide Painted, Shows;
    Scan(r, active, work, output, left, top, before);
    ShowsAll(r, After(r, r.height, 0), left, top, output, before);
  }

  lemma NothingPainted(r: Region, left: nat, top: nat, output: array2<Rgb>, before: Pixels)
    requires r.Valid()
    requires forall row: nat, column: nat | row < output.Length0 && column < output.Length1 ::
      (row, column) in before && before[(row, column)] == output[row, column]
    ensures Shows(r, Initial(r), left, top, output, before)
  {
    hide Painted;
    forall row: nat, column: nat | row < output.Length0 && column < output.Length1
      ensures output[row, column] == Painted(r, Initial(r), left, top, column, row, before[(row, column)])
    {
      Unpainted(r, left, top, column, row, before[(row, column)]);
    }
  }

  lemma Unpainted(r: Region, left: nat, top: nat, column: nat, row: nat, pixel: Rgb)
    requires r.Valid()
    ensures Painted(r, Initial(r), left, top, column, row, pixel) == pixel
  {
    if left <= column < left + r.width && top <= row < top + r.height {
      IndexFits(r, column - left, row - top);
      assert Initial(r).out[r.Index(column - left, row - top)] == None;
    }
  }

  lemma ShowsAll(r: Region, st: State, left: nat, top: nat, output: array2<Rgb>, before: Pixels)
    requires r.Valid() && Fits(r, st) && Shows(r, st, left, top, output, before)
    ensures forall row: nat, column: nat | row < output.Length0 && column < output.Length1 ::
      (row, column) in before && output[row, column] == Painted(r, st, left, top, column, row, before[(row, column)])
  {
  }

  lemma LockedIsSkipped(r: Region, st: State, x: nat, y: nat)
    requires r.Valid() && Fits(r, st) && x < r.width && y < r.height
    requires r.Index(x, y) < |r.source| && !r.Active(r.Index(x, y))
    ensures Visit(r, st, x, y) == st
  {
  }

  // ---------------------------------------------------------------- the whole picture

  datatype Rgba = Rgba(r: byte, g: byte, b: byte, a: byte)

  /** One channel over a background, rounded to the nearest integer. */
  function Over(f: byte, alpha: byte, b: byte): (c: byte)
    ensures f <= b ==> f <= c <= b
    ensures b <= f ==> b <= c <= f
    ensures alpha == 255 ==> c == f
    ensures alpha == 0 ==> c == b
  {
    OverIsBetween(f, alpha, b);
    (f as int * alpha + b as int * (255 - alpha as int) + 127) / 255
  }

  lemma {:induction false} Scaled(x: nat, y: nat, k: nat)
    requires x <= y
    ensures x * k <= y * k
    decreases k
  {
    if k > 0 {
      Scaled(x, y, k - 1);
      assert x * k == x * (k - 1) + x && y * k == y * (k - 1) + y;
    }
  }

  lemma Whole(x: nat, k: nat)
    requires k <= 255
    ensures x * k + x * (255 - k) == 255 * x
  {
  }

  lemma OverIsBetween(f: byte, alpha: byte, b: byte)
    ensures var mix := f as int * alpha + b as int * (255 - alpha as int);
            (f <= b ==> 255 * f as int <= mix <= 255 * b as int) && (b <= f ==> 255 * b as int <= mix <= 255 * f as int)
  {
    var low, high := if f <= b then f else b, if f <= b then b else f;
    Scaled(low, high, alpha);
    Scaled(low, high, 255 - alpha);
    Whole(f, alpha);
    Whole(b, alpha);
  }

  /** The result is the integer nearest to the exact mixture. */
  lemma OverRounds(f: byte, alpha: byte, b: byte)
    ensures var mix := f as int * alpha + b as int * (255 - alpha as int);
            -127 <= 255 * Over(f, alpha, b) - mix <= 127
  {
  }

  function CompositeOver(p: Rgba, background: Rgb): Rgb {
    Rgb(Over(p.r, p.a, background.r), Over(p.g, p.a, background.g), Over(p.b, p.a, background.b))
  }

  function ColourDistance(a: Rgb, b: Rgb): int {
    (a.r - b.r) * (a.r - b.r) + (a.g - b.g) * (a.g - b.g) + (a.b - b.b) * (a.b - b.b)
  }

  function NearestInk(source: Rgb, inks: Palette, n: nat): (k: nat)
    requires 0 < n <= |inks|
    ensures k < n
    ensures forall j | 0 <= j < n :: ColourDistance(source, inks[k]) <= ColourDistance(source, inks[j])
    ensures forall j | 0 <= j < k :: ColourDistance(source, inks[k]) < ColourDistance(source, inks[j])
    decreases n
  {
    if n == 1 then 0
    else
      var best := NearestInk(source, inks, n - 1);
      if ColourDistance(source, inks[n - 1]) < ColourDistance(source, inks[best]) then n - 1 else best
  }

  method NearestPaletteColor(source: Rgb, inks: Palette) returns (nearest: Rgb)
    ensures nearest == inks[NearestInk(source, inks, |inks|)]
  {
    nearest := inks[0];
    var distance := ColourDistance(source, nearest);
    for i := 1 to |inks|
      invariant nearest == inks[NearestInk(source, inks, i)] && distance == ColourDistance(source, nearest)
    {
      var d := ColourDistance(source, inks[i]);
      if d < distance { nearest, distance := inks[i], d; }
    }
  }

  lemma OnlyItselfIsAtZero(a: Rgb, b: Rgb)
    ensures ColourDistance(a, b) >= 0
    ensures ColourDistance(a, b) == 0 <==> a == b
  {
    SquareIsPositive(a.r - b.r);
    SquareIsPositive(a.g - b.g);
    SquareIsPositive(a.b - b.b);
  }

  lemma SquareIsPositive(d: int)
    ensures d * d >= 0 && (d * d == 0 <==> d == 0)
  {
  }

  /** An exact ink is its own nearest ink. */
  lemma ExactInkStays(source: Rgb, inks: Palette)
    requires source in inks
    ensures inks[NearestInk(source, inks, |inks|)] == source
  {
    hide ColourDistance;
    var j :| 0 <= j < |inks| && inks[j] == source;
    OnlyItselfIsAtZero(source, inks[j]);
    OnlyItselfIsAtZero(source, inks[NearestInk(source, inks, |inks|)]);
  }

  type Picture = (nat, nat) -> Rgba

  function Source(picture: Picture, inks: Palette, column: nat, row: nat): Rgb {
    CompositeOver(picture(column, row), inks[1])
  }

  function Max(a: int, b: int): int { if a > b then a else b }
  function Min(a: int, b: int): int { if a < b then a else b }

  datatype Rect = Rect(left: int, top: int, right: int, bottom: int) {
    predicate Holds(column: int, row: int) { left <= column < right && top <= row < bottom }

    /** Some of it lies in the output. */
    predicate Within(width: nat, height: nat) {
      Max(left, 0) < Min(right, width) && Max(top, 0) < Min(bottom, height)
    }
  }

  /** The first n source colours of one row of a region. */
  function RowOfSource(picture: Picture, inks: Palette, left: nat, row: nat, n: nat): (s: seq<Rgb>)
    ensures |s| == n && forall u | 0 <= u < n :: s[u] == Source(picture, inks, left + u, row)
  {
    seq(n, (u: nat) => Source(picture, inks, left + u, row))
  }

  function RowsOfSource(picture: Picture, inks: Palette, left: nat, top: nat, width: nat, rows: nat): (s: seq<Rgb>)
    ensures |s| == rows * width
    decreases rows
  {
    if rows == 0 then []
    else
      assert rows * width == (rows - 1) * width + width;
      RowsOfSource(picture, inks, left, top, width, rows - 1)
      + RowOfSource(picture, inks, left, top + rows - 1, width)
  }

  lemma {:induction false} SourceAt(picture: Picture, inks: Palette, left: nat, top: nat, width: nat, rows: nat, u: nat,
      v: nat)
    requires u < width && v < rows
    ensures v * width + u < rows * width
    ensures RowsOfSource(picture, inks, left, top, width, rows)[v * width + u] ==
            Source(picture, inks, left + u, top + v)
    decreases rows
  {
    hide Source;
    RowEnds(v, rows, width);
    assert rows * width == (rows - 1) * width + width;
    if v < rows - 1 {
      RowEnds(v, rows - 1, width);
      SourceAt(picture, inks, left, top, width, rows - 1, u, v);
    }
  }

  method CutRegion(picture: Picture, inks: Palette, linear: Rgb -> Light, left: nat, top: nat, width: nat, height: nat)
      returns (r: Region)
    ensures r == Region(width, height, RowsOfSource(picture, inks, left, top, width, height), inks, linear)
  {
    hide Source;
    var source: seq<Rgb> := [];
    for y := 0 to height
      invariant source == RowsOfSource(picture, inks, left, top, width, y)
    {
      for x := 0 to width
        invariant source == RowsOfSource(picture, inks, left, top, width, y)
                            + RowOfSource(picture, inks, left, top + y, x)
      {
        source := source + [Source(picture, inks, left + x, top + y)];
      }
    }
    r := Region(width, height, source, inks, linear);
  }

  /** The part of the picture inside a rectangle, clipped to the output. */
  function Cut(picture: Picture, inks: Palette, linear: Rgb -> Light, rect: Rect, width: nat, height: nat): (r: Region)
    requires rect.Within(width, height)
    ensures r.Valid() && r.inks == inks && r.linear == linear
  {
    var left, top := Max(rect.left, 0), Max(rect.top, 0);
    var w, h := Min(rect.right, width) - left, Min(rect.bottom, height) - top;
    Region(w, h, RowsOfSource(picture, inks, left, top, w, h), inks, linear)
  }

  predicate Outside(regions: seq<Rect>, column: int, row: int) {
    forall k | 0 <= k < |regions| :: !regions[k].Holds(column, row)
  }

  /** The last of the regions that holds the pixel. */
  predicate LastHolder(regions: seq<Rect>, k: nat, column: int, row: int) {
    && k < |regions| && regions[k].Holds(column, row)
    && forall m | k < m < |regions| :: !regions[m].Holds(column, row)
  }

  /** What the scan of one region, cut from the picture by itself, shows at a pixel; exact inks stay. */
  ghost function Dithered(picture: Picture, inks: Palette, linear: Rgb -> Light, rect: Rect, width: nat, height: nat,
      column: nat, row: nat): Rgb
    requires column < width && row < height && rect.Holds(column, row)
  {
    var r := Cut(picture, inks, linear, rect, width, height);
    Painted(r, After(r, r.height, 0), Max(rect.left, 0), Max(rect.top, 0), column, row,
        Source(picture, inks, column, row))
  }

  /**
    Finished so far: inks only, exact inks as they were, crisp quantisation outside the regions, and
    elsewhere the dithering of the last region that holds the pixel.
   */
  ghost predicate Quantised(picture: Picture, inks: Palette, linear: Rgb -> Light, regions: seq<Rect>,
      output: array2<Rgb>)
    reads output
  {
    forall row: nat, column: nat | row < output.Length0 && column < output.Length1 ::
      PixelQuantised(picture, inks, linear, regions, output, column, row)
  }

  ghost predicate PixelQuantised(picture: Picture, inks: Palette, linear: Rgb -> Light, regions: seq<Rect>,
      output: array2<Rgb>, column: nat, row: nat)
    requires row < output.Length0 && column < output.Length1
    reads output
  {
    var source := Source(picture, inks, column, row);
    && output[row, column] in inks
    && (source in inks ==> output[row, column] == source)
    && (Outside(regions, column, row) ==> output[row, column] == inks[NearestInk(source, inks, |inks|)])
    && forall k: nat | LastHolder(regions, k, column, row) ::
         output[row, column] ==
         Dithered(picture, inks, linear, regions[k], output.Length1, output.Length0, column, row)
  }

  method Crisp(picture: Picture, inks: Palette, output: array2<Rgb>)
    modifies output
    ensures forall row: nat, column: nat | row < output.Length0 && column < output.Length1 ::
      output[row, column] == inks[NearestInk(Source(picture, inks, column, row), inks, |inks|)]
  {
    hide Source, ColourDistance;
    for row := 0 to output.Length0
      invariant forall v: nat, u: nat | v < row && u < output.Length1 ::
        output[v, u] == inks[NearestInk(Source(picture, inks, u, v), inks, |inks|)]
    {
      for column := 0 to output.Length1
        invariant forall v: nat, u: nat | v < row && u < output.Length1 ::
          output[v, u] == inks[NearestInk(Source(picture, inks, u, v), inks, |inks|)]
        invariant forall u: nat | u < column ::
                  output[row, u] == inks[NearestInk(Source(picture, inks, u, row), inks, |inks|)]
      {
        output[row, column] := NearestPaletteColor(Source(picture, inks, column, row), inks);
      }
    }
  }

  /**
    Every pixel of the result is an ink: exact inks stay, pixels outside the regions are crisp, and
    each region is dithered by itself, later ones over earlier ones.
   */
  method QuantizeWithDitherRegions(picture: Picture, inks: Palette, linear: Rgb -> Light, regions: seq<Rect>,
      output: array2<Rgb>)
    modifies output
    ensures Quantised(picture, inks, linear, regions, output)
  {
    hide PixelQuantised;
    Crisp(picture, inks, output);
    CrispIsQuantised(picture, inks, linear, output);
    for k := 0 to |regions|
      invariant Quantised(picture, inks, linear, regions[..k], output)
    {
      var left, top := Max(regions[k].left, 0), Max(regions[k].top, 0);
      var right, bottom := Min(regions[k].right, output.Length1), Min(regions[k].bottom, output.Length0);
      assert regions[..k + 1] == regions[..k] + [regions[k]];
      if left < right && top < bottom {
        DitherOne(picture, inks, linear, regions[..k], regions[k], output, left, top, right - left, bottom - top);
      } else {
        ghost var before := regions[..k];
        forall row: nat, column: nat | row < output.Length0 && column < output.Length1
          ensures PixelQuantised(picture, inks, linear, before + [regions[k]], output, column, row)
        {
          OneMoreRegion(picture, inks, linear, before, regions[k], output, column, row);
        }
      }
    }
    assert regions[..|regions|] == regions;
  }

  lemma {:induction false} CrispPixel(picture: Picture, inks: Palette, linear: Rgb -> Light, output: array2<Rgb>,
      column: nat, row: nat)
    requires row < output.Length0 && column < output.Length1
    requires output[row, column] == inks[NearestInk(Source(picture, inks, column, row), inks, |inks|)]
    ensures PixelQuantised(picture, inks, linear, [], output, column, row)
  {
    hide Source, ColourDistance, Dithered;
    if Source(picture, inks, column, row) in inks { ExactInkStays(Source(picture, inks, column, row), inks); }
  }

  lemma {:induction false} CrispIsQuantised(picture: Picture, inks: Palette, linear: Rgb -> Light, output: array2<Rgb>)
    requires forall row: nat, column: nat | row < output.Length0 && column < output.Length1 ::
      output[row, column] == inks[NearestInk(Source(picture, inks, column, row), inks, |inks|)]
    ensures Quantised(picture, inks, linear, [], output)
  {
    hide PixelQuantised;
    forall row: nat, column: nat | row < output.Length0 && column < output.Length1
      ensures PixelQuantised(picture, inks, linear, [], output, column, row)
    {
      CrispPixel(picture, inks, linear, output, column, row);
    }
  }

  lemma HoldersOfMore(regions: seq<Rect>, rect: Rect, column: nat, row: nat)
    ensures Outside(regions + [rect], column, row) ==> Outside(regions, column, row) && !rect.Holds(column, row)
    ensures forall k: nat | LastHolder(regions + [rect], k, column, row) ::
              if rect.Holds(column, row) then k == |regions| else k < |regions| && LastHolder(regions, k, column, row)
  {
    var more := regions + [rect];
    assert more[|regions|] == rect && forall k | 0 <= k < |regions| :: more[k] == regions[k];
  }

  /** A region that does not hold the pixel changes nothing there. */
  lemma OneMoreRegion(picture: Picture, inks: Palette, linear: Rgb -> Light, regions: seq<Rect>, rect: Rect,
      output: array2<Rgb>, column: nat, row: nat)
    requires row < output.Length0 && column < output.Length1 && !rect.Holds(column, row)
    requires PixelQuantised(picture, inks, linear, regions, output, column, row)
    ensures PixelQuantised(picture, inks, linear, regions + [rect], output, column, row)
  {
    hide Source, Dithered, LastHolder, Outside;
    HoldersOfMore(regions, rect, column, row);
  }

  /** A region that holds the pixel decides it, unless it is an exact ink. */
  lemma OneMoreHolder(picture: Picture, inks: Palette, linear: Rgb -> Light, regions: seq<Rect>, rect: Rect,
      output: array2<Rgb>, column: nat, row: nat)
    requires row < output.Length0 && column < output.Length1 && rect.Holds(column, row)
    requires output[row, column] in inks
    requires var source := Source(picture, inks, column, row); source in inks ==> output[row, column] == source
    requires output[row, column] ==
             Dithered(picture, inks, linear, rect, output.Length1, output.Length0, column, row)
    ensures PixelQuantised(picture, inks, linear, regions + [rect], output, column, row)
  {
    hide Source, Dithered, LastHolder, Outside;
    HoldersOfMore(regions, rect, column, row);
  }

  /** Inside the region a finished scan shows inks, and exact inks as they were. */
  lemma PaintedIsInk(r: Region, left: nat, top: nat, column: nat, row: nat, before: Rgb)
    requires r.Valid() && left <= column < left + r.width && top <= row < top + r.height
    ensures r.Index(column - left, row - top) < |r.source|
    ensures var source := r.source[r.Index(column - left, row - top)];
            var shown := Painted(r, After(r, r.height, 0), left, top, column, row, before);
            if source in r.inks then shown == before else
              shown in r.inks && forall other ::
                  Painted(r, After(r, r.height, 0), left, top, column, row, other) == shown
  {
    hide After;
    IndexFits(r, column - left, row - top);
    if r.Active(r.Index(column - left, row - top)) { EveryActivePixelIsOut(r, r.Index(column - left, row - top)); }
  }

  method DitherOne(picture: Picture, inks: Palette, linear: Rgb -> Light, ghost regions: seq<Rect>, ghost rect: Rect,
                   output: array2<Rgb>, left: nat, top: nat, width: nat, height: nat)
    requires left == Max(rect.left, 0) && left + width == Min(rect.right, output.Length1) && width > 0
    requires top == Max(rect.top, 0) && top + height == Min(rect.bottom, output.Length0) && height > 0
    requires Quantised(picture, inks, linear, regions, output)
    modifies output
    ensures Quantised(picture, inks, linear, regions + [rect], output)
  {
    hide Source, After, Painted, RowsOfSource;
    var r := CutRegion(picture, inks, linear, left, top, width, height);
    assert r == Cut(picture, inks, linear, rect, output.Length1, output.Length0);
    label before:
    DitherRegion(r, output, left, top);
    forall row: nat, column: nat | row < output.Length0 && column < output.Length1
      ensures PixelQuantised(picture, inks, linear, regions + [rect], output, column, row)
    {
      ghost var was := old@before(output[row, column]);
      assert old@before(PixelQuantised(picture, inks, linear, regions, output, column, row));
      if left <= column < left + width && top <= row < top + height {
        SourceAt(picture, inks, left, top, width, height, column - left, row - top);
        PaintedIsInk(r, left, top, column, row, was);
        PaintedIsInk(r, left, top, column, row, Source(picture, inks, column, row));
        OneMoreHolder(picture, inks, linear, regions, rect, output, column, row);
      } else {
        PaintedOutside(r, left, top, column, row, was);
        assert PixelQuantised(picture, inks, linear, regions, output, column, row);
        OneMoreRegion(picture, inks, linear, regions, rect, output, column, row);
      }
    }
  }

  lemma PaintedOutside(r: Region, left: nat, top: nat, column: nat, row: nat, before: Rgb)
    requires r.Valid() && !(left <= column < left + r.width && top <= row < top + r.height)
    ensures Painted(r, After(r, r.height, 0), left, top, column, row, before) == before
  {
    hide After;
  }

  // ---------------------------------------------------------------- light of the finished picture

  /** The light of the output inside a region, in the region's order. */
  ghost function OutputLights(r: Region, output: array2<Rgb>, left: nat, top: nat): (lights: seq<Light>)
    requires r.Valid() && left + r.width <= output.Length1 && top + r.height <= output.Length0
    reads output
    ensures |lights| == |r.source|
  {
    seq(|r.source|, (i: nat) requires i < |r.source| reads output =>
      r.linear(output[top + RowOf(r, i), left + i - RowOf(r, i) * r.width]))
  }

  lemma {:induction false} ActiveSumAlike(r: Region, f: seq<Light>, g: seq<Light>, n: nat)
    requires |f| == |g| == |r.source| && n <= |r.source|
    requires forall i | 0 <= i < |r.source| && r.Active(i) :: f[i] == g[i]
    ensures ActiveSum(r, f, n) == ActiveSum(r, g, n)
    decreases n
  {
    if n > 0 { ActiveSumAlike(r, f, g, n - 1); }
  }

  /**
    In the finished picture, a region no later one overlaps holds the light of its source: over its
    pixels that are not exact inks, what the output shows and the error dropped sum to the source's.
   */
  lemma {:induction false} OutputConservesLight(picture: Picture, inks: Palette, linear: Rgb -> Light,
      regions: seq<Rect>, k: nat, output: array2<Rgb>)
    requires k < |regions| && regions[k].Within(output.Length1, output.Length0)
    requires Quantised(picture, inks, linear, regions, output)
    requires forall m, column, row | k < m < |regions| && regions[k].Holds(column, row) ::
               !regions[m].Holds(column, row)
    ensures var rect := regions[k];
            var r := Cut(picture, inks, linear, rect, output.Length1, output.Length0);
            ActiveSum(r, Initial(r).work, |r.source|) ==
            ActiveSum(r, OutputLights(r, output, Max(rect.left, 0), Max(rect.top, 0)), |r.source|)
              .Plus(After(r, r.height, 0).dropped)
  {
    hide ActiveSum, After, Source, RowsOfSource;
    var rect := regions[k];
    var left, top := Max(rect.left, 0), Max(rect.top, 0);
    var r := Cut(picture, inks, linear, rect, output.Length1, output.Length0);
    LightIsConserved(r);
    var lights := OutputLights(r, output, left, top);
    forall i | 0 <= i < |r.source| && r.Active(i) ensures lights[i] == Shown(r)[i] {
      var y := RowOf(r, i);
      var x := i - y * r.width;
      EveryActivePixelIsOut(r, i);
      assert rect.Holds(left + x, top + y);
      assert LastHolder(regions, k, left + x, top + y) by {
        assert forall m | k < m < |regions| :: !regions[m].Holds(left + x, top + y);
      }
      assert PixelQuantised(picture, inks, linear, regions, output, left + x, top + y);
      assert r.Index(x, y) == i;
    }
    ActiveSumAlike(r, lights, Shown(r), |r.source|);
  }
}
