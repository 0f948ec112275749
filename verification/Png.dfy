/**
  The PNG encoder and validator of web/src/png.ts. Deflate and inflate are parameters; chunks,
  checksums, chunk order, scanline filters (RFC 2083 section 6) and pixels are modelled byte for
  byte.
 */
module Png {
  import opened Wrappers
  import opened Crc

  const WIDTH: nat := 800
  const HEIGHT: nat := 480
  const MAX_PNG: nat := 5 * 1024 * 1024
  const MAX_U32: nat := 0xffff_ffff

  const SIGNATURE: Bytes := [137, 80, 78, 71, 13, 10, 26, 10]
  const IHDR: Bytes := [73, 72, 68, 82]
  const PLTE: Bytes := [80, 76, 84, 69]
  const IDAT: Bytes := [73, 68, 65, 84]
  const IEND: Bytes := [73, 69, 78, 68]
  const TRNS: Bytes := [116, 82, 78, 83]
  const ACTL: Bytes := [97, 99, 84, 76]

  /** Black, white, yellow, red, blue, green. */
  const PALETTE: Bytes := [0, 0, 0, 255, 255, 255, 255, 255, 0, 255, 0, 0, 0, 0, 255, 0, 255, 0]

  datatype Flaw =
    | NotPng
    | Incomplete
    | ChunkLength
    | ChunkName
    | ChunkCrc
    | NoHeader
    | BadHeader
    | BadPalette
    | DataOrder
    | BadTail
    | Unsupported
    | NoEnd
    | BadData
    | BadFilter
    | BadPixel

  // ---------------------------------------------------------------- numbers on the wire

  function Big32(n: nat): (b: Bytes)
    requires n <= MAX_U32
    ensures |b| == 4
  {
    [n / 0x100_0000, n / 0x1_0000 % 256, n / 0x100 % 256, n % 256]
  }

  function ReadBig32(b: Bytes): nat
    requires |b| == 4
  {
    (((b[0] as int) * 256 + b[1]) * 256 + b[2]) * 256 + b[3]
  }

  lemma ReadBig32OfBig32(n: nat)
    requires n <= MAX_U32
    ensures ReadBig32(Big32(n)) == n
  {
    assert n / 0x1_0000 == n / 0x100_0000 * 256 + n / 0x1_0000 % 256;
    assert n / 0x100 == n / 0x1_0000 * 256 + n / 0x100 % 256;
    assert n == n / 0x100 * 256 + n % 256;
  }

  function FromBits(bits: seq<bool>): (n: nat)
    ensures n < Power(|bits|)
    decreases |bits|
  {
    if bits == [] then 0 else (if bits[0] then 1 else 0) + 2 * FromBits(bits[1..])
  }

  lemma {:induction false} BitAtFromBits(bits: seq<bool>, b: byte, i: nat)
    requires i < |bits| && b == FromBits(bits)
    ensures BitAt(b, i) == bits[i]
    decreases |bits|
  {
    if i > 0 { BitAtFromBits(bits[1..], b / 2, i - 1); }
  }

  function ByteAt(w: Word, i: nat): byte
    requires i <= 24
  {
    assert Power(8) == 256;
    FromBits(w[i..i + 8])
  }

  function CrcBytes(w: Word): (b: Bytes)
    ensures |b| == 4
  {
    [ByteAt(w, 24), ByteAt(w, 16), ByteAt(w, 8), ByteAt(w, 0)]
  }

  function ReadCrc(b: Bytes): Word
    requires |b| == 4
  {
    Packed([b[3], b[2], b[1], b[0]])
  }

  lemma ReadCrcOfCrcBytes(w: Word)
    ensures ReadCrc(CrcBytes(w)) == w
  {
    forall i | 0 <= i < 32 ensures ReadCrc(CrcBytes(w))[i] == w[i] {
      var k := i / 8 * 8;
      BitAtFromBits(w[k..k + 8], ByteAt(w, k), i % 8);
    }
  }

  lemma ReadCrcInjective(a: Bytes, b: Bytes)
    requires |a| == |b| == 4 && ReadCrc(a) == ReadCrc(b)
    ensures a == b
  {
    PackedInjective([a[3], a[2], a[1], a[0]], [b[3], b[2], b[1], b[0]]);
    assert a == [a[0], a[1], a[2], a[3]] && b == [b[0], b[1], b[2], b[3]];
  }

  // ---------------------------------------------------------------- chunks

  predicate Upper(b: byte) { 65 <= b <= 90 }
  predicate Letter(b: byte) { Upper(b) || 97 <= b <= 122 }

  predicate GoodName(name: Bytes) {
    |name| == 4 && Letter(name[0]) && Letter(name[1]) && Upper(name[2]) && Letter(name[3])
  }

  /** The length field wraps at 32 bits, as setUint32 does. */
  function PngChunk(name: Bytes, data: Bytes): (c: Bytes)
    requires |name| == 4
    ensures |c| == 12 + |data|
  {
    Big32(|data| % (MAX_U32 + 1)) + (name + data) + CrcBytes(Checksum(name + data))
  }

  datatype Chunk = Chunk(name: Bytes, data: Bytes, rest: Bytes)

  /** The chunk that a non-empty remainder of the file starts with. */
  function Parse(s: Bytes): (r: Result<Chunk, Flaw>)
    ensures r.Ok? ==> |r.value.name| == 4 && 12 + |r.value.data| + |r.value.rest| == |s|
  {
    if |s| < 12 then Err(Incomplete)
    else
      var size := ReadBig32(s[0..4]);
      if size > |s| - 12 then Err(ChunkLength)
      else if !GoodName(s[4..8]) then Err(ChunkName)
      else if Checksum(s[4..8 + size]) != ReadCrc(s[8 + size..12 + size]) then Err(ChunkCrc)
      else Ok(Chunk(s[4..8], s[8..8 + size], s[12 + size..]))
  }

  /** Reading undoes writing, whatever follows. */
  lemma ParseOfPngChunk(name: Bytes, data: Bytes, rest: Bytes)
    requires GoodName(name) && |data| <= MAX_U32
    ensures Parse(PngChunk(name, data) + rest) == Ok(Chunk(name, data, rest))
  {
    hide ReadBig32, Big32, CrcBytes, ReadCrc, Checksum;
    var s := PngChunk(name, data) + rest;
    var n := |data|;
    ReadBig32OfBig32(n);
    ReadCrcOfCrcBytes(Checksum(name + data));
    assert s[0..4] == Big32(n);
    assert s[4..8 + n] == name + data;
    assert s[4..8] == name && s[8..8 + n] == data;
    assert s[8 + n..12 + n] == CrcBytes(Checksum(name + data));
    assert s[12 + n..] == rest;
  }

  datatype Walk = Walk(kind: nat, ended: bool, idatEnded: bool, sawIdat: bool, palette: Option<Bytes>,
      compressed: Bytes)

  /** No IHDR has been read while kind is 0. */
  const START := Walk(0, false, false, false, None, [])

  predicate GoodHeader(data: Bytes) {
    && |data| == 13
    && ReadBig32(data[0..4]) == WIDTH && ReadBig32(data[4..8]) == HEIGHT
    && data[8] == 8 && (data[9] == 2 || data[9] == 3 || data[9] == 6)
    && data[10] == 0 && data[11] == 0 && data[12] == 0
  }

  /** One chunk that passed its checksum; `last` when nothing follows it. */
  function Step(w: Walk, first: bool, name: Bytes, data: Bytes, last: bool): (r: Result<Walk, Flaw>)
    requires |name| == 4
  {
    if first && name != IHDR then Err(NoHeader)
    else if name == IHDR then
      if !first || !GoodHeader(data) then Err(BadHeader) else Ok(w.(kind := data[9]))
    else if name == PLTE then
      if w.palette.Some? || w.sawIdat || |data| == 0 || |data| % 3 != 0 || |data| > 768 then Err(BadPalette)
      else Ok(w.(palette := Some(data)))
    else if name == IDAT then
      if w.idatEnded || (w.kind == 3 && w.palette.None?) then Err(DataOrder)
      else Ok(w.(compressed := w.compressed + data, sawIdat := true))
    else if name == IEND then
      if |data| != 0 || !w.sawIdat || !last then Err(BadTail) else Ok(w.(ended := true))
    else if name == TRNS || name == ACTL || Upper(name[0]) then Err(Unsupported)
    else Ok(w.(idatEnded := w.idatEnded || w.sawIdat))
  }

  function Walked(w: Walk, first: bool, s: Bytes): Result<Walk, Flaw>
    decreases |s|
  {
    if s == [] then Ok(w)
    else match Parse(s)
      case Err(e) => Err(e)
      case Ok(c) =>
        match Step(w, first, c.name, c.data, c.rest == [])
        case Err(e) => Err(e)
        case Ok(w') => Walked(w', false, c.rest)
  }

  /** Parsing a remainder, in offsets into the whole file. */
  lemma ParseAt(png: Bytes, offset: nat)
    requires offset + 12 <= |png|
    ensures ReadBig32(png[offset..][0..4]) == ReadBig32(png[offset..offset + 4])
    ensures var size := ReadBig32(png[offset..offset + 4]);
            var name := png[offset + 4..offset + 8];
            Parse(png[offset..]) ==
            if size > |png| - offset - 12 then Err(ChunkLength)
            else if !GoodName(name) then Err(ChunkName)
            else if Checksum(png[offset + 4..offset + 8 + size]) != ReadCrc(png[offset + 8 + size..offset + 12 + size])
              then Err(ChunkCrc)
            else Ok(Chunk(name, png[offset + 8..offset + 8 + size], png[offset + 12 + size..]))
  {
    hide Checksum, ReadCrc, ReadBig32, GoodName;
    var s := png[offset..];
    assert s[0..4] == png[offset..offset + 4];
    assert s[4..8] == png[offset + 4..offset + 8];
    var size := ReadBig32(s[0..4]);
    if size <= |s| - 12 {
      assert s[8..8 + size] == png[offset + 8..offset + 8 + size];
      assert s[4..8 + size] == png[offset + 4..offset + 8 + size];
      assert s[8 + size..12 + size] == png[offset + 8 + size..offset + 12 + size];
      assert s[12 + size..] == png[offset + 12 + size..];
    }
  }

  method WalkChunks(png: Bytes) returns (r: Result<Walk, Flaw>)
    requires |png| >= 8
    ensures r == Walked(START, true, png[8..])
  {
    hide Checksum, ReadCrc, ReadBig32, GoodName, Step;
    var offset, w := 8, START;
    while offset < |png|
      invariant 8 <= offset <= |png|
      invariant Walked(START, true, png[8..]) == Walked(w, offset == 8, png[offset..])
    {
      if |png| - offset < 12 { return Err(Incomplete); }
      ParseAt(png, offset);
      hide Parse;
      var size := ReadBig32(png[offset..offset + 4]);
      if size > |png| - offset - 12 { return Err(ChunkLength); }
      var name := png[offset + 4..offset + 8];
      if !GoodName(name) { return Err(ChunkName); }
      var data := png[offset + 8..offset + 8 + size];
      var crc := Crc32(png[offset + 4..offset + 8 + size]);
      if crc != ReadCrc(png[offset + 8 + size..offset + 12 + size]) { return Err(ChunkCrc); }
      var step := Step(w, offset == 8, name, data, offset + size + 12 == |png|);
      if step.Err? { return Err(step.error); }
      w := step.value;
      offset := offset + size + 12;
    }
    return Ok(w);
  }

  // ---------------------------------------------------------------- scanlines

  function Abs(n: int): nat { if n < 0 then -n else n }

  /** RFC 2083 section 6.6: the neighbour closest to a + b - c; ties go to a, then b. */
  function Paeth(a: byte, b: byte, c: byte): byte {
    var p := a + b - c;
    var pa, pb, pc := Abs(p - a), Abs(p - b), Abs(p - c);
    if pa <= pb && pa <= pc then a else if pb <= pc then b else c
  }

  function Predictor(filter: byte, left: byte, above: byte, upperLeft: byte): byte {
    if filter == 1 then left
    else if filter == 2 then above
    else if filter == 3 then (left + above) / 2
    else if filter == 4 then Paeth(left, above, upperLeft)
    else 0
  }

  function Near(row: Bytes, i: int): byte { if 0 <= i < |row| then row[i] else 0 }

  function Prediction(filter: byte, bpp: nat, previous: Bytes, row: Bytes, x: nat): byte {
    Predictor(filter, Near(row, x - bpp), Near(previous, x), Near(previous, x - bpp))
  }

  /** The standard's filter: each byte less its prediction from unfiltered neighbours. */
  function Filtered(filter: byte, bpp: nat, previous: Bytes, row: Bytes): (f: Bytes)
    ensures |f| == |row|
    ensures forall x | 0 <= x < |row| :: f[x] == (row[x] - Prediction(filter, bpp, previous, row, x)) % 256
  {
    seq(|row|, (x: nat) requires x < |row| => (row[x] - Prediction(filter, bpp, previous, row, x)) % 256)
  }

  /** What the validator's loop leaves in the row. */
  function Rebuilt(filter: byte, bpp: nat, previous: Bytes, f: Bytes): (row: Bytes)
    ensures |row| == |f|
    decreases |f|
  {
    if f == [] then []
    else
      var x := |f| - 1;
      var row := Rebuilt(filter, bpp, previous, f[..x]);
      row + [(f[x] + Prediction(filter, bpp, previous, row, x)) % 256]
  }

  lemma RebuiltNext(filter: byte, bpp: nat, previous: Bytes, f: Bytes, x: nat)
    requires x < |f|
    ensures var row := Rebuilt(filter, bpp, previous, f[..x]);
            Rebuilt(filter, bpp, previous, f[..x + 1]) ==
                row + [(f[x] + Prediction(filter, bpp, previous, row, x)) % 256]
  {
    hide Prediction;
    assert f[..x + 1][..x] == f[..x];
  }

  method Rebuild(filter: byte, bpp: nat, previous: Bytes, row: array<byte>)
    requires bpp > 0 && |previous| == row.Length
    modifies row
    ensures row[..] == Rebuilt(filter, bpp, previous, old(row[..]))
  {
    hide Predictor, Rebuilt;
    ghost var f := row[..];
    assert Rebuilt(filter, bpp, previous, []) == [];
    for x := 0 to row.Length
      invariant row[..x] == Rebuilt(filter, bpp, previous, f[..x])
      invariant forall i | x <= i < row.Length :: row[i] == f[i]
    {
      var left := if x >= bpp then row[x - bpp] else 0;
      var above := previous[x];
      var upperLeft := if x >= bpp then previous[x - bpp] else 0;
      assert Near(row[..x], x - bpp) == left;
      RebuiltNext(filter, bpp, previous, f, x);
      ghost var done := row[..x];
      row[x] := (row[x] + Predictor(filter, left, above, upperLeft)) % 256;
      assert row[..x + 1] == done + [row[x]];
    }
    assert row[..row.Length] == row[..] && f[..row.Length] == f;
  }

  lemma PredictionOfPrefix(filter: byte, bpp: nat, previous: Bytes, row: Bytes, x: nat)
    requires bpp > 0 && x < |row|
    ensures Prediction(filter, bpp, previous, row[..x], x) == Prediction(filter, bpp, previous, row, x)
  {
  }

  /** Reconstruction inverts the standard's filter, for each of the five filters. */
  lemma {:induction false} RebuiltOfFiltered(filter: byte, bpp: nat, previous: Bytes, row: Bytes, n: nat)
    requires bpp > 0 && n <= |row|
    ensures Rebuilt(filter, bpp, previous, Filtered(filter, bpp, previous, row)[..n]) == row[..n]
    decreases n
  {
    var f := Filtered(filter, bpp, previous, row);
    if n == 0 {
      assert f[..0] == [] && row[..0] == [];
    } else {
      var x := n - 1;
      RebuiltOfFiltered(filter, bpp, previous, row, x);
      assert f[..n][..x] == f[..x];
      PredictionOfPrefix(filter, bpp, previous, row, x);
      WrapUndone(row[x], Prediction(filter, bpp, previous, row, x));
      assert row[..n] == row[..x] + [row[x]];
    }
  }

  lemma WrapUndone(b: byte, p: byte)
    ensures ((b - p) % 256 + p) % 256 == b
    ensures ((b + p) % 256 - p) % 256 == b
  {
  }

  lemma FilteredPrefix(filter: byte, bpp: nat, previous: Bytes, row: Bytes, x: nat)
    requires bpp > 0 && x <= |row|
    ensures Filtered(filter, bpp, previous, row)[..x] == Filtered(filter, bpp, previous, row[..x])
  {
    hide Prediction;
    forall i | 0 <= i < x
      ensures Filtered(filter, bpp, previous, row)[i] == Filtered(filter, bpp, previous, row[..x])[i]
    {
      PredictionOfPrefix(filter, bpp, previous, row, i);
      PredictionOfPrefix(filter, bpp, previous, row[..x], i);
      assert row[..x][..i] == row[..i];
    }
  }

  /** And filtering what was rebuilt gives the file's bytes back: nothing else decodes to that row. */
  lemma {:induction false} FilteredOfRebuilt(filter: byte, bpp: nat, previous: Bytes, f: Bytes)
    requires bpp > 0
    ensures Filtered(filter, bpp, previous, Rebuilt(filter, bpp, previous, f)) == f
    decreases |f|
  {
    hide Prediction;
    if f != [] {
      var x := |f| - 1;
      var row := Rebuilt(filter, bpp, previous, f);
      FilteredOfRebuilt(filter, bpp, previous, f[..x]);
      assert row[..x] == Rebuilt(filter, bpp, previous, f[..x]);
      FilteredPrefix(filter, bpp, previous, row, x);
      PredictionOfPrefix(filter, bpp, previous, row, x);
      WrapUndone(f[x], Prediction(filter, bpp, previous, row, x));
      var g := Filtered(filter, bpp, previous, row);
      assert g == g[..x] + [g[x]] && f == f[..x] + [f[x]];
    }
  }

  function Distance(a: int, b: int): nat { if a < b then b - a else a - b }

  /** Of left, above and upper left, `p` is the nearest to left + above - upper left; ties in that order. */
  predicate NearestOfThree(p: byte, left: byte, above: byte, upperLeft: byte) {
    var target := left + above - upperLeft;
    if Distance(left, target) <= Distance(above, target) && Distance(left, target) <= Distance(upperLeft, target)
      then p == left
    else if Distance(above, target) <= Distance(upperLeft, target) then p == above
    else p == upperLeft
  }

  predicate HalfOf(half: nat, a: byte, b: byte) { a as int + b - 1 <= 2 * half <= a as int + b }

  lemma {:induction false} RebuiltPrefix(filter: byte, bpp: nat, previous: Bytes, f: Bytes, n: nat)
    requires n <= |f|
    ensures Rebuilt(filter, bpp, previous, f)[..n] == Rebuilt(filter, bpp, previous, f[..n])
    decreases |f|
  {
    hide Prediction;
    if n == |f| {
      assert f[..n] == f;
    } else {
      var x := |f| - 1;
      RebuiltPrefix(filter, bpp, previous, f[..x], n);
      assert f[..x][..n] == f[..n];
    }
  }

  lemma RebuiltByte(filter: byte, bpp: nat, previous: Bytes, f: Bytes, x: nat)
    requires bpp > 0 && x < |f| == |previous|
    ensures var row := Rebuilt(filter, bpp, previous, f);
            var left := if bpp <= x then row[x - bpp] else 0;
            var upperLeft := if bpp <= x then previous[x - bpp] else 0;
            row[x] == (f[x] + Predictor(filter, left, previous[x], upperLeft)) % 256
  {
    hide Predictor;
    var row := Rebuilt(filter, bpp, previous, f);
    RebuiltPrefix(filter, bpp, previous, f, x);
    RebuiltPrefix(filter, bpp, previous, f, x + 1);
    RebuiltNext(filter, bpp, previous, f, x);
    hide Rebuilt;
    assert row[..x + 1][x] == row[x];
    assert Near(row[..x], x - bpp) == if bpp <= x then row[x - bpp] else 0;
  }

  lemma PaethIsNearest(left: byte, above: byte, upperLeft: byte)
    ensures NearestOfThree(Paeth(left, above, upperLeft), left, above, upperLeft)
  {
  }

  /**
    RFC 2083 section 6, byte by byte of the rebuilt row: filter 0 leaves the file's byte; 1 adds the
    byte one pixel to the left; 2 the byte above; 3 half the sum of both, rounded down; 4 whichever of
    left, above and upper left is nearest to left + above - upper left. Bytes outside the rows are 0
    and sums wrap at 256.
   */
  lemma RebuiltByTheStandard(filter: byte, bpp: nat, previous: Bytes, f: Bytes, x: nat)
    requires bpp > 0 && x < |f| == |previous|
    ensures var row := Rebuilt(filter, bpp, previous, f);
            var left := if bpp <= x then row[x - bpp] else 0;
            var upperLeft := if bpp <= x then previous[x - bpp] else 0;
            var above := previous[x];
      && (filter == 0 ==> row[x] == f[x])
      && (filter == 1 ==> row[x] == (f[x] as int + left) % 256)
      && (filter == 2 ==> row[x] == (f[x] as int + above) % 256)
      && (filter == 3 ==> exists half: nat :: HalfOf(half, left, above) && row[x] == (f[x] + half) % 256)
      && (filter == 4 ==> exists p: byte :: NearestOfThree(p, left, above, upperLeft) && row[x] == (f[x] + p) % 256)
  {
    hide Rebuilt, Paeth, NearestOfThree;
    RebuiltByte(filter, bpp, previous, f, x);
    var row := Rebuilt(filter, bpp, previous, f);
    var left := if bpp <= x then row[x - bpp] else 0;
    var upperLeft := if bpp <= x then previous[x - bpp] else 0;
    if filter == 3 {
      var half: nat := (left as int + previous[x]) / 2;
      assert HalfOf(half, left, previous[x]) && row[x] == (f[x] + half) % 256;
    } else if filter == 4 {
      PaethIsNearest(left, previous[x], upperLeft);
    }
  }

  // ---------------------------------------------------------------- pixels and rows

  function BytesPerPixel(kind: nat): (bpp: nat)
    ensures bpp > 0
  {
    if kind == 2 then 3 else if kind == 6 then 4 else 1
  }

  function RowSize(kind: nat): nat { WIDTH * BytesPerPixel(kind) }

  predicate Ink(rgb: Bytes) {
    rgb in {[0, 0, 0], [255, 255, 255], [255, 255, 0], [255, 0, 0], [0, 0, 255], [0, 255, 0]}
  }

  function Clip(n: nat, max: nat): nat { if n < max then n else max }

  /** The colour at byte x of a row; None for an index with no palette. */
  function Colour(kind: nat, palette: Option<Bytes>, row: Bytes, x: nat): Option<Bytes>
    requires x < |row|
  {
    if kind != 3 then Some(row[x..Clip(x + 3, |row|)])
    else match palette
      case None => None
      case Some(p) =>
        var start := row[x] as int * 3;
        Some(p[Clip(start, |p|)..Clip(start + 3, |p|)])
  }

  predicate PixelOk(kind: nat, palette: Option<Bytes>, row: Bytes, x: nat)
    requires x < |row|
  {
    var rgb := Colour(kind, palette, row, x);
    rgb.Some? && |rgb.value| == 3 && Ink(rgb.value) && (kind == 6 ==> Near(row, x + 3) == 255)
  }

  /** Every pixel from byte x on is an opaque ink. */
  predicate PixelsOk(kind: nat, palette: Option<Bytes>, row: Bytes, x: nat)
    decreases |row| - x
  {
    x < |row| ==>
      PixelOk(kind, palette, row, x) && PixelsOk(kind, palette, row, x + BytesPerPixel(kind))
  }

  method CheckPixels(kind: nat, palette: Option<Bytes>, row: Bytes) returns (ok: bool)
    ensures ok == PixelsOk(kind, palette, row, 0)
  {
    var x := 0;
    while x < |row|
      invariant PixelsOk(kind, palette, row, 0) == PixelsOk(kind, palette, row, x)
    {
      if !PixelOk(kind, palette, row, x) { return false; }
      x := x + BytesPerPixel(kind);
    }
    return true;
  }

  /** A saturated colour other than magenta and cyan. */
  predicate InkChannels(r: byte, g: byte, b: byte) {
    (r == 0 || r == 255) && (g == 0 || g == 255) && (b == 0 || b == 255) && (b == 255 ==> r == g)
  }

  lemma InkExactly(rgb: Bytes)
    ensures |rgb| == 3 ==> (Ink(rgb) <==> InkChannels(rgb[0], rgb[1], rgb[2]))
  {
    if |rgb| == 3 { assert rgb == [rgb[0], rgb[1], rgb[2]]; }
  }

  /** Pixel k is an ink: three bytes of an RGB row, three and a full alpha of RGBA, or a palette entry. */
  predicate OpaqueInk(kind: nat, palette: Option<Bytes>, row: Bytes, k: nat)
    requires (k + 1) * BytesPerPixel(kind) <= |row|
  {
    if kind == 2 then InkChannels(row[3 * k], row[3 * k + 1], row[3 * k + 2])
    else if kind == 6 then InkChannels(row[4 * k], row[4 * k + 1], row[4 * k + 2]) && row[4 * k + 3] == 255
    else
      && palette.Some?
      && 3 * row[k] as int + 2 < |palette.value|
      && InkChannels(palette.value[3 * row[k] as int], palette.value[3 * row[k] as int + 1],
                     palette.value[3 * row[k] as int + 2])
  }

  lemma PixelExactly(kind: nat, palette: Option<Bytes>, row: Bytes, k: nat)
    requires kind == 2 || kind == 3 || kind == 6
    requires (k + 1) * BytesPerPixel(kind) <= |row|
    ensures PixelOk(kind, palette, row, k * BytesPerPixel(kind)) <==> OpaqueInk(kind, palette, row, k)
  {
    hide Ink, InkChannels;
    var rgb := Colour(kind, palette, row, k * BytesPerPixel(kind));
    if rgb.Some? { InkExactly(rgb.value); }
  }

  lemma {:induction false} PixelsFrom(kind: nat, palette: Option<Bytes>, row: Bytes, n: nat, k: nat)
    requires kind == 2 || kind == 3 || kind == 6
    requires |row| == n * BytesPerPixel(kind) && k <= n
    ensures PixelsOk(kind, palette, row, k * BytesPerPixel(kind)) <==>
            forall m | k <= m < n :: PixelFits(kind, row, m) && OpaqueInk(kind, palette, row, m)
    decreases n - k
  {
    hide PixelOk, OpaqueInk, BytesPerPixel;
    if k < n {
      var bpp := BytesPerPixel(kind);
      RowFits(k, n, bpp);
      PixelExactly(kind, palette, row, k);
      PixelsFrom(kind, palette, row, n, k + 1);
      forall m | k <= m < n ensures PixelFits(kind, row, m) { RowFits(m, n, bpp); }
    }
  }

  predicate PixelFits(kind: nat, row: Bytes, m: nat) { (m + 1) * BytesPerPixel(kind) <= |row| }

  /** A row passes exactly when each of its pixels is an opaque ink. */
  lemma PixelsExactly(kind: nat, palette: Option<Bytes>, row: Bytes, n: nat)
    requires kind == 2 || kind == 3 || kind == 6
    requires |row| == n * BytesPerPixel(kind)
    ensures PixelsOk(kind, palette, row, 0) <==>
            forall m | 0 <= m < n :: PixelFits(kind, row, m) && OpaqueInk(kind, palette, row, m)
  {
    PixelsFrom(kind, palette, row, n, 0);
  }

  /** The rows that raw scanlines hold, each rebuilt from the one above. */
  function Decoded(bpp: nat, rowSize: nat, previous: Bytes, raw: Bytes): seq<Bytes>
    decreases |raw|
  {
    if |raw| < rowSize + 1 then []
    else
      var row := Rebuilt(raw[0], bpp, previous, raw[1..rowSize + 1]);
      [row] + Decoded(bpp, rowSize, row, raw[rowSize + 1..])
  }

  function CheckedRows(kind: nat, palette: Option<Bytes>, rowSize: nat, previous: Bytes, raw: Bytes): Option<Flaw>
    decreases |raw|
  {
    if |raw| < rowSize + 1 then None
    else if raw[0] > 4 then Some(BadFilter)
    else
      var row := Rebuilt(raw[0], BytesPerPixel(kind), previous, raw[1..rowSize + 1]);
      if !PixelsOk(kind, palette, row, 0) then Some(BadPixel)
      else CheckedRows(kind, palette, rowSize, row, raw[rowSize + 1..])
  }

  function Blank(n: nat): (row: Bytes)
    ensures |row| == n
  {
    seq(n, (i: nat) => 0)
  }

  lemma {:induction false} RowFits(y: nat, height: nat, n: nat)
    requires y < height
    ensures y * n + n == (y + 1) * n <= height * n
    decreases height
  {
    assert y * n + n == (y + 1) * n;
    if y < height - 1 {
      RowFits(y, height - 1, n);
      assert height * n == (height - 1) * n + n;
    }
  }

  method CheckRows(kind: nat, palette: Option<Bytes>, height: nat, rowSize: nat, raw: Bytes)
      returns (flaw: Option<Flaw>)
    requires |raw| == height * (rowSize + 1)
    ensures flaw == CheckedRows(kind, palette, rowSize, Blank(rowSize), raw)
  {
    hide Rebuilt, PixelsOk, Blank, BytesPerPixel;
    var previous := Blank(rowSize);
    assert raw[0 * (rowSize + 1)..] == raw;
    for y := 0 to height
      invariant |previous| == rowSize && y * (rowSize + 1) <= |raw|
      invariant CheckedRows(kind, palette, rowSize, Blank(rowSize), raw)
             == CheckedRows(kind, palette, rowSize, previous, raw[y * (rowSize + 1)..])
    {
      var start := y * (rowSize + 1);
      RowFits(y, height, rowSize + 1);
      ghost var s := raw[start..];
      var filter := raw[start];
      if filter > 4 { return Some(BadFilter); }
      var row := new byte[rowSize](i requires 0 <= i < rowSize => raw[start + 1 + i]);
      assert row[..] == s[1..rowSize + 1];
      Rebuild(filter, BytesPerPixel(kind), previous, row);
      var ok := CheckPixels(kind, palette, row[..]);
      if !ok { return Some(BadPixel); }
      previous := row[..];
      assert s[rowSize + 1..] == raw[(y + 1) * (rowSize + 1)..];
    }
    return None;
  }

  // ---------------------------------------------------------------- validatePNG

  type Inflate = Bytes -> Option<Bytes>

  /** None when the file is accepted. */
  function Validated(inflate: Inflate, png: Bytes): Option<Flaw> {
    if |png| > MAX_PNG || |png| < 57 || png[..8] != SIGNATURE then Some(NotPng)
    else match Walked(START, true, png[8..])
      case Err(e) => Some(e)
      case Ok(w) =>
        if !w.ended then Some(NoEnd)
        else
          var raw := inflate(w.compressed);
          if raw.None? || |raw.value| != HEIGHT * (RowSize(w.kind) + 1) then Some(BadData)
          else CheckedRows(w.kind, w.palette, RowSize(w.kind), Blank(RowSize(w.kind)), raw.value)
  }

  method ValidatePng(inflate: Inflate, png: Bytes) returns (flaw: Option<Flaw>)
    ensures flaw == Validated(inflate, png)
  {
    if |png| > MAX_PNG || |png| < 57 || png[..8] != SIGNATURE { return Some(NotPng); }
    var walk := WalkChunks(png);
    if walk.Err? { return Some(walk.error); }
    var w := walk.value;
    if !w.ended { return Some(NoEnd); }
    var rowSize := RowSize(w.kind);
    var raw := inflate(w.compressed);
    if raw.None? || |raw.value| != HEIGHT * (rowSize + 1) { return Some(BadData); }
    flaw := CheckRows(w.kind, w.palette, HEIGHT, rowSize, raw.value);
  }

  // ---------------------------------------------------------------- every standard encoding is accepted

  /** Scanlines as RFC 2083 section 6 writes them, with any filter chosen for each row. */
  function Raw(bpp: nat, previous: Bytes, filters: seq<byte>, rows: seq<Bytes>): Bytes
    requires |filters| == |rows|
    decreases |rows|
  {
    if rows == [] then []
    else [filters[0]] + Filtered(filters[0], bpp, previous, rows[0]) + Raw(bpp, rows[0], filters[1..], rows[1..])
  }

  predicate Shaped(rows: seq<Bytes>, rowSize: nat) { forall r | r in rows :: |r| == rowSize }

  predicate Standard(filters: seq<byte>) { forall i | 0 <= i < |filters| :: filters[i] <= 4 }

  lemma FirstRowOfRaw(bpp: nat, rowSize: nat, previous: Bytes, filters: seq<byte>, rows: seq<Bytes>)
    requires bpp > 0 && |filters| == |rows| > 0 && |rows[0]| == rowSize
    ensures var raw := Raw(bpp, previous, filters, rows);
            && |raw| >= rowSize + 1 && raw[0] == filters[0]
            && Rebuilt(filters[0], bpp, previous, raw[1..rowSize + 1]) == rows[0]
            && raw[rowSize + 1..] == Raw(bpp, rows[0], filters[1..], rows[1..])
  {
    hide Rebuilt, Prediction;
    var raw := Raw(bpp, previous, filters, rows);
    var f := Filtered(filters[0], bpp, previous, rows[0]);
    assert raw[1..rowSize + 1] == f;
    RebuiltOfFiltered(filters[0], bpp, previous, rows[0], rowSize);
    assert f[..rowSize] == f && rows[0][..rowSize] == rows[0];
  }

  lemma {:induction false} RawLength(bpp: nat, rowSize: nat, previous: Bytes, filters: seq<byte>, rows: seq<Bytes>)
    requires |filters| == |rows| && Shaped(rows, rowSize)
    ensures |Raw(bpp, previous, filters, rows)| == |rows| * (rowSize + 1)
    decreases |rows|
  {
    hide Prediction;
    if rows != [] {
      RawLength(bpp, rowSize, rows[0], filters[1..], rows[1..]);
      RowFits(|rows| - 1, |rows|, rowSize + 1);
    }
  }

  /** For every image and every per-row choice of filter, reconstruction returns the image. */
  lemma {:induction false} DecodedOfRaw(bpp: nat, rowSize: nat, previous: Bytes, filters: seq<byte>, rows: seq<Bytes>)
    requires bpp > 0 && |filters| == |rows| && Shaped(rows, rowSize)
    ensures Decoded(bpp, rowSize, previous, Raw(bpp, previous, filters, rows)) == rows
    decreases |rows|
  {
    if rows != [] {
      FirstRowOfRaw(bpp, rowSize, previous, filters, rows);
      hide Raw, Rebuilt;
      var raw := Raw(bpp, previous, filters, rows);
      assert Decoded(bpp, rowSize, previous, raw) == [rows[0]] + Decoded(bpp, rowSize, rows[0], raw[rowSize + 1..]);
      hide Decoded;
      DecodedOfRaw(bpp, rowSize, rows[0], filters[1..], rows[1..]);
      assert rows == [rows[0]] + rows[1..];
    }
  }

  predicate InkRows(kind: nat, palette: Option<Bytes>, rows: seq<Bytes>) {
    forall r | r in rows :: PixelsOk(kind, palette, r, 0)
  }

  lemma Split(kind: nat, palette: Option<Bytes>, filters: seq<byte>, rows: seq<Bytes>)
    requires |filters| == |rows| > 0
    ensures InkRows(kind, palette, rows) <==> PixelsOk(kind, palette, rows[0], 0) && InkRows(kind, palette, rows[1..])
    ensures Standard(filters) ==> filters[0] <= 4 && Standard(filters[1..])
  {
    hide PixelsOk;
    assert rows == [rows[0]] + rows[1..] && filters == [filters[0]] + filters[1..];
  }

  lemma {:induction false} RawIsAccepted(kind: nat, palette: Option<Bytes>, rowSize: nat, previous: Bytes,
                                         filters: seq<byte>, rows: seq<Bytes>)
    requires |filters| == |rows| && Shaped(rows, rowSize) && Standard(filters)
    ensures CheckedRows(kind, palette, rowSize, previous, Raw(BytesPerPixel(kind), previous, filters, rows)) ==
            if InkRows(kind, palette, rows) then None else Some(BadPixel)
    decreases |rows|
  {
    if rows != [] {
      FirstRowOfRaw(BytesPerPixel(kind), rowSize, previous, filters, rows);
      Split(kind, palette, filters, rows);
      hide Raw, Rebuilt, PixelsOk, InkRows, Standard;
      RawIsAccepted(kind, palette, rowSize, rows[0], filters[1..], rows[1..]);
    }
  }

  function Header(kind: byte): (h: Bytes)
    ensures |h| == 13
  {
    Big32(WIDTH) + Big32(HEIGHT) + [8, kind, 0, 0, 0]
  }

  lemma HeaderIsGood(kind: byte)
    requires kind == 2 || kind == 3 || kind == 6
    ensures GoodHeader(Header(kind)) && Header(kind)[9] == kind
  {
    var h := Header(kind);
    ReadBig32OfBig32(WIDTH);
    ReadBig32OfBig32(HEIGHT);
    assert h[0..4] == Big32(WIDTH) && h[4..8] == Big32(HEIGHT);
  }

  predicate GoodPalette(palette: Option<Bytes>) {
    palette.Some? ==> 0 < |palette.value| <= 768 && |palette.value| % 3 == 0
  }

  /** A file of one header, an optional palette, one run of data and the end marker. */
  function Assembled(kind: byte, palette: Option<Bytes>, data: Bytes): Bytes
    requires GoodPalette(palette)
  {
    SIGNATURE + (PngChunk(IHDR, Header(kind)) +
      ((if palette.Some? then PngChunk(PLTE, palette.value) else []) +
        (PngChunk(IDAT, data) + (PngChunk(IEND, []) + []))))
  }

  // ---------------------------------------------------------------- any layout the walk allows

  datatype Piece = Piece(name: Bytes, data: Bytes)

  /** A chunk the walk passes over: not critical, and neither transparency nor animation. */
  predicate Ancillary(p: Piece) {
    GoodName(p.name) && !Upper(p.name[0]) && p.name != TRNS && p.name != ACTL && |p.data| <= MAX_U32
  }

  predicate Ancillaries(pieces: seq<Piece>) { forall i | 0 <= i < |pieces| :: Ancillary(pieces[i]) }

  predicate Fit(parts: seq<Bytes>) { forall i | 0 <= i < |parts| :: |parts[i]| <= MAX_U32 }

  /** Ancillary chunks anywhere but inside the data, an optional palette, and the data in any number of parts. */
  datatype Layout = Layout(before: seq<Piece>, palette: Option<Bytes>, between: seq<Piece>,
                           parts: seq<Bytes>, after: seq<Piece>)
  {
    predicate Standard(kind: byte) {
      && Ancillaries(before) && Ancillaries(between) && Ancillaries(after)
      && GoodPalette(palette) && (kind == 3 ==> palette.Some?) && parts != [] && Fit(parts)
    }
  }

  function Written(pieces: seq<Piece>, rest: Bytes): Bytes
    requires Ancillaries(pieces)
    decreases |pieces|
  {
    hide PngChunk;
    assert pieces != [] ==> Ancillary(pieces[0]);
    if pieces == [] then rest else PngChunk(pieces[0].name, pieces[0].data) + Written(pieces[1..], rest)
  }

  function WrittenData(parts: seq<Bytes>, rest: Bytes): Bytes
    decreases |parts|
  {
    if parts == [] then rest else PngChunk(IDAT, parts[0]) + WrittenData(parts[1..], rest)
  }

  function Joined(parts: seq<Bytes>): Bytes
    decreases |parts|
  {
    if parts == [] then [] else parts[0] + Joined(parts[1..])
  }

  function WrittenPalette(palette: Option<Bytes>, rest: Bytes): Bytes
    requires GoodPalette(palette)
  {
    if palette.Some? then PngChunk(PLTE, palette.value) + rest else rest
  }

  function File(kind: byte, l: Layout): Bytes
    requires l.Standard(kind)
  {
    hide PngChunk, Header, Written, WrittenData, WrittenPalette, Ancillaries;
    var tail := Written(l.after, PngChunk(IEND, []) + []);
    SIGNATURE + (PngChunk(IHDR, Header(kind)) +
      Written(l.before, WrittenPalette(l.palette, Written(l.between, WrittenData(l.parts, tail)))))
  }

  lemma {:induction false} WrittenLength(pieces: seq<Piece>, rest: Bytes)
    requires Ancillaries(pieces)
    ensures |Written(pieces, rest)| >= |rest|
    decreases |pieces|
  {
    hide PngChunk;
    if pieces != [] { WrittenLength(pieces[1..], rest); }
  }

  lemma {:induction false} DataLength(parts: seq<Bytes>, rest: Bytes)
    ensures |WrittenData(parts, rest)| >= |rest| + (if parts == [] then 0 else 12)
    decreases |parts|
  {
    hide PngChunk;
    if parts != [] { DataLength(parts[1..], rest); }
  }

  /** One written chunk is walked in one step. */
  lemma WalkedChunk(w: Walk, first: bool, name: Bytes, data: Bytes, rest: Bytes)
    requires GoodName(name) && |data| <= MAX_U32 && Step(w, first, name, data, rest == []).Ok?
    ensures Walked(w, first, PngChunk(name, data) + rest) ==
            Walked(Step(w, first, name, data, rest == []).value, false, rest)
  {
    hide Step, Parse, PngChunk;
    ParseOfPngChunk(name, data, rest);
  }

  lemma AncillaryStep(w: Walk, p: Piece, last: bool)
    requires Ancillary(p)
    ensures Step(w, false, p.name, p.data, last) == Ok(w.(idatEnded := w.idatEnded || w.sawIdat))
  {
  }

  lemma DataStep(w: Walk, data: Bytes, last: bool)
    requires !w.idatEnded && (w.kind == 3 ==> w.palette.Some?)
    ensures Step(w, false, IDAT, data, last) == Ok(w.(compressed := w.compressed + data, sawIdat := true))
  {
  }

  /** Ancillary chunks only close the data, if it has begun. */
  lemma {:induction false} AncillariesWalk(w: Walk, pieces: seq<Piece>, rest: Bytes)
    requires Ancillaries(pieces) && rest != []
    ensures Walked(w, false, Written(pieces, rest)) ==
            Walked(w.(idatEnded := w.idatEnded || (w.sawIdat && pieces != [])), false, rest)
    decreases |pieces|
  {
    hide Walked, PngChunk, Step, GoodName;
    if pieces != [] {
      var p, more := pieces[0], Written(pieces[1..], rest);
      var next := w.(idatEnded := w.idatEnded || w.sawIdat);
      AncillaryStep(w, p, more == []);
      WalkedChunk(w, false, p.name, p.data, more);
      AncillariesWalk(next, pieces[1..], rest);
    }
  }

  /** Consecutive data chunks are joined. */
  lemma {:induction false} DataWalk(w: Walk, parts: seq<Bytes>, rest: Bytes)
    requires Fit(parts) && !w.idatEnded && (w.kind == 3 ==> w.palette.Some?)
    ensures Walked(w, false, WrittenData(parts, rest)) ==
            Walked(w.(compressed := w.compressed + Joined(parts), sawIdat := w.sawIdat || parts != []), false, rest)
    decreases |parts|
  {
    hide Walked, PngChunk, Step;
    if parts == [] {
      assert w.compressed + [] == w.compressed;
    } else {
      var more := WrittenData(parts[1..], rest);
      var next := w.(compressed := w.compressed + parts[0], sawIdat := true);
      DataStep(w, parts[0], more == []);
      WalkedChunk(w, false, IDAT, parts[0], more);
      DataWalk(next, parts[1..], rest);
      assert w.compressed + parts[0] + Joined(parts[1..]) == w.compressed + Joined(parts);
    }
  }

  lemma TailWalk(w: Walk, after: seq<Piece>)
    requires Ancillaries(after) && w.sawIdat && !w.idatEnded && !w.ended
    ensures Walked(w, false, Written(after, PngChunk(IEND, []) + [])) ==
            Ok(w.(idatEnded := after != [], ended := true))
  {
    hide PngChunk, Parse;
    var end := PngChunk(IEND, []) + [];
    AncillariesWalk(w, after, end);
    WalkedChunk(w.(idatEnded := after != []), false, IEND, [], []);
  }

  lemma PaletteWalk(w: Walk, palette: Option<Bytes>, rest: Bytes)
    requires GoodPalette(palette) && w.palette.None? && !w.sawIdat
    ensures Walked(w, false, WrittenPalette(palette, rest)) == Walked(w.(palette := palette), false, rest)
  {
    hide Walked;
    if palette.Some? {
      assert Step(w, false, PLTE, palette.value, rest == []) == Ok(w.(palette := palette));
      WalkedChunk(w, false, PLTE, palette.value, rest);
    }
  }

  lemma FileWalk(kind: byte, l: Layout)
    requires (kind == 2 || kind == 3 || kind == 6) && l.Standard(kind)
    ensures Walked(START, true, File(kind, l)[8..]) ==
            Ok(Walk(kind, true, l.after != [], true, l.palette, Joined(l.parts)))
  {
    hide Walked, Step, PngChunk, Written, WrittenData, WrittenPalette, Header, Joined, GoodHeader;
    var tail := Written(l.after, PngChunk(IEND, []) + []);
    var data := WrittenData(l.parts, tail);
    var coloured := WrittenPalette(l.palette, Written(l.between, data));
    var body := Written(l.before, coloured);
    LayoutLengths(l);
    assert File(kind, l)[8..] == PngChunk(IHDR, Header(kind)) + body;
    HeaderWalk(kind, body);
    var w := START.(kind := kind);
    AncillariesWalk(w, l.before, coloured);
    assert w.(idatEnded := w.idatEnded || (w.sawIdat && l.before != [])) == w;
    PaletteWalk(w, l.palette, Written(l.between, data));
    var p := w.(palette := l.palette);
    AncillariesWalk(p, l.between, data);
    assert p.(idatEnded := p.idatEnded || (p.sawIdat && l.between != [])) == p;
    DataWalk(p, l.parts, tail);
    var d := p.(compressed := p.compressed + Joined(l.parts), sawIdat := true);
    assert d.compressed == Joined(l.parts);
    TailWalk(d, l.after);
  }

  lemma HeaderWalk(kind: byte, rest: Bytes)
    requires kind == 2 || kind == 3 || kind == 6
    ensures Walked(START, true, PngChunk(IHDR, Header(kind)) + rest) == Walked(START.(kind := kind), false, rest)
  {
    hide Walked, GoodHeader, Header, PngChunk;
    HeaderIsGood(kind);
    assert Step(START, true, IHDR, Header(kind), rest == []) == Ok(START.(kind := kind));
    WalkedChunk(START, true, IHDR, Header(kind), rest);
  }

  /** No remainder of such a file is empty before its end, and the file is long enough to be looked at. */
  lemma LayoutLengths(l: Layout)
    requires Ancillaries(l.before) && Ancillaries(l.between) && Ancillaries(l.after) && GoodPalette(l.palette)
    ensures var tail := Written(l.after, PngChunk(IEND, []) + []);
            var data := WrittenData(l.parts, tail);
            var coloured := WrittenPalette(l.palette, Written(l.between, data));
            && tail != [] && data != [] && coloured != []
            && |Written(l.before, coloured)| >= 12 + (if l.parts == [] then 0 else 12)
  {
    hide PngChunk, Written, WrittenData;
    var tail := Written(l.after, PngChunk(IEND, []) + []);
    WrittenLength(l.after, PngChunk(IEND, []) + []);
    DataLength(l.parts, tail);
    var data := WrittenData(l.parts, tail);
    WrittenLength(l.between, data);
    WrittenLength(l.before, WrittenPalette(l.palette, Written(l.between, data)));
  }

  /**
    A file written by any conforming encoder, with any filter on each row, its data in any number of
    chunks and ancillary chunks of any content around them, is accepted exactly when it fits the size
    limit and every pixel is one of the six opaque inks.
   */
  lemma {:induction false} EveryStandardEncodingIsJudgedByItsPixels(
      inflate: Inflate, kind: byte, l: Layout, filters: seq<byte>, rows: seq<Bytes>)
    requires (kind == 2 || kind == 3 || kind == 6) && l.Standard(kind)
    requires |filters| == |rows| == HEIGHT && Standard(filters) && Shaped(rows, RowSize(kind))
    requires inflate(Joined(l.parts)) == Some(Raw(BytesPerPixel(kind), Blank(RowSize(kind)), filters, rows))
    ensures Validated(inflate, File(kind, l)).None? <==> |File(kind, l)| <= MAX_PNG && InkRows(kind, l.palette, rows)
  {
    hide Walked, Raw, CheckedRows, PngChunk, Header, InkRows, Written, WrittenData, WrittenPalette, Joined;
    var png := File(kind, l);
    FileWalk(kind, l);
    LayoutLengths(l);
    RawLength(BytesPerPixel(kind), RowSize(kind), Blank(RowSize(kind)), filters, rows);
    RawIsAccepted(kind, l.palette, RowSize(kind), Blank(RowSize(kind)), filters, rows);
    assert png[..8] == SIGNATURE;
  }

  lemma AssembledIsAFile(kind: byte, palette: Option<Bytes>, data: Bytes)
    requires GoodPalette(palette) && (kind == 3 ==> palette.Some?) && |data| <= MAX_U32
    ensures var l := Layout([], palette, [], [data], []);
            l.Standard(kind) && Joined(l.parts) == data && Assembled(kind, palette, data) == File(kind, l)
  {
    hide PngChunk, Header;
    var tail := PngChunk(IEND, []) + [];
    assert WrittenData([data], tail) == PngChunk(IDAT, data) + tail;
    var body := PngChunk(IDAT, data) + tail;
    assert WrittenPalette(palette, body) == (if palette.Some? then PngChunk(PLTE, palette.value) else []) + body;
  }

  /** The same of the file of one data chunk, however long. */
  lemma {:induction false} AssembledIsJudgedByItsPixels(
      inflate: Inflate, kind: byte, palette: Option<Bytes>, filters: seq<byte>, rows: seq<Bytes>, data: Bytes)
    requires kind == 2 || kind == 3 || kind == 6
    requires GoodPalette(palette) && (kind == 3 ==> palette.Some?)
    requires |filters| == |rows| == HEIGHT && Standard(filters) && Shaped(rows, RowSize(kind))
    requires inflate(data) == Some(Raw(BytesPerPixel(kind), Blank(RowSize(kind)), filters, rows))
    ensures Validated(inflate, Assembled(kind, palette, data)).None? <==>
            |Assembled(kind, palette, data)| <= MAX_PNG && InkRows(kind, palette, rows)
  {
    hide Walked, Raw, CheckedRows, PngChunk, Header, InkRows;
    if |data| <= MAX_U32 {
      AssembledIsAFile(kind, palette, data);
      EveryStandardEncodingIsJudgedByItsPixels(inflate, kind, Layout([], palette, [], [data], []), filters, rows);
    }
  }

  // ---------------------------------------------------------------- and nothing else is

  lemma Big32OfReadBig32(b: Bytes)
    requires |b| == 4
    ensures ReadBig32(b) <= MAX_U32 && Big32(ReadBig32(b)) == b
  {
    Digits(b[0], b[1], b[2], b[3]);
    assert b == [b[0], b[1], b[2], b[3]];
  }

  lemma Digits(a: byte, b: byte, c: byte, d: byte)
    ensures var n := ((a as int * 256 + b) * 256 + c) * 256 + d;
            n <= MAX_U32 && n / 0x100_0000 == a && n / 0x1_0000 % 256 == b && n / 0x100 % 256 == c && n % 256 == d
  {
    var n := ((a as int * 256 + b) * 256 + c) * 256 + d;
    assert n / 0x100 == (a as int * 256 + b) * 256 + c;
    assert n / 0x1_0000 == a as int * 256 + b;
  }

  /** Writing undoes reading: what parses is a chunk as it is written, and the rest. */
  lemma PngChunkOfParse(s: Bytes)
    requires s != [] && Parse(s).Ok?
    ensures var c := Parse(s).value;
            GoodName(c.name) && |c.data| <= MAX_U32 && s == PngChunk(c.name, c.data) + c.rest
  {
    hide ReadBig32, Big32, CrcBytes, ReadCrc, Checksum, GoodName;
    var c := Parse(s).value;
    var n := |c.data|;
    Big32OfReadBig32(s[0..4]);
    assert s[4..8 + n] == c.name + c.data;
    ReadCrcOfCrcBytes(Checksum(c.name + c.data));
    ReadCrcInjective(s[8 + n..12 + n], CrcBytes(Checksum(c.name + c.data)));
    assert s == s[0..4] + s[4..8 + n] + s[8 + n..12 + n] + s[12 + n..];
  }

  /** The walk of this remainder, past the header, reaches the end marker. */
  predicate Ends(w: Walk, s: Bytes) { !w.ended && Walked(w, false, s).Ok? && Walked(w, false, s).value.ended }

  datatype Found = PaletteFound | DataFound | EndFound | OtherFound(piece: Piece)

  /** The chunk found and the walk after it, by what the chunk rules made of it. */
  predicate FoundOk(w: Walk, c: Chunk, next: Walk, found: Found)
    requires |c.name| == 4
  {
    match found
    case PaletteFound =>
      c.name == PLTE && w.palette.None? && !w.sawIdat && GoodPalette(Some(c.data))
      && next == w.(palette := Some(c.data))
    case DataFound =>
      c.name == IDAT && !w.idatEnded && (w.kind == 3 ==> w.palette.Some?)
      && next == w.(compressed := w.compressed + c.data, sawIdat := true)
    case EndFound => c.name == IEND && c.data == [] && c.rest == [] && w.sawIdat && next == w.(ended := true)
    case OtherFound(p) =>
      p == Piece(c.name, c.data) && Ancillary(p) && next == w.(idatEnded := w.idatEnded || w.sawIdat)
  }

  lemma StepFinds(w: Walk, c: Chunk, next: Walk) returns (found: Found)
    requires |c.name| == 4 && GoodName(c.name) && |c.data| <= MAX_U32
    requires Step(w, false, c.name, c.data, c.rest == []) == Ok(next)
    ensures FoundOk(w, c, next, found)
  {
    if c.name == PLTE {
      found := PaletteFound;
    } else if c.name == IDAT {
      found := DataFound;
    } else if c.name == IEND {
      found := EndFound;
    } else {
      found := OtherFound(Piece(c.name, c.data));
    }
  }

  /** The first chunk of such a remainder, and the walk after it. */
  lemma FirstChunk(w: Walk, s: Bytes) returns (c: Chunk, next: Walk, found: Found)
    requires Ends(w, s)
    ensures |c.name| == 4 && s == PngChunk(c.name, c.data) + c.rest && |c.rest| < |s| && |c.data| <= MAX_U32
    ensures FoundOk(w, c, next, found) && Walked(w, false, s) == Walked(next, false, c.rest)
    ensures !next.ended ==> Ends(next, c.rest)
    ensures c.rest == [] ==> Walked(w, false, s) == Ok(next)
  {
    hide Step, Parse, PngChunk, GoodName, FoundOk;
    c := Parse(s).value;
    PngChunkOfParse(s);
    WalkedStep(w, false, s);
    next := Step(w, false, c.name, c.data, c.rest == []).value;
    found := StepFinds(w, c, next);
  }

  function Tail(after: seq<Piece>): Bytes
    requires Ancillaries(after)
  {
    Written(after, PngChunk(IEND, []) + [])
  }

  lemma WrittenMore(p: Piece, pieces: seq<Piece>, rest: Bytes)
    requires Ancillary(p) && Ancillaries(pieces)
    ensures Ancillaries([p] + pieces)
    ensures Written([p] + pieces, rest) == PngChunk(p.name, p.data) + Written(pieces, rest)
  {
    hide PngChunk;
    assert ([p] + pieces)[1..] == pieces;
  }

  lemma WrittenDataMore(part: Bytes, parts: seq<Bytes>, rest: Bytes)
    ensures WrittenData([part] + parts, rest) == PngChunk(IDAT, part) + WrittenData(parts, rest)
    ensures Joined([part] + parts) == part + Joined(parts)
  {
    hide PngChunk;
    assert ([part] + parts)[1..] == parts;
  }

  lemma {:induction false} TailIsWritten(w: Walk, s: Bytes) returns (after: seq<Piece>)
    requires w.sawIdat && w.idatEnded && Ends(w, s)
    ensures Ancillaries(after) && s == Tail(after)
    ensures Walked(w, false, s) == Ok(w.(ended := true))
    decreases |s|
  {
    var c, next, found := FirstChunk(w, s);
    hide PngChunk, Ancillary, Tail, Walked;
    if found.EndFound? {
      after := [];
      NoTail();
    } else {
      after := TailIsWritten(next, c.rest);
      TailMore(found.piece, after);
      after := [found.piece] + after;
    }
  }

  lemma NoTail()
    ensures Tail([]) == PngChunk(IEND, []) + []
  {
  }

  lemma TailMore(p: Piece, after: seq<Piece>)
    requires Ancillary(p) && Ancillaries(after)
    ensures Ancillaries([p] + after) && Tail([p] + after) == PngChunk(p.name, p.data) + Tail(after)
  {
    hide PngChunk, Ancillary;
    WrittenMore(p, after, PngChunk(IEND, []) + []);
  }

  /** The walk ends with what it had, and with the data it found. */
  predicate EndsWith(w: Walk, s: Bytes, palette: Option<Bytes>, data: Bytes) {
    var end := Walked(w, false, s);
    end.Ok? && end.value.kind == w.kind && end.value.palette == palette && end.value.compressed == w.compressed + data
  }

  lemma EndsWithMore(w: Walk, s: Bytes, next: Walk, t: Bytes, palette: Option<Bytes>, part: Bytes, data: Bytes)
    requires Walked(w, false, s) == Walked(next, false, t) && EndsWith(next, t, palette, data)
    requires next.kind == w.kind && next.compressed == w.compressed + part
    ensures EndsWith(w, s, palette, part + data)
  {
    hide Walked;
    assert w.compressed + part + data == w.compressed + (part + data);
  }

  lemma EndsWithSame(w: Walk, s: Bytes, next: Walk, t: Bytes, palette: Option<Bytes>, data: Bytes)
    requires Walked(w, false, s) == Walked(next, false, t) && EndsWith(next, t, palette, data)
    requires next.kind == w.kind && next.compressed == w.compressed
    ensures EndsWith(w, s, palette, data)
  {
    hide Walked;
  }

  /** From the chunk after the data to the end. */
  lemma AfterDataIsWritten(w: Walk, s: Bytes, c: Chunk, next: Walk, found: Found) returns (after: seq<Piece>)
    requires w.sawIdat && !w.idatEnded && !w.ended && |c.name| == 4 && s == PngChunk(c.name, c.data) + c.rest
    requires FoundOk(w, c, next, found) && !found.DataFound? && Walked(w, false, s) == Walked(next, false, c.rest)
    requires !next.ended ==> Ends(next, c.rest)
    requires c.rest == [] ==> Walked(w, false, s) == Ok(next)
    ensures Ancillaries(after) && s == Tail(after) && EndsWith(w, s, w.palette, [])
  {
    hide PngChunk, Ancillary, Tail, Walked;
    assert w.compressed + [] == w.compressed;
    if found.EndFound? {
      after := [];
      NoTail();
    } else {
      after := TailIsWritten(next, c.rest);
      TailMore(found.piece, after);
      after := [found.piece] + after;
    }
  }

  lemma NoData(rest: Bytes)
    ensures WrittenData([], rest) == rest && Joined([]) == [] && Fit([])
  {
  }

  /** From inside the data to the end. */
  lemma {:induction false} DataIsWritten(w: Walk, s: Bytes) returns (parts: seq<Bytes>, after: seq<Piece>)
    requires w.sawIdat && !w.idatEnded && Ends(w, s)
    ensures Fit(parts) && Ancillaries(after) && s == WrittenData(parts, Tail(after))
    ensures EndsWith(w, s, w.palette, Joined(parts))
    decreases |s|
  {
    var c, next, found := FirstChunk(w, s);
    DataStays(w, c, next, found);
    assert !w.ended;
    hide *;
    if found.DataFound? {
      parts, after := DataIsWritten(next, c.rest);
      FitMore(c.data, parts);
      WrittenDataMore(c.data, parts, Tail(after));
      EndsWithMore(w, s, next, c.rest, w.palette, c.data, Joined(parts));
      parts := [c.data] + parts;
    } else {
      parts := [];
      after := AfterDataIsWritten(w, s, c, next, found);
      NoData(Tail(after));
    }
  }

  lemma DataStays(w: Walk, c: Chunk, next: Walk, found: Found)
    requires |c.name| == 4 && FoundOk(w, c, next, found)
    ensures found.DataFound? ==>
              && c.name == IDAT && next.sawIdat && next.idatEnded == w.idatEnded && next.ended == w.ended
              && next.kind == w.kind && next.palette == w.palette && next.compressed == w.compressed + c.data
  {
  }

  lemma FitMore(part: Bytes, parts: seq<Bytes>)
    requires |part| <= MAX_U32 && Fit(parts)
    ensures Fit([part] + parts)
  {
  }

  /** From the first data chunk to the end. */
  lemma FirstDataIsWritten(w: Walk, s: Bytes, c: Chunk, next: Walk) returns (parts: seq<Bytes>, after: seq<Piece>)
    requires !w.sawIdat && !w.idatEnded && |c.name| == 4 && s == PngChunk(c.name, c.data) + c.rest
    requires |c.data| <= MAX_U32 && FoundOk(w, c, next, DataFound)
    requires Walked(w, false, s) == Walked(next, false, c.rest) && Ends(next, c.rest)
    ensures Fit(parts) && parts != [] && Ancillaries(after) && s == WrittenData(parts, Tail(after))
    ensures EndsWith(w, s, w.palette, Joined(parts))
  {
    hide PngChunk, Ancillary, Ancillaries, Tail, Walked, WrittenData, Joined, EndsWith;
    parts, after := DataIsWritten(next, c.rest);
    WrittenDataMore(c.data, parts, Tail(after));
    EndsWithMore(w, s, next, c.rest, w.palette, c.data, Joined(parts));
    parts := [c.data] + parts;
  }

  /** From the palette to the data. */
  lemma {:induction false} BetweenIsWritten(w: Walk, s: Bytes)
    returns (between: seq<Piece>, parts: seq<Bytes>, after: seq<Piece>)
    requires !w.sawIdat && !w.idatEnded && w.palette.Some? && Ends(w, s)
    ensures Ancillaries(between) && Fit(parts) && parts != [] && Ancillaries(after)
    ensures s == Written(between, WrittenData(parts, Tail(after)))
    ensures EndsWith(w, s, w.palette, Joined(parts))
    decreases |s|
  {
    var c, next, found := FirstChunk(w, s);
    hide PngChunk, Ancillary, Ancillaries, Tail, Walked, WrittenData, Written, Joined, EndsWith;
    if found.DataFound? {
      parts, after := FirstDataIsWritten(w, s, c, next);
      between := [];
      NothingWritten(WrittenData(parts, Tail(after)));
    } else {
      between, parts, after := BetweenIsWritten(next, c.rest);
      WrittenMore(found.piece, between, WrittenData(parts, Tail(after)));
      EndsWithSame(w, s, next, c.rest, w.palette, Joined(parts));
      between := [found.piece] + between;
    }
  }

  lemma NothingWritten(rest: Bytes)
    ensures Ancillaries([]) && Written([], rest) == rest
  {
  }

  /** Everything between the header and the file's end. */
  function Body(l: Layout): Bytes
    requires Ancillaries(l.before) && Ancillaries(l.between) && Ancillaries(l.after) && GoodPalette(l.palette)
  {
    Written(l.before, Coloured(l))
  }

  function Coloured(l: Layout): Bytes
    requires Ancillaries(l.between) && Ancillaries(l.after) && GoodPalette(l.palette)
  {
    WrittenPalette(l.palette, Written(l.between, WrittenData(l.parts, Tail(l.after))))
  }

  lemma NothingBefore(palette: Option<Bytes>, between: seq<Piece>, parts: seq<Bytes>, after: seq<Piece>)
    requires GoodPalette(palette) && Ancillaries(between) && Ancillaries(after)
    ensures var data := Written(between, WrittenData(parts, Tail(after)));
            && Ancillaries([])
            && Body(Layout([], palette, between, parts, after)) ==
               if palette.Some? then PngChunk(PLTE, palette.value) + data else data
  {
    hide PngChunk, Ancillary, Tail, WrittenData;
  }

  lemma BodyMore(p: Piece, l: Layout)
    requires Ancillaries(l.before) && Ancillaries(l.between) && Ancillaries(l.after) && GoodPalette(l.palette)
    requires Ancillary(p)
    ensures Ancillaries([p] + l.before) && Body(l.(before := [p] + l.before)) == PngChunk(p.name, p.data) + Body(l)
  {
    hide PngChunk, Ancillary, WrittenPalette, Written, WrittenData, Tail;
    WrittenMore(p, l.before, Coloured(l));
    assert Coloured(l.(before := [p] + l.before)) == Coloured(l);
  }

  lemma FirstDataIsBody(w: Walk, s: Bytes, c: Chunk, next: Walk) returns (l: Layout)
    requires w.kind == 2 || w.kind == 3 || w.kind == 6
    requires !w.sawIdat && !w.idatEnded && w.palette.None? && |c.name| == 4 && s == PngChunk(c.name, c.data) + c.rest
    requires |c.data| <= MAX_U32 && FoundOk(w, c, next, DataFound)
    requires Walked(w, false, s) == Walked(next, false, c.rest) && Ends(next, c.rest)
    ensures l.Standard(w.kind) && s == Body(l) && EndsWith(w, s, l.palette, Joined(l.parts))
  {
    hide PngChunk, Ancillary, Tail, WrittenData, Joined, Walked, Body, EndsWith, Fit;
    var parts, after := FirstDataIsWritten(w, s, c, next);
    NothingWritten(WrittenData(parts, Tail(after)));
    hide Ancillaries, Written;
    NothingBefore(None, [], parts, after);
    l := Layout([], None, [], parts, after);
  }

  lemma PaletteIsBody(w: Walk, s: Bytes, c: Chunk, next: Walk) returns (l: Layout)
    requires w.kind == 2 || w.kind == 3 || w.kind == 6
    requires !w.sawIdat && !w.idatEnded && w.palette.None? && |c.name| == 4 && s == PngChunk(c.name, c.data) + c.rest
    requires FoundOk(w, c, next, PaletteFound)
    requires Walked(w, false, s) == Walked(next, false, c.rest) && Ends(next, c.rest)
    ensures l.Standard(w.kind) && s == Body(l) && EndsWith(w, s, l.palette, Joined(l.parts))
  {
    hide PngChunk, Ancillary, Ancillaries, Tail, WrittenData, Joined, Walked, Written, Body, EndsWith, Fit;
    var between, parts, after := BetweenIsWritten(next, c.rest);
    NothingBefore(Some(c.data), between, parts, after);
    EndsWithSame(w, s, next, c.rest, Some(c.data), Joined(parts));
    l := Layout([], Some(c.data), between, parts, after);
  }

  lemma OtherKeeps(w: Walk, c: Chunk, next: Walk, found: Found)
    requires |c.name| == 4 && FoundOk(w, c, next, found) && !w.sawIdat && !w.idatEnded && w.palette.None?
    ensures !found.EndFound?
    ensures found.OtherFound? ==>
              found.piece == Piece(c.name, c.data) && |found.piece.name| == 4 && Ancillary(found.piece) && next == w
    ensures next.ended == w.ended && next.kind == w.kind
  {
  }

  lemma OtherIsBody(w: Walk, s: Bytes, p: Piece, rest: Bytes, more: Layout) returns (l: Layout)
    requires w.kind == 2 || w.kind == 3 || w.kind == 6
    requires Ancillary(p) && s == PngChunk(p.name, p.data) + rest && Walked(w, false, s) == Walked(w, false, rest)
    requires more.Standard(w.kind) && rest == Body(more) && EndsWith(w, rest, more.palette, Joined(more.parts))
    ensures l.Standard(w.kind) && s == Body(l) && EndsWith(w, s, l.palette, Joined(l.parts))
  {
    hide PngChunk, Ancillary, Ancillaries, Walked, Body, Joined, EndsWith;
    BodyMore(p, more);
    EndsWithSame(w, s, w, rest, more.palette, Joined(more.parts));
    l := more.(before := [p] + more.before);
  }

  /** From the header to the end. */
  lemma {:induction false} BodyIsWritten(w: Walk, s: Bytes) returns (l: Layout)
    requires w.kind == 2 || w.kind == 3 || w.kind == 6
    requires !w.sawIdat && !w.idatEnded && w.palette.None? && Ends(w, s)
    ensures l.Standard(w.kind) && s == Body(l) && EndsWith(w, s, l.palette, Joined(l.parts))
    decreases |s|
  {
    var c, next, found := FirstChunk(w, s);
    OtherKeeps(w, c, next, found);
    assert !w.ended;
    hide *;
    if found.DataFound? {
      l := FirstDataIsBody(w, s, c, next);
    } else if found.PaletteFound? {
      l := PaletteIsBody(w, s, c, next);
    } else {
      var more := BodyIsWritten(next, c.rest);
      l := OtherIsBody(w, s, found.piece, c.rest, more);
    }
  }

  lemma HeaderIsWritten(data: Bytes)
    requires GoodHeader(data)
    ensures data == Header(data[9])
  {
    Big32OfReadBig32(data[0..4]);
    Big32OfReadBig32(data[4..8]);
    assert data == data[0..4] + data[4..8] + [data[8], data[9], data[10], data[11], data[12]];
  }

  lemma FirstIsHeader(s: Bytes) returns (c: Chunk, kind: byte)
    requires s != [] && Walked(START, true, s).Ok?
    ensures s == PngChunk(IHDR, Header(kind)) + c.rest && (kind == 2 || kind == 3 || kind == 6)
    ensures Walked(START, true, s) == Walked(START.(kind := kind), false, c.rest)
  {
    hide Parse, PngChunk, GoodName, Header;
    PngChunkOfParse(s);
    WalkedStep(START, true, s);
    c := Parse(s).value;
    assert c.name == IHDR && GoodHeader(c.data);
    kind := c.data[9];
    HeaderIsWritten(c.data);
  }

  /** The walk of the whole file, behind its signature, reaches the end marker. */
  predicate EndsWell(s: Bytes) { Walked(START, true, s).Ok? && Walked(START, true, s).value.ended }

  /** A file whose walk ends well is a header and a body as they are written. */
  lemma WalkedIsAFile(s: Bytes) returns (kind: byte, l: Layout)
    requires EndsWell(s)
    ensures (kind == 2 || kind == 3 || kind == 6) && l.Standard(kind) && File(kind, l) == SIGNATURE + s
    ensures var end := Walked(START, true, s).value;
            end.kind == kind && end.palette == l.palette && end.compressed == Joined(l.parts)
  {
    StartIsOpen();
    hide Walked, File, PngChunk, Header, Body, Joined, Ancillaries, Fit;
    var c: Chunk;
    c, kind := FirstIsHeader(s);
    l := HeaderThenBody(kind, c.rest);
    FileOfBody(kind, l);
  }

  lemma StartIsOpen()
    ensures Walked(START, true, []) == Ok(START) && !START.ended
  {
  }

  lemma HeaderThenBody(kind: byte, rest: Bytes) returns (l: Layout)
    requires kind == 2 || kind == 3 || kind == 6
    requires Walked(START.(kind := kind), false, rest).Ok? && Walked(START.(kind := kind), false, rest).value.ended
    ensures l.Standard(kind) && rest == Body(l)
    ensures var end := Walked(START.(kind := kind), false, rest).value;
            end.kind == kind && end.palette == l.palette && end.compressed == Joined(l.parts)
  {
    hide Walked, Ancillaries, Fit, GoodPalette, Body, Joined;
    l := BodyIsWritten(START.(kind := kind), rest);
    assert START.compressed + Joined(l.parts) == Joined(l.parts);
  }

  lemma FileOfBody(kind: byte, l: Layout)
    requires l.Standard(kind)
    ensures File(kind, l) == SIGNATURE + (PngChunk(IHDR, Header(kind)) + Body(l))
  {
    hide PngChunk, Header, Written, WrittenData, WrittenPalette;
  }

  /** Rows that pass are scanlines, with a standard filter on each, of rows of inks. */
  lemma {:induction false} CheckedIsRaw(kind: nat, palette: Option<Bytes>, rowSize: nat, previous: Bytes, raw: Bytes,
      n: nat) returns (filters: seq<byte>, rows: seq<Bytes>)
    requires |raw| == n * (rowSize + 1) && CheckedRows(kind, palette, rowSize, previous, raw).None?
    ensures |filters| == |rows| == n && Standard(filters) && Shaped(rows, rowSize) && InkRows(kind, palette, rows)
    ensures raw == Raw(BytesPerPixel(kind), previous, filters, rows)
    decreases n
  {
    hide Rebuilt, Filtered, PixelsOk, Prediction, BytesPerPixel;
    if n == 0 {
      filters, rows := [], [];
    } else {
      RowFits(n - 1, n, rowSize + 1);
      RowFits(0, n, rowSize + 1);
      var f, more := raw[1..rowSize + 1], raw[rowSize + 1..];
      var row := Rebuilt(raw[0], BytesPerPixel(kind), previous, f);
      assert raw == [raw[0]] + f + more;
      FilteredOfRebuilt(raw[0], BytesPerPixel(kind), previous, f);
      assert raw[0] <= 4 && PixelsOk(kind, palette, row, 0) && CheckedRows(kind, palette, rowSize, row, more).None?;
      hide CheckedRows, Raw;
      filters, rows := CheckedIsRaw(kind, palette, rowSize, row, more, n - 1);
      RawMore(BytesPerPixel(kind), previous, raw[0], row, filters, rows);
      filters, rows := [raw[0]] + filters, [row] + rows;
    }
  }

  lemma RawMore(bpp: nat, previous: Bytes, f: byte, row: Bytes, filters: seq<byte>, rows: seq<Bytes>)
    requires |filters| == |rows|
    ensures Raw(bpp, previous, [f] + filters, [row] + rows) ==
            [f] + Filtered(f, bpp, previous, row) + Raw(bpp, row, filters, rows)
  {
    hide Prediction;
    assert ([f] + filters)[1..] == filters && ([row] + rows)[1..] == rows;
  }

  /** The file is the encoding, in some layout and with some filters, of rows of opaque inks. */
  ghost predicate EncodesInks(inflate: Inflate, png: Bytes, kind: byte, l: Layout, filters: seq<byte>,
      rows: seq<Bytes>) {
    && (kind == 2 || kind == 3 || kind == 6) && l.Standard(kind) && png == File(kind, l)
    && |filters| == |rows| == HEIGHT && Standard(filters) && Shaped(rows, RowSize(kind))
    && inflate(Joined(l.parts)) == Some(Raw(BytesPerPixel(kind), Blank(RowSize(kind)), filters, rows))
    && InkRows(kind, l.palette, rows)
  }

  /**
    The validator accepts exactly the files within the size limit that are a standard encoding of an
    800 by 480 picture of opaque inks: one header, at most one palette before the data, the data in one
    piece, the end marker last, ancillary chunks around them, every checksum right.
   */
  lemma {:induction false} AcceptedExactlyInkEncodings(inflate: Inflate, png: Bytes)
    ensures Validated(inflate, png).None? <==>
            |png| <= MAX_PNG && exists kind, l, filters, rows :: EncodesInks(inflate, png, kind, l, filters, rows)
  {
    hide Walked, Raw, CheckedRows, InkRows, File, Joined, Blank;
    if Validated(inflate, png).None? {
      var kind, l := WalkedIsAFile(png[8..]);
      assert png == png[..8] + png[8..];
      var raw := inflate(Joined(l.parts)).value;
      var filters, rows := CheckedIsRaw(kind, l.palette, RowSize(kind), Blank(RowSize(kind)), raw, HEIGHT);
      assert EncodesInks(inflate, png, kind, l, filters, rows);
    }
    forall kind, l, filters, rows | |png| <= MAX_PNG && EncodesInks(inflate, png, kind, l, filters, rows)
      ensures Validated(inflate, png).None?
    {
      EveryStandardEncodingIsJudgedByItsPixels(inflate, kind, l, filters, rows);
    }
  }

  // ---------------------------------------------------------------- encodePNG

  predicate SixColour(indices: Bytes) {
    |indices| == WIDTH * HEIGHT && forall i | 0 <= i < |indices| :: indices[i] < 6
  }

  /** The first n rows of an indexed picture. */
  function IndexRows(indices: Bytes, n: nat): (rows: seq<Bytes>)
    requires n * WIDTH <= |indices|
    ensures |rows| == n && Shaped(rows, WIDTH)
    decreases n
  {
    if n == 0 then [] else IndexRows(indices, n - 1) + [indices[(n - 1) * WIDTH..n * WIDTH]]
  }

  function Unfiltered(n: nat): (filters: seq<byte>)
    ensures |filters| == n && Standard(filters) && forall i | 0 <= i < n :: filters[i] == 0
  {
    seq(n, (i: nat) => 0)
  }

  function Scanlines(indices: Bytes, n: nat): Bytes
    requires n * WIDTH <= |indices|
  {
    Raw(1, Blank(WIDTH), Unfiltered(n), IndexRows(indices, n))
  }

  function Encoded(deflate: Bytes -> Bytes, indices: Bytes): (png: Bytes)
    requires SixColour(indices)
  {
    hide IndexRows, Raw;
    Assembled(3, Some(PALETTE), deflate(Scanlines(indices, HEIGHT)))
  }

  lemma {:induction false} RawAppend(bpp: nat, previous: Bytes, filters: seq<byte>, rows: seq<Bytes>, f: byte,
      row: Bytes)
    requires |filters| == |rows|
    ensures Raw(bpp, previous, filters + [f], rows + [row]) ==
            Raw(bpp, previous, filters, rows) + [f] +
            Filtered(f, bpp, if rows == [] then previous else rows[|rows| - 1], row)
    decreases |rows|
  {
    hide Prediction;
    if rows == [] {
      assert Raw(bpp, row, [f][1..], [row][1..]) == [];
    } else {
      assert (filters + [f])[1..] == filters[1..] + [f];
      assert (rows + [row])[1..] == rows[1..] + [row];
      RawAppend(bpp, rows[0], filters[1..], rows[1..], f, row);
    }
  }

  lemma FilterNoneKeeps(bpp: nat, previous: Bytes, row: Bytes)
    ensures Filtered(0, bpp, previous, row) == row
  {
  }

  lemma NextScanline(indices: Bytes, y: nat)
    requires (y + 1) * WIDTH <= |indices|
    ensures Scanlines(indices, y + 1) == Scanlines(indices, y) + [0] + indices[y * WIDTH..(y + 1) * WIDTH]
  {
    hide Filtered, Raw;
    var rows, row := IndexRows(indices, y), indices[y * WIDTH..(y + 1) * WIDTH];
    assert Unfiltered(y + 1) == Unfiltered(y) + [0];
    RawAppend(1, Blank(WIDTH), Unfiltered(y), rows, 0, row);
    FilterNoneKeeps(1, if rows == [] then Blank(WIDTH) else rows[|rows| - 1], row);
  }

  lemma NoScanlines(indices: Bytes)
    ensures Scanlines(indices, 0) == []
  {
  }

  /** One row, behind the zero filter byte at `start`. */
  method FillRow(rows: array<byte>, start: nat, row: Bytes)
    requires start + 1 + |row| <= rows.Length && forall j | start <= j < rows.Length :: rows[j] == 0
    modifies rows
    ensures rows[..start + 1 + |row|] == old(rows[..start]) + [0] + row
    ensures forall j | start + 1 + |row| <= j < rows.Length :: rows[j] == 0
  {
    forall x | 0 <= x < |row| { rows[start + 1 + x] := row[x]; }
  }

  /** Each row is a zero filter byte and its indices. */
  method FillRows(indices: Bytes) returns (rows: array<byte>)
    requires SixColour(indices)
    ensures fresh(rows) && rows[..] == Scanlines(indices, HEIGHT)
  {
    assert |indices| == WIDTH * HEIGHT;
    hide *;
    rows := new byte[HEIGHT * (WIDTH + 1)](_ => 0);
    NoScanlines(indices);
    for y := 0 to HEIGHT
      invariant rows[..y * (WIDTH + 1)] == Scanlines(indices, y)
      invariant forall j | y * (WIDTH + 1) <= j < rows.Length :: rows[j] == 0
    {
      ghost var done := rows[..y * (WIDTH + 1)];
      FillRow(rows, y * (WIDTH + 1), indices[y * WIDTH..(y + 1) * WIDTH]);
      NextScanline(indices, y);
      assert rows[..(y + 1) * (WIDTH + 1)] == done + [0] + indices[y * WIDTH..(y + 1) * WIDTH];
    }
    assert rows[..rows.Length] == rows[..];
  }

  method EncodePng(deflate: Bytes -> Bytes, indices: Bytes) returns (png: Option<Bytes>)
    ensures png == if SixColour(indices) then Some(Encoded(deflate, indices)) else None
  {
    hide Assembled, IndexRows, Raw, Scanlines;
    if |indices| != WIDTH * HEIGHT { return None; }
    for i := 0 to |indices|
      invariant forall j | 0 <= j < i :: indices[j] < 6
    {
      if indices[i] >= 6 { return None; }
    }
    var rows := FillRows(indices);
    png := Some(Assembled(3, Some(PALETTE), deflate(rows[..])));
  }

  lemma IndexIsInk(row: Bytes, x: nat)
    requires x < |row| && row[x] < 6
    ensures PixelOk(3, Some(PALETTE), row, x)
  {
    var i := row[x];
    var rgb := Colour(3, Some(PALETTE), row, x).value;
    assert rgb == PALETTE[i as int * 3..i as int * 3 + 3];
    assert rgb == [PALETTE[i as int * 3], PALETTE[i as int * 3 + 1], PALETTE[i as int * 3 + 2]];
  }

  lemma {:induction false} IndexedRowIsInk(row: Bytes, x: nat)
    requires forall i | 0 <= i < |row| :: row[i] < 6
    ensures PixelsOk(3, Some(PALETTE), row, x)
    decreases |row| - x
  {
    if x < |row| {
      IndexIsInk(row, x);
      IndexedRowIsInk(row, x + 1);
    }
  }

  lemma {:induction false} IndexRowsAreInk(indices: Bytes, n: nat)
    requires SixColour(indices) && n <= HEIGHT
    ensures InkRows(3, Some(PALETTE), IndexRows(indices, n))
    decreases n
  {
    hide PixelsOk;
    if n > 0 {
      IndexRowsAreInk(indices, n - 1);
      IndexedRowIsInk(indices[(n - 1) * WIDTH..n * WIDTH], 0);
    }
  }

  /**
    Every picture survives the round trip: what encodePNG writes is accepted exactly when its
    compressed form fits the size limit, and its scanlines decode to the picture's own rows.
   */
  lemma {:induction false} EncodedIsAccepted(deflate: Bytes -> Bytes, inflate: Inflate, indices: Bytes)
    requires SixColour(indices)
    requires var raw := Scanlines(indices, HEIGHT); inflate(deflate(raw)) == Some(raw)
    ensures Validated(inflate, Encoded(deflate, indices)).None? <==>
            |deflate(Scanlines(indices, HEIGHT))| + 87 <= MAX_PNG
    ensures Decoded(1, WIDTH, Blank(WIDTH), Scanlines(indices, HEIGHT)) == IndexRows(indices, HEIGHT)
  {
    hide Validated, InkRows, Raw, IndexRows, Decoded, PixelsOk;
    IndexRowsAreInk(indices, HEIGHT);
    DecodedOfRaw(1, WIDTH, Blank(WIDTH), Unfiltered(HEIGHT), IndexRows(indices, HEIGHT));
    AssembledIsJudgedByItsPixels(inflate, 3, Some(PALETTE), Unfiltered(HEIGHT),
      IndexRows(indices, HEIGHT), deflate(Scanlines(indices, HEIGHT)));
  }

  // ---------------------------------------------------------------- damage

  /** The k bytes from i on lie in the type and data, or in the checksum, of one chunk of s. */
  predicate InOneField(s: Bytes, i: nat, k: nat)
    decreases |s|
  {
    s != [] &&
    match Parse(s)
    case Err(_) => false
    case Ok(c) =>
      var n := |c.data|;
      || (4 <= i && i + k <= 8 + n)
      || (8 + n <= i && i + k <= 12 + n)
      || (12 + n <= i && InOneField(c.rest, i - 12 - n, k))
  }

  /** s and t differ, and only in the k bytes from i on. */
  predicate DifferInWindow(s: Bytes, t: Bytes, i: nat, k: nat) {
    |s| == |t| && i + k <= |s| && s != t && s[..i] == t[..i] && s[i + k..] == t[i + k..]
  }

  lemma WindowOfSlice(s: Bytes, t: Bytes, i: nat, k: nat, from: nat, to: nat)
    requires DifferInWindow(s, t, i, k) && from <= i && i + k <= to <= |s|
    ensures s[from..to] == s[from..i] + s[i..i + k] + s[i + k..to]
    ensures t[from..to] == s[from..i] + t[i..i + k] + s[i + k..to]
    ensures s[i..i + k] != t[i..i + k]
  {
    assert t[from..i] == t[..i][from..] && s[from..i] == s[..i][from..];
    assert t[i + k..to] == t[i + k..][..to - i - k] && s[i + k..to] == s[i + k..][..to - i - k];
    assert s == s[..i] + s[i..i + k] + s[i + k..] && t == t[..i] + t[i..i + k] + t[i + k..];
    assert s[from..to] == s[from..i] + s[i..i + k] + s[i + k..to];
    assert t[from..to] == t[from..i] + t[i..i + k] + t[i + k..to];
  }

  lemma SliceOutside(s: Bytes, t: Bytes, i: nat, k: nat, from: nat, to: nat)
    requires DifferInWindow(s, t, i, k) && from <= to <= |s| && (to <= i || i + k <= from)
    ensures s[from..to] == t[from..to]
  {
    if to <= i {
      assert s[from..to] == s[..i][from..to] && t[from..to] == t[..i][from..to];
    } else {
      var j := i + k;
      assert s[from..to] == s[j..][from - j..to - j];
      assert t[from..to] == t[j..][from - j..to - j];
    }
  }

  /** A chunk whose length is read as before, with one of its two fields changed, fails its checksum. */
  lemma FieldsFail(s: Bytes, t: Bytes)
    requires |s| == |t| >= 12 && s[0..4] == t[0..4] && Parse(s).Ok?
    requires var n := ReadBig32(s[0..4]);
             var same := Checksum(s[4..8 + n]) == Checksum(t[4..8 + n]);
             || (!same && s[8 + n..12 + n] == t[8 + n..12 + n])
             || (s[4..8 + n] == t[4..8 + n] && s[8 + n..12 + n] != t[8 + n..12 + n])
    ensures t != [] && Parse(t).Err?
  {
    hide Checksum, ReadCrc, ReadBig32, GoodName;
    var n := ReadBig32(s[0..4]);
    if ReadCrc(s[8 + n..12 + n]) == ReadCrc(t[8 + n..12 + n]) {
      ReadCrcInjective(s[8 + n..12 + n], t[8 + n..12 + n]);
    }
  }

  /** Damage to a chunk's type, data or checksum leaves a chunk that no longer parses. */
  lemma DamagedChunk(s: Bytes, t: Bytes, i: nat, k: nat)
    requires s != [] && Parse(s).Ok? && DifferInWindow(s, t, i, k) && 0 < k <= 4
    requires var n := |Parse(s).value.data|; (4 <= i && i + k <= 8 + n) || (8 + n <= i && i + k <= 12 + n)
    ensures t != [] && Parse(t).Err?
  {
    var n := ReadBig32(s[0..4]);
    assert |Parse(s).value.data| == n && 12 + n <= |s|;
    hide *;
    DamageIsInside(s, t, i, k);
    SliceOutside(s, t, i, k, 0, 4);
    if i + k <= 8 + n {
      SliceOutside(s, t, i, k, 8 + n, 12 + n);
      DamagedBody(s, t, i, k, 4, 8 + n);
    } else {
      SliceOutside(s, t, i, k, 4, 8 + n);
      DamagedSlice(s, t, i, k, 8 + n, 12 + n);
    }
    FieldsFail(s, t);
  }

  lemma DamagedBody(s: Bytes, t: Bytes, i: nat, k: nat, from: nat, to: nat)
    requires DifferInWindow(s, t, i, k) && 0 < k <= 4 && from <= i && i + k <= to <= |s|
    ensures Checksum(s[from..to]) != Checksum(t[from..to])
  {
    hide Checksum;
    WindowOfSlice(s, t, i, k, from, to);
    BurstChangesChecksum(s[from..i], s[i..i + k], t[i..i + k], s[i + k..to]);
  }

  lemma DamagedSlice(s: Bytes, t: Bytes, i: nat, k: nat, from: nat, to: nat)
    requires DifferInWindow(s, t, i, k) && from <= i && i + k <= to <= |s|
    ensures s[from..to] != t[from..to]
  {
    WindowOfSlice(s, t, i, k, from, to);
    hide DifferInWindow;
    var a, b := s[from..to], t[from..to];
    assert s[i..i + k] == a[i - from..i - from + k] && t[i..i + k] == b[i - from..i - from + k];
  }

  lemma DamageIsInside(s: Bytes, t: Bytes, i: nat, k: nat)
    requires DifferInWindow(s, t, i, k)
    ensures |s| == |t| && i + k <= |s|
  {
  }

  lemma UndamagedChunk(s: Bytes, t: Bytes, i: nat, k: nat)
    requires s != [] && Parse(s).Ok? && DifferInWindow(s, t, i, k)
    requires var n := |Parse(s).value.data|; i >= 12 + n
    ensures t != [] && Parse(t).Ok? && (Parse(t).value.rest == [] <==> Parse(s).value.rest == [])
    ensures Parse(t).value.name == Parse(s).value.name && Parse(t).value.data == Parse(s).value.data
    ensures DifferInWindow(Parse(s).value.rest, Parse(t).value.rest, i - 12 - |Parse(s).value.data|, k)
  {
    hide Checksum, ReadCrc, ReadBig32, GoodName;
    var n := ReadBig32(s[0..4]);
    SliceOutside(s, t, i, k, 0, 4);
    SliceOutside(s, t, i, k, 4, 8);
    SliceOutside(s, t, i, k, 8, 8 + n);
    SliceOutside(s, t, i, k, 4, 8 + n);
    SliceOutside(s, t, i, k, 8 + n, 12 + n);
    WindowOfSlice(s, t, i, k, 12 + n, |s|);
    var u, v := s[12 + n..], t[12 + n..];
    assert u[..i - 12 - n] == s[12 + n..i] && v[..i - 12 - n] == t[12 + n..i];
    SliceOutside(s, t, i, k, 12 + n, i);
    assert u[i - 12 - n + k..] == s[i + k..] && v[i - 12 - n + k..] == t[i + k..];
    assert s[i..i + k] == u[i - 12 - n..i - 12 - n + k] && t[i..i + k] == v[i - 12 - n..i - 12 - n + k];
  }

  lemma FailedParse(w: Walk, first: bool, s: Bytes)
    requires s != [] && Parse(s).Err?
    ensures Walked(w, first, s).Err?
  {
  }

  lemma WalkedStep(w: Walk, first: bool, s: Bytes)
    requires s != [] && Parse(s).Ok?
    ensures var c := Parse(s).value;
            var step := Step(w, first, c.name, c.data, c.rest == []);
            Walked(w, first, s) == if step.Ok? then Walked(step.value, false, c.rest) else Err(step.error)
  {
    hide Parse, Step;
  }

  lemma {:induction false} DamagedWalk(w: Walk, first: bool, s: Bytes, t: Bytes, i: nat, k: nat)
    requires InOneField(s, i, k) && DifferInWindow(s, t, i, k) && 0 < k <= 4
    requires Walked(w, first, s).Ok?
    ensures Walked(w, first, t).Err?
    decreases |s|
  {
    hide Parse, DifferInWindow, Step, Walked;
    var c := Parse(s).value;
    var n := |c.data|;
    if 12 + n <= i {
      UndamagedChunk(s, t, i, k);
      WalkedStep(w, first, s);
      WalkedStep(w, first, t);
      var w' := Step(w, first, c.name, c.data, c.rest == []).value;
      DamagedWalk(w', false, c.rest, Parse(t).value.rest, i - 12 - n, k);
    } else {
      DamagedChunk(s, t, i, k);
      FailedParse(w, first, t);
    }
  }

  /**
    An accepted file changed in one byte, or in up to four consecutive bytes, of a chunk's type and
    data (or of its checksum) is rejected: it never reaches the panel as another picture.
   */
  lemma DamageIsRejected(inflate: Inflate, png: Bytes, bad: Bytes, i: nat, k: nat)
    requires Validated(inflate, png).None? && |png| == |bad|
    requires i >= 8 && DifferInWindow(png[8..], bad[8..], i - 8, k) && 0 < k <= 4
    requires InOneField(png[8..], i - 8, k)
    ensures Validated(inflate, bad).Some?
  {
    hide Walked, InOneField, CheckedRows, DifferInWindow;
    DamagedWalk(START, true, png[8..], bad[8..], i - 8, k);
  }

  /** Byte i is one of the four length bytes of a chunk. */
  predicate InLength(s: Bytes, i: nat)
    decreases |s|
  {
    s != [] &&
    match Parse(s)
    case Err(_) => false
    case Ok(c) => i < 4 || (12 + |c.data| <= i && InLength(c.rest, i - 12 - |c.data|))
  }

  lemma {:induction false} FieldsCoverTheWalk(w: Walk, first: bool, s: Bytes, i: nat)
    requires Walked(w, first, s).Ok? && i < |s|
    ensures InOneField(s, i, 1) || InLength(s, i)
    decreases |s|
  {
    hide Parse, Step;
    var c := Parse(s).value;
    if 12 + |c.data| <= i {
      FieldsCoverTheWalk(Step(w, first, c.name, c.data, c.rest == []).value, false, c.rest, i - 12 - |c.data|);
    }
  }

  /** Changing any one byte of an accepted file, outside the chunks' length fields, makes it rejected. */
  lemma {:induction false} OneByteDamageIsRejected(inflate: Inflate, png: Bytes, i: nat, b: byte)
    requires Validated(inflate, png).None? && i < |png| && png[i] != b
    requires i >= 8 ==> !InLength(png[8..], i - 8)
    ensures Validated(inflate, png[i := b]).Some?
  {
    hide Walked, InOneField, CheckedRows, InLength;
    var bad := png[i := b];
    if i < 8 {
      assert bad[..8][i] != png[..8][i];
    } else {
      FieldsCoverTheWalk(START, true, png[8..], i - 8);
      OneByteWindow(png, i, b);
      DamageIsRejected(inflate, png, bad, i, 1);
    }
  }

  lemma OneByteWindow(png: Bytes, i: nat, b: byte)
    requires 8 <= i < |png| && png[i] != b
    ensures DifferInWindow(png[8..], png[i := b][8..], i - 8, 1)
  {
    var s, t := png[8..], png[i := b][8..];
    assert s[i - 8] != t[i - 8];
  }
}
