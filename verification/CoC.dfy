/**
  Record framing on the L2CAP channel (internal/ble/coc.go): short reads and writes, the handshake's
  bounds, sequence numbers and tags. HMAC is any function with 32-byte values.
 */
module CoC {
  import opened Wrappers

  type byte = b: int | 0 <= b < 256
  type Bytes = seq<byte>
  type Tag = b: Bytes | |b| == 32 witness seq(32, i => 0)
  type Mac = Bytes -> Tag

  const MAX_U32: nat := 0xffff_ffff

  function U16(n: nat): (b: Bytes)
    requires n < 0x1_0000
    ensures |b| == 2
  {
    [n % 0x100, n / 0x100]
  }

  function ReadU16(b: Bytes): (n: nat)
    requires |b| == 2
    ensures n < 0x1_0000
  {
    b[0] as int + b[1] as int * 0x100
  }

  function U32(n: nat): (b: Bytes)
    requires n <= MAX_U32
    ensures |b| == 4
  {
    U16(n % 0x1_0000) + U16(n / 0x1_0000)
  }

  function ReadU32(b: Bytes): (n: nat)
    requires |b| == 4
    ensures n <= MAX_U32
  {
    ReadU16(b[..2]) + ReadU16(b[2..]) * 0x1_0000
  }

  lemma ReadU32OfU32(n: nat)
    requires n <= MAX_U32
    ensures ReadU32(U32(n)) == n
  {
    assert U32(n)[..2] == U16(n % 0x1_0000) && U32(n)[2..] == U16(n / 0x1_0000);
  }

  // ---------------------------------------------------------------- the wire

  /** The authenticated part of the record with sequence number `number`. */
  function Body(number: nat, p: Bytes): Bytes
    requires number <= MAX_U32
  {
    U32(number) + p
  }

  function Record(mac: Mac, number: nat, p: Bytes): Bytes
    requires number <= MAX_U32 && |p| <= 4058
  {
    U16(36 + |p|) + Body(number, p) + mac(Body(number, p))
  }

  /** A record byte by byte: length and number least significant byte first, the payload, the tag of both. */
  lemma RecordOnTheWire(mac: Mac, number: nat, p: Bytes)
    requires number <= MAX_U32 && |p| <= 4058
    ensures var r := Record(mac, number, p); var n := |p|;
      && |r| == 38 + n
      && r[0] as int + 0x100 * r[1] as int == 36 + n
      && r[2] as int + 0x100 * r[3] as int + 0x1_0000 * r[4] as int + 0x100_0000 * r[5] as int == number
      && r[6..6 + n] == p
      && r[6 + n..] == mac(r[2..6 + n])
  {
    var r, n := Record(mac, number, p), |p|;
    assert r[2..6 + n] == Body(number, p);
    assert number == number % 0x1_0000 + 0x1_0000 * (number / 0x1_0000);
  }

  datatype Parsed = Parsed(payload: Bytes, rest: Bytes)

  /** One record off the front of `s`, for a receiver that accepted `seen` records so far. */
  function Parse(mac: Mac, receiveMax: nat, seen: nat, s: Bytes): (r: Option<Parsed>)
    ensures r.Some? ==> |r.value.rest| < |s|
  {
    if |s| < 2 then None
    else
      var n := ReadU16(s[..2]);
      if n < 37 || n > receiveMax + 36 || |s| < 2 + n then None
      else
        var wire := s[2..2 + n];
        if seen >= MAX_U32 || ReadU32(wire[..4]) != seen + 1 || mac(wire[..n - 32]) != wire[n - 32..] then None
        else Some(Parsed(wire[4..n - 32], s[2 + n..]))
  }

  /** Everything a session accepts from `s` before its first error ends it. */
  function Accepted(mac: Mac, receiveMax: nat, seen: nat, s: Bytes): seq<Bytes>
    decreases |s|
  {
    match Parse(mac, receiveMax, seen, s)
    case None => []
    case Some(r) => [r.payload] + Accepted(mac, receiveMax, seen + 1, r.rest)
  }

  // ---------------------------------------------------------------- the session object

  /**
    A byte stream whose every call may move fewer bytes than asked, none, or fail part way; `broken`
    records that some call failed or moved nothing.
   */
  class Stream {
    var incoming: Bytes
    var outgoing: Bytes
    ghost var broken: bool

    constructor (incoming: Bytes)
      ensures this.incoming == incoming && outgoing == [] && !broken
    {
      this.incoming, outgoing, broken := incoming, [], false;
    }

    method Read(max: nat) returns (got: Bytes, failed: bool)
      modifies this
      ensures |got| <= max && old(incoming) == got + incoming && outgoing == old(outgoing)
      ensures broken == (old(broken) || failed || got == [])
    {
      var n :| 0 <= n <= max && n <= |incoming|;
      got, incoming := incoming[..n], incoming[n..];
      failed := *;
      broken := broken || failed || n == 0;
    }

    method Write(p: Bytes) returns (n: nat, failed: bool)
      modifies this
      ensures n <= |p| && outgoing == old(outgoing) + p[..n] && incoming == old(incoming)
      ensures broken == (old(broken) || failed || n == 0)
    {
      n :| 0 <= n <= |p|;
      outgoing := outgoing + p[..n];
      failed := *;
      broken := broken || failed || n == 0;
    }
  }

  /** Short reads are joined; it gives up only on a call that failed or moved nothing. */
  method ReadFull(stream: Stream, want: nat) returns (got: Option<Bytes>)
    modifies stream
    ensures stream.outgoing == old(stream.outgoing)
    ensures got.Some? ==> |got.value| == want && old(stream.incoming) == got.value + stream.incoming
    ensures got.Some? ==> stream.broken == old(stream.broken)
    ensures got.None? ==> stream.broken
  {
    var p: Bytes := [];
    while |p| < want
      invariant |p| <= want && old(stream.incoming) == p + stream.incoming
      invariant stream.outgoing == old(stream.outgoing) && stream.broken == old(stream.broken)
      decreases want - |p|
    {
      var piece, failed := stream.Read(want - |p|);
      p := p + piece;
      if failed || |piece| == 0 {
        return None;
      }
    }
    return Some(p);
  }

  /** Short writes are continued; what went out is always a prefix of what was asked. */
  method WriteFull(stream: Stream, p: Bytes) returns (ok: bool)
    modifies stream
    ensures stream.incoming == old(stream.incoming)
    ensures old(stream.outgoing) <= stream.outgoing <= old(stream.outgoing) + p
    ensures ok ==> stream.outgoing == old(stream.outgoing) + p && stream.broken == old(stream.broken)
    ensures !ok ==> stream.broken
  {
    var left := p;
    while |left| > 0
      invariant |left| <= |p| && left == p[|p| - |left|..]
      invariant stream.outgoing == old(stream.outgoing) + p[..|p| - |left|]
      invariant stream.incoming == old(stream.incoming) && stream.broken == old(stream.broken)
      decreases |left|
    {
      var n, failed := stream.Write(left);
      assert p[..|p| - |left|] + left[..n] == p[..|p| - |left| + n];
      left := left[n..];
      if failed || n == 0 {
        return false;
      }
    }
    return true;
  }

  class Session {
    const stream: Stream
    const sendMac: Mac
    const receiveMac: Mac
    const sendMax: nat
    const receiveMax: nat
    var sendSeq: nat
    var receiveSeq: nat

    ghost predicate Valid()
      reads this
    {
      && sendSeq <= MAX_U32 && receiveSeq <= MAX_U32
      && 54 <= sendMax <= 4058 && 64 <= receiveMax <= 4058
    }

    constructor (stream: Stream, sendMac: Mac, receiveMac: Mac, sendMax: nat, receiveMax: nat)
      requires 54 <= sendMax <= 4058 && 64 <= receiveMax <= 4058
      ensures Valid() && sendSeq == receiveSeq == 0 && this.stream == stream
      ensures this.sendMac == sendMac && this.receiveMac == receiveMac
      ensures this.sendMax == sendMax && this.receiveMax == receiveMax
    {
      this.stream, this.sendMac, this.receiveMac := stream, sendMac, receiveMac;
      this.sendMax, this.receiveMax := sendMax, receiveMax;
      sendSeq, receiveSeq := 0, 0;
    }

    /** An out-of-bounds record moves nothing; any other uses up one number and leaves a prefix of one record. */
    method Write(p: Bytes) returns (ok: bool)
      requires Valid()
      modifies this, stream
      ensures Valid() && receiveSeq == old(receiveSeq) && stream.incoming == old(stream.incoming)
      ensures var allowed := 0 < |p| <= sendMax && old(sendSeq) < MAX_U32;
        if !allowed then !ok && sendSeq == old(sendSeq) && stream.outgoing == old(stream.outgoing)
        else
          && sendSeq == old(sendSeq) + 1
          && old(stream.outgoing) <= stream.outgoing <= old(stream.outgoing) + Record(sendMac, sendSeq, p)
          && (ok ==> stream.outgoing == old(stream.outgoing) + Record(sendMac, sendSeq, p))
          && (!ok ==> stream.broken)
    {
      if |p| == 0 || |p| > sendMax || sendSeq == MAX_U32 {
        return false;
      }
      sendSeq := sendSeq + 1;
      var wire := U16(36 + |p|) + U32(sendSeq);
      wire := wire + p;
      assert wire[2..] == Body(sendSeq, p);
      wire := wire + sendMac(wire[2..]);
      assert wire == Record(sendMac, sendSeq, p);
      ok := WriteFull(stream, wire);
    }

    /** A payload is returned exactly as the record grammar parses it; an error accepts nothing. */
    method Read() returns (r: Option<Bytes>)
      requires Valid()
      modifies this, stream
      ensures Valid() && sendSeq == old(sendSeq) && stream.outgoing == old(stream.outgoing)
      ensures match r
              case None =>
                && receiveSeq == old(receiveSeq)
                && (stream.broken || Parse(receiveMac, receiveMax, old(receiveSeq), old(stream.incoming)).None?)
              case Some(p) =>
                && receiveSeq == old(receiveSeq) + 1
                && Parse(receiveMac, receiveMax, old(receiveSeq), old(stream.incoming)) ==
                   Some(Parsed(p, stream.incoming))
    {
      ghost var s := stream.incoming;
      var prefix := ReadFull(stream, 2);
      if prefix.None? {
        return None;
      }
      assert s[..2] == prefix.value && s[2..] == stream.incoming;
      var n := ReadU16(prefix.value);
      if n < 37 || n > receiveMax + 36 {
        return None;
      }
      var read := ReadFull(stream, n);
      if read.None? {
        return None;
      }
      var wire := read.value;
      assert s[2..] == wire + stream.incoming;
      assert s[2..2 + n] == wire && s[2 + n..] == stream.incoming;
      if receiveSeq == MAX_U32 || ReadU32(wire[..4]) != receiveSeq + 1 || receiveMac(wire[..n - 32]) != wire[n - 32..] {
        return None;
      }
      receiveSeq := receiveSeq + 1;
      return Some(wire[4..n - 32]);
    }
  }

  /** newCoCSession after both reads: the greeting's fixed fields, bounds and tag. */
  predicate GoodHello(hello: Bytes, generation: nat, helloMac: Mac)
    requires |hello| == 82
  {
    && ReadU16(hello[..2]) == 80
    && hello[2..6] == [0x50, 0x50, 0x43, 0x31]
    && ReadU32(hello[6..10]) == generation
    && ReadU32(hello[10..14]) != 0
    && helloMac(hello[2..50]) == hello[50..]
    && 54 <= ReadU16(hello[14..16]) <= 4058
    && 64 <= ReadU16(hello[16..18]) <= 4058
  }

  /**
    The greeting byte by byte: its length, the magic, the application's generation, a session that is
    not 0, the two record limits in bounds, the salt, and the tag of all that.
   */
  lemma HelloOnTheWire(hello: Bytes, generation: nat, helloMac: Mac)
    requires |hello| == 82
    ensures GoodHello(hello, generation, helloMac) <==>
              && hello[0] == 80 && hello[1] == 0
              && hello[2] == 0x50 && hello[3] == 0x50 && hello[4] == 0x43 && hello[5] == 0x31
              && hello[6] as int + 0x100 * hello[7] as int + 0x1_0000 * hello[8] as int
                 + 0x100_0000 * hello[9] as int == generation
              && (hello[10] != 0 || hello[11] != 0 || hello[12] != 0 || hello[13] != 0)
              && 54 <= hello[14] as int + 0x100 * hello[15] as int <= 4058
              && 64 <= hello[16] as int + 0x100 * hello[17] as int <= 4058
              && helloMac(hello[2..50]) == hello[50..]
  {
    assert hello[2..6] == [hello[2], hello[3], hello[4], hello[5]];
  }

  /** `keys` derives the tag functions of the two directions from the greeting's 32-byte salt. */
  method NewSession(stream: Stream, generation: nat, helloMac: Mac, keys: Bytes -> (Mac, Mac))
      returns (session: Session?)
    modifies stream
    ensures stream.outgoing == old(stream.outgoing)
    ensures session != null ==>
      && fresh(session) && session.stream == stream && session.Valid()
      && session.sendSeq == session.receiveSeq == 0
      && |old(stream.incoming)| >= 82 && stream.incoming == old(stream.incoming)[82..]
      && var hello := old(stream.incoming)[..82];
         GoodHello(hello, generation, helloMac)
         && session.sendMax == ReadU16(hello[14..16]) && session.receiveMax == ReadU16(hello[16..18])
         && session.sendMac == keys(hello[18..50]).0 && session.receiveMac == keys(hello[18..50]).1
    ensures session == null ==>
      stream.broken || |old(stream.incoming)| < 82 || !GoodHello(old(stream.incoming)[..82], generation, helloMac)
  {
    session := null;
    var prefix := ReadFull(stream, 2);
    if prefix.None? || ReadU16(prefix.value) != 80 {
      return;
    }
    var rest := ReadFull(stream, 80);
    if rest.None? {
      return;
    }
    var hello := prefix.value + rest.value;
    assert old(stream.incoming) == hello + stream.incoming;
    assert hello[..2] == prefix.value;
    if !GoodHello(hello, generation, helloMac) {
      return;
    }
    var macs := keys(hello[18..50]);
    session := new Session(stream, macs.0, macs.1, ReadU16(hello[14..16]), ReadU16(hello[16..18]));
  }

  // ---------------------------------------------------------------- what a receiver can be made to accept

  /** Payloads the peer's Write would have taken, few enough for the sequence number. */
  predicate Writable(payloads: seq<Bytes>, receiveMax: nat) {
    && |payloads| <= MAX_U32 && receiveMax <= 4058
    && forall k | 0 <= k < |payloads| :: 0 < |payloads[k]| <= receiveMax
  }

  /** The records the peer wrote after its first `from`. */
  function Written(mac: Mac, payloads: seq<Bytes>, from: nat): Bytes
    requires Writable(payloads, 4058) && from <= |payloads|
    decreases |payloads| - from
  {
    if from == |payloads| then [] else Record(mac, from + 1, payloads[from]) + Written(mac, payloads, from + 1)
  }

  lemma ParseRecord(mac: Mac, receiveMax: nat, seen: nat, p: Bytes, rest: Bytes)
    requires 0 < |p| <= receiveMax <= 4058 && seen < MAX_U32
    ensures Parse(mac, receiveMax, seen, Record(mac, seen + 1, p) + rest) == Some(Parsed(p, rest))
  {
    var body := Body(seen + 1, p);
    var s := Record(mac, seen + 1, p) + rest;
    var n := 36 + |p|;
    assert s[..2] == U16(n);
    assert s[2..2 + n] == body + mac(body);
    ReadU32OfU32(seen + 1);
    assert (body + mac(body))[..4] == U32(seen + 1);
    assert (body + mac(body))[..n - 32] == body && (body + mac(body))[n - 32..] == mac(body);
    assert (body + mac(body))[4..n - 32] == p;
    assert s[2 + n..] == rest;
  }

  /** Round trip: an undamaged stream is accepted whole, in order and unchanged, however it was split. */
  lemma {:induction false} UndamagedStreamIsAccepted(mac: Mac, receiveMax: nat, payloads: seq<Bytes>, from: nat)
    requires Writable(payloads, receiveMax) && from <= |payloads|
    ensures Accepted(mac, receiveMax, from, Written(mac, payloads, from)) == payloads[from..]
    decreases |payloads| - from
  {
    if from < |payloads| {
      ParseRecord(mac, receiveMax, from, payloads[from], Written(mac, payloads, from + 1));
      UndamagedStreamIsAccepted(mac, receiveMax, payloads, from + 1);
    }
  }

  /** `body` is the authenticated part of some record the peer wrote. */
  ghost predicate WasWritten(payloads: seq<Bytes>, body: Bytes)
    requires Writable(payloads, 4058)
  {
    exists k | 0 <= k < |payloads| :: BodyOf(payloads, k) == body
  }

  function BodyOf(payloads: seq<Bytes>, k: nat): Bytes
    requires Writable(payloads, 4058) && k < |payloads|
  {
    Body(k + 1, payloads[k])
  }

  predicate Tagged(mac: Mac, s: Bytes, i: nat, j: nat)
    requires i <= j <= |s|
  {
    j + 32 <= |s| && mac(s[i..j]) == s[j..j + 32]
  }

  /** Every valid tag in `s` is one the peer computed for a record it wrote. */
  ghost predicate Unforged(mac: Mac, payloads: seq<Bytes>, s: Bytes)
    requires Writable(payloads, 4058)
  {
    forall i: nat, j: nat | i <= j <= |s| && Tagged(mac, s, i, j) :: WasWritten(payloads, s[i..j])
  }

  lemma UnforgedSuffix(mac: Mac, payloads: seq<Bytes>, s: Bytes, from: nat)
    requires Writable(payloads, 4058) && Unforged(mac, payloads, s) && from <= |s|
    ensures Unforged(mac, payloads, s[from..])
  {
    var t := s[from..];
    forall i: nat, j: nat | i <= j <= |t| && Tagged(mac, t, i, j)
      ensures WasWritten(payloads, t[i..j])
    {
      assert t[i..j] == s[from + i..from + j] && t[j..j + 32] == s[from + j..from + j + 32];
      assert Tagged(mac, s, from + i, from + j);
    }
  }

  lemma BodyNamesItsRecord(payloads: seq<Bytes>, k: nat, body: Bytes, number: nat)
    requires Writable(payloads, 4058) && k < |payloads| && body == Body(k + 1, payloads[k])
    requires ReadU32(body[..4]) == number
    ensures number == k + 1 && body[4..] == payloads[k]
  {
    assert body[..4] == U32(k + 1);
    ReadU32OfU32(k + 1);
  }

  /**
    Whatever arrives, cut, dropped, repeated, reordered, spliced or made up: without a forged tag the
    records accepted are the first ones the peer wrote, in order and unchanged.
   */
  lemma {:induction false} AcceptedIsPrefixOfWritten(mac: Mac, receiveMax: nat, payloads: seq<Bytes>, seen: nat,
      s: Bytes)
    requires Writable(payloads, 4058) && seen <= |payloads| && Unforged(mac, payloads, s)
    ensures Accepted(mac, receiveMax, seen, s) <= payloads[seen..]
    decreases |s|
  {
    var parsed := Parse(mac, receiveMax, seen, s);
    if parsed.Some? {
      var n := ReadU16(s[..2]);
      var wire := s[2..2 + n];
      var body := wire[..n - 32];
      assert body == s[2..n - 30] && wire[n - 32..] == s[n - 30..n - 30 + 32];
      assert Tagged(mac, s, 2, n - 30);
      var k :| 0 <= k < |payloads| && BodyOf(payloads, k) == s[2..n - 30];
      assert body[..4] == wire[..4] && body[4..] == wire[4..n - 32];
      BodyNamesItsRecord(payloads, k, body, seen + 1);
      UnforgedSuffix(mac, payloads, s, 2 + n);
      AcceptedIsPrefixOfWritten(mac, receiveMax, payloads, seen + 1, s[2 + n..]);
      assert payloads[seen..] == [payloads[seen]] + payloads[seen + 1..];
    }
  }

  /** A stream made of whole records of the peer, picked in any order. */
  function Shuffled(mac: Mac, payloads: seq<Bytes>, picks: seq<nat>): Bytes
    requires Writable(payloads, 4058) && forall i | 0 <= i < |picks| :: picks[i] < |payloads|
  {
    if picks == [] then [] else Record(mac, picks[0] + 1, payloads[picks[0]]) + Shuffled(mac, payloads, picks[1..])
  }

  /** The picks that continue the count from `seen` without a gap, a repeat or a swap. */
  function InOrder(payloads: seq<Bytes>, picks: seq<nat>, seen: nat): (kept: seq<Bytes>)
    requires forall i | 0 <= i < |picks| :: picks[i] < |payloads|
    ensures seen <= |payloads| ==> kept <= payloads[seen..]
  {
    if picks == [] || picks[0] != seen then [] else [payloads[seen]] + InOrder(payloads, picks[1..], seen + 1)
  }

  lemma WrongNumberIsRefused(mac: Mac, receiveMax: nat, seen: nat, number: nat, p: Bytes, rest: Bytes)
    requires |p| <= 4058 && number <= MAX_U32 && number != seen + 1
    ensures Parse(mac, receiveMax, seen, Record(mac, number, p) + rest) == None
  {
    var s := Record(mac, number, p) + rest;
    var n := 36 + |p|;
    assert s[..2] == U16(n);
    assert s[2..2 + n][..4] == U32(number);
    ReadU32OfU32(number);
  }

  lemma OneRecordThenRest(mac: Mac, receiveMax: nat, payloads: seq<Bytes>, k: nat, seen: nat, rest: Bytes)
    requires Writable(payloads, receiveMax) && k < |payloads|
    ensures Accepted(mac, receiveMax, seen, Record(mac, k + 1, payloads[k]) + rest) ==
            if k == seen then [payloads[k]] + Accepted(mac, receiveMax, seen + 1, rest) else []
  {
    if k == seen {
      ParseRecord(mac, receiveMax, seen, payloads[k], rest);
    } else {
      WrongNumberIsRefused(mac, receiveMax, seen, k + 1, payloads[k], rest);
    }
  }

  lemma NothingThenNothing(mac: Mac, receiveMax: nat, seen: nat)
    ensures Accepted(mac, receiveMax, seen, []) == []
  {
  }

  lemma ShuffledStep(mac: Mac, receiveMax: nat, payloads: seq<Bytes>, picks: seq<nat>, seen: nat)
    requires Writable(payloads, receiveMax) && picks != []
    requires forall i | 0 <= i < |picks| :: picks[i] < |payloads|
    ensures Accepted(mac, receiveMax, seen, Shuffled(mac, payloads, picks)) ==
            if picks[0] == seen
            then [payloads[seen]] + Accepted(mac, receiveMax, seen + 1, Shuffled(mac, payloads, picks[1..]))
            else []
  {
    hide Parse, Record;
    OneRecordThenRest(mac, receiveMax, payloads, picks[0], seen, Shuffled(mac, payloads, picks[1..]));
  }

  /** The first dropped, repeated or reordered record is refused, and nothing after it is accepted. */
  lemma {:induction false} DisorderIsRejectedWhereItStarts(mac: Mac, receiveMax: nat, payloads: seq<Bytes>,
      picks: seq<nat>, seen: nat)
    requires Writable(payloads, receiveMax)
    requires forall i | 0 <= i < |picks| :: picks[i] < |payloads|
    ensures Accepted(mac, receiveMax, seen, Shuffled(mac, payloads, picks)) == InOrder(payloads, picks, seen)
    decreases |picks|
  {
    hide Parse, Record;
    if picks == [] {
      NothingThenNothing(mac, receiveMax, seen);
    } else {
      ShuffledStep(mac, receiveMax, payloads, picks, seen);
      if picks[0] == seen {
        DisorderIsRejectedWhereItStarts(mac, receiveMax, payloads, picks[1..], seen + 1);
      }
    }
  }
}
