/**
  Signed commands and paged reads: internal/ble/protocol.go (`command`, `verify`, `Status`),
  internal/ble/shell.go and the same status loop in web/src/ble/session.ts. The device is any
  function of the frames it is sent; a reply's tag is either genuine or not.
 */
module Paging {
  import opened Wrappers
  import C = CoC

  type Bytes = C.Bytes

  const MAX_SEQ: nat := 0xffff_ffff
  const MAX_PAYLOAD: nat := 475
  const MAX_REPLY: nat := 512
  const REPLY_OVERHEAD: nat := 39  // op, 32-bit sequence, 16-bit code, 32-byte tag
  const MAX_OUTPUT: nat := 4095
  const MAX_LINE: nat := 256

  const OP_STATUS: nat := 3
  const OP_SHELL: nat := 28
  const INVALID_REQUEST: nat := 4

  datatype Frame = Frame(op: nat, number: nat, payload: Bytes)

  /** What the exchange of the n-th frame gives; Cancelled is a context that ended before it was sent. */
  datatype Reply = Cancelled | Lost | Message(genuine: bool, op: nat, number: nat, code: nat, data: Bytes)

  type Device = (nat, Frame) -> Reply

  datatype Failure = Stopped | Unavailable | Transport | Authentication | Refused(code: nat) | Unsupported | BadPage
      | BadLine

  /** A session: its last sequence number, whether it is dead, and every frame it has sent. */
  datatype Session = Session(number: nat, dead: bool, sent: seq<Frame>)

  predicate Alive(s: Session, payload: Bytes) {
    !s.dead && s.number != MAX_SEQ && |payload| <= MAX_PAYLOAD
  }

  /** A live session with sequence numbers left for the longest read. */
  predicate Fresh(s: Session) { !s.dead && s.number + MAX_OUTPUT < MAX_SEQ }

  function Ask(s: Session, op: nat, payload: Bytes, device: Device): Reply {
    device(|s.sent|, Frame(op, s.number + 1, payload))
  }

  predicate Verified(op: nat, number: nat, m: Reply) {
    m.Message? && |m.data| + REPLY_OVERHEAD <= MAX_REPLY && m.op == op && m.number == number && m.genuine
  }

  function Commanded(s: Session, op: nat, payload: Bytes, device: Device): (r: (Session, Result<Bytes, Failure>)) {
    var reply := Ask(s, op, payload, device);
    if reply.Cancelled? then (s, Err(Stopped))
    else if !Alive(s, payload) then (s, Err(Unavailable))
    else
      var frame := Frame(op, s.number + 1, payload);
      var after := Session(s.number + 1, false, s.sent + [frame]);
      if reply.Lost? then (after.(dead := true), Err(Transport))
      else if !Verified(op, s.number + 1, reply) then (after.(dead := true), Err(Authentication))
      else (after, if reply.code != 0 then Err(Refused(reply.code)) else Ok(reply.data))
  }

  /** Frames are numbered from one without gaps or repeats. */
  ghost predicate Numbered(s: Session) {
    |s.sent| == s.number && forall i | 0 <= i < |s.sent| :: s.sent[i].number == i + 1
  }

  lemma CommandKeepsNumbers(s: Session, op: nat, payload: Bytes, device: Device)
    requires Numbered(s)
    ensures var r := Commanded(s, op, payload, device);
            && Numbered(r.0) && s.sent <= r.0.sent && |r.0.sent| <= |s.sent| + 1
            && (r.1.Ok? ==> r.0 == Session(s.number + 1, false, s.sent + [Frame(op, s.number + 1, payload)]))
            && (s.dead ==> r.0 == s && r.1.Err?)
  {
  }

  /** A genuine reply to exactly this frame, of at most 473 bytes. */
  predicate AnswerTo(s: Session, op: nat, reply: Reply, code: nat, data: Bytes) {
    reply == Message(true, op, s.number + 1, code, data) && |data| <= 473
  }

  /**
    A command gives data exactly for a genuine reply to its own frame with code 0, and the device's
    refusal exactly for such a reply with another code. A session that sent a frame and got anything
    else is dead for good; one that is dead, used up or asked for too much sends nothing.
   */
  lemma CommandAnswersExactly(s: Session, op: nat, payload: Bytes, device: Device)
    ensures var (t, r) := Commanded(s, op, payload, device); var reply := Ask(s, op, payload, device);
            var sends := !reply.Cancelled? && !s.dead && s.number != 0xffff_ffff && |payload| <= 475;
      && (forall data :: r == Ok(data) <==> sends && AnswerTo(s, op, reply, 0, data))
      && (forall code :: r == Err(Refused(code)) <==>
            sends && code != 0 && reply.Message? && AnswerTo(s, op, reply, code, reply.data))
      && (t.dead <==> s.dead || (sends && !(reply.Message? && AnswerTo(s, op, reply, reply.code, reply.data))))
      && (if sends then t.sent == s.sent + [Frame(op, s.number + 1, payload)] && t.number == s.number + 1 else t == s)
  {
  }

  // ---------------------------------------------------------------- one page of each read

  datatype Page = Page(total: nat, data: Bytes)

  function StatusRequest(have: nat): Bytes
    requires have <= C.MAX_U32
  {
    C.U32(have)
  }

  /** A status page that continues `have` bytes of `total` (0 before the first page). */
  function StatusPage(total: nat, have: nat, data: Bytes): (p: Option<Page>)
    ensures p.Some? ==> 0 < p.value.total <= MAX_OUTPUT && |p.value.data| > 0 && (total != 0 ==> p.value.total == total)
    ensures p.Some? ==> have + |p.value.data| <= p.value.total
  {
    if |data| <= 8 then None
    else
      var n := C.ReadU32(data[..4]);
      if n > MAX_OUTPUT || n == 0 || (total != 0 && total != n) || C.ReadU32(data[4..8]) != have then None
      else if have + |data| - 8 > n then None
      else Some(Page(n, data[8..]))
  }

  /** Four bytes, least significant first. */
  predicate Reads(b: Bytes, at: nat, n: int) {
    && at + 4 <= |b|
    && b[at] as int + 0x100 * b[at + 1] as int + 0x1_0000 * b[at + 2] as int + 0x100_0000 * b[at + 3] as int == n
  }

  lemma ReadsExactly(b: Bytes, at: nat)
    requires at + 4 <= |b|
    ensures Reads(b, at, C.ReadU32(b[at..at + 4]))
  {
    assert b[at..at + 4][..2] == b[at..at + 2] && b[at..at + 4][2..] == b[at + 2..at + 4];
  }

  /**
    A status page is taken exactly when it brings something, names a length from 1 to 4095 that agrees
    with the pages before, continues where they ended, and does not run over that length.
   */
  lemma StatusPageExactly(total: nat, have: nat, data: Bytes, p: Page)
    ensures StatusPage(total, have, data) == Some(p) <==>
              && |data| > 8 && p.data == data[8..]
              && Reads(data, 0, p.total) && 1 <= p.total <= 4095 && (total == 0 || p.total == total)
              && Reads(data, 4, have) && have + |p.data| <= p.total
  {
    hide C.ReadU32;
    if |data| > 8 {
      ReadsExactly(data, 0);
      ReadsExactly(data, 4);
      assert data[0..4] == data[..4];
    }
  }

  datatype Captured = Captured(exit: int, truncated: bool, output: Bytes)

  function ShellRequest(line: Bytes, have: nat): Bytes
    requires have <= C.MAX_U32
  {
    if have == 0 then C.U32(0) + line else C.U32(have)
  }

  /** A shell page; the first one may be empty only when the whole output is. */
  function ShellPage(total: nat, r: Captured, data: Bytes): (p: Option<(nat, Captured)>)
    ensures p.Some? ==>
      && p.value.0 <= MAX_OUTPUT && |p.value.1.output| <= p.value.0
      && (|p.value.1.output| > |r.output| || (p.value.0 == 0 && r.output == []))
      && (|r.output| > 0 ==> p.value.0 == total)
  {
    if |data| < 10 || C.ReadU32(data[4..8]) != |r.output| then None
    else
      var n := C.ReadU32(data[..4]);
      var exit, truncated := data[8] as int, data[9] % 2 == 1;
      if n > MAX_OUTPUT || (|r.output| > 0 && (n != total || exit != r.exit)) then None
      else if |data| == 10 && n != 0 then None
      else if |r.output| + |data| - 10 > n then None
      else Some((n, Captured(exit, truncated, r.output + data[10..])))
  }

  /**
    A shell page is taken exactly when it continues where the output ended, brings something unless all
    of the output is empty, names a length of at most 4095 and does not run over it, and after the
    first page keeps length and exit code.
   */
  lemma ShellPageExactly(total: nat, r: Captured, data: Bytes, n: nat, next: Captured)
    ensures ShellPage(total, r, data) == Some((n, next)) <==>
              && |data| >= 10 && next == Captured(data[8] as int, data[9] % 2 == 1, r.output + data[10..])
              && Reads(data, 0, n) && n <= 4095 && Reads(data, 4, |r.output|)
              && (r.output != [] ==> n == total && next.exit == r.exit)
              && (|data| > 10 || n == 0) && |next.output| <= n
  {
    hide C.ReadU32;
    if |data| >= 10 {
      ReadsExactly(data, 0);
      ReadsExactly(data, 4);
      assert data[0..4] == data[..4];
    }
  }

  // ---------------------------------------------------------------- against a device with fixed bytes

  /** The status is `content`, served in pages of any positive sizes. */
  ghost predicate ServesStatus(device: Device, content: Bytes, size: nat -> nat) {
    |content| <= MAX_OUTPUT &&
    forall n: nat, f: Frame | f.op == OP_STATUS && |f.payload| == 4 && C.ReadU32(f.payload) < |content| ::
      var at := C.ReadU32(f.payload);
      && 0 < size(at) <= |content| - at && size(at) + 8 + REPLY_OVERHEAD <= MAX_REPLY
      && device(n, f) == Message(true, OP_STATUS, f.number, 0,
         C.U32(|content|) + C.U32(at) + content[at..at + size(at)])
  }

  /** The command was run once; its capture is served in pages of any positive sizes. */
  ghost predicate ServesShell(device: Device, line: Bytes, captured: Captured, size: nat -> nat) {
    && 0 <= captured.exit < 256 && |captured.output| <= MAX_OUTPUT
    && forall n: nat, f: Frame, at: nat | f.op == OP_SHELL && at <= |captured.output|
       && f.payload == ShellRequest(line, at) ::
      && size(at) <= |captured.output| - at && size(at) + 10 + REPLY_OVERHEAD <= MAX_REPLY
      && (at < |captured.output| ==> size(at) > 0)
      && device(n, f) == Message(true, OP_SHELL, f.number, 0,
           C.U32(|captured.output|) + C.U32(at) + [captured.exit, if captured.truncated then 1 else 0] +
           captured.output[at..at + size(at)])
  }

  lemma StatusPageOfContent(content: Bytes, at: nat, size: nat, total: nat)
    requires |content| <= MAX_OUTPUT && at < |content| && 0 < size <= |content| - at
    requires total == 0 || total == |content|
    ensures StatusPage(total, at, C.U32(|content|) + C.U32(at) + content[at..at + size]) ==
            Some(Page(|content|, content[at..at + size]))
  {
    var data := C.U32(|content|) + C.U32(at) + content[at..at + size];
    assert data[..4] == C.U32(|content|) && data[4..8] == C.U32(at) && data[8..] == content[at..at + size];
    C.ReadU32OfU32(|content|);
    C.ReadU32OfU32(at);
  }

  lemma HeaderParts(a: Bytes, b: Bytes, c: Bytes, d: Bytes)
    requires |a| == |b| == 4 && |c| == 2
    ensures var s := a + b + c + d; s[..4] == a && s[4..8] == b && s[8..10] == c && s[10..] == d && |s| == 10 + |d|
    ensures var s := a + b + c + d; s[8] == c[0] && s[9] == c[1]
  {
    assert (a + b + c + d)[..4] == a;
    assert (a + b + c + d)[4..8] == b;
    assert (a + b + c + d)[8..10] == c;
    assert (a + b + c + d)[10..] == d;
  }

  lemma ShellPageOfCapture(captured: Captured, at: nat, size: nat, total: nat, r: Captured)
    requires 0 <= captured.exit < 256 && |captured.output| <= MAX_OUTPUT && at + size <= |captured.output|
    requires (at < |captured.output| && size > 0) || captured.output == []
    requires r.output == captured.output[..at] && (at > 0 ==> r.exit == captured.exit && total == |captured.output|)
    ensures var data := C.U32(|captured.output|) + C.U32(at) + [captured.exit, if captured.truncated then 1 else 0] +
                        captured.output[at..at + size];
            ShellPage(total, r, data) ==
            Some((|captured.output|, Captured(captured.exit, captured.truncated, captured.output[..at + size])))
  {
    var data := C.U32(|captured.output|) + C.U32(at) + [captured.exit, if captured.truncated then 1 else 0] +
                captured.output[at..at + size];
    HeaderParts(C.U32(|captured.output|), C.U32(at), [captured.exit, if captured.truncated then 1 else 0],
                captured.output[at..at + size]);
    C.ReadU32OfU32(|captured.output|);
    C.ReadU32OfU32(at);
    assert captured.output[..at] + captured.output[at..at + size] == captured.output[..at + size];
    assert r.output + data[10..] == captured.output[..at + size];
  }

  // ---------------------------------------------------------------- the client, in place

  class Client {
    const device: Device
    var number: nat
    var dead: bool
    var sent: seq<Frame>

    function View(): Session
      reads this
    {
      Session(number, dead, sent)
    }

    constructor (device: Device)
      ensures this.device == device && View() == Session(0, false, [])
    {
      this.device := device;
      number, dead, sent := 0, false, [];
    }

    method Verify(op: nat, expected: nat, reply: Reply) returns (r: Result<Bytes, Failure>)
      requires reply.Message?
      modifies this`dead
      ensures dead == (old(dead) || !Verified(op, expected, reply))
      ensures r == if !Verified(op, expected, reply) then Err(Authentication)
                   else if reply.code != 0 then Err(Refused(reply.code)) else Ok(reply.data)
    {
      if |reply.data| + REPLY_OVERHEAD > MAX_REPLY || reply.op != op || reply.number != expected || !reply.genuine {
        dead := true;
        return Err(Authentication);
      }
      if reply.code != 0 { return Err(Refused(reply.code)); }
      return Ok(reply.data);
    }

    method Command(op: nat, payload: Bytes) returns (r: Result<Bytes, Failure>)
      modifies this
      ensures (View(), r) == Commanded(old(View()), op, payload, device)
    {
      var reply := device(|sent|, Frame(op, number + 1, payload));
      if reply.Cancelled? { return Err(Stopped); }
      if dead || number == MAX_SEQ || |payload| > MAX_PAYLOAD { return Err(Unavailable); }
      number := number + 1;
      sent := sent + [Frame(op, number, payload)];
      if reply.Lost? {
        dead := true;
        return Err(Transport);
      }
      r := Verify(op, number, reply);
    }

    /**
      Against any device: at most 4095 pages and 4095 bytes, and a dead session sends nothing. Against
      a device whose status is fixed: exactly its bytes, whatever the page sizes.
     */
    method Status(valid: Bytes -> bool, ghost content: Bytes, ghost size: nat -> nat)
        returns (r: Result<Bytes, Failure>)
      requires Numbered(View())
      modifies this
      ensures Numbered(View()) && old(sent) <= sent && |sent| <= |old(sent)| + MAX_OUTPUT
      ensures old(dead) ==> r.Err? && sent == old(sent)
      ensures r.Ok? ==> 0 < |r.value| <= MAX_OUTPUT && valid(r.value)
      ensures Fresh(old(View())) && content != [] && ServesStatus(device, content, size) ==>
                r == if valid(content) then Ok(content) else Err(BadPage)
    {
      hide StatusPage, Commanded, C.U32, C.ReadU32;
      ghost var serves := Fresh(old(View())) && content != [] && ServesStatus(device, content, size);
      var result: Bytes := [];
      var total := 0;
      while true
        invariant Numbered(View()) && old(sent) <= sent && |sent| <= |old(sent)| + |result|
        invariant old(dead) ==> sent == old(sent) && dead
        invariant total <= MAX_OUTPUT && |result| <= total && (total > 0 ==> |result| < total)
        invariant serves ==>
                    !dead && (total == 0 || total == |content|) && |result| < |content| && result == content[..|result|]
        decreases MAX_OUTPUT - |result|
      {
        ghost var before := View();
        CommandKeepsNumbers(before, OP_STATUS, StatusRequest(|result|), device);
        if serves { StatusServed(before, device, content, size, |result|); }
        var answer := Command(OP_STATUS, StatusRequest(|result|));
        if answer.Err? { return Err(answer.error); }
        var page := StatusPage(total, |result|, answer.value);
        if serves { StatusPageOfContent(content, |result|, size(|result|), total); }
        if page.None? { return Err(BadPage); }
        total := page.value.total;
        if serves {
          assert content[..|result|] + content[|result|..|result| + size(|result|)] ==
                 content[..|result| + size(|result|)];
        }
        result := result + page.value.data;
        if |result| == total {
          if serves { assert result == content; }
          return if valid(result) then Ok(result) else Err(BadPage);
        }
      }
    }

    /**
      Against any device: at most 4095 frames, at most 4095 bytes, and only the first frame carries
      the command. Against a device that captured the output once: exactly that capture.
     */
    method Shell(line: Bytes, validText: bool, ghost captured: Captured, ghost size: nat -> nat)
        returns (r: Result<Captured, Failure>)
      requires Numbered(View())
      modifies this
      ensures Numbered(View()) && old(sent) <= sent && |sent| <= |old(sent)| + MAX_OUTPUT
      ensures old(dead) ==> r.Err? && sent == old(sent)
      ensures forall i | |old(sent)| <= i < |sent| ::
        if i == |old(sent)| then sent[i].payload == C.U32(0) + line else |sent[i].payload| == 4
      ensures r.Ok? ==> |r.value.output| <= MAX_OUTPUT
      ensures Fresh(old(View())) && GoodLine(line, validText) && ServesShell(device, line, captured, size) ==>
                r == Ok(captured)
    {
      hide ShellPage, Commanded, C.U32, C.ReadU32, ServesShell;
      if !GoodLine(line, validText) { return Err(BadLine); }
      ghost var serves := Fresh(old(View())) && ServesShell(device, line, captured, size);
      var result := Captured(0, false, []);
      var total := 0;
      while true
        invariant Numbered(View()) && old(sent) <= sent && |sent| <= |old(sent)| + |result.output|
        invariant old(dead) ==> sent == old(sent) && dead
        invariant total <= MAX_OUTPUT && |result.output| <= total && (|result.output| > 0 ==> |result.output| < total)
        invariant result.output == [] <==> sent == old(sent)
        invariant result.output == [] ==> total == 0
        invariant forall i | |old(sent)| <= i < |sent| ::
          if i == |old(sent)| then sent[i].payload == C.U32(0) + line else |sent[i].payload| == 4
        invariant serves ==>
                    !dead && |result.output| <= |captured.output| && result.output == captured.output[..|result.output|]
        invariant serves && |result.output| > 0 ==>
          total == |captured.output| && result == captured.(output := result.output)
        decreases MAX_OUTPUT - |result.output|
      {
        ghost var before := View();
        var request := ShellRequest(line, |result.output|);
        CommandKeepsNumbers(before, OP_SHELL, request, device);
        if serves { ShellServed(before, device, line, captured, size, |result.output|); }
        var answer := Command(OP_SHELL, request);
        FramesGrow(old(sent), before, OP_SHELL, line, |result.output|, device);
        if answer == Err(Refused(INVALID_REQUEST)) && result.output == [] { return Err(Unsupported); }
        if answer.Err? { return Err(answer.error); }
        var page := ShellPage(total, result, answer.value);
        if serves { ShellPageOfCapture(captured, |result.output|, size(|result.output|), total, result); }
        if page.None? { return Err(BadPage); }
        PageGrows(total, result, answer.value);
        total, result := page.value.0, page.value.1;
        if |result.output| == total {
          if serves { assert result.output == captured.output; }
          return Ok(result);
        }
      }
    }
  }

  predicate GoodLine(line: Bytes, validText: bool) { 0 < |line| <= MAX_LINE && validText }

  lemma PageGrows(total: nat, r: Captured, data: Bytes)
    requires ShellPage(total, r, data).Some?
    ensures var p := ShellPage(total, r, data).value;
      && p.0 <= MAX_OUTPUT && |p.1.output| <= p.0
      && (|p.1.output| > |r.output| || (p.0 == 0 && p.1.output == []))
  {
  }

  /** Only a frame that asks for the first page carries the command. */
  lemma FramesGrow(first: seq<Frame>, s: Session, op: nat, line: Bytes, have: nat, device: Device)
    requires first <= s.sent && have <= MAX_OUTPUT && Numbered(s)
    requires have == 0 ==> s.sent == first
    requires have > 0 ==> |s.sent| > |first|
    requires forall i | |first| <= i < |s.sent| ::
      if i == |first| then s.sent[i].payload == C.U32(0) + line else |s.sent[i].payload| == 4
    ensures var t := Commanded(s, op, ShellRequest(line, have), device).0;
      forall i | |first| <= i < |t.sent| ::
        if i == |first| then t.sent[i].payload == C.U32(0) + line else |t.sent[i].payload| == 4
  {
    hide C.U32;
  }

  lemma ShellServed(s: Session, device: Device, line: Bytes, captured: Captured, size: nat -> nat, at: nat)
    requires ServesShell(device, line, captured, size) && at <= |captured.output| && 0 < |line| <= MAX_LINE
    requires !s.dead && s.number < MAX_SEQ
    ensures at + size(at) <= |captured.output| <= MAX_OUTPUT && (at < |captured.output| ==> size(at) > 0)
    ensures 0 <= captured.exit < 256
    ensures Commanded(s, OP_SHELL, ShellRequest(line, at), device).1 ==
            Ok(C.U32(|captured.output|) + C.U32(at) + [captured.exit, if captured.truncated then 1 else 0] +
               captured.output[at..at + size(at)])
  {
    hide C.U32, C.ReadU32;
    var f := Frame(OP_SHELL, s.number + 1, ShellRequest(line, at));
    assert device(|s.sent|, f).Message?;
  }

  lemma StatusServed(s: Session, device: Device, content: Bytes, size: nat -> nat, at: nat)
    requires ServesStatus(device, content, size) && at < |content| <= MAX_OUTPUT
    requires !s.dead && s.number < MAX_SEQ
    ensures 0 < size(at) <= |content| - at
    ensures Commanded(s, OP_STATUS, StatusRequest(at), device).1 ==
            Ok(C.U32(|content|) + C.U32(at) + content[at..at + size(at)])
  {
    hide C.U32, C.ReadU32;
    C.ReadU32OfU32(at);
    var f := Frame(OP_STATUS, s.number + 1, StatusRequest(at));
    assert device(|s.sent|, f).Message?;
  }
}
