/**
  The chunk loops: GATT and CoC image uploads (internal/ble/app_image.go, internal/ble/coc.go), package
  uploads (internal/ble/protocol.go) and the browser's (web/src/photoframe/sender.ts). All four walk
  the same plan; they differ in the limit, and in whether a chunk is acknowledged.
 */
module Upload {
  import opened Wrappers

  datatype Chunk<T> = Chunk(offset: nat, data: seq<T>)

  const GATT_FRAME := 128
  const CHUNK_HEADER := 22  // version, op, 16-byte request ID, 32-bit offset
  const GATT_CHUNK := 106
  const PACKAGE_CHUNK := 400

  function Min(a: nat, b: nat): nat { if a < b then a else b }

  /** The chunks that take a device from `offset` bytes of the image to all of it. */
  function Plan<T>(image: seq<T>, offset: nat, limit: nat): seq<Chunk<T>>
    requires offset <= |image| && limit > 0
    decreases |image| - offset
  {
    if offset == |image| then []
    else
      var end := Min(offset + limit, |image|);
      [Chunk(offset, image[offset..end])] + Plan(image, end, limit)
  }

  /** The device's receive buffer: a chunk that does not continue it is an unexpected offset. */
  function Receive<T>(buffer: seq<T>, c: Chunk<T>): Option<seq<T>> {
    if c.offset == |buffer| then Some(buffer + c.data) else None
  }

  function ReceiveAll<T>(buffer: seq<T>, chunks: seq<Chunk<T>>): Option<seq<T>>
    decreases |chunks|
  {
    if chunks == [] then Some(buffer)
    else
      var next := Receive(buffer, chunks[0]);
      if next.None? then None else ReceiveAll(next.value, chunks[1..])
  }

  /** The other end of one upload: what it was sent, and the answer each chunk gets; no answer is a failure. */
  class Link<T> {
    const answers: nat -> Option<nat>
    var sent: seq<Chunk<T>>

    constructor (answers: nat -> Option<nat>)
      ensures sent == [] && this.answers == answers
    {
      this.answers, sent := answers, [];
    }

    method Exchange(c: Chunk<T>) returns (answer: Option<nat>)
      modifies this
      ensures sent == old(sent) + [c] && answer == answers(|old(sent)|)
    {
      answer := answers(|sent|);
      sent := sent + [c];
    }
  }

  /** With acknowledgements an answer must name the chunk's end; on the CoC channel any will do. */
  predicate Taken<T>(c: Chunk<T>, answer: Option<nat>, acked: bool) {
    answer.Some? && (acked ==> answer.value == c.offset + |c.data|)
  }

  /** The loop itself: it sends the plan in order, and stops at the first chunk that is not taken. */
  method SendChunks<T>(image: seq<T>, start: nat, limit: nat, acked: bool, link: Link<T>) returns (done: bool)
    requires start <= |image| && limit > 0 && link.sent == []
    modifies link
    ensures link.sent <= Plan(image, start, limit)
    ensures forall k | 0 <= k < |link.sent| - 1 :: Taken(link.sent[k], link.answers(k), acked)
    ensures done ==> link.sent == Plan(image, start, limit)
    ensures done <==> link.sent == [] || Taken(link.sent[|link.sent| - 1], link.answers(|link.sent| - 1), acked)
  {
    var offset := start;
    while offset < |image|
      invariant start <= offset <= |image|
      invariant link.sent + Plan(image, offset, limit) == Plan(image, start, limit)
      invariant forall k | 0 <= k < |link.sent| :: Taken(link.sent[k], link.answers(k), acked)
      decreases |image| - offset
    {
      var end := Min(offset + limit, |image|);
      ghost var rest := Plan(image, end, limit);
      ghost var before := link.sent;
      var answer := link.Exchange(Chunk(offset, image[offset..end]));
      assert before + ([Chunk(offset, image[offset..end])] + rest) == link.sent + rest;
      if answer.None? || (acked && answer.value != end) {
        return false;
      }
      offset := end;
    }
    return true;
  }

  /** After any number of the plan's chunks the device holds a longer prefix of the image, never anything else. */
  lemma {:induction false} PrefixAfterAnyChunks<T>(image: seq<T>, start: nat, limit: nat, k: nat) returns (held: nat)
    requires start <= |image| && limit > 0 && k <= |Plan(image, start, limit)|
    ensures start + k <= held <= |image|
    ensures ReceiveAll(image[..start], Plan(image, start, limit)[..k]) == Some(image[..held])
    ensures Plan(image, start, limit)[k..] == Plan(image, held, limit)
    decreases |image| - start
  {
    var plan := Plan(image, start, limit);
    if k == 0 {
      held := start;
      assert plan[..0] == [] && plan[0..] == plan;
    } else {
      var end := Min(start + limit, |image|);
      var rest := Plan(image, end, limit);
      held := PrefixAfterAnyChunks(image, end, limit, k - 1);
      assert image[..start] + image[start..end] == image[..end];
      assert plan[..k][1..] == rest[..k - 1] && plan[k..] == rest[k - 1..];
    }
  }

  lemma {:induction false} ReceivedIsAppended<T>(image: seq<T>, buffer: seq<T>, start: nat, limit: nat)
    requires start <= |image| && limit > 0 && |buffer| == start
    ensures ReceiveAll(buffer, Plan(image, start, limit)) == Some(buffer + image[start..])
    decreases |image| - start
  {
    if start == |image| {
      assert buffer + image[start..] == buffer;
    } else {
      var end := Min(start + limit, |image|);
      ReceivedIsAppended(image, buffer + image[start..end], end, limit);
      assert buffer + image[start..end] + image[end..] == buffer + image[start..];
      assert Plan(image, start, limit)[1..] == Plan(image, end, limit);
    }
  }

  /**
    A device that acknowledged `start` bytes holds the image at COMMIT exactly when those bytes were
    the image's own first bytes; the chunks never overlap, never leave a gap and never repeat one.
   */
  lemma BufferIsImageExactlyWhenPrefixWas<T>(image: seq<T>, buffer: seq<T>, start: nat, limit: nat)
    requires start <= |image| && limit > 0 && |buffer| == start
    ensures ReceiveAll(buffer, Plan(image, start, limit)) == Some(image) <==> buffer == image[..start]
  {
    ReceivedIsAppended(image, buffer, start, limit);
    assert image == image[..start] + image[start..];
    assert (buffer + image[start..])[..start] == buffer;
  }

  /** An upload broken after any chunk is completed by resuming from what the device then holds. */
  lemma ResumedUploadCompletes<T>(image: seq<T>, start: nat, limit: nat, k: nat, limit2: nat)
    requires start <= |image| && limit > 0 && limit2 > 0 && k <= |Plan(image, start, limit)|
    ensures var held := ReceiveAll(image[..start], Plan(image, start, limit)[..k]);
      && held.Some? && |held.value| <= |image|
      && ReceiveAll(held.value, Plan(image, |held.value|, limit2)) == Some(image)
  {
    var held := PrefixAfterAnyChunks(image, start, limit, k);
    BufferIsImageExactlyWhenPrefixWas(image, image[..held], held, limit2);
  }

  /** Every chunk carries something and fits its frame; chunk k starts where chunk k - 1 ended. */
  lemma {:induction false} ChunksFitAndFollow<T>(image: seq<T>, start: nat, limit: nat, k: nat)
    requires start <= |image| && limit > 0 && k < |Plan(image, start, limit)|
    ensures var plan := Plan(image, start, limit);
      && 1 <= |plan[k].data| <= limit
      && plan[k].offset == (if k == 0 then start else plan[k - 1].offset + |plan[k - 1].data|)
      && plan[k].offset + |plan[k].data| <= |image|
      && plan[k].data == image[plan[k].offset..plan[k].offset + |plan[k].data|]
    decreases k
  {
    if k > 0 {
      var end := Min(start + limit, |image|);
      ChunksFitAndFollow(image, end, limit, k - 1);
    }
  }

  /** The source's limits: a GATT chunk is at most 128 bytes, a CoC chunk at most the negotiated record. */
  lemma FramesFit<T>(image: seq<T>, start: nat, sendMax: nat, k: nat)
    requires start <= |image| && 54 <= sendMax <= 4058
    ensures k < |Plan(image, start, GATT_CHUNK)| ==>
              CHUNK_HEADER + |Plan(image, start, GATT_CHUNK)[k].data| <= GATT_FRAME
    ensures k < |Plan(image, start, sendMax - CHUNK_HEADER)| ==>
              CHUNK_HEADER + |Plan(image, start, sendMax - CHUNK_HEADER)[k].data| <= sendMax
  {
    if k < |Plan(image, start, GATT_CHUNK)| { ChunksFitAndFollow(image, start, GATT_CHUNK, k); }
    if k < |Plan(image, start, sendMax - CHUNK_HEADER)| { ChunksFitAndFollow(image, start, sendMax - CHUNK_HEADER, k); }
  }
}
