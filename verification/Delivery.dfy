/**
  What a panel holds when a COMMIT reaches it: the transactions of AppImage run against a device that
  keeps a receive buffer, with the chunks of Upload as their payload.
 */
module Delivery {
  import opened Wrappers
  import opened AppImage
  import Upload

  type Octet = bv8

  /** The device's receive buffer, and what it held when it answered the latest BEGIN. */
  datatype Device = Device(buffer: seq<Octet>, begun: seq<Octet>)

  /** The PNG of each digest, and what the device still holds of one when a BEGIN is admitted. */
  datatype World = World(png: Digest -> seq<Octet>, held: Run -> seq<Octet>)

  function EndOf(image: seq<Octet>, offset: nat, t: Transport): nat { Min(offset + ChunkLimit(t), |image|) }

  /** The chunk a job sends next. */
  function ChunkAt(image: seq<Octet>, offset: nat, t: Transport): Upload.Chunk<Octet>
    requires offset <= |image|
  {
    Upload.Chunk(offset, image[offset..EndOf(image, offset, t)])
  }

  /** The image of job j, cut or not as its transaction says. */
  predicate Fits(w: World, s: System, j: nat)
    requires j < |s.jobs|
  {
    s.jobs[j].id in s.sender.txs && s.sender.txs[s.jobs[j].id].size == |w.png(s.jobs[j].digest)|
  }

  /** What one step makes of the device: only BEGIN and CHUNK frames of a job change it. */
  function Delivered(w: World, before: Run, s: System, a: Action, d: Device): Device
    requires s.sender.Valid() && Enabled(s, a)
  {
    if !a.Upload? || !Fits(w, s, a.j) then d
    else
      var next := s.jobs[a.j].phase.next;
      if next.None? then
        var kept := if a.admitted then w.held(before) else d.buffer;
        Device(kept, kept)
      else if !a.admitted then d
      else
        match Upload.Receive(d.buffer, ChunkAt(w.png(s.jobs[a.j].digest), next.value, s.jobs[a.j].phase.transport))
        case Some(buffer) => d.(buffer := buffer)
        case None => d
  }

  ghost function DeviceAfter(w: World, run: Run): Device
    requires Feasible(run)
    decreases run
  {
    match run
    case Start => Device([], [])
    case Then(before, step) => Delivered(w, before, Final(before), step, DeviceAfter(w, before))
  }

  /**
    A receipt says how much the device holds, and a CoC chunk that was written is taken: its record
    layer delivers what was written, in order.
   */
  predicate HonestStep(w: World, s: System, a: Action, d: Device)
    requires s.sender.Valid() && Enabled(s, a)
  {
    a.Uploaded? && a.reply.Some? ==>
      var p := s.jobs[a.j].phase;
      if p.next.Some? && p.transport.Coc? then |d.buffer| == EndOf(w.png(s.jobs[a.j].digest), p.next.value, p.transport)
      else a.reply.value.state.Receiving? ==> a.reply.value.received == |d.buffer|
  }

  ghost predicate Honest(w: World, run: Run)
    requires Feasible(run)
  {
    run.Then? ==> Honest(w, run.before) && HonestStep(w, Final(run.before), run.step, DeviceAfter(w, run))
  }

  /** Every Send is given the length of the PNG it sends. */
  predicate Measured(w: World, run: Run) {
    run.Then? ==> Measured(w, run.before) && (run.step.SendStart? ==> run.step.size == |w.png(run.step.digest)|)
  }

  // ---------------------------------------------------------------- what every honest run keeps

  /** The buffer is what BEGIN found, continued by the image up to `end`. */
  predicate Filled(d: Device, image: seq<Octet>, end: nat) {
    |d.begun| <= end <= |image| && d.buffer == d.begun + image[|d.begun|..end]
  }

  predicate Sized(w: World, s: System) {
    forall id | id in s.sender.txs :: s.sender.txs[id].size == |w.png(s.sender.txs[id].digest)|
  }

  /** An upload is filled up to its offset, or while an answer is out possibly by one more chunk. */
  predicate JobFilled(w: World, s: System, d: Device, j: nat)
    requires j < |s.jobs|
  {
    var p, image := s.jobs[j].phase, w.png(s.jobs[j].digest);
    && (p.Uploading? && p.next.Some? ==>
          || Filled(d, image, p.next.value)
          || (p.asked && p.next.value <= |image| && Filled(d, image, EndOf(image, p.next.value, p.transport))))
    && (p.Uploading? && p.next.None? && p.asked ==> d.buffer == d.begun)
    && (p.Committing? ==> Filled(d, image, |image|))
  }

  predicate AllFilled(w: World, s: System, d: Device) {
    forall j | 0 <= j < |s.jobs| :: JobFilled(w, s, d, j)
  }

  lemma SizedNext(w: World, s: System, a: Action)
    requires Inv(s) && Sized(w, s) && Enabled(s, a)
    requires a.SendStart? ==> a.size == |w.png(a.digest)|
    ensures Sized(w, Next(s, a))
  {
    hide Inv, Judge, Conclude, UploadStep, PrepareExplicitPush;
  }

  /** Job j is where it was, or a step of its own took it on. */
  predicate Stands(s: System, a: Action, t: System, j: nat) {
    && j < |s.jobs| && j < |t.jobs| && t.jobs[j].digest == s.jobs[j].digest
    && (((a.Upload? || a.Uploaded? || a.MarkCommitted? || a.Route?) && a.j == j) || t.jobs[j].phase == s.jobs[j].phase)
    && (a.Upload? && a.j != j ==> !s.jobs[j].phase.OnRadio())
  }

  /** Only the job that holds the radio uploads, and only its own steps get it further. */
  lemma OthersStand(s: System, a: Action, j: nat)
    requires Inv(s) && Enabled(s, a) && j < |Next(s, a).jobs|
    requires Next(s, a).jobs[j].phase.Uploading? || Next(s, a).jobs[j].phase.Committing?
    ensures Stands(s, a, Next(s, a), j)
  {
    if a.Uploaded? { UploadedStands(s, a, j); }
    else if a.Reply? || a.Return? || a.ReturnEarly? || a.Route? { DecidingStands(s, a, j); }
    else { QuietStands(s, a, j); }
  }

  lemma SettleEnds(s: System, j: nat, r: Receipt)
    requires s.sender.Valid() && j < |s.jobs| && s.jobs[j].id in s.sender.txs
    ensures var t := Settle(s, j, r);
            && |t.jobs| == |s.jobs| && t.jobs[j].phase.Done? && t.jobs[j].digest == s.jobs[j].digest
            && forall k | 0 <= k < |t.jobs| && k != j :: t.jobs[k] == s.jobs[k]
  {
    hide Judge, Finish;
  }

  lemma ConcludeEnds(s: System, j: nat, err: Option<ImageError>)
    requires s.sender.Valid() && j < |s.jobs| && s.jobs[j].id in s.sender.txs
    ensures AfterConclude(s, j, err).jobs == s.jobs[j := s.jobs[j].(returned := true)]
  {
    hide Conclude, Finish;
  }

  /** An answer ends its job or takes it to the next offset. */
  predicate UploadedOutcome(s: System, a: Action, t: System)
    requires s.sender.Valid() && Enabled(s, a) && a.Uploaded?
  {
    var p, id := s.jobs[a.j].phase, s.jobs[a.j].id;
    var step := UploadStep(s.sender.txs[id], id, p.transport, p.next, a.reply);
    && |t.jobs| == |s.jobs| && (forall k | 0 <= k < |t.jobs| && k != a.j :: t.jobs[k] == s.jobs[k])
    && t.jobs[a.j].digest == s.jobs[a.j].digest
    && (t.jobs[a.j].phase.Done? || (step.Go? && t.jobs[a.j].phase == p.(next := Some(step.next), asked := false)))
  }

  lemma UploadedEnds(s: System, a: Action)
    requires s.sender.Valid() && Enabled(s, a) && a.Uploaded?
    ensures UploadedOutcome(s, a, Next(s, a))
  {
    hide UploadStep, Settle;
    var p, id := s.jobs[a.j].phase, s.jobs[a.j].id;
    var step := UploadStep(s.sender.txs[id], id, p.transport, p.next, a.reply);
    if step.Judged? { SettleEnds(s, a.j, step.receipt); }
  }

  lemma UploadedStands(s: System, a: Action, j: nat)
    requires Inv(s) && Enabled(s, a) && a.Uploaded? && j < |Next(s, a).jobs|
    requires Next(s, a).jobs[j].phase.Uploading? || Next(s, a).jobs[j].phase.Committing?
    ensures Stands(s, a, Next(s, a), j)
  {
    UploadedEnds(s, a);
    hide Inv, Next, UploadStep;
  }

  lemma DecidingStands(s: System, a: Action, j: nat)
    requires Inv(s) && Enabled(s, a) && j < |Next(s, a).jobs|
    requires a.Reply? || a.Return? || a.ReturnEarly? || a.Route?
    requires Next(s, a).jobs[j].phase.Uploading? || Next(s, a).jobs[j].phase.Committing?
    ensures Stands(s, a, Next(s, a), j)
  {
    assert s.sender.Valid() && JobOk(s, a.j);
    hide Inv, JobOk, Finish, Settle, AfterConclude;
    match a
    case Reply(i, reply) => if reply.Some? { SettleEnds(s, i, reply.value); }
    case Return(i) => ConcludeEnds(s, i, s.jobs[i].phase.error);
    case ReturnEarly(i) => ConcludeEnds(s, i, Some(Transport));
    case Route(_, _, _) =>
  }

  lemma QuietStands(s: System, a: Action, j: nat)
    requires Inv(s) && Enabled(s, a) && j < |Next(s, a).jobs|
    requires !(a.Uploaded? || a.Reply? || a.Return? || a.ReturnEarly? || a.Route?)
    requires Next(s, a).jobs[j].phase.Uploading? || Next(s, a).jobs[j].phase.Committing?
    ensures Stands(s, a, Next(s, a), j)
  {
    if a.Upload? { assert JobOk(s, a.j) && JobOk(s, j); }
    hide Inv, Reusable, PrepareExplicitPush;
  }

  lemma ChunkFills(d: Device, image: seq<Octet>, n: nat, end: nat)
    requires Filled(d, image, n) && n <= end <= |image|
    ensures |d.buffer| == n && Filled(d.(buffer := d.buffer + image[n..end]), image, end)
  {
    assert d.begun + image[|d.begun|..n] + image[n..end] == d.begun + image[|d.begun|..end];
  }

  /** A frame: a chunk that the device takes fills it up to the chunk's end. */
  lemma {:induction false} UploadFills(w: World, run: Run, s: System, a: Action, d: Device)
    requires Inv(s) && Sized(w, s) && AllFilled(w, s, d) && a.Upload? && Enabled(s, a)
    ensures JobFilled(w, Next(s, a), Delivered(w, run, s, a, d), a.j)
  {
    assert JobOk(s, a.j) && JobFilled(w, s, d, a.j);
    hide Inv, AllFilled;
    var p, image := s.jobs[a.j].phase, w.png(s.jobs[a.j].digest);
    if p.next.Some? {
      ChunkFills(d, image, p.next.value, EndOf(image, p.next.value, p.transport));
      hide Filled;
    }
  }

  lemma FilledLength(d: Device, image: seq<Octet>, end: nat)
    ensures Filled(d, image, end) ==> |d.buffer| == end
  {
  }

  /** An answer: an honest one says how far the device is filled. */
  lemma {:induction false} UploadedFills(w: World, s: System, a: Action, d: Device)
    requires Inv(s) && Sized(w, s) && AllFilled(w, s, d) && a.Uploaded? && Enabled(s, a) && HonestStep(w, s, a, d)
    ensures JobFilled(w, Next(s, a), d, a.j)
  {
    assert JobOk(s, a.j) && JobFilled(w, s, d, a.j);
    UploadedEnds(s, a);
    hide Inv, AllFilled, Next;
    var p, image := s.jobs[a.j].phase, w.png(s.jobs[a.j].digest);
    if p.next.Some? {
      FilledLength(d, image, p.next.value);
      FilledLength(d, image, EndOf(image, p.next.value, p.transport));
    } else {
      BeginFills(d, image);
    }
    hide Filled;
  }

  lemma BeginFills(d: Device, image: seq<Octet>)
    ensures d.buffer == d.begun && |d.begun| <= |image| ==> Filled(d, image, |d.begun|)
  {
    if |d.begun| <= |image| { assert image[|d.begun|..|d.begun|] == []; }
  }

  lemma {:induction false} FilledNext(w: World, run: Run, s: System, a: Action, d: Device)
    requires Inv(s) && Sized(w, s) && AllFilled(w, s, d) && Enabled(s, a)
    requires HonestStep(w, s, a, Delivered(w, run, s, a, d))
    ensures AllFilled(w, Next(s, a), Delivered(w, run, s, a, d))
  {
    var t, after := Next(s, a), Delivered(w, run, s, a, d);
    forall j | 0 <= j < |t.jobs| ensures JobFilled(w, t, after, j) {
      if t.jobs[j].phase.Uploading? || t.jobs[j].phase.Committing? {
        OthersStand(s, a, j);
        assert JobOk(s, j) && JobFilled(w, s, d, j);
        if a.Upload? && a.j == j { UploadFills(w, run, s, a, d); }
        if a.Uploaded? && a.j == j { UploadedFills(w, s, a, d); }
      }
    }
  }

  lemma {:induction false} FilledHolds(w: World, run: Run)
    requires Feasible(run) && Honest(w, run) && Measured(w, run)
    ensures Sized(w, Final(run)) && AllFilled(w, Final(run), DeviceAfter(w, run))
    decreases run
  {
    match run
    case Start =>
    case Then(before, step) =>
      FilledHolds(w, before);
      InvHolds(before);
      SizedNext(w, Final(before), step);
      FilledNext(w, before, Final(before), step, DeviceAfter(w, before));
  }

  /**
    Over every run, on either transport and however often uploads broke, were refused or resumed: when
    a COMMIT may leave, the device's buffer is what a plan's chunks, of any size, make of the bytes it
    reported at BEGIN, and it is the picture if and only if those were the picture's own first bytes.
   */
  lemma {:induction false} CommittedBufferIsThePicture(w: World, run: Run, j: nat, limit: nat)
    requires Feasible(run) && Honest(w, run) && Measured(w, run) && limit > 0
    requires Enabled(Final(run), SendCommit(j, false, true))
    ensures var d, image := DeviceAfter(w, run), w.png(Final(run).jobs[j].digest);
      && |d.begun| <= |image|
      && Upload.ReceiveAll(d.begun, Upload.Plan(image, |d.begun|, limit)) == Some(d.buffer)
      && (d.buffer == image <==> d.begun == image[..|d.begun|])
  {
    FilledHolds(w, run);
    var d, image := DeviceAfter(w, run), w.png(Final(run).jobs[j].digest);
    assert JobFilled(w, Final(run), d, j);
    FilledIsReceived(d, image, limit);
  }

  lemma FilledIsReceived(d: Device, image: seq<Octet>, limit: nat)
    requires Filled(d, image, |image|) && limit > 0
    ensures Upload.ReceiveAll(d.begun, Upload.Plan(image, |d.begun|, limit)) == Some(d.buffer)
    ensures d.buffer == image <==> d.begun == image[..|d.begun|]
  {
    assert image[|d.begun|..|image|] == image[|d.begun|..];
    Upload.ReceivedIsAppended(image, d.begun, |d.begun|, limit);
    Upload.BufferIsImageExactlyWhenPrefixWas(image, d.begun, |d.begun|, limit);
  }
}
