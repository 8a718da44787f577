/** The audio ring buffer between the emulator and the sound device. */
module AudioRing {

  type byte = n: int | 0 <= n < 0x100
  type int16 = n: int | -0x8000 <= n < 0x8000
  type int32 = n: int | -0x8000_0000 <= n < 0x8000_0000

  /** Division of the source language: it truncates toward zero. */
  function TruncatedThird(n: int): int {
    if n >= 0 then n / 3 else -((-n) / 3)
  }

  /** Two thirds of the mixed sample, saturated. */
  function Scale(sample: int32): (scaled: int16) {
    if sample > 0xbfff then 0x7fff
    else if sample < -0xc000 then -0x8000
    else TruncatedThird(sample * 2)
  }

  /** Louder in means no quieter out, and inside the range the error stays under one step. */
  lemma ScalePreservesOrder(a: int32, b: int32)
    requires a <= b
    ensures Scale(a) <= Scale(b)
    ensures -0xc000 <= a <= 0xbfff ==> -3 < 3 * Scale(a) - 2 * a < 3
    ensures 0 <= a ==> 0 <= 3 * Scale(a) <= 2 * a
    ensures a <= 0 ==> 2 * a <= 3 * Scale(a) <= 0
  {
  }

  /** The two stored bytes of a signed 16-bit sample, low byte first. */
  function Encode(sample: int16): (bytes: seq<byte>)
    ensures |bytes| == 2
  {
    var u := if sample < 0 then sample + 0x1_0000 else sample;
    [u % 0x100, u / 0x100]
  }

  function Decode(low: byte, high: byte): int16 {
    var u := low + 0x100 * high;
    if u >= 0x8000 then u - 0x1_0000 else u
  }

  /** The low byte comes first, and negative numbers are in two's complement. */
  lemma LittleEndian(sample: int16)
    ensures Encode(sample)[0] == sample % 0x100
    ensures -0x80 * 0x100 <= sample < 0 ==> Encode(sample)[1] >= 0x80
    ensures Encode(0x1234) == [0x34, 0x12] && Encode(-2) == [0xfe, 0xff]
  {
  }

  lemma DecodeInvertsEncode(sample: int16)
    ensures Decode(Encode(sample)[0], Encode(sample)[1]) == sample
  {
  }

  function ScaleAll(samples: seq<int32>): (scaled: seq<int16>)
    ensures |scaled| == |samples|
  {
    seq(|samples|, k requires 0 <= k < |samples| => Scale(samples[k]))
  }

  /** The samples the device reads out of its bytes. */
  function DecodeAll(bytes: seq<byte>): (samples: seq<int16>)
    requires |bytes| % 2 == 0
    ensures 2 * |samples| == |bytes|
  {
    if bytes == [] then [] else [Decode(bytes[0], bytes[1])] + DecodeAll(bytes[2..])
  }

  lemma {:induction false} DecodeAllConcat(a: seq<byte>, b: seq<byte>)
    requires |a| % 2 == 0 && |b| % 2 == 0
    ensures DecodeAll(a + b) == DecodeAll(a) + DecodeAll(b)
    decreases |a|
  {
    if a == [] {
      assert a + b == b;
    } else {
      assert (a + b)[2..] == a[2..] + b;
      DecodeAllConcat(a[2..], b);
    }
  }

  /** The device reads back exactly the scaled samples that were written. */
  lemma {:induction false} DecodeInvertsEncodeAll(samples: seq<int32>)
    ensures DecodeAll(EncodeAll(samples)) == ScaleAll(samples)
    decreases |samples|
  {
    if samples != [] {
      var scaled := Scale(samples[0]);
      DecodeInvertsEncode(scaled);
      DecodeInvertsEncodeAll(samples[1..]);
      assert EncodeAll(samples)[2..] == EncodeAll(samples[1..]);
      assert ScaleAll(samples) == [scaled] + ScaleAll(samples[1..]);
    }
  }

  function EncodeAll(samples: seq<int32>): (bytes: seq<byte>)
    ensures |bytes| == 2 * |samples|
  {
    if samples == [] then [] else Encode(Scale(samples[0])) + EncodeAll(samples[1..])
  }

  lemma {:induction false} EncodeAllConcat(a: seq<int32>, b: seq<int32>)
    ensures EncodeAll(a + b) == EncodeAll(a) + EncodeAll(b)
  {
    if a == [] {
      assert a + b == b;
    } else {
      assert (a + b)[1..] == a[1..] + b;
      EncodeAllConcat(a[1..], b);
    }
  }

  function Silence(count: nat): seq<byte> {
    seq(count, i => 0)
  }

  function Min(a: int, b: int): int {
    if a < b then a else b
  }

  /** Half the ring, rounded up to a whole stereo frame. */
  function HalfFull(size: nat): nat {
    (size / 2 + 3) / 4 * 4
  }

  /** How full the ring is, with 0x100 for full; a full ring reports 0xff. */
  function FillPercent(count: nat, size: nat): nat
    requires size > 0
  {
    var percent := count * 0x100 / size;
    if percent >= 0x100 then 0xff else percent
  }

  /** Half full is the first whole number of stereo frames that is at least half the ring. */
  lemma HalfFullIsHalf(size: nat)
    requires size % 4 == 0
    ensures HalfFull(size) % 4 == 0 && size <= 2 * HalfFull(size) < size + 8 && HalfFull(size) <= size
  {
  }

  /** The report is the largest count of 256ths that are filled, but never more than 255. */
  lemma FillPercentExact(count: nat, size: nat)
    requires 0 < size && count <= size
    ensures var percent := FillPercent(count, size);
      && percent <= 0xff && percent * size <= count * 0x100
      && (count < size ==> count * 0x100 < (percent + 1) * size)
      && (percent == 0xff <==> 0xff * size <= count * 0x100)
  {
    var percent := count * 0x100 / size;
    DivisionBounds(count * 0x100, size);
    if count == size {
      FullIs256(size);
    } else {
      BelowFull(count, size, percent);
    }
    if 0xff * size <= count * 0x100 && percent < 0xff {
      TooFew(count, size, percent);
    }
  }

  lemma DivisionBounds(n: nat, size: nat)
    requires size > 0
    ensures (n / size) * size <= n < (n / size + 1) * size
  {
  }

  lemma FullIs256(size: nat)
    requires size > 0
    ensures size * 0x100 / size == 0x100
  {
    DivisionBounds(size * 0x100, size);
    var q := size * 0x100 / size;
    if q < 0x100 {
      TooSmall(q + 1, 0x100, size);
    } else if q > 0x100 {
      TooSmall(0x101, q, size);
    }
  }

  lemma TooSmall(a: nat, b: nat, size: nat)
    requires a <= b
    ensures a * size <= b * size
  {
  }

  lemma BelowFull(count: nat, size: nat, percent: nat)
    requires count < size && percent * size <= count * 0x100
    ensures percent < 0x100
  {
    if percent >= 0x100 { TooSmall(0x100, percent, size); }
  }

  lemma TooFew(count: nat, size: nat, percent: nat)
    requires percent < 0xff && count * 0x100 < (percent + 1) * size
    ensures count * 0x100 < 0xff * size
  {
    TooSmall(percent + 1, 0xff, size);
  }

  lemma Aligned(a: int, b: int)
    requires a % 4 == 0 && b % 4 == 0
    ensures (a + b) % 4 == 0 && (a - b) % 4 == 0
  {
  }

  lemma AlignedHalves(a: nat, b: nat)
    requires a % 4 == 0 && b % 4 == 0
    ensures (a + b) / 2 == a / 2 + b / 2
  {
  }

  // ---- what the ring promises: a queue of bytes ----

  /** The bytes a write adds: as many of its oldest samples as there is room for. */
  function Accepted(size: nat, queued: nat, stream: seq<int32>, frames: nat): seq<byte>
    requires queued <= size && 2 * frames <= |stream|
  {
    EncodeAll(stream[..Min(4 * frames, size - queued) / 2])
  }

  /** What the device hears: the oldest bytes, or silence when there are too few. */
  function Played(queue: seq<byte>, request: nat): (bytes: seq<byte>)
    ensures |bytes| == request
  {
    if request <= |queue| then queue[..request] else Silence(request)
  }

  /** What stays queued: after an underrun the ring restarts half full of silence. */
  function LeftAfter(size: nat, queue: seq<byte>, request: nat): seq<byte> {
    if request <= |queue| then queue[request..]
    else Silence(HalfFull(size) - Min(request, HalfFull(size)))
  }

  /** A write takes the oldest samples offered, and as many of them as there is room for. */
  lemma AcceptedExactly(size: nat, queued: nat, stream: seq<int32>, frames: nat)
    requires queued <= size && 2 * frames <= |stream| && size % 4 == 0 && queued % 4 == 0
    ensures var offered, accepted := EncodeAll(stream[..2 * frames]), Accepted(size, queued, stream, frames);
      && accepted <= offered
      && |accepted| == Min(4 * frames, size - queued)
  {
    var n := Min(4 * frames, size - queued) / 2;
    WholeFrames(size, queued, frames);
    assert stream[..2 * frames] == stream[..n] + stream[n..2 * frames];
    EncodeAllConcat(stream[..n], stream[n..2 * frames]);
  }

  lemma WholeFrames(size: nat, queued: nat, frames: nat)
    requires queued <= size && size % 4 == 0 && queued % 4 == 0
    ensures Min(4 * frames, size - queued) % 4 == 0
  {
    Aligned(size, queued);
  }

  /** After an underrun the ring holds what a half-full ring of silence has left, and the device heard silence. */
  lemma UnderrunRestarts(size: nat, queue: seq<byte>, request: nat)
    requires |queue| < request
    ensures var left := LeftAfter(size, queue, request);
      && (forall k :: 0 <= k < |left| ==> left[k] == 0) && (forall k :: 0 <= k < request ==> Played(queue, request)[k] == 0)
      && (if request <= HalfFull(size) then |left| + request == HalfFull(size) else left == [])
  {
  }

  datatype RingCall = Fill(samples: seq<int32>, frames: nat) | Play(request: nat)

  datatype RingRun = RingRun(queue: seq<byte>, accepted: seq<byte>, played: seq<byte>, underrun: bool, dropped: bool)

  /** One call on the queue, with everything accepted and played so far kept in order. */
  function RingStep(size: nat, run: RingRun, call: RingCall): (after: RingRun)
    requires size > 0 && size % 4 == 0 && |run.queue| <= size
    requires call.Fill? ==> 2 * call.frames <= |call.samples|
    ensures |after.queue| <= size
  {
    match call
    case Fill(samples, frames) =>
      var bytes := Accepted(size, |run.queue|, samples, frames);
      run.(queue := run.queue + bytes, accepted := run.accepted + bytes,
           dropped := run.dropped || 4 * frames > size - |run.queue|)
    case Play(request) =>
      run.(queue := LeftAfter(size, run.queue, request), played := run.played + Played(run.queue, request),
           underrun := run.underrun || request > |run.queue|)
  }

  predicate CallsFit(calls: seq<RingCall>) {
    forall k :: 0 <= k < |calls| && calls[k].Fill? ==> 2 * calls[k].frames <= |calls[k].samples|
  }

  function RingRunOf(size: nat, calls: seq<RingCall>, run: RingRun): RingRun
    requires size > 0 && size % 4 == 0 && |run.queue| <= size && CallsFit(calls)
  {
    if calls == [] then run else RingRunOf(size, calls[1..], RingStep(size, run, calls[0]))
  }

  /** Every byte offered by the fills of a run, in order. */
  function Offered(calls: seq<RingCall>): seq<byte>
    requires CallsFit(calls)
  {
    if calls == [] then []
    else (if calls[0].Fill? then EncodeAll(calls[0].samples[..2 * calls[0].frames]) else []) + Offered(calls[1..])
  }

  /**
   * Over any run without an underrun, what was played followed by what is still queued is what was
   * queued at first followed by what was accepted: nothing is lost, repeated or reordered.
   */
  lemma {:induction false} RunKeepsOrder(size: nat, calls: seq<RingCall>, run: RingRun, prefix: seq<byte>)
    requires size > 0 && size % 4 == 0 && |run.queue| <= size && CallsFit(calls)
    requires run.played + run.queue == prefix + run.accepted
    ensures var end := RingRunOf(size, calls, run);
      && (run.underrun ==> end.underrun)
      && (!end.underrun ==> end.played + end.queue == prefix + end.accepted)
    decreases |calls|
  {
    if calls != [] {
      var next := RingStep(size, run, calls[0]);
      if next.underrun {
        UnderrunStays(size, calls[1..], next);
      } else {
        StepKeepsOrder(size, run, calls[0], prefix);
        RunKeepsOrder(size, calls[1..], next, prefix);
      }
    }
  }

  lemma {:induction false} UnderrunStays(size: nat, calls: seq<RingCall>, run: RingRun)
    requires size > 0 && size % 4 == 0 && |run.queue| <= size && CallsFit(calls)
    ensures run.underrun ==> RingRunOf(size, calls, run).underrun
    ensures run.dropped ==> RingRunOf(size, calls, run).dropped
    decreases |calls|
  {
    if calls != [] {
      UnderrunStays(size, calls[1..], RingStep(size, run, calls[0]));
    }
  }

  /** Over any run in which no fill found the ring too full, everything offered was accepted. */
  lemma {:induction false} RunAcceptsAll(size: nat, calls: seq<RingCall>, run: RingRun)
    requires size > 0 && size % 4 == 0 && |run.queue| <= size && CallsFit(calls)
    requires !RingRunOf(size, calls, run).dropped
    ensures RingRunOf(size, calls, run).accepted == run.accepted + Offered(calls)
    decreases |calls|
  {
    hide EncodeAll, Accepted, LeftAfter, Played;
    if calls != [] {
      var call := calls[0];
      var next := RingStep(size, run, call);
      RunAcceptsAll(size, calls[1..], next);
      match call
      case Fill(samples, frames) =>
        UnderrunStays(size, calls[1..], next);
        WholeFill(size, |run.queue|, samples, frames);
        var bytes := EncodeAll(samples[..2 * frames]);
        assert (run.accepted + bytes) + Offered(calls[1..]) == run.accepted + (bytes + Offered(calls[1..]));
      case Play(_) =>
        assert [] + Offered(calls[1..]) == Offered(calls[1..]);
    }
  }

  // ---- the same on samples ----

  /** Every sample offered by the fills of a run, in order. */
  function OfferedSamples(calls: seq<RingCall>): seq<int32>
    requires CallsFit(calls)
  {
    if calls == [] then []
    else (if calls[0].Fill? then calls[0].samples[..2 * calls[0].frames] else []) + OfferedSamples(calls[1..])
  }

  lemma {:induction false} OfferedAreEncoded(calls: seq<RingCall>)
    requires CallsFit(calls)
    ensures Offered(calls) == EncodeAll(OfferedSamples(calls))
    decreases |calls|
  {
    if calls != [] {
      var first := if calls[0].Fill? then calls[0].samples[..2 * calls[0].frames] else [];
      OfferedAreEncoded(calls[1..]);
      EncodeAllConcat(first, OfferedSamples(calls[1..]));
    }
  }

  /** The device asks for whole frames. */
  predicate PlaysWhole(calls: seq<RingCall>) {
    forall k :: 0 <= k < |calls| && calls[k].Play? ==> calls[k].request % 4 == 0
  }

  lemma {:induction false} WholePlayed(size: nat, calls: seq<RingCall>, run: RingRun)
    requires size > 0 && size % 4 == 0 && |run.queue| <= size && CallsFit(calls) && PlaysWhole(calls)
    requires |run.played| % 2 == 0
    ensures |RingRunOf(size, calls, run).played| % 2 == 0
    decreases |calls|
  {
    hide EncodeAll, Accepted, LeftAfter;
    if calls != [] {
      WholePlayed(size, calls[1..], RingStep(size, run, calls[0]));
    }
  }

  const EMPTY_RUN := RingRun([], [], [], false, false)

  /**
   * Over any run from an empty ring without underrun or overflow, the samples the device has played followed
   * by those still queued are the scaled samples offered, in order: none is lost, repeated, reordered or split.
   */
  lemma PlaysWhatWasOffered(size: nat, calls: seq<RingCall>)
    requires size > 0 && size % 4 == 0 && CallsFit(calls) && PlaysWhole(calls)
    ensures var end := RingRunOf(size, calls, EMPTY_RUN);
      !end.underrun && !end.dropped ==>
        && |end.played| % 2 == 0 && |end.queue| % 2 == 0
        && DecodeAll(end.played) + DecodeAll(end.queue) == ScaleAll(OfferedSamples(calls))
  {
    hide EncodeAll, DecodeAll, RingRunOf, Offered, OfferedSamples, ScaleAll;
    var end := RingRunOf(size, calls, EMPTY_RUN);
    if !end.underrun && !end.dropped {
      RunKeepsOrder(size, calls, EMPTY_RUN, []);
      RunAcceptsAll(size, calls, EMPTY_RUN);
      WholePlayed(size, calls, EMPTY_RUN);
      OfferedAreEncoded(calls);
      assert end.played + end.queue == EncodeAll(OfferedSamples(calls));
      DecodeAllConcat(end.played, end.queue);
      DecodeInvertsEncodeAll(OfferedSamples(calls));
    }
  }

  lemma WholeFill(size: nat, queued: nat, samples: seq<int32>, frames: nat)
    requires queued <= size && 2 * frames <= |samples| && 4 * frames <= size - queued
    ensures Accepted(size, queued, samples, frames) == EncodeAll(samples[..2 * frames])
  {
    assert Min(4 * frames, size - queued) / 2 == 2 * frames;
  }

  lemma StepKeepsOrder(size: nat, run: RingRun, call: RingCall, prefix: seq<byte>)
    requires size > 0 && size % 4 == 0 && |run.queue| <= size
    requires call.Fill? ==> 2 * call.frames <= |call.samples|
    requires run.played + run.queue == prefix + run.accepted
    requires !RingStep(size, run, call).underrun
    ensures var next := RingStep(size, run, call); next.played + next.queue == prefix + next.accepted
  {
    hide EncodeAll;
    match call
    case Fill(samples, frames) =>
      var bytes := Accepted(size, |run.queue|, samples, frames);
      assert run.played + (run.queue + bytes) == (run.played + run.queue) + bytes;
      assert prefix + (run.accepted + bytes) == (prefix + run.accepted) + bytes;
    case Play(request) =>
      assert run.queue == run.queue[..request] + run.queue[request..];
      assert (run.played + run.queue[..request]) + run.queue[request..] == run.played + run.queue;
  }

  // ---- the ring buffer ----

  function Wrap(index: nat, size: nat): nat {
    if index < size then index else index - size
  }

  /** The queued bytes, oldest first. A read position equal to the size stands for zero. */
  function Window(buffer: seq<byte>, read: nat, count: nat): (queue: seq<byte>)
    requires read <= |buffer| && count <= |buffer|
    ensures |queue| == count
  {
    seq(count, k requires 0 <= k < count => buffer[Wrap(read + k, |buffer|)])
  }

  ghost predicate Positions(size: nat, read: nat, write: nat, count: nat) {
    && size > 0 && size % 4 == 0 && read % 4 == 0 && write % 4 == 0 && count % 4 == 0
    && read <= size && write <= size && count <= size
    && (write == read + count || write == read + count - size)
  }

  lemma PositionsGrow(size: nat, read: nat, write: nat, at: nat, count: nat, bytes: nat)
    requires Positions(size, read, write, count) && (at == write || (at == 0 && write == size))
    requires 0 < bytes && bytes % 4 == 0 && count + bytes <= size && at + bytes <= size
    ensures Positions(size, read, at, count) && Positions(size, read, at + bytes, count + bytes)
    ensures read <= size && count <= size
  {
    Aligned(at, bytes);
    Aligned(count, bytes);
    StartsAgain(size, read, write, at, count);
  }

  /** At the end of the buffer the write position may as well be its start. */
  lemma StartsAgain(size: nat, read: nat, write: nat, at: nat, count: nat)
    requires read <= size && count < size && (write == read + count || write == read + count - size)
    requires at == write || (at == 0 && write == size)
    ensures at == read + count || at == read + count - size
  {
  }

  lemma WholeHalves(bytes: nat)
    requires bytes % 4 == 0
    ensures 2 * (bytes / 2) == bytes
  {
    var frames := bytes / 4;
    assert bytes == 2 * (2 * frames);
    Halved(bytes, 2 * frames);
  }

  lemma Halved(bytes: nat, half: nat)
    requires bytes == 2 * half
    ensures bytes / 2 == half
  {
  }

  function Patch(buffer: seq<byte>, at: nat, data: seq<byte>): (patched: seq<byte>)
    requires at + |data| <= |buffer|
    ensures |patched| == |buffer|
  {
    buffer[..at] + data + buffer[at + |data|..]
  }

  /** A straight copy behind the queue appends to it, also when the write position equals the size. */
  lemma PatchAppends(buffer: seq<byte>, read: nat, write: nat, count: nat, data: seq<byte>)
    requires Positions(|buffer|, read, write, count)
    requires count + |data| <= |buffer| && write + |data| <= |buffer|
    ensures Window(Patch(buffer, write, data), read, count + |data|) == Window(buffer, read, count) + data
  {
    var patched := Patch(buffer, write, data);
    forall k | 0 <= k < count + |data|
      ensures Window(patched, read, count + |data|)[k] == (Window(buffer, read, count) + data)[k]
    {
      var at := Wrap(read + k, |buffer|);
      if k < count {
        assert patched[at] == buffer[at];
      } else {
        assert at == write + (k - count);
      }
    }
  }

  /** A straight copy from the front of the queue takes its oldest bytes and leaves the rest. */
  lemma WindowSplits(buffer: seq<byte>, read: nat, first: nat, count: nat)
    requires read + first <= |buffer| && first <= count <= |buffer|
    ensures Window(buffer, read, count)[..first] == buffer[read..read + first]
    ensures Window(buffer, read, count)[first..] == Window(buffer, read + first, count - first)
  {
    var queue := Window(buffer, read, count);
    forall k | 0 <= k < first
      ensures queue[..first][k] == buffer[read..read + first][k]
    {
      assert queue[k] == buffer[Wrap(read + k, |buffer|)];
    }
    forall k | 0 <= k < count - first
      ensures queue[first..][k] == Window(buffer, read + first, count - first)[k]
    {
      assert queue[first..][k] == queue[first + k];
    }
  }

  lemma WindowFromEnd(buffer: seq<byte>, count: nat)
    requires count <= |buffer|
    ensures Window(buffer, |buffer|, count) == Window(buffer, 0, count)
  {
    forall k | 0 <= k < count
      ensures Window(buffer, |buffer|, count)[k] == Window(buffer, 0, count)[k]
    {
      assert Window(buffer, |buffer|, count)[k] == buffer[Wrap(|buffer| + k, |buffer|)];
      assert Window(buffer, 0, count)[k] == buffer[Wrap(0 + k, |buffer|)];
    }
  }

  lemma WindowOfSilence(buffer: seq<byte>, read: nat, count: nat)
    requires read <= |buffer| && count <= |buffer|
    requires forall k :: 0 <= k < |buffer| ==> buffer[k] == 0
    ensures Window(buffer, read, count) == Silence(count)
  {
    forall k | 0 <= k < count
      ensures Window(buffer, read, count)[k] == Silence(count)[k]
    {
      assert Window(buffer, read, count)[k] == buffer[Wrap(read + k, |buffer|)];
    }
  }

  class Audio {
    var buffer: array?<byte>
    var num: nat
    var read: nat
    var write: nat

    ghost predicate Valid()
      reads this
    {
      buffer != null ==> Positions(buffer.Length, read, write, num)
    }

    ghost function Contents(): (queue: seq<byte>)
      reads this, buffer
      requires Valid() && buffer != null
    {
      Window(buffer[..], read, num)
    }

    /** Open: the buffer length comes from the device, in whole stereo frames. */
    constructor (size: nat)
      requires size > 0 && size % 4 == 0
      ensures Valid() && buffer != null && fresh(buffer) && buffer.Length == size && Contents() == []
    {
      buffer := new byte[size];
      num, read, write := 0, 0, 0;
      new;
      assert |Contents()| == 0;
    }

    method Close()
      modifies this
      ensures Valid() && buffer == null
    {
      buffer := null;
    }

    method Reset()
      requires Valid()
      modifies this, buffer
      ensures Valid() && buffer == old(buffer)
      ensures buffer != null ==> Contents() == Silence(HalfFull(buffer.Length))
      ensures buffer == null ==> unchanged(this)
    {
      if buffer != null {
        for index := 0 to buffer.Length
          invariant buffer == old(buffer) && unchanged(this)
          invariant forall k :: 0 <= k < index ==> buffer[k] == 0
        {
          buffer[index] := 0;
        }
        num := HalfFull(buffer.Length);
        read := 0;
        write := num;
        WindowOfSilence(buffer[..], read, num);
      }
    }

    /** Frames that can be written without loss; 0xffff when no device is open. */
    method GetFreeSamples() returns (samples: nat)
      requires Valid()
      ensures buffer == null ==> samples == 0xffff
      ensures buffer != null ==> 4 * samples + |Contents()| == buffer.Length
    {
      if buffer == null {
        samples := 0xffff;
      } else {
        samples := (buffer.Length - num) / 4;
      }
    }

    /** One of the two copy loops of Write. */
    method CopyScaled(stream: seq<int32>, from: nat, at: nat, count: nat)
      requires buffer != null && from + count <= |stream| && at + 2 * count <= buffer.Length
      modifies buffer
      ensures buffer[..] == Patch(old(buffer[..]), at, EncodeAll(stream[from..from + count]))
    {
      hide EncodeAll, Encode, Scale, Patch;
      ghost var before := buffer[..];
      NothingPatched(before, at);
      for loop := 0 to count
        invariant buffer[..] == Patch(before, at, EncodeAll(stream[from..from + loop]))
      {
        ghost var done := EncodeAll(stream[from..from + loop]);
        ghost var was := buffer[..];
        var sample := stream[from + loop];
        var pair := Encode(Scale(sample));
        buffer[at + 2 * loop] := pair[0];
        buffer[at + 2 * loop + 1] := pair[1];
        assert buffer[..] == was[at + 2 * loop := pair[0]][at + 2 * loop + 1 := pair[1]];
        assert stream[from..from + loop + 1] == stream[from..from + loop] + [sample];
        EncodeAllConcat(stream[from..from + loop], [sample]);
        EncodeOne(sample);
        PatchGrows(before, at, done, pair);
      }
    }

    /** What fits of the newest samples is appended; the rest of them is dropped. */
    method Write(stream: seq<int32>, frames: nat) returns (percent: nat)
      requires Valid() && |stream| >= 2 * frames
      modifies this, buffer
      ensures Valid() && buffer == old(buffer)
      ensures buffer == null ==> percent == 0x80 && unchanged(this)
      ensures buffer != null ==>
        && percent == FillPercent(old(|Contents()|), buffer.Length)
        && Contents() == old(Contents()) + Accepted(buffer.Length, old(|Contents()|), stream, frames)
    {
      hide EncodeAll, Window, FillPercent;
      if buffer == null {
        return 0x80;
      }
      var len := frames * 4;
      percent := FillPercent(num, buffer.Length);
      if num + len >= buffer.Length {
        len := buffer.Length - num;
        Aligned(buffer.Length, num);
      }
      WriteAccepted(stream, len);
    }

    /** The part of Write behind the overflow check. */
    method WriteAccepted(stream: seq<int32>, len: nat)
      requires Valid() && buffer != null
      requires len % 4 == 0 && num + len <= buffer.Length && len / 2 <= |stream|
      modifies this`num, this`write, buffer
      ensures Valid() && Contents() == old(Contents()) + EncodeAll(stream[..len / 2])
    {
      hide EncodeAll, Window;
      var size2 := write + len - buffer.Length;
      Aligned(write, len);
      Aligned(write + len, buffer.Length);
      Aligned(len, size2);
      var size1 := if size2 > 0 then len - size2 else len;
      AlignedHalves(size1, len - size1);
      assert stream[..len / 2] == stream[..size1 / 2] + stream[size1 / 2..len / 2];
      EncodeAllConcat(stream[..size1 / 2], stream[size1 / 2..len / 2]);
      if size1 > 0 {
        WritePart(stream, 0, write, size1);
      }
      if size2 > 0 {
        WritePart(stream, size1 / 2, 0, size2);
      }
    }

    /** One of the two halves of Write: at is the write position, or zero when that equals the size. */
    method WritePart(stream: seq<int32>, from: nat, at: nat, bytes: nat)
      requires Valid() && buffer != null
      requires at == write || (at == 0 && write == buffer.Length)
      requires bytes > 0 && bytes % 4 == 0 && num + bytes <= buffer.Length && at + bytes <= buffer.Length
      requires from + bytes / 2 <= |stream|
      modifies this`num, this`write, buffer
      ensures Valid() && write == at + bytes && num == old(num) + bytes
      ensures Contents() == old(Contents()) + EncodeAll(stream[from..from + bytes / 2])
    {
      hide EncodeAll, Patch, Window, Positions;
      ghost var before := buffer[..];
      PositionsGrow(buffer.Length, read, write, at, num, bytes);
      WholeHalves(bytes);
      CopyScaled(stream, from, at, bytes / 2);
      PatchAppends(before, read, at, num, EncodeAll(stream[from..from + bytes / 2]));
      write := at + bytes;
      num := num + bytes;
    }

    /** Fills the device's stream; asking for more than is queued restarts from half a ring of silence. */
    method Callback(stream: array<byte>, request: nat)
      requires Valid() && buffer != null && stream != buffer
      requires request <= stream.Length && request % 4 == 0
      modifies this, buffer, stream
      ensures Valid() && buffer == old(buffer)
      ensures stream[request..] == old(stream[request..])
      ensures stream[..request] == Played(old(Contents()), request)
      ensures Contents() == LeftAfter(buffer.Length, old(Contents()), request)
    {
      hide Window;
      var len := request;
      if len > num {
        Reset();
        if len > num {
          FillSilence(stream, request);
          len := num;
        }
      }
      ghost var queue, start := Contents(), stream[..];
      Drain(stream, len);
      ghost var after := stream[..];
      assert after[len..] == start[len..];
      Underrun(start, after, queue, old(Contents()), len, request);
    }

    /** The memset for a request that even the reset ring cannot meet. */
    method FillSilence(stream: array<byte>, request: nat)
      requires request <= stream.Length
      modifies stream
      ensures stream[..request] == Silence(request) && stream[request..] == old(stream[request..])
    {
      for index := 0 to request
        invariant forall k :: 0 <= k < index ==> stream[k] == 0
        invariant stream[request..] == old(stream[request..])
      {
        stream[index] := 0;
      }
    }

    /** The two copies out of the ring. */
    method Drain(stream: array<byte>, len: nat)
      requires Valid() && buffer != null && stream != buffer
      requires len <= num && len <= stream.Length && len % 4 == 0
      modifies this`num, this`read, stream
      ensures Valid()
      ensures stream[..len] == old(Contents())[..len] && Contents() == old(Contents())[len..]
      ensures stream[len..] == old(stream[len..])
    {
      hide Window;
      var size2 := read + len - buffer.Length;
      Aligned(read, len);
      Aligned(read + len, buffer.Length);
      Aligned(len, size2);
      var size1 := if size2 > 0 then len - size2 else len;
      ghost var queue, start := Contents(), stream[..];
      if size1 > 0 {
        DrainPart(stream, 0, read, size1);
      }
      assert stream[..size1] == queue[..size1] && Contents() == queue[size1..];
      ghost var middle := stream[..];
      assert middle[size1..] == start[size1..];
      if size2 > 0 {
        DrainPart(stream, size1, 0, size2);
        TwoParts(start, middle, stream[..], queue, size1, size2);
      }
    }

    /** One of the two copies: at is the read position, or zero when that equals the size. */
    method DrainPart(stream: array<byte>, to: nat, at: nat, bytes: nat)
      requires Valid() && buffer != null && stream != buffer
      requires at == read || (at == 0 && read == buffer.Length)
      requires bytes > 0 && bytes % 4 == 0 && bytes <= num && at + bytes <= buffer.Length && to + bytes <= stream.Length
      modifies this`num, this`read, stream
      ensures Valid() && read == at + bytes && num == old(num) - bytes
      ensures stream[..to] == old(stream[..to])
      ensures stream[to..to + bytes] == old(Contents())[..bytes] && Contents() == old(Contents())[bytes..]
      ensures stream[to + bytes..] == old(stream[to + bytes..])
    {
      hide Window, Patch;
      WindowFromEnd(buffer[..], num);
      WindowSplits(buffer[..], at, bytes, num);
      ghost var was := stream[..];
      CopyOut(stream, to, at, bytes);
      PatchParts(was, to, buffer[at..at + bytes]);
      assert stream[..to] == was[..to] && stream[to + bytes..] == was[to + bytes..];
      read := at + bytes;
      num := num - bytes;
    }

    method CopyOut(stream: array<byte>, to: nat, from: nat, count: nat)
      requires buffer != null && stream != buffer
      requires to + count <= stream.Length && from + count <= buffer.Length
      modifies stream
      ensures stream[..] == Patch(old(stream[..]), to, buffer[from..from + count])
    {
      hide Patch;
      ghost var before, source := stream[..], buffer[from..from + count];
      NothingPatched(before, to);
      for index := 0 to count
        invariant buffer[from..from + count] == source
        invariant stream[..] == Patch(before, to, source[..index])
      {
        ghost var was := stream[..];
        stream[to + index] := buffer[from + index];
        assert buffer[from + index] == source[index];
        assert stream[..] == was[to + index := source[index]];
        PatchGrowsByOne(before, to, source[..index], source[index]);
        assert source[..index + 1] == source[..index] + [source[index]];
      }
      assert source[..count] == source;
    }
  }

  /** What the device hears, put together from the silence filled in first and what was drained over it. */
  lemma Underrun(start: seq<byte>, after: seq<byte>, queue: seq<byte>, before: seq<byte>, len: nat, request: nat)
    requires |start| == |after| && len <= request <= |start| && len <= |queue|
    requires after[..len] == queue[..len] && after[len..] == start[len..]
    requires if request <= |before| then queue == before && len == request
      else queue == Silence(|queue|) && (len == request || (len == |queue| && start[..request] == Silence(request)))
    ensures after[..request] == Played(before, request) && after[request..] == start[request..]
  {
    assert after[request..] == after[len..][request - len..] && start[request..] == start[len..][request - len..];
    forall k | 0 <= k < request
      ensures after[k] == Played(before, request)[k]
    {
      if k < len {
        assert after[k] == after[..len][k] == queue[..len][k];
      } else {
        assert after[k] == after[len..][k - len] == start[len..][k - len] == start[..request][k];
      }
    }
  }

  /** The two copies one after the other: both are in place, and what comes after them is untouched. */
  lemma TwoParts(start: seq<byte>, middle: seq<byte>, after: seq<byte>, queue: seq<byte>, first: nat, second: nat)
    requires |start| == |middle| == |after| && first + second <= |start| && first + second <= |queue|
    requires middle[..first] == queue[..first] && middle[first..] == start[first..]
    requires after[..first] == middle[..first] && after[first..first + second] == queue[first..][..second]
    requires after[first + second..] == middle[first + second..]
    ensures after[..first + second] == queue[..first + second] && after[first + second..] == start[first + second..]
    ensures queue[first..][second..] == queue[first + second..]
  {
    assert after[..first + second] == after[..first] + after[first..first + second];
    assert queue[..first + second] == queue[..first] + queue[first..][..second];
    assert middle[first + second..] == middle[first..][second..];
    assert start[first + second..] == start[first..][second..];
  }

  lemma PatchParts(buffer: seq<byte>, at: nat, data: seq<byte>)
    requires at + |data| <= |buffer|
    ensures var after := Patch(buffer, at, data);
      && |after| == |buffer| && after[..at] == buffer[..at]
      && after[at..at + |data|] == data && after[at + |data|..] == buffer[at + |data|..]
  {
  }

  lemma PatchGrowsByOne(buffer: seq<byte>, at: nat, done: seq<byte>, b: byte)
    requires at + |done| < |buffer|
    ensures Patch(buffer, at, done + [b]) == Patch(buffer, at, done)[at + |done| := b]
  {
  }

  lemma NothingPatched(buffer: seq<byte>, at: nat)
    requires at <= |buffer|
    ensures EncodeAll([]) == [] && Patch(buffer, at, []) == buffer
  {
  }

  lemma EncodeOne(sample: int32)
    ensures EncodeAll([sample]) == Encode(Scale(sample))
  {
    assert [sample][1..] == [];
  }

  lemma PatchGrows(buffer: seq<byte>, at: nat, done: seq<byte>, pair: seq<byte>)
    requires |pair| == 2 && at + |done| + 2 <= |buffer|
    ensures Patch(buffer, at, done + pair)
      == Patch(buffer, at, done)[at + |done| := pair[0]][at + |done| + 1 := pair[1]]
  {
  }
}
