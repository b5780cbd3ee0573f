/**
 Audio playback: PCM bytes are cut into 30 ms frames that a chain of timeouts
 sends one by one. Each delay is computed from the clock rather than fixed, so a
 late timeout shortens the next wait instead of pushing everything back.
 */
module Playback {
  import opened Common

  const FRAME_SIZE := 480
  const FRAME_BYTES := 960
  const FRAME_DURATION_MS := 30

  type byte = b: nat | b < 256

  type Frame = seq<int>

  // ---------------------------------------------------------------------------
  // Cutting the audio into frames
  // ---------------------------------------------------------------------------

  /** A little-endian signed 16-bit sample. */
  function ReadInt16LE(pcm: seq<byte>, offset: nat): int
    requires offset + 1 < |pcm|
  {
    var v := pcm[offset] as int + 256 * pcm[offset + 1] as int;
    if v >= 32768 then v - 65536 else v
  }

  /** Sample `n` of the recording, and silence after its end. An odd last byte is no sample. */
  function SampleAt(pcm: seq<byte>, n: nat): int {
    if 2 * n + 1 < |pcm| then ReadInt16LE(pcm, 2 * n) else 0
  }

  /** Sample `n` is the signed 16-bit number of bytes 2n and 2n+1, low one first; past the end there is silence. */
  lemma SampleMeans(pcm: seq<byte>, n: nat)
    ensures -32768 <= SampleAt(pcm, n) <= 32767
    ensures 2 * n + 1 >= |pcm| ==> SampleAt(pcm, n) == 0
    ensures 2 * n + 1 < |pcm| ==>
              var low, high := pcm[2 * n] as int, pcm[2 * n + 1] as int;
              (SampleAt(pcm, n) - (low + 256 * high)) % 65536 == 0 && (SampleAt(pcm, n) < 0 <==> high >= 128)
  {
    if 2 * n + 1 < |pcm| {
      var low, high := pcm[2 * n] as int, pcm[2 * n + 1] as int;
      assert SampleAt(pcm, n) - (low + 256 * high) == if high >= 128 then -65536 else 0;
    }
  }

  ghost predicate Carries(pcm: seq<byte>, frames: seq<Frame>) {
    forall k :: 0 <= k < |frames| ==> FrameCarries(pcm, frames[k], k)
  }

  ghost predicate FrameCarries(pcm: seq<byte>, frame: Frame, k: nat) {
    && |frame| == FRAME_SIZE
    && forall j :: 0 <= j < FRAME_SIZE ==> frame[j] == SampleAt(pcm, FRAME_SIZE * k + j)
  }

  /** Every sample lands in its place, padded with silence, in the fewest frames that hold the bytes. */
  method PrepareFrames(pcm: seq<byte>) returns (frames: seq<Frame>)
    ensures Carries(pcm, frames)
    ensures |pcm| <= |frames| * FRAME_BYTES < |pcm| + FRAME_BYTES
  {
    frames := [];
    var offset := 0;
    while offset < |pcm|
      invariant offset == |frames| * FRAME_BYTES < |pcm| + FRAME_BYTES
      invariant Carries(pcm, frames)
    {
      var chunkEnd := if offset + FRAME_BYTES < |pcm| then offset + FRAME_BYTES else |pcm|;
      var numSamples := (chunkEnd - offset) / 2;
      var samples := new int[FRAME_SIZE](_ => 0);
      var j := 0;
      while j < numSamples && j < FRAME_SIZE
        invariant 0 <= j <= numSamples <= FRAME_SIZE
        invariant forall i :: 0 <= i < j ==> samples[i] == SampleAt(pcm, FRAME_SIZE * |frames| + i)
        invariant forall i :: j <= i < FRAME_SIZE ==> samples[i] == 0
      {
        samples[j] := ReadInt16LE(pcm, offset + j * 2);
        j := j + 1;
      }
      var frame := samples[..];
      assert FrameCarries(pcm, frame, |frames|);
      frames := frames + [frame];
      offset := offset + FRAME_BYTES;
    }
  }

  // ---------------------------------------------------------------------------
  // Scheduling
  // ---------------------------------------------------------------------------

  /** The wait before frame `k`, computed `elapsed` ms after the start. */
  function NextDelay(k: nat, elapsed: nat): nat {
    var expected := k * FRAME_DURATION_MS;
    var d := FRAME_DURATION_MS - (elapsed - expected + FRAME_DURATION_MS);
    if d < 1 then 1 else d
  }

  /** When frame `k` is sent, in ms after the start, if timeout `i` fires `late[i]` ms late. */
  ghost function SendTime(late: seq<nat>, k: nat): nat
    requires k <= |late|
  {
    if k == 0 then 0
    else
      var t := SendTime(late, k - 1);
      t + NextDelay(k, t) + late[k - 1]
  }

  lemma SendTimeNext(late: seq<nat>, k: nat)
    requires k < |late|
    ensures SendTime(late, k + 1) == SendTime(late, k) + NextDelay(k + 1, SendTime(late, k)) + late[k]
  {
  }

  ghost function Lag(late: seq<nat>, k: nat): int
    requires k <= |late|
  {
    SendTime(late, k) - k * FRAME_DURATION_MS
  }

  ghost predicate AtMostLate(late: seq<nat>, from: nat, d: nat) {
    forall i :: from <= i < |late| ==> late[i] <= d
  }

  lemma LagStep(late: seq<nat>, k: nat)
    requires k < |late|
    ensures Lag(late, k + 1) == (if Lag(late, k) > 29 then Lag(late, k) - 29 else 0) + late[k]
  {
  }

  lemma {:induction false} NeverEarly(late: seq<nat>, k: nat)
    requires k <= |late|
    ensures Lag(late, k) >= 0
  {
    if k > 0 {
      LagStep(late, k - 1);
    }
  }

  /** With timeouts at most 29 ms late, frame `k` goes out within that much of its due time, for every `k`. */
  lemma {:induction false} NoDrift(late: seq<nat>, k: nat, d: nat)
    requires k <= |late| && d <= 29 && AtMostLate(late, 0, d)
    ensures k * FRAME_DURATION_MS <= SendTime(late, k) <= k * FRAME_DURATION_MS + d
  {
    if k > 0 {
      NoDrift(late, k - 1, d);
      LagStep(late, k - 1);
    }
  }

  /** After a stall of any length the lag shrinks by 29-d ms per frame until it is back within d. */
  lemma {:induction false} CatchesUp(late: seq<nat>, k: nat, n: nat, d: nat)
    requires k + n <= |late| && d <= 29 && AtMostLate(late, k, d)
    ensures Lag(late, k + n) <= d || Lag(late, k + n) <= Lag(late, k) - n * (29 - d)
  {
    if n > 0 {
      CatchesUp(late, k, n - 1, d);
      LagStep(late, k + n - 1);
      assert n * (29 - d) == (n - 1) * (29 - d) + (29 - d);
    }
  }

  /** So every stall is over after as many frames as its length in ms, if timeouts are under 29 ms late. */
  lemma StallEnds(late: seq<nat>, k: nat, n: nat, d: nat)
    requires k + n <= |late| && d <= 28 && AtMostLate(late, k, d) && n >= Lag(late, k)
    ensures Lag(late, k + n) <= d
  {
    CatchesUp(late, k, n, d);
    TimesAtLeast(n, 29 - d);
  }

  lemma TimesAtLeast(n: nat, m: nat)
    requires m >= 1
    ensures n * m >= n
  {
  }

  /** 29 is the limit: timeouts that are always 30 ms late fall behind by one more ms every frame. */
  lemma {:induction false} ThirtyDrifts(late: seq<nat>, k: nat)
    requires 1 <= k <= |late| && forall i :: 0 <= i < |late| ==> late[i] == 30
    ensures Lag(late, k) == 29 + k
  {
    LagStep(late, k - 1);
    if k > 1 {
      ThirtyDrifts(late, k - 1);
    }
  }

  /** No matter how long it plays, playback of timeouts at most `d` late stays within a fixed lag. */
  ghost predicate BoundedLag(d: nat, bound: int) {
    forall late: seq<nat>, k: nat :: k <= |late| && AtMostLate(late, 0, d) ==> Lag(late, k) <= bound
  }

  lemma DriftFreeIff(d: nat)
    ensures (exists bound :: BoundedLag(d, bound)) <==> d <= 29
  {
    if d <= 29 {
      forall late: seq<nat>, k: nat | k <= |late| && AtMostLate(late, 0, d)
        ensures Lag(late, k) <= d
      {
        NoDrift(late, k, d);
      }
      assert BoundedLag(d, d);
    } else {
      forall bound
        ensures !BoundedLag(d, bound)
      {
        var n := if bound < 1 then 1 else bound;
        var late: seq<nat> := seq(n, _ => 30);
        ThirtyDrifts(late, n);
        assert AtMostLate(late, 0, d);
      }
    }
  }

  // ---------------------------------------------------------------------------
  // The player
  // ---------------------------------------------------------------------------

  class Player {
    const frames: seq<Frame>
    const startTime: nat
    var frameIndex: nat
    var sent: seq<Frame>
    var sentAt: seq<nat>

    /** What has been sent is the first frames, in order. */
    ghost predicate Valid()
      reads this
    {
      frameIndex <= |frames| && sent == frames[..frameIndex] && |sentAt| == frameIndex
    }

    /** Each frame went out when the timeouts of the frames before it say. */
    ghost predicate OnSchedule(late: seq<nat>)
      requires Valid() && |late| >= |frames|
      reads this
    {
      forall k :: 0 <= k < frameIndex ==> sentAt[k] == SendTime(late, k)
    }

    constructor (frames: seq<Frame>, startTime: nat)
      ensures Valid() && this.frames == frames && this.startTime == startTime && frameIndex == 0
    {
      this.frames, this.startTime := frames, startTime;
      frameIndex, sent, sentAt := 0, [], [];
    }

    /** Sends one frame and returns the delay of the next timeout, if there is to be one. */
    method SendFrame(now: nat, shouldInterrupt: bool) returns (next: Option<nat>)
      requires Valid() && now >= startTime
      modifies this
      ensures Valid()
      ensures shouldInterrupt || old(frameIndex) == |frames| ==> next.None? && unchanged(this)
      ensures !shouldInterrupt && old(frameIndex) < |frames| ==>
                && frameIndex == old(frameIndex) + 1
                && sentAt == old(sentAt) + [now - startTime]
                && next == if frameIndex < |frames| then Some(NextDelay(frameIndex, now - startTime)) else None
    {
      if shouldInterrupt {
        return None;
      }
      if frameIndex >= |frames| {
        return None;
      }
      sent := sent + [frames[frameIndex]];
      sentAt := sentAt + [now - startTime];
      frameIndex := frameIndex + 1;
      if frameIndex < |frames| {
        var expectedTime := frameIndex * FRAME_DURATION_MS;
        var actualTime := now - startTime;
        var nextDelay := FRAME_DURATION_MS - (actualTime - expectedTime + FRAME_DURATION_MS);
        next := Some(if nextDelay < 1 then 1 else nextDelay);
      } else {
        next := None;
      }
    }

    /**
     The chain of timeouts: each fires `late[i]` ms after its delay has passed. A
     barge-in seen before frame `interruptAt` ends the chain there.
     */
    method Play(late: seq<nat>, interruptAt: Option<nat>)
      requires Valid() && frameIndex == 0 && |late| >= |frames|
      modifies this
      ensures Valid()
      ensures frameIndex == if interruptAt.Some? && interruptAt.value < |frames| then interruptAt.value else |frames|
      ensures OnSchedule(late)
    {
      var now := startTime;
      var next := SendFrame(now, interruptAt == Some(0));
      while next.Some?
        invariant Valid() && (next.Some? ==> 0 < frameIndex < |frames|)
        invariant interruptAt.Some? ==> frameIndex <= interruptAt.value
        invariant next.None? ==> frameIndex == |frames| || interruptAt == Some(frameIndex)
        invariant OnSchedule(late)
        invariant next.Some? ==>
                    && now == startTime + SendTime(late, frameIndex - 1)
                    && next.value == NextDelay(frameIndex, now - startTime)
        decreases |frames| - frameIndex, if next.Some? then 1 else 0
      {
        SendTimeNext(late, frameIndex - 1);
        now := now + next.value + late[frameIndex - 1];
        next := SendFrame(now, interruptAt == Some(frameIndex));
      }
    }
  }
}
