/**
 Voice activity buffering for one audio track. Frames are classified by loudness
 (taken here as an input) and collected until half a second of silence or six
 seconds of audio ends the utterance. A short pre-buffer keeps what was heard just
 before the voice was recognised.
 */
module VoiceActivity {
  import opened Common

  const PRE_BUFFER_FRAMES := 15
  const SILENCE_THRESHOLD := 50
  const MIN_AUDIO_LENGTH := 16000
  const MAX_AUDIO_LENGTH := 192000

  /** `Skipped` frames are the ones dropped before buffering: calibration, and the bot's own speech. */
  datatype Loudness = Voice(strong: bool) | Weak | Silence | Skipped

  datatype Heard = Heard(loudness: Loudness, bytes: nat)

  /** A frame, named by its position in the track. */
  datatype Frame = Frame(position: nat, bytes: nat)

  datatype Vad = Vad(
    audioBuffer: seq<Frame>, preBuffer: seq<Frame>, silenceCount: nat, voiceCount: nat, isRecording: bool,
    heard: nat, utterances: seq<seq<Frame>>)

  const QUIET := Vad([], [], 0, 0, false, 0, [])

  function Bytes(frames: seq<Frame>): nat {
    if frames == [] then 0 else Bytes(Init(frames)) + Last(frames).bytes
  }

  // ---------------------------------------------------------------------------
  // One frame
  // ---------------------------------------------------------------------------

  function PrePush(pre: seq<Frame>, f: Frame): seq<Frame> {
    var grown := pre + [f];
    if |grown| > PRE_BUFFER_FRAMES then grown[1..] else grown
  }

  function Buffered(v: Vad, f: Frame, loudness: Loudness): Vad {
    match loudness
    case Voice(strong) =>
      var count := v.voiceCount + 1;
      var starts := !v.isRecording && count >= 2;
      v.(voiceCount := count,
         silenceCount := if strong then 0 else v.silenceCount,
         isRecording := v.isRecording || starts,
         audioBuffer := v.audioBuffer + (if starts then v.preBuffer else []) + [f],
         preBuffer := if starts then [] else v.preBuffer)
    case Weak =>
      v.(silenceCount := v.silenceCount + 1,
         audioBuffer := if v.isRecording then v.audioBuffer + [f] else v.audioBuffer,
         preBuffer := if v.isRecording then v.preBuffer else PrePush(v.preBuffer, f))
    case Silence =>
      v.(silenceCount := v.silenceCount + 1,
         voiceCount := 0,
         preBuffer := if v.isRecording then v.preBuffer else PrePush(v.preBuffer, f))
    case Skipped => v
  }

  predicate Complete(v: Vad) {
    var total := Bytes(v.audioBuffer);
    (v.silenceCount > SILENCE_THRESHOLD && total > MIN_AUDIO_LENGTH) || total > MAX_AUDIO_LENGTH
  }

  function Extracted(v: Vad): Vad {
    if Complete(v)
    then Vad([], [], 0, 0, false, v.heard, v.utterances + [v.audioBuffer])
    else v
  }

  function Step(v: Vad, h: Heard): Vad {
    var w := if h.loudness.Skipped? then v else Extracted(Buffered(v, Frame(v.heard, h.bytes), h.loudness));
    w.(heard := v.heard + 1)
  }

  ghost function Run(track: seq<Heard>): Vad {
    if track == [] then QUIET else Step(Run(Init(track)), Last(track))
  }

  // ---------------------------------------------------------------------------
  // Sizes
  // ---------------------------------------------------------------------------

  ghost predicate SmallFrames(frames: seq<Frame>, largest: nat) {
    forall i :: 0 <= i < |frames| ==> frames[i].bytes <= largest
  }

  ghost predicate Sized(u: seq<Frame>, largest: nat) {
    MIN_AUDIO_LENGTH < Bytes(u) <= MAX_AUDIO_LENGTH + (PRE_BUFFER_FRAMES + 1) * largest
  }

  ghost predicate SizesOk(v: Vad, largest: nat) {
    && |v.preBuffer| <= PRE_BUFFER_FRAMES
    && Bytes(v.audioBuffer) <= MAX_AUDIO_LENGTH
    && SmallFrames(v.preBuffer, largest)
    && forall i :: 0 <= i < |v.utterances| ==> Sized(v.utterances[i], largest)
  }

  lemma {:induction false} BytesConcat(a: seq<Frame>, b: seq<Frame>)
    ensures Bytes(a + b) == Bytes(a) + Bytes(b)
  {
    if b == [] {
      assert a + b == a;
    } else {
      assert Init(a + b) == a + Init(b) && Last(a + b) == Last(b);
      BytesConcat(a, Init(b));
    }
  }

  lemma {:induction false} BytesBound(frames: seq<Frame>, largest: nat)
    requires SmallFrames(frames, largest)
    ensures Bytes(frames) <= |frames| * largest
  {
    if frames != [] {
      BytesBound(Init(frames), largest);
      assert |frames| * largest == |Init(frames)| * largest + largest;
    }
  }

  lemma PreBufferBound(pre: seq<Frame>, largest: nat)
    requires |pre| <= PRE_BUFFER_FRAMES && SmallFrames(pre, largest)
    ensures Bytes(pre) <= PRE_BUFFER_FRAMES * largest
  {
    BytesBound(pre, largest);
    TimesMonotone(|pre|, PRE_BUFFER_FRAMES, largest);
  }

  lemma BytesSnoc(frames: seq<Frame>, f: Frame)
    ensures Bytes(frames + [f]) == Bytes(frames) + f.bytes
  {
    assert Init(frames + [f]) == frames;
  }

  /** One frame brings at most the pre-buffer and itself. */
  lemma GrowthBound(v: Vad, f: Frame, loudness: Loudness)
    ensures Bytes(Buffered(v, f, loudness).audioBuffer) <= Bytes(v.audioBuffer) + Bytes(v.preBuffer) + f.bytes
  {
    if loudness.Voice? || loudness.Weak? {
      BytesConcat(v.audioBuffer, v.preBuffer);
      BytesSnoc(v.audioBuffer + v.preBuffer, f);
      BytesSnoc(v.audioBuffer, f);
      assert v.audioBuffer + [] == v.audioBuffer;
    }
  }

  lemma PrePushBound(pre: seq<Frame>, f: Frame, largest: nat)
    requires |pre| <= PRE_BUFFER_FRAMES && SmallFrames(pre, largest) && f.bytes <= largest
    ensures |PrePush(pre, f)| <= PRE_BUFFER_FRAMES && SmallFrames(PrePush(pre, f), largest)
  {
  }

  lemma ExtractedSizes(v: Vad, largest: nat)
    requires |v.preBuffer| <= PRE_BUFFER_FRAMES && SmallFrames(v.preBuffer, largest)
    requires Bytes(v.audioBuffer) <= MAX_AUDIO_LENGTH + (PRE_BUFFER_FRAMES + 1) * largest
    requires forall i :: 0 <= i < |v.utterances| ==> Sized(v.utterances[i], largest)
    ensures SizesOk(Extracted(v), largest)
  {
  }

  lemma StepSizes(v: Vad, h: Heard, largest: nat)
    requires SizesOk(v, largest) && h.bytes <= largest
    ensures SizesOk(Step(v, h), largest)
  {
    if !h.loudness.Skipped? {
      var f := Frame(v.heard, h.bytes);
      GrowthBound(v, f, h.loudness);
      PreBufferBound(v.preBuffer, largest);
      PrePushBound(v.preBuffer, f, largest);
      ExtractedSizes(Buffered(v, f, h.loudness), largest);
    }
  }

  /** Buffers stay bounded, and utterances are neither too short nor too long. */
  lemma {:induction false} RunSizes(track: seq<Heard>, largest: nat)
    requires forall i :: 0 <= i < |track| ==> track[i].bytes <= largest
    ensures SizesOk(Run(track), largest)
  {
    if track != [] {
      RunSizes(Init(track), largest);
      StepSizes(Run(Init(track)), Last(track), largest);
    }
  }

  // ---------------------------------------------------------------------------
  // Where frames are
  // ---------------------------------------------------------------------------

  ghost function Delivered(utterances: seq<seq<Frame>>): multiset<Frame> {
    if utterances == [] then multiset{} else Delivered(Init(utterances)) + multiset(Last(utterances))
  }

  /** Frames that are delivered or on their way to be. */
  ghost function Kept(v: Vad): multiset<Frame> {
    Delivered(v.utterances) + multiset(v.audioBuffer)
  }

  ghost function Present(v: Vad): multiset<Frame> {
    Kept(v) + multiset(v.preBuffer)
  }

  ghost predicate NoRepeats(m: multiset<Frame>, heard: nat) {
    && (forall f :: f in m ==> m[f] == 1 && f.position < heard)
    && (forall f, g :: f in m && g in m && f.position == g.position ==> f == g)
  }

  lemma DeliveredGrows(utterances: seq<seq<Frame>>, u: seq<Frame>)
    ensures Delivered(utterances + [u]) == Delivered(utterances) + multiset(u)
  {
    assert Init(utterances + [u]) == utterances;
  }

  lemma PrePushPresent(pre: seq<Frame>, f: Frame)
    ensures multiset(PrePush(pre, f)) <= multiset(pre) + multiset{f}
  {
    var grown := pre + [f];
    assert grown == [grown[0]] + grown[1..];
    assert multiset(grown) == multiset{grown[0]} + multiset(grown[1..]);
  }

  lemma BufferedPresent(v: Vad, f: Frame, loudness: Loudness)
    ensures Present(Buffered(v, f, loudness)) <= Present(v) + multiset{f}
    ensures Kept(v) <= Kept(Buffered(v, f, loudness))
    ensures loudness.Voice? ==> f in Kept(Buffered(v, f, loudness))
  {
    PrePushPresent(v.preBuffer, f);
    var w := Buffered(v, f, loudness);
    if loudness.Voice? {
      assert multiset(v.audioBuffer + v.preBuffer + [f]) ==
             multiset(v.audioBuffer) + multiset(v.preBuffer) + multiset{f};
      assert multiset(v.audioBuffer + [] + [f]) == multiset(v.audioBuffer) + multiset{f};
      assert f in w.audioBuffer by { assert w.audioBuffer[|w.audioBuffer| - 1] == f; }
    }
  }

  lemma ExtractedPresent(v: Vad)
    ensures Present(Extracted(v)) <= Present(v) && Kept(Extracted(v)) == Kept(v)
  {
    if Complete(v) {
      DeliveredGrows(v.utterances, v.audioBuffer);
    }
  }

  lemma NoRepeatsGrows(m: multiset<Frame>, m': multiset<Frame>, f: Frame)
    requires NoRepeats(m, f.position) && m' <= m + multiset{f}
    ensures NoRepeats(m', f.position + 1)
  {
    forall g | g in m'
      ensures m'[g] == 1 && g.position < f.position + 1
      ensures g == f || g in m
    {
      assert m'[g] <= (m + multiset{f})[g];
      if g != f {
        assert g in m;
      } else {
        assert f !in m;
      }
    }
  }

  lemma SubTransitive(a: multiset<Frame>, b: multiset<Frame>, c: multiset<Frame>)
    requires a <= b && b <= c
    ensures a <= c
  {
  }

  lemma BufferStepPresent(v: Vad, f: Frame, loudness: Loudness)
    ensures Present(Extracted(Buffered(v, f, loudness))) <= Present(v) + multiset{f}
    ensures Kept(v) <= Kept(Extracted(Buffered(v, f, loudness)))
    ensures loudness.Voice? ==> f in Kept(Extracted(Buffered(v, f, loudness)))
  {
    var b := Buffered(v, f, loudness);
    BufferedPresent(v, f, loudness);
    ExtractedPresent(b);
    SubTransitive(Present(Extracted(b)), Present(b), Present(v) + multiset{f});
  }

  lemma CountDoesNotMatter(v: Vad, n: nat)
    ensures Present(v.(heard := n)) == Present(v) && Kept(v.(heard := n)) == Kept(v)
  {
  }

  lemma StepPresent(v: Vad, h: Heard)
    ensures Present(Step(v, h)) <= Present(v) + multiset{Frame(v.heard, h.bytes)}
    ensures Kept(v) <= Kept(Step(v, h))
    ensures h.loudness.Voice? ==> Frame(v.heard, h.bytes) in Kept(Step(v, h))
  {
    var f := Frame(v.heard, h.bytes);
    if h.loudness.Skipped? {
      CountDoesNotMatter(v, v.heard + 1);
    } else {
      BufferStepPresent(v, f, h.loudness);
      CountDoesNotMatter(Extracted(Buffered(v, f, h.loudness)), v.heard + 1);
    }
  }

  ghost predicate VoiceKept(track: seq<Heard>, m: multiset<Frame>) {
    forall i :: 0 <= i < |track| && track[i].loudness.Voice? ==> Frame(i, track[i].bytes) in m
  }

  lemma VoiceKeptGrows(track: seq<Heard>, h: Heard, m: multiset<Frame>, m': multiset<Frame>)
    requires VoiceKept(track, m) && m <= m'
    requires h.loudness.Voice? ==> Frame(|track|, h.bytes) in m'
    ensures VoiceKept(track + [h], m')
  {
    var grown := track + [h];
    forall i | 0 <= i < |grown| && grown[i].loudness.Voice?
      ensures Frame(i, grown[i].bytes) in m'
    {
      if i < |track| {
        assert Frame(i, track[i].bytes) in m;
      }
    }
  }

  lemma {:induction false} RunPresent(track: seq<Heard>)
    ensures Run(track).heard == |track|
    ensures NoRepeats(Present(Run(track)), |track|)
    ensures VoiceKept(track, Kept(Run(track)))
  {
    if track != [] {
      var v, h := Run(Init(track)), Last(track);
      RunPresent(Init(track));
      StepPresent(v, h);
      NoRepeatsGrows(Present(v), Present(Step(v, h)), Frame(v.heard, h.bytes));
      InitLast(track);
      VoiceKeptGrows(Init(track), h, Kept(v), Kept(Step(v, h)));
    }
  }

  lemma {:induction false} TwiceCounted(u: seq<Frame>, p: nat, q: nat)
    requires p < q < |u| && u[p] == u[q]
    ensures multiset(u)[u[p]] >= 2
  {
    assert u == u[..q] + [u[q]] + u[q + 1..];
    assert multiset(u) == multiset(u[..q]) + multiset{u[q]} + multiset(u[q + 1..]);
    assert u[..q][p] == u[p] && u[p] in multiset(u[..q]);
  }

  lemma {:induction false} DeliveredHas(utterances: seq<seq<Frame>>, i: nat)
    requires i < |utterances|
    ensures multiset(utterances[i]) <= Delivered(utterances)
  {
    if i < |utterances| - 1 {
      DeliveredHas(Init(utterances), i);
    }
  }

  lemma {:induction false} DeliveredHasBoth(utterances: seq<seq<Frame>>, i: nat, j: nat)
    requires i < j < |utterances|
    ensures multiset(utterances[i]) + multiset(utterances[j]) <= Delivered(utterances)
  {
    if j < |utterances| - 1 {
      DeliveredHasBoth(Init(utterances), i, j);
    } else {
      DeliveredHas(Init(utterances), i);
    }
  }

  ghost predicate At(u: seq<seq<Frame>>, i: nat, p: nat, position: nat) {
    i < |u| && p < |u[i]| && u[i][p].position == position
  }

  /** No frame of the track is delivered twice, within one utterance or across two. */
  lemma DeliveredOnce(track: seq<Heard>, position: nat, i: nat, p: nat, j: nat, q: nat)
    requires At(Run(track).utterances, i, p, position) && At(Run(track).utterances, j, q, position)
    ensures i == j && p == q
  {
    RunPresent(track);
    var u, m := Run(track).utterances, Present(Run(track));
    DeliveredHas(u, i);
    DeliveredHas(u, j);
    var f := u[i][p];
    assert f in multiset(u[i]) && u[j][q] in multiset(u[j]);
    assert f in m && u[j][q] in m && u[j][q] == f;
    if i < j {
      DeliveredHasBoth(u, i, j);
    } else if j < i {
      DeliveredHasBoth(u, j, i);
    } else if p < q {
      TwiceCounted(u[i], p, q);
    } else if q < p {
      TwiceCounted(u[i], q, p);
    }
  }

  /** No voiced frame is lost: each is in an utterance or still buffered for one. */
  lemma VoiceNotLost(track: seq<Heard>, i: nat)
    requires i < |track| && track[i].loudness.Voice?
    ensures Frame(i, track[i].bytes) in Delivered(Run(track).utterances) + multiset(Run(track).audioBuffer)
  {
    RunPresent(track);
  }

  // ---------------------------------------------------------------------------
  // The track handler
  // ---------------------------------------------------------------------------

  class TrackHandler {
    var audioBuffer: seq<Frame>
    var preBuffer: seq<Frame>
    var silenceCount: nat
    var voiceCount: nat
    var isRecording: bool
    ghost var heard: nat
    ghost var utterances: seq<seq<Frame>>

    ghost function View(): Vad
      reads this
    {
      Vad(audioBuffer, preBuffer, silenceCount, voiceCount, isRecording, heard, utterances)
    }

    constructor ()
      ensures View() == QUIET
    {
      audioBuffer, preBuffer, silenceCount, voiceCount, isRecording := [], [], 0, 0, false;
      heard, utterances := 0, [];
    }

    method TotalLength() returns (total: nat)
      ensures total == Bytes(audioBuffer)
    {
      total := 0;
      for i := 0 to |audioBuffer|
        invariant total == Bytes(audioBuffer[..i])
      {
        assert Init(audioBuffer[..i + 1]) == audioBuffer[..i];
        total := total + audioBuffer[i].bytes;
      }
      assert audioBuffer[..|audioBuffer|] == audioBuffer;
    }

    method Remember(f: Frame)
      modifies this`preBuffer
      ensures preBuffer == PrePush(old(preBuffer), f)
    {
      preBuffer := preBuffer + [f];
      if |preBuffer| > PRE_BUFFER_FRAMES {
        preBuffer := preBuffer[1..];
      }
    }

    method Buffer(f: Frame, loudness: Loudness)
      requires !loudness.Skipped?
      modifies this`audioBuffer, this`preBuffer, this`silenceCount, this`voiceCount, this`isRecording
      ensures View() == Buffered(old(View()), f, loudness)
    {
      match loudness {
        case Voice(strong) =>
          voiceCount := voiceCount + 1;
          if strong {
            silenceCount := 0;
          }
          if !isRecording && voiceCount >= 2 {
            isRecording := true;
            audioBuffer := audioBuffer + preBuffer;
            preBuffer := [];
          } else {
            assert audioBuffer + [] + [f] == audioBuffer + [f];
          }
          audioBuffer := audioBuffer + [f];
        case Weak =>
          if isRecording {
            audioBuffer := audioBuffer + [f];
          } else {
            Remember(f);
          }
          silenceCount := silenceCount + 1;
        case Silence =>
          if !isRecording {
            Remember(f);
          }
          silenceCount := silenceCount + 1;
          voiceCount := 0;
      }
    }

    /** The end-of-utterance check after each frame. */
    method Extract() returns (utterance: Option<seq<Frame>>)
      modifies this`audioBuffer, this`preBuffer, this`silenceCount, this`voiceCount, this`isRecording, this`utterances
      ensures View() == Extracted(old(View()))
      ensures utterance == if Complete(old(View())) then Some(old(audioBuffer)) else None
    {
      var totalLength := TotalLength();
      var triggeredBySilence := silenceCount > SILENCE_THRESHOLD && totalLength > MIN_AUDIO_LENGTH;
      var triggeredByMaxLength := totalLength > MAX_AUDIO_LENGTH;
      var shouldProcess := triggeredBySilence || triggeredByMaxLength;
      utterance := None;
      if shouldProcess && totalLength > MIN_AUDIO_LENGTH {
        utterance := Some(audioBuffer);
        utterances := utterances + [audioBuffer];
        audioBuffer := [];
        silenceCount := 0;
        voiceCount := 0;
        isRecording := false;
        preBuffer := [];
      }
    }

    /** Returns the utterance that this frame completes, if it completes one. */
    method HandleFrame(h: Heard, position: nat) returns (utterance: Option<seq<Frame>>)
      requires position == heard
      modifies this
      ensures View() == Step(old(View()), h)
      ensures utterances == old(utterances) + if utterance.Some? then [utterance.value] else []
    {
      utterance := None;
      if !h.loudness.Skipped? {
        Buffer(Frame(position, h.bytes), h.loudness);
        utterance := Extract();
      }
      heard := heard + 1;
    }
  }
}
