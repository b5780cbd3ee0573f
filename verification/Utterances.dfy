/**
 What the voice activity buffering delivers, and when, told from the frames alone.
 The frames since the last delivery decide everything. Recording starts at the first
 voiced frame that has another one before it with no silence between them. Then an
 utterance is made of all voiced frames, the weak ones after the start, and the last
 fifteen unvoiced ones before it. It is delivered as soon as it has more than six
 seconds, or more than half a second and more than fifty frames without strong voice.
 */
module Utterances {
  import opened Common
  import opened VoiceActivity

  /** A frame that was not skipped, with what it sounded like. */
  datatype Noise = Noise(frame: Frame, loudness: Loudness)

  // ---------------------------------------------------------------------------
  // The reference
  // ---------------------------------------------------------------------------

  ghost predicate Voiced(l: seq<Noise>, j: nat) {
    j < |l| && l[j].loudness.Voice?
  }

  ghost predicate NoSilence(l: seq<Noise>, a: nat, b: nat) {
    forall m :: a < m < b && m < |l| ==> !l[m].loudness.Silence?
  }

  /** A voiced frame with another one before it and no silence between them. */
  ghost predicate PairAt(l: seq<Noise>, p: nat, q: nat) {
    p < q && Voiced(l, p) && Voiced(l, q) && NoSilence(l, p, q)
  }

  ghost predicate Begins(l: seq<Noise>, q: nat) {
    exists p: nat :: PairAt(l, p, q)
  }

  ghost predicate StartsAt(l: seq<Noise>, q: nat) {
    Begins(l, q) && forall r: nat :: r < q ==> !Begins(l, r)
  }

  ghost function UnvoicedBetween(l: seq<Noise>, a: nat, b: nat): set<nat> {
    set m: nat | a < m < b && m < |l| && !l[m].loudness.Voice?
  }

  /** Frame `j` belongs to the utterance. */
  ghost predicate Included(l: seq<Noise>, j: nat) {
    j < |l| &&
    (Voiced(l, j) ||
     exists q: nat :: StartsAt(l, q) &&
                      ((q < j && l[j].loudness.Weak?) || (j < q && |UnvoicedBetween(l, j, q)| < 15)))
  }

  /** The buffer holds exactly the frames that belong to the utterance. */
  ghost predicate Contains(l: seq<Noise>, buffer: seq<Frame>) {
    && (forall j: nat :: j < |l| ==> (l[j].frame in buffer <==> Included(l, j)))
    && (forall f :: f in buffer ==> exists j: nat :: j < |l| && l[j].frame == f)
  }

  /** The last frame of the track completes an utterance. */
  ghost predicate DeliversAt(track: seq<Heard>) {
    track != [] && |Run(track).utterances| > |Run(Init(track)).utterances|
  }

  ghost function NoiseOf(track: seq<Heard>): Noise
    requires track != []
  {
    Noise(Frame(|track| - 1, Last(track).bytes), Last(track).loudness)
  }

  /** The frames since the last delivery, up to but without what the last frame may deliver. */
  ghost function SinceDelivery(track: seq<Heard>): seq<Noise> {
    if track == [] || DeliversAt(track) then [] else Gathering(track)
  }

  /** The frames since the last delivery before this frame, with this frame. */
  ghost function Gathering(track: seq<Heard>): seq<Noise>
    requires track != []
    decreases track, 0
  {
    SinceDelivery(Init(track)) + if Last(track).loudness.Skipped? then [] else [NoiseOf(track)]
  }

  /** Weak and silent frames since the last strong voice or delivery. */
  ghost function QuietSince(track: seq<Heard>): nat {
    if track == [] || DeliversAt(track) then 0 else QuietWith(track)
  }

  ghost function QuietWith(track: seq<Heard>): nat
    requires track != []
    decreases track, 0
  {
    match Last(track).loudness
    case Voice(strong) => if strong then 0 else QuietSince(Init(track))
    case Weak => QuietSince(Init(track)) + 1
    case Silence => QuietSince(Init(track)) + 1
    case Skipped => QuietSince(Init(track))
  }

  /** What has been gathered with the last frame: delivered with it or still in the buffer. */
  ghost function Gathered(track: seq<Heard>): seq<Frame> {
    if DeliversAt(track) then Last(Run(track).utterances) else Run(track).audioBuffer
  }

  // ---------------------------------------------------------------------------
  // One more frame, in the reference
  // ---------------------------------------------------------------------------

  /** The noises are in the order of the track. */
  ghost predicate InOrder(l: seq<Noise>, heard: nat) {
    && (forall i, j :: 0 <= i < j < |l| ==> l[i].frame.position < l[j].frame.position)
    && (forall i :: 0 <= i < |l| ==> l[i].frame.position < heard)
  }

  /** A voiced frame with no silence since. */
  ghost predicate OpenVoice(l: seq<Noise>) {
    exists p: nat :: Voiced(l, p) && NoSilence(l, p, |l|)
  }

  lemma {:induction false} PairBefore(l: seq<Noise>, x: Noise, p: nat, q: nat)
    requires q < |l|
    ensures PairAt(l + [x], p, q) <==> PairAt(l, p, q)
  {
    var grown := l + [x];
    assert forall m :: 0 <= m < |l| ==> grown[m] == l[m];
  }

  lemma {:induction false} BeginsBefore(l: seq<Noise>, x: Noise, q: nat)
    requires q < |l|
    ensures Begins(l + [x], q) <==> Begins(l, q)
  {
    forall p: nat
      ensures PairAt(l + [x], p, q) <==> PairAt(l, p, q)
    {
      PairBefore(l, x, p, q);
    }
  }

  lemma {:induction false} BeginsLast(l: seq<Noise>, x: Noise)
    ensures Begins(l + [x], |l|) <==> x.loudness.Voice? && OpenVoice(l)
  {
    var grown := l + [x];
    assert forall m :: 0 <= m < |l| ==> grown[m] == l[m];
    if x.loudness.Voice? && OpenVoice(l) {
      var p: nat :| Voiced(l, p) && NoSilence(l, p, |l|);
      assert PairAt(grown, p, |l|);
    }
    if Begins(grown, |l|) {
      var p: nat :| PairAt(grown, p, |l|);
      assert Voiced(l, p) && NoSilence(l, p, |l|);
    }
  }

  lemma {:induction false} OpenVoiceGrows(l: seq<Noise>, x: Noise)
    ensures OpenVoice(l + [x]) <==> x.loudness.Voice? || (OpenVoice(l) && !x.loudness.Silence?)
  {
    var grown := l + [x];
    assert forall m :: 0 <= m < |l| ==> grown[m] == l[m];
    assert grown[|l|] == x;
    if x.loudness.Voice? {
      assert Voiced(grown, |l|) && NoSilence(grown, |l|, |grown|);
    } else {
      if OpenVoice(l) && !x.loudness.Silence? {
        var p: nat :| Voiced(l, p) && NoSilence(l, p, |l|);
        assert Voiced(grown, p) && NoSilence(grown, p, |grown|);
      }
      if OpenVoice(grown) {
        var p: nat :| Voiced(grown, p) && NoSilence(grown, p, |grown|);
        assert Voiced(l, p) && NoSilence(l, p, |l|);
      }
    }
  }

  ghost predicate Recording(l: seq<Noise>) {
    exists q: nat :: StartsAt(l, q)
  }

  lemma {:induction false} StartsBefore(l: seq<Noise>, x: Noise, q: nat)
    requires q < |l|
    ensures StartsAt(l + [x], q) <==> StartsAt(l, q)
  {
    forall r: nat | r <= q
      ensures Begins(l + [x], r) <==> Begins(l, r)
    {
      BeginsBefore(l, x, r);
    }
  }

  lemma {:induction false} StartInside(l: seq<Noise>, q: nat)
    requires StartsAt(l, q)
    ensures q < |l|
  {
    var p: nat :| PairAt(l, p, q);
  }

  lemma {:induction false} StartUnique(l: seq<Noise>, q: nat, r: nat)
    requires StartsAt(l, q) && StartsAt(l, r)
    ensures q == r
  {
  }

  /** If anything begins, there is a first beginning. */
  lemma {:induction false} FirstBegins(l: seq<Noise>, q: nat) returns (r: nat)
    requires Begins(l, q)
    ensures StartsAt(l, r) && r <= q
    decreases q
  {
    if forall m: nat :: m < q ==> !Begins(l, m) {
      r := q;
    } else {
      var m: nat :| m < q && Begins(l, m);
      r := FirstBegins(l, m);
    }
  }

  lemma {:induction false} StartsLast(l: seq<Noise>, x: Noise)
    ensures StartsAt(l + [x], |l|) <==> x.loudness.Voice? && OpenVoice(l) && !Recording(l)
  {
    BeginsLast(l, x);
    forall r: nat | r < |l|
      ensures Begins(l + [x], r) <==> Begins(l, r)
    {
      BeginsBefore(l, x, r);
    }
    if Recording(l) {
      var q: nat :| StartsAt(l, q);
      StartInside(l, q);
    } else if r: nat :| r < |l| && Begins(l, r) {
      var q := FirstBegins(l, r);
    }
  }

  lemma {:induction false} RecordingGrows(l: seq<Noise>, x: Noise)
    ensures Recording(l + [x]) <==> Recording(l) || (x.loudness.Voice? && OpenVoice(l))
  {
    StartsLast(l, x);
    if Recording(l) {
      var q: nat :| StartsAt(l, q);
      StartInside(l, q);
      StartsBefore(l, x, q);
    }
    if Recording(l + [x]) {
      var q: nat :| StartsAt(l + [x], q);
      StartInside(l + [x], q);
      if q < |l| {
        StartsBefore(l, x, q);
      }
    }
  }

  // ---------------------------------------------------------------------------
  // The last fifteen unvoiced frames
  // ---------------------------------------------------------------------------

  ghost function LastFifteen(s: seq<Frame>): seq<Frame> {
    if |s| <= PRE_BUFFER_FRAMES then s else s[|s| - PRE_BUFFER_FRAMES..]
  }

  ghost function Unvoiced(l: seq<Noise>): seq<Frame> {
    if l == [] then []
    else Unvoiced(Init(l)) + if Last(l).loudness.Voice? then [] else [Last(l).frame]
  }

  lemma {:induction false} UnvoicedGrows(l: seq<Noise>, x: Noise)
    ensures Unvoiced(l + [x]) == Unvoiced(l) + if x.loudness.Voice? then [] else [x.frame]
  {
    assert Init(l + [x]) == l;
  }

  lemma {:induction false} PushKeepsFifteen(s: seq<Frame>, f: Frame)
    ensures PrePush(LastFifteen(s), f) == LastFifteen(s + [f])
  {
  }

  /** Where frame `j` stands among the unvoiced ones: as far from the end as there are unvoiced ones after it. */
  ghost predicate StandsAt(l: seq<Noise>, j: nat, i: nat) {
    && j < |l| && i < |Unvoiced(l)| && Unvoiced(l)[i] == l[j].frame
    && |UnvoicedBetween(l, j, |l|)| == |Unvoiced(l)| - 1 - i
  }

  lemma {:induction false} BetweenGrows(l: seq<Noise>, x: Noise, j: nat)
    requires j < |l|
    ensures
      |UnvoicedBetween(l + [x], j, |l| + 1)| == |UnvoicedBetween(l, j, |l|)| + if x.loudness.Voice? then 0 else 1
    ensures UnvoicedBetween(l + [x], j, |l|) == UnvoicedBetween(l, j, |l|)
  {
    var grown := l + [x];
    assert forall m :: 0 <= m < |l| ==> grown[m] == l[m];
    assert UnvoicedBetween(grown, j, |l|) == UnvoicedBetween(l, j, |l|);
    if x.loudness.Voice? {
      assert UnvoicedBetween(grown, j, |l| + 1) == UnvoicedBetween(l, j, |l|);
    } else {
      assert UnvoicedBetween(grown, j, |l| + 1) == UnvoicedBetween(l, j, |l|) + {|l|};
    }
  }

  lemma {:induction false} Stands(l: seq<Noise>, j: nat) returns (i: nat)
    requires j < |l| && !l[j].loudness.Voice?
    ensures StandsAt(l, j, i)
  {
    var before, x := Init(l), Last(l);
    InitLast(l);
    UnvoicedGrows(before, x);
    if j == |l| - 1 {
      i := |Unvoiced(l)| - 1;
      assert UnvoicedBetween(l, j, |l|) == {};
    } else {
      i := Stands(before, j);
      BetweenGrows(before, x, j);
    }
  }

  lemma {:induction false} UnvoicedAre(l: seq<Noise>, i: nat) returns (j: nat)
    requires i < |Unvoiced(l)|
    ensures j < |l| && l[j].frame == Unvoiced(l)[i] && !l[j].loudness.Voice?
  {
    if i < |Unvoiced(Init(l))| {
      j := UnvoicedAre(Init(l), i);
    } else {
      j := |l| - 1;
    }
  }

  lemma {:induction false} UnvoicedOnce(l: seq<Noise>, heard: nat, i: nat, k: nat)
    requires InOrder(l, heard) && i < k < |Unvoiced(l)|
    ensures Unvoiced(l)[i].position < Unvoiced(l)[k].position
  {
    if k < |Unvoiced(Init(l))| {
      UnvoicedOnce(Init(l), heard, i, k);
    } else {
      var j := UnvoicedAre(Init(l), i);
      assert l[j].frame.position < l[|l| - 1].frame.position;
    }
  }

  lemma {:induction false} LateOnes(s: seq<Frame>, i: nat)
    requires i < |s| && i >= |s| - PRE_BUFFER_FRAMES
    ensures s[i] in LastFifteen(s)
  {
    var late := LastFifteen(s);
    assert late[i - (|s| - |late|)] == s[i];
  }

  lemma {:induction false} EarlyOnes(l: seq<Noise>, heard: nat, i: nat)
    requires InOrder(l, heard) && i < |Unvoiced(l)| - PRE_BUFFER_FRAMES
    ensures Unvoiced(l)[i] !in LastFifteen(Unvoiced(l))
  {
    var s := Unvoiced(l);
    forall k | |s| - PRE_BUFFER_FRAMES <= k < |s|
      ensures s[k] != s[i]
    {
      UnvoicedOnce(l, heard, i, k);
    }
  }

  lemma {:induction false} VoicedOnes(l: seq<Noise>, heard: nat, j: nat)
    requires InOrder(l, heard) && Voiced(l, j)
    ensures l[j].frame !in Unvoiced(l)
  {
    forall k | 0 <= k < |Unvoiced(l)|
      ensures Unvoiced(l)[k] != l[j].frame
    {
      var m := UnvoicedAre(l, k);
    }
  }

  /** A frame is among the last fifteen exactly if it is unvoiced and fewer than fifteen come after it. */
  lemma {:induction false} FifteenMeans(l: seq<Noise>, heard: nat, j: nat)
    requires InOrder(l, heard) && j < |l|
    ensures l[j].frame in LastFifteen(Unvoiced(l)) <==>
              !l[j].loudness.Voice? && |UnvoicedBetween(l, j, |l|)| < 15
  {
    if l[j].loudness.Voice? {
      VoicedOnes(l, heard, j);
    } else {
      var i := Stands(l, j);
      if i >= |Unvoiced(l)| - PRE_BUFFER_FRAMES {
        LateOnes(Unvoiced(l), i);
      } else {
        EarlyOnes(l, heard, i);
      }
    }
  }

  // ---------------------------------------------------------------------------
  // The handler keeps to the reference
  // ---------------------------------------------------------------------------

  /** What the handler's variables say about the frames since the last delivery. */
  ghost predicate Tells(l: seq<Noise>, v: Vad) {
    && (v.isRecording <==> Recording(l))
    && (v.voiceCount > 0 <==> OpenVoice(l))
    && Contains(l, v.audioBuffer)
    && (!v.isRecording ==> v.preBuffer == LastFifteen(Unvoiced(l)))
  }

  /** While nothing has started, exactly the voiced frames belong. */
  lemma {:induction false} NotStarted(l: seq<Noise>, j: nat)
    requires !Recording(l)
    ensures Included(l, j) <==> Voiced(l, j)
  {
  }

  lemma {:induction false} IncludedFrom(l: seq<Noise>, q: nat, j: nat)
    requires StartsAt(l, q)
    ensures Included(l, j) <==>
              j < |l| && (Voiced(l, j) || (q < j && l[j].loudness.Weak?) || (j < q && |UnvoicedBetween(l, j, q)| < 15))
  {
    forall r: nat | StartsAt(l, r)
      ensures r == q
    {
      StartUnique(l, q, r);
    }
  }

  lemma {:induction false} BetweenBefore(l: seq<Noise>, x: Noise, j: nat, q: nat)
    requires q <= |l|
    ensures UnvoicedBetween(l + [x], j, q) == UnvoicedBetween(l, j, q)
  {
    assert forall m :: 0 <= m < |l| ==> (l + [x])[m] == l[m];
  }

  /** After the start, a frame changes nothing for the ones before it, and is in if voiced or weak. */
  lemma {:induction false} IncludedLater(l: seq<Noise>, x: Noise, j: nat)
    requires Recording(l)
    ensures j < |l| ==> (Included(l + [x], j) <==> Included(l, j))
    ensures Included(l + [x], |l|) <==> !x.loudness.Silence? && !x.loudness.Skipped?
  {
    var q: nat :| StartsAt(l, q);
    StartInside(l, q);
    StartsBefore(l, x, q);
    IncludedFrom(l + [x], q, |l|);
    if j < |l| {
      IncludedFrom(l, q, j);
      IncludedFrom(l + [x], q, j);
      BetweenBefore(l, x, j, q);
      assert (l + [x])[j] == l[j];
    }
  }

  /** At the start, the frames kept just before come in. */
  lemma {:induction false} IncludedAtStart(l: seq<Noise>, x: Noise, heard: nat, j: nat)
    requires InOrder(l, heard) && StartsAt(l + [x], |l|) && x.loudness.Voice?
    ensures j < |l| ==> (Included(l + [x], j) <==> Voiced(l, j) || l[j].frame in LastFifteen(Unvoiced(l)))
    ensures Included(l + [x], |l|)
  {
    IncludedFrom(l + [x], |l|, |l|);
    if j < |l| {
      IncludedFrom(l + [x], |l|, j);
      BetweenBefore(l, x, j, |l|);
      FifteenMeans(l, heard, j);
      assert (l + [x])[j] == l[j];
    }
  }

  lemma {:induction false} IncludedIdle(l: seq<Noise>, x: Noise, j: nat)
    requires !Recording(l + [x])
    ensures j < |l| ==> (Included(l + [x], j) <==> Voiced(l, j))
    ensures Included(l + [x], |l|) <==> x.loudness.Voice?
  {
    NotStarted(l + [x], j);
    NotStarted(l + [x], |l|);
    assert j < |l| ==> (l + [x])[j] == l[j];
  }

  /** The buffer grows by exactly the frames that newly belong. */
  lemma {:induction false} ContainsGrows(l: seq<Noise>, x: Noise, buffer: seq<Frame>, more: seq<Frame>, heard: nat)
    requires Contains(l, buffer) && InOrder(l, heard) && x.frame.position == heard
    requires forall f :: f in more ==> f == x.frame || exists j: nat :: j < |l| && l[j].frame == f
    requires forall j: nat :: j < |l| ==> (Included(l + [x], j) <==> Included(l, j) || l[j].frame in more)
    requires Included(l + [x], |l|) <==> x.frame in more
    ensures Contains(l + [x], buffer + more)
  {
    var grown := l + [x];
    forall j: nat | j < |grown|
      ensures grown[j].frame in buffer + more <==> Included(grown, j)
    {
      if j == |l| {
        assert x.frame !in buffer;
      } else {
        assert grown[j] == l[j];
      }
    }
    forall f | f in buffer + more
      ensures exists j: nat :: j < |grown| && grown[j].frame == f
    {
      if f == x.frame {
        assert grown[|l|].frame == f;
      } else {
        var j: nat :| j < |l| && l[j].frame == f;
        assert grown[j].frame == f;
      }
    }
  }

  lemma {:induction false} VoiceTells(l: seq<Noise>, x: Noise, v: Vad, heard: nat)
    requires Tells(l, v) && InOrder(l, heard) && x.frame.position == heard && x.loudness.Voice?
    ensures Contains(l + [x], Buffered(v, x.frame, x.loudness).audioBuffer)
  {
    var starts := !v.isRecording && v.voiceCount > 0;
    var more := (if starts then v.preBuffer else []) + [x.frame];
    assert Buffered(v, x.frame, x.loudness).audioBuffer == v.audioBuffer + more;
    RecordingGrows(l, x);
    StartsLast(l, x);
    forall j: nat | j < |l|
      ensures Included(l + [x], j) <==> Included(l, j) || l[j].frame in more
      ensures Included(l + [x], |l|)
    {
      VoiceIncludes(l, x, v, heard, j);
    }
    if l == [] {
      VoiceIncludes(l, x, v, heard, 0);
    }
    if starts {
      forall f | f in v.preBuffer
        ensures exists j: nat :: j < |l| && l[j].frame == f
      {
        var i :| 0 <= i < |Unvoiced(l)| && Unvoiced(l)[i] == f;
        var j := UnvoicedAre(l, i);
      }
    }
    ContainsGrows(l, x, v.audioBuffer, more, heard);
  }

  lemma {:induction false} VoiceIncludes(l: seq<Noise>, x: Noise, v: Vad, heard: nat, j: nat)
    requires Tells(l, v) && InOrder(l, heard) && x.frame.position == heard && x.loudness.Voice?
    ensures
      var starts := !v.isRecording && v.voiceCount > 0;
      j < |l| ==> (Included(l + [x], j) <==> Included(l, j) || (starts && l[j].frame in v.preBuffer))
    ensures Included(l + [x], |l|)
  {
    RecordingGrows(l, x);
    StartsLast(l, x);
    if v.isRecording {
      IncludedLater(l, x, j);
    } else {
      NotStarted(l, j);
      if v.voiceCount > 0 {
        IncludedAtStart(l, x, heard, j);
      } else {
        IncludedIdle(l, x, j);
      }
    }
  }

  lemma {:induction false} UnvoicedTells(l: seq<Noise>, x: Noise, v: Vad, heard: nat)
    requires Tells(l, v) && InOrder(l, heard) && x.frame.position == heard && (x.loudness.Weak? || x.loudness.Silence?)
    ensures Contains(l + [x], Buffered(v, x.frame, x.loudness).audioBuffer)
  {
    var more := if v.isRecording && x.loudness.Weak? then [x.frame] else [];
    assert Buffered(v, x.frame, x.loudness).audioBuffer == v.audioBuffer + more;
    RecordingGrows(l, x);
    forall j: nat
      ensures j < |l| ==> (Included(l + [x], j) <==> Included(l, j))
      ensures Included(l + [x], |l|) <==> x.frame in more
    {
      if v.isRecording {
        IncludedLater(l, x, j);
      } else {
        NotStarted(l, j);
        IncludedIdle(l, x, j);
      }
    }
    ContainsGrows(l, x, v.audioBuffer, more, heard);
  }

  /** Buffering one more frame keeps the handler's variables true to the frames. */
  lemma {:induction false} BufferedTells(l: seq<Noise>, x: Noise, v: Vad, heard: nat)
    requires Tells(l, v) && InOrder(l, heard) && x.frame.position == heard && !x.loudness.Skipped?
    ensures Tells(l + [x], Buffered(v, x.frame, x.loudness)) && InOrder(l + [x], heard + 1)
  {
    FlagsTell(l, x, v);
    PreBufferTells(l, x, v);
    ContentsTell(l, x, v, heard);
    OrderGrows(l, x, heard);
  }

  lemma {:induction false} OrderGrows(l: seq<Noise>, x: Noise, heard: nat)
    requires InOrder(l, heard) && x.frame.position == heard
    ensures InOrder(l + [x], heard + 1)
  {
  }

  lemma {:induction false} ContentsTell(l: seq<Noise>, x: Noise, v: Vad, heard: nat)
    requires Tells(l, v) && InOrder(l, heard) && x.frame.position == heard && !x.loudness.Skipped?
    ensures Contains(l + [x], Buffered(v, x.frame, x.loudness).audioBuffer)
  {
    if x.loudness.Voice? {
      VoiceTells(l, x, v, heard);
    } else {
      UnvoicedTells(l, x, v, heard);
    }
  }

  lemma {:induction false} FlagsTell(l: seq<Noise>, x: Noise, v: Vad)
    requires !x.loudness.Skipped? && (v.isRecording <==> Recording(l)) && (v.voiceCount > 0 <==> OpenVoice(l))
    ensures
      var w := Buffered(v, x.frame, x.loudness);
      (w.isRecording <==> Recording(l + [x])) && (w.voiceCount > 0 <==> OpenVoice(l + [x]))
  {
    RecordingGrows(l, x);
    OpenVoiceGrows(l, x);
  }

  lemma {:induction false} PreBufferTells(l: seq<Noise>, x: Noise, v: Vad)
    requires !x.loudness.Skipped? && (!v.isRecording ==> v.preBuffer == LastFifteen(Unvoiced(l)))
    ensures
      var w := Buffered(v, x.frame, x.loudness);
      !w.isRecording ==> w.preBuffer == LastFifteen(Unvoiced(l + [x]))
  {
    UnvoicedGrows(l, x);
    PushKeepsFifteen(Unvoiced(l), x.frame);
    if x.loudness.Voice? {
      assert Unvoiced(l) + [] == Unvoiced(l);
    }
  }

  lemma {:induction false} NothingTells(v: Vad)
    requires v.audioBuffer == [] && v.preBuffer == [] && v.voiceCount == 0 && !v.isRecording
    ensures Tells([], v)
  {
  }

  // ---------------------------------------------------------------------------
  // Whole tracks
  // ---------------------------------------------------------------------------

  /** The handler's variables with the last frame taken in, before anything is delivered. */
  ghost function Intake(track: seq<Heard>): Vad
    requires track != []
  {
    var v := Run(Init(track));
    Buffered(v, Frame(v.heard, Last(track).bytes), Last(track).loudness)
  }

  lemma {:induction false} OneStep(v: Vad, h: Heard, w: Vad)
    requires !h.loudness.Skipped? && w == Buffered(v, Frame(v.heard, h.bytes), h.loudness)
    ensures w.utterances == v.utterances
    ensures Complete(w) ==>
              Step(v, h) == Vad([], [], 0, 0, false, v.heard + 1, v.utterances + [w.audioBuffer])
    ensures !Complete(w) ==> Step(v, h) == w.(heard := v.heard + 1)
  {
  }

  /** A step with a frame that is not skipped, split into gathering and delivering. */
  lemma {:induction false} StepSplits(track: seq<Heard>)
    requires track != [] && !Last(track).loudness.Skipped?
    ensures Intake(track).utterances == Run(Init(track)).utterances
    ensures DeliversAt(track) <==> Complete(Intake(track))
    ensures Gathered(track) == Intake(track).audioBuffer
    ensures
      var v, w := Run(Init(track)), Intake(track);
      Run(track) ==
      if Complete(w) then Vad([], [], 0, 0, false, v.heard + 1, v.utterances + [w.audioBuffer])
      else w.(heard := v.heard + 1)
  {
    OneStep(Run(Init(track)), Last(track), Intake(track));
  }

  lemma {:induction false} BufferedQuiet(v: Vad, f: Frame, loudness: Loudness)
    ensures
      Buffered(v, f, loudness).silenceCount ==
      match loudness
      case Voice(strong) => if strong then 0 else v.silenceCount
      case Weak => v.silenceCount + 1
      case Silence => v.silenceCount + 1
      case Skipped => v.silenceCount
  {
  }

  lemma {:induction false} SkippedStep(track: seq<Heard>)
    requires track != [] && Last(track).loudness.Skipped?
    ensures !DeliversAt(track) && Run(track) == Run(Init(track)).(heard := Run(Init(track)).heard + 1)
  {
  }

  lemma {:induction false} QuietCounted(track: seq<Heard>)
    ensures Run(track).silenceCount == QuietSince(track)
    decreases track, 1
  {
    if track != [] {
      if Last(track).loudness.Skipped? {
        QuietCounted(Init(track));
        SkippedStep(track);
      } else {
        QuietTaken(track);
        StepSplits(track);
      }
    }
  }

  lemma {:induction false} QuietTaken(track: seq<Heard>)
    requires track != []
    ensures Intake(track).silenceCount == QuietWith(track)
    decreases track, 0
  {
    QuietCounted(Init(track));
    var v := Run(Init(track));
    BufferedQuiet(v, Frame(v.heard, Last(track).bytes), Last(track).loudness);
  }

  lemma {:induction false} TellsAnyTime(l: seq<Noise>, v: Vad, n: nat)
    requires Tells(l, v)
    ensures Tells(l, v.(heard := n))
  {
  }

  lemma {:induction false} IntakeTells(track: seq<Heard>)
    requires track != [] && !Last(track).loudness.Skipped?
    requires Tells(SinceDelivery(Init(track)), Run(Init(track))) && InOrder(SinceDelivery(Init(track)), |track| - 1)
    ensures Tells(Gathering(track), Intake(track)) && InOrder(Gathering(track), |track|)
  {
    var l, x, v := SinceDelivery(Init(track)), NoiseOf(track), Run(Init(track));
    AllHeard(Init(track));
    IntakeIs(track, x, v);
    GatherTells(l, x, v, |track| - 1, Gathering(track), Intake(track));
  }

  lemma {:induction false} GatherTells(l: seq<Noise>, x: Noise, v: Vad, heard: nat, g: seq<Noise>, w: Vad)
    requires Tells(l, v) && InOrder(l, heard) && x.frame.position == heard && !x.loudness.Skipped?
    requires g == l + [x] && w == Buffered(v, x.frame, x.loudness)
    ensures Tells(g, w) && InOrder(g, heard + 1)
  {
    BufferedTells(l, x, v, heard);
  }

  lemma {:induction false} IntakeIs(track: seq<Heard>, x: Noise, v: Vad)
    requires track != [] && x == NoiseOf(track) && v == Run(Init(track)) && v.heard == |track| - 1
    ensures Intake(track) == Buffered(v, x.frame, x.loudness) && x.frame.position == |track| - 1
  {
  }

  lemma {:induction false} AllHeard(track: seq<Heard>)
    ensures Run(track).heard == |track|
  {
    if track != [] {
      AllHeard(Init(track));
    }
  }

  lemma {:induction false} FrameTells(track: seq<Heard>)
    requires track != [] && !Last(track).loudness.Skipped?
    requires Tells(SinceDelivery(Init(track)), Run(Init(track))) && InOrder(SinceDelivery(Init(track)), |track| - 1)
    ensures Contains(Gathering(track), Gathered(track)) && InOrder(Gathering(track), |track|)
    ensures !DeliversAt(track) ==> Tells(Gathering(track), Run(track))
  {
    IntakeTells(track);
    StepSplits(track);
    TellsAnyTime(Gathering(track), Intake(track), Run(Init(track)).heard + 1);
  }

  lemma {:induction false} DeliveryClears(track: seq<Heard>)
    requires DeliversAt(track)
    ensures Tells([], Run(track))
  {
    if Last(track).loudness.Skipped? {
      SkippedStep(track);
    } else {
      StepSplits(track);
      NothingTells(Run(track));
    }
  }

  lemma {:induction false} TrackTells(track: seq<Heard>)
    ensures Tells(SinceDelivery(track), Run(track)) && InOrder(SinceDelivery(track), |track|)
  {
    if track == [] {
      NothingTells(QUIET);
    } else {
      TrackTells(Init(track));
      if DeliversAt(track) {
        DeliveryClears(track);
      } else if Last(track).loudness.Skipped? {
        SkippedStep(track);
        assert SinceDelivery(track) == SinceDelivery(Init(track));
      } else {
        FrameTells(track);
      }
    }
  }

  /** An utterance consists of exactly the frames that belong to it. */
  lemma {:induction false} UtteranceContains(track: seq<Heard>)
    requires DeliversAt(track)
    ensures Run(track).utterances == Run(Init(track)).utterances + [Gathered(track)]
    ensures Contains(Gathering(track), Gathered(track))
  {
    TrackTells(Init(track));
    if Last(track).loudness.Skipped? {
      SkippedStep(track);
    } else {
      StepSplits(track);
      FrameTells(track);
    }
  }

  /** A frame completes an utterance exactly when there is too much of it, or enough of it and a long enough quiet. */
  lemma {:induction false} DeliversIff(track: seq<Heard>)
    requires track != []
    ensures DeliversAt(track) <==>
              && !Last(track).loudness.Skipped?
              && var total := Bytes(Gathered(track));
                 total > 192000 || (total > 16000 && QuietWith(track) > 50)
  {
    if Last(track).loudness.Skipped? {
      SkippedStep(track);
    } else {
      QuietTaken(track);
      StepSplits(track);
    }
  }

  // ---------------------------------------------------------------------------
  // Silence delivers
  // ---------------------------------------------------------------------------

  ghost predicate NoStrongVoice(more: seq<Heard>) {
    forall i :: 0 <= i < |more| ==> more[i].loudness != Voice(true)
  }

  ghost function QuietFrames(more: seq<Heard>): nat {
    if more == [] then 0
    else QuietFrames(Init(more)) + if Last(more).loudness.Weak? || Last(more).loudness.Silence? then 1 else 0
  }

  /** An utterance that begins with `buffer` has been delivered after the first `n`. */
  ghost predicate DeliveredSince(v: Vad, n: nat, buffer: seq<Frame>) {
    exists i: nat :: n <= i < |v.utterances| && buffer <= v.utterances[i]
  }

  lemma {:induction false} DeliveredStays(track: seq<Heard>, n: nat, buffer: seq<Frame>)
    requires track != [] && DeliveredSince(Run(Init(track)), n, buffer)
    ensures DeliveredSince(Run(track), n, buffer)
  {
    var v := Run(Init(track));
    var i: nat :| n <= i < |v.utterances| && buffer <= v.utterances[i];
    assert Run(track).utterances[i] == v.utterances[i];
  }

  /** What is in the buffer stays at the front of what is gathered. */
  lemma {:induction false} BufferStaysInFront(track: seq<Heard>)
    requires track != []
    ensures Run(Init(track)).audioBuffer <= Gathered(track)
  {
    if Last(track).loudness.Skipped? {
      SkippedStep(track);
    } else {
      StepSplits(track);
    }
  }

  lemma {:induction false} BytesOfPrefix(a: seq<Frame>, b: seq<Frame>)
    requires a <= b
    ensures Bytes(a) <= Bytes(b)
  {
    assert b == a + b[|a|..];
    BytesConcat(a, b[|a|..]);
  }

  /** Until it is delivered, the buffer stays in front and the quiet grows. */
  lemma {:induction false} QuietGrows(track: seq<Heard>, more: seq<Heard>)
    requires NoStrongVoice(more) && Bytes(Run(track).audioBuffer) > 16000
    ensures
      var v, w := Run(track), Run(track + more);
      || DeliveredSince(w, |v.utterances|, v.audioBuffer)
      || (v.utterances == w.utterances && v.audioBuffer <= w.audioBuffer &&
          QuietFrames(more) <= 50 && QuietSince(track + more) >= QuietFrames(more))
  {
    var v, whole := Run(track), track + more;
    if more == [] {
      assert whole == track;
    } else {
      assert Init(whole) == track + Init(more) && Last(whole) == Last(more);
      assert more[|more| - 1].loudness != Voice(true);
      QuietGrows(track, Init(more));
      if DeliveredSince(Run(Init(whole)), |v.utterances|, v.audioBuffer) {
        DeliveredStays(whole, |v.utterances|, v.audioBuffer);
      } else {
        BufferStaysInFront(whole);
        BytesOfPrefix(v.audioBuffer, Gathered(whole));
        DeliversIff(whole);
        if DeliversAt(whole) {
          UtteranceContains(whole);
          assert Run(whole).utterances[|v.utterances|] == Gathered(whole);
        } else {
          NotDelivered(whole);
        }
      }
    }
  }

  lemma {:induction false} NotDelivered(track: seq<Heard>)
    requires track != [] && !DeliversAt(track)
    ensures Run(track).utterances == Run(Init(track)).utterances
  {
    if Last(track).loudness.Skipped? {
      SkippedStep(track);
    } else {
      StepSplits(track);
    }
  }

  /**
   With more than half a second in the buffer, 51 weak or silent frames, with no
   strong voice among them, deliver an utterance that begins with what was buffered.
   */
  lemma {:induction false} SilenceDelivers(track: seq<Heard>, more: seq<Heard>)
    requires NoStrongVoice(more) && Bytes(Run(track).audioBuffer) > 16000 && QuietFrames(more) > 50
    ensures DeliveredSince(Run(track + more), |Run(track).utterances|, Run(track).audioBuffer)
  {
    QuietGrows(track, more);
  }

  /** An utterance of at most six seconds is delivered only after more than fifty quiet frames. */
  lemma {:induction false} ShortNeedsQuiet(track: seq<Heard>)
    requires DeliversAt(track) && Bytes(Gathered(track)) <= 192000
    ensures QuietWith(track) > 50 && Bytes(Gathered(track)) > 16000
  {
    DeliversIff(track);
  }
}
