// The mix behind a Highlight clip (internal/mixdown/mixdown.go): per-speaker lanes of timed frames
// decoded, laid out by run, and summed into one window of mono samples.
module Mixdown {
  import opened Common

  type Opus = seq<bv8>

  datatype Frame = Frame(at: Time, opus: Opus)
  type Lane = seq<Frame>

  // A stateful decoder, fresh for each lane: the samples of the last frame of a history, or a
  // failure.
  type Decoder = seq<Opus> -> Option<seq<int>>

  const DECODE_RATE := 48000
  const FRAME_SAMPLES := 960
  const RUN_GAP := 100 * MILLISECOND
  const MAX_SIZE := 32 * 1024 * 1024

  predicate Int16(x: int) { -32768 <= x <= 32767 }

  ghost predicate SoundDecoder(dec: Decoder) {
    forall h, k :: dec(h).Some? && 0 <= k < |dec(h).value| ==> Int16(dec(h).value[k])
  }

  // Nearest, halves away from zero.
  function RoundDiv(n: int, d: int): int
    requires d > 0
  {
    if n >= 0 then (2 * n + d) / (2 * d) else -((-2 * n + d) / (2 * d))
  }

  // The samples spanning the window at a rate, and the index of an instant in it.
  function SamplesFor(from: Time, to: Time, rate: nat): nat {
    if to <= from then 0 else
      assert (to - from) * rate >= 0;
      RoundDiv((to - from) * rate, SECOND)
  }

  function OffsetSamples(from: Time, at: Time): int {
    RoundDiv((at - from) * DECODE_RATE, SECOND)
  }

  // 32-bit addition, and the saturating narrowing to 16 bits.
  function Wrap32(x: int): int {
    (x + 0x8000_0000) % 0x1_0000_0000 - 0x8000_0000
  }

  function Clamp16(x: int): int {
    if x > 32767 then 32767 else if x < -32768 then -32768 else x
  }

  // An instant's sample is the nearest one, halves away from zero.
  ghost predicate Nearest(o: int, from: Time, at: Time) {
    var off := 2 * (o * 1_000_000_000 - (at - from) * 48_000);
    -1_000_000_000 <= off <= 1_000_000_000 && (off == 1_000_000_000 ==> at > from) && (off == -1_000_000_000 ==> at < from)
  }

  lemma OffsetIsNearest(from: Time, at: Time, o: int)
    ensures o == OffsetSamples(from, at) <==> Nearest(o, from, at)
  {
  }

  // The same at any rate, for the length of a window.
  lemma LengthIsNearest(from: Time, to: Time, rate: nat)
    ensures to <= from ==> SamplesFor(from, to, rate) == 0
    ensures to > from ==> -1_000_000_000 < 2 * (SamplesFor(from, to, rate) * 1_000_000_000 - (to - from) * rate) <= 1_000_000_000
  {
    if to > from {
      var x := (to - from) * rate;
      assert x >= 0;
    }
  }

  // Equal to the true sum modulo 2^32, and within 32 bits; within 16 bits, and unchanged there.
  lemma SumIsNarrowed(x: int)
    ensures -0x8000_0000 <= Wrap32(x) < 0x8000_0000 && (Wrap32(x) - x) % 0x1_0000_0000 == 0
    ensures -32768 <= Clamp16(x) <= 32767 && (-32768 <= x <= 32767 ==> Clamp16(x) == x)
    ensures (x > 32767 ==> Clamp16(x) == 32767) && (x < -32768 ==> Clamp16(x) == -32768)
  {
  }

  // ---- Time order ---------------------------------------------------------------------------

  // Stable insertion: after every frame that is not later.
  function Insert(f: Frame, fs: Lane): Lane {
    if fs == [] || fs[|fs| - 1].at <= f.at then fs + [f] else Insert(f, fs[..|fs| - 1]) + [fs[|fs| - 1]]
  }

  function InTimeOrder(fs: Lane): Lane {
    if fs == [] then [] else Insert(fs[|fs| - 1], InTimeOrder(fs[..|fs| - 1]))
  }

  ghost predicate Sorted(fs: Lane) {
    forall i, j :: 0 <= i < j < |fs| ==> fs[i].at <= fs[j].at
  }

  function At(fs: Lane, t: Time): Lane {
    if fs == [] then [] else At(fs[..|fs| - 1], t) + (if fs[|fs| - 1].at == t then [fs[|fs| - 1]] else [])
  }

  lemma {:induction false} InsertBag(f: Frame, fs: Lane)
    ensures multiset(Insert(f, fs)) == multiset(fs) + multiset{f}
  {
    if fs != [] && fs[|fs| - 1].at > f.at {
      InsertBag(f, fs[..|fs| - 1]);
      assert fs == fs[..|fs| - 1] + [fs[|fs| - 1]];
    }
  }

  lemma {:induction false} InsertSorts(f: Frame, fs: Lane)
    requires Sorted(fs)
    ensures Sorted(Insert(f, fs))
  {
    if fs != [] && fs[|fs| - 1].at > f.at {
      var front, last := fs[..|fs| - 1], fs[|fs| - 1];
      InsertSorts(f, front);
      InsertBag(f, front);
      var r := Insert(f, front);
      forall i | 0 <= i < |r| ensures r[i].at <= last.at {
        assert r[i] in multiset(front) + multiset{f};
      }
    }
  }

  lemma {:induction false} InsertIsStable(f: Frame, fs: Lane, t: Time)
    requires Sorted(fs)
    ensures At(Insert(f, fs), t) == At(fs, t) + (if f.at == t then [f] else [])
  {
    if fs == [] || fs[|fs| - 1].at <= f.at {
      assert Insert(f, fs)[..|fs|] == fs;
    } else {
      var front, last := fs[..|fs| - 1], fs[|fs| - 1];
      InsertIsStable(f, front, t);
      assert Insert(f, fs)[..|Insert(f, fs)| - 1] == Insert(f, front);
    }
  }

  // The stable sort by arrival: sorted, the same frames, and simultaneous ones in their order.
  lemma {:induction false} TimeOrderIsStable(fs: Lane)
    ensures Sorted(InTimeOrder(fs)) && multiset(InTimeOrder(fs)) == multiset(fs)
    ensures forall t :: At(InTimeOrder(fs), t) == At(fs, t)
  {
    if fs != [] {
      var front, last := fs[..|fs| - 1], fs[|fs| - 1];
      assert fs == front + [last];
      TimeOrderIsStable(front);
      InsertBag(last, InTimeOrder(front));
      InsertSorts(last, InTimeOrder(front));
      forall t ensures At(InTimeOrder(fs), t) == At(fs, t) { InsertIsStable(last, InTimeOrder(front), t); }
    }
  }

  // ---- One lane, sample by sample -------------------------------------------------------------

  function Payloads(fs: Lane): seq<Opus> { seq(|fs|, i requires 0 <= i < |fs| => fs[i].opus) }

  // The decoder's reply to frame k, given the frames before it.
  function Reply(dec: Decoder, fs: Lane, k: nat): Option<seq<int>>
    requires k < |fs|
  {
    dec(Payloads(fs)[..k + 1])
  }

  predicate Decodes(dec: Decoder, fs: Lane) {
    forall k :: 0 <= k < |fs| ==> Reply(dec, fs, k).Some?
  }

  function Pcm(dec: Decoder, fs: Lane, k: nat): seq<int>
    requires k < |fs|
  {
    if Reply(dec, fs, k).Some? then Reply(dec, fs, k).value else []
  }

  predicate StartsRun(fs: Lane, k: nat)
    requires k < |fs|
  {
    k == 0 || fs[k].at - fs[k - 1].at > RUN_GAP
  }

  // The first frame of the maximal run frame k is in.
  function RunStart(fs: Lane, k: nat): (r: nat)
    requires k < |fs|
    ensures r <= k && StartsRun(fs, r) && forall j :: r < j <= k ==> !StartsRun(fs, j)
  {
    if StartsRun(fs, k) then k else RunStart(fs, k - 1)
  }

  // A run sits at its first frame's wall-clock offset; its frames follow at the frame cadence.
  function Pos(fs: Lane, from: Time, k: nat): int
    requires k < |fs|
  {
    OffsetSamples(from, fs[RunStart(fs, k)].at) + FRAME_SAMPLES * (k - RunStart(fs, k))
  }

  predicate Covers(dec: Decoder, fs: Lane, from: Time, k: nat, i: int)
    requires k < |fs|
  {
    Pos(fs, from, k) <= i < Pos(fs, from, k) + |Pcm(dec, fs, k)|
  }

  // The last of the first n frames that covers sample i, or silence.
  function Heard(dec: Decoder, fs: Lane, from: Time, n: nat, i: int): Option<int>
    requires n <= |fs|
  {
    if n == 0 then None
    else if Covers(dec, fs, from, n - 1, i) then Some(Pcm(dec, fs, n - 1)[i - Pos(fs, from, n - 1)])
    else Heard(dec, fs, from, n - 1, i)
  }

  lemma {:induction false} HeardIsTheLastCover(dec: Decoder, fs: Lane, from: Time, n: nat, i: int)
    requires n <= |fs|
    ensures match Heard(dec, fs, from, n, i)
            case None => forall k: nat :: k < n ==> !Covers(dec, fs, from, k, i)
            case Some(s) => exists k: nat :: k < n && Covers(dec, fs, from, k, i) && s == Pcm(dec, fs, k)[i - Pos(fs, from, k)]
                              && forall l: nat :: k < l < n ==> !Covers(dec, fs, from, l, i)
  {
    if n > 0 && !Covers(dec, fs, from, n - 1, i) { HeardIsTheLastCover(dec, fs, from, n - 1, i); }
  }

  // Where the frames of a lane in time order lie, from their times alone: after a gap of more
  // than 100 ms at the sample nearest to their arrival, otherwise 960 samples after the last.
  ghost predicate Places(fs: Lane, from: Time, place: seq<int>) {
    |place| == |fs| && forall k :: 0 <= k < |fs| ==>
      if k == 0 || fs[k].at - fs[k - 1].at > 100_000_000 then Nearest(place[k], from, fs[k].at)
      else place[k] == place[k - 1] + 960
  }

  // What the lane's one decoder makes of each frame, fed all the frames up to it in order.
  ghost predicate Decoded(dec: Decoder, fs: Lane, pcm: seq<seq<int>>) {
    |pcm| == |fs| && forall k :: 0 <= k < |fs| ==> dec(seq(k + 1, i requires 0 <= i <= k => fs[i].opus)) == Some(pcm[k])
  }

  lemma {:induction false} PosIsThePlace(fs: Lane, from: Time, place: seq<int>, k: nat)
    requires Places(fs, from, place) && k < |fs|
    ensures Pos(fs, from, k) == place[k]
  {
    if StartsRun(fs, k) {
      OffsetIsNearest(from, fs[k].at, place[k]);
    } else {
      PosIsThePlace(fs, from, place, k - 1);
    }
  }

  lemma PcmIsDecoded(dec: Decoder, fs: Lane, pcm: seq<seq<int>>, k: nat)
    requires Decoded(dec, fs, pcm) && k < |fs|
    ensures Pcm(dec, fs, k) == pcm[k]
  {
    assert Payloads(fs)[..k + 1] == seq(k + 1, i requires 0 <= i <= k => fs[i].opus);
  }

  // A sample of a lane is that of the last frame, in time order, whose samples reach over it,
  // or silence where there is none.
  lemma LaneSampleExactly(dec: Decoder, lane: Lane, from: Time, place: seq<int>, pcm: seq<seq<int>>, i: int, k: nat)
    requires Places(InTimeOrder(lane), from, place) && Decoded(dec, InTimeOrder(lane), pcm)
    requires k <= |place| && forall l :: k <= l < |place| ==> !(place[l] <= i < place[l] + |pcm[l]|)
    ensures k == 0 ==> LaneSample(dec, lane, from, i) == 0
    ensures k > 0 && place[k - 1] <= i < place[k - 1] + |pcm[k - 1]| ==> LaneSample(dec, lane, from, i) == pcm[k - 1][i - place[k - 1]]
  {
    hide InTimeOrder, Pos, Pcm, Places, Decoded, Heard;
    var fs := InTimeOrder(lane);
    PlacesLen(dec, fs, from, place, pcm);
    forall l: nat | l < |fs| ensures Pos(fs, from, l) == place[l] && Pcm(dec, fs, l) == pcm[l] {
      PosIsThePlace(fs, from, place, l);
      PcmIsDecoded(dec, fs, pcm, l);
    }
    HeardIsTheLastCover(dec, fs, from, |fs|, i);
    if k > 0 && place[k - 1] <= i < place[k - 1] + |pcm[k - 1]| {
      assert Covers(dec, fs, from, k - 1, i);
    }
  }

  lemma PlacesLen(dec: Decoder, fs: Lane, from: Time, place: seq<int>, pcm: seq<seq<int>>)
    requires Places(fs, from, place) && Decoded(dec, fs, pcm)
    ensures |place| == |fs| == |pcm|
  {
  }

  // A lane all of whose frames decode has such places and samples.
  lemma LaneIsPlaced(dec: Decoder, fs: Lane, from: Time) returns (place: seq<int>, pcm: seq<seq<int>>)
    requires Decodes(dec, fs)
    ensures Places(fs, from, place) && Decoded(dec, fs, pcm)
  {
    hide Decodes, Pos, Nearest, OffsetSamples, Places, Decoded;
    place := seq(|fs|, k requires 0 <= k < |fs| => Pos(fs, from, k));
    pcm := seq(|fs|, k requires 0 <= k < |fs| => Pcm(dec, fs, k));
    PlacesByPos(fs, from, place);
    DecodedByPcm(dec, fs, pcm);
  }

  lemma PlacesByPos(fs: Lane, from: Time, place: seq<int>)
    requires |place| == |fs| && forall k :: 0 <= k < |fs| ==> place[k] == Pos(fs, from, k)
    ensures Places(fs, from, place)
  {
    hide Pos, Nearest;
    forall k | 0 <= k < |fs|
      ensures if k == 0 || fs[k].at - fs[k - 1].at > 100_000_000 then Nearest(place[k], from, fs[k].at) else place[k] == place[k - 1] + 960
    {
      PosStep(fs, from, k);
      OffsetIsNearest(from, fs[k].at, place[k]);
    }
  }

  lemma PosStep(fs: Lane, from: Time, k: nat)
    requires k < |fs|
    ensures Pos(fs, from, k) == if StartsRun(fs, k) then OffsetSamples(from, fs[k].at) else Pos(fs, from, k - 1) + 960
  {
    hide OffsetSamples;
  }

  lemma DecodedByPcm(dec: Decoder, fs: Lane, pcm: seq<seq<int>>)
    requires Decodes(dec, fs) && |pcm| == |fs| && forall k :: 0 <= k < |fs| ==> pcm[k] == Pcm(dec, fs, k)
    ensures Decoded(dec, fs, pcm)
  {
    forall k: nat | k < |fs| ensures dec(seq(k + 1, i requires 0 <= i <= k => fs[i].opus)) == Some(pcm[k]) {
      assert Payloads(fs)[..k + 1] == seq(k + 1, i requires 0 <= i <= k => fs[i].opus);
      assert Reply(dec, fs, k).Some?;
    }
  }

  function LaneSample(dec: Decoder, lane: Lane, from: Time, i: int): int
  {
    var fs := InTimeOrder(lane);
    match Heard(dec, fs, from, |fs|, i)
    case None => 0
    case Some(s) => s
  }

  // ---- The mix, sample by sample ----------------------------------------------------------------

  predicate AllDecode(dec: Decoder, lanes: seq<Lane>) {
    forall l :: 0 <= l < |lanes| ==> Decodes(dec, InTimeOrder(lanes[l]))
  }

  function Sum(dec: Decoder, lanes: seq<Lane>, from: Time, i: int): int
  {
    if lanes == [] then 0 else Sum(dec, lanes[..|lanes| - 1], from, i) + LaneSample(dec, lanes[|lanes| - 1], from, i)
  }

  // The clamped 32-bit sum over the lanes.
  function Mixed(dec: Decoder, lanes: seq<Lane>, from: Time, n: nat): seq<int>
  {
    seq(n, i requires 0 <= i < n => Clamp16(Wrap32(Sum(dec, lanes, from, i))))
  }

  lemma {:induction false} SumWithout(dec: Decoder, lanes: seq<Lane>, from: Time, i: int, k: nat)
    requires k < |lanes|
    ensures Sum(dec, lanes, from, i) == Sum(dec, lanes[..k] + lanes[k + 1..], from, i) + LaneSample(dec, lanes[k], from, i)
  {
    hide LaneSample;
    var rest := lanes[..k] + lanes[k + 1..];
    if k < |lanes| - 1 {
      var front := lanes[..|lanes| - 1];
      SumWithout(dec, front, from, i, k);
      assert rest[..|rest| - 1] == front[..k] + front[k + 1..];
    } else {
      assert rest == lanes[..|lanes| - 1];
    }
  }

  lemma BagWithout<T>(xs: seq<T>, ys: seq<T>) returns (k: nat)
    requires multiset(xs) == multiset(ys) && xs != []
    ensures k < |ys| && ys[k] == xs[|xs| - 1] && multiset(xs[..|xs| - 1]) == multiset(ys[..k] + ys[k + 1..])
  {
    var last := xs[|xs| - 1];
    assert last in multiset(ys);
    k :| 0 <= k < |ys| && ys[k] == last;
    Without(xs, |xs| - 1);
    Without(ys, k);
    assert xs[..|xs| - 1] + xs[|xs|..] == xs[..|xs| - 1];
  }

  lemma Without<T>(xs: seq<T>, k: nat)
    requires k < |xs|
    ensures multiset(xs[..k] + xs[k + 1..]) == multiset(xs) - multiset{xs[k]}
  {
    assert xs == xs[..k] + [xs[k]] + xs[k + 1..];
  }

  lemma {:induction false} SumIgnoresOrder(dec: Decoder, lanes: seq<Lane>, others: seq<Lane>, from: Time, i: int)
    requires multiset(lanes) == multiset(others)
    ensures Sum(dec, lanes, from, i) == Sum(dec, others, from, i)
    decreases |lanes|
  {
    hide LaneSample;
    if lanes == [] {
      assert |multiset(others)| == |others|;
    } else {
      var k := BagWithout(lanes, others);
      SumWithout(dec, others, from, i, k);
      SumIgnoresOrder(dec, lanes[..|lanes| - 1], others[..k] + others[k + 1..], from, i);
    }
  }

  // The clip does not depend on the order of the lanes.
  lemma MixIgnoresLaneOrder(dec: Decoder, lanes: seq<Lane>, others: seq<Lane>, from: Time, n: nat)
    requires multiset(lanes) == multiset(others)
    ensures AllDecode(dec, lanes) <==> AllDecode(dec, others)
    ensures Mixed(dec, lanes, from, n) == Mixed(dec, others, from, n)
  {
    assert forall l :: 0 <= l < |others| ==> others[l] in multiset(lanes);
    assert forall l :: 0 <= l < |lanes| ==> lanes[l] in multiset(others);
    forall i | 0 <= i < n ensures Sum(dec, lanes, from, i) == Sum(dec, others, from, i) {
      SumIgnoresOrder(dec, lanes, others, from, i);
    }
  }

  // Each lane adds its sample once, and none is none.
  lemma EachLaneAddsItsSample(dec: Decoder, lanes: seq<Lane>, lane: Lane, from: Time, n: nat, i: nat)
    requires i < n
    ensures Sum(dec, [], from, i) == 0 && Sum(dec, lanes + [lane], from, i) == Sum(dec, lanes, from, i) + LaneSample(dec, lane, from, i)
    ensures |Mixed(dec, lanes, from, n)| == n
    ensures var sum := Sum(dec, lanes, from, i);
            -0x8000_0000 <= sum < 0x8000_0000 ==>
              Mixed(dec, lanes, from, n)[i] == if sum > 32767 then 32767 else if sum < -32768 then -32768 else sum
  {
    hide LaneSample;
    assert (lanes + [lane])[..|lanes|] == lanes;
  }

  // ---- Moving a clip in time -----------------------------------------------------------------

  function Later(lane: Lane, d: Time): Lane { seq(|lane|, i requires 0 <= i < |lane| => lane[i].(at := lane[i].at + d)) }

  lemma {:induction false} InsertLater(f: Frame, fs: Lane, d: Time)
    ensures Insert(f.(at := f.at + d), Later(fs, d)) == Later(Insert(f, fs), d)
  {
    if fs != [] && fs[|fs| - 1].at > f.at {
      InsertLater(f, fs[..|fs| - 1], d);
      assert Later(fs, d)[..|fs| - 1] == Later(fs[..|fs| - 1], d);
    }
  }

  lemma LaterSplit(fs: Lane, d: Time)
    requires fs != []
    ensures |Later(fs, d)| == |fs| && Later(fs, d)[|fs| - 1] == fs[|fs| - 1].(at := fs[|fs| - 1].at + d)
    ensures Later(fs, d)[..|fs| - 1] == Later(fs[..|fs| - 1], d)
  {
  }

  lemma LaterLen(fs: Lane, d: Time)
    ensures |Later(fs, d)| == |fs| && (fs == [] ==> Later(fs, d) == [])
  {
  }

  lemma {:induction false} InTimeOrderLater(fs: Lane, d: Time)
    ensures InTimeOrder(Later(fs, d)) == Later(InTimeOrder(fs), d)
  {
    hide Insert, Later;
    LaterLen(fs, d);
    if fs != [] {
      InTimeOrderLater(fs[..|fs| - 1], d);
      LaterSplit(fs, d);
      InsertLater(fs[|fs| - 1], InTimeOrder(fs[..|fs| - 1]), d);
    }
  }

  lemma {:induction false} RunStartLater(fs: Lane, d: Time, k: nat)
    requires k < |fs|
    ensures RunStart(Later(fs, d), k) == RunStart(fs, k)
  {
    if !StartsRun(fs, k) { RunStartLater(fs, d, k - 1); }
  }

  lemma PosLater(fs: Lane, from: Time, d: Time, k: nat)
    requires k < |fs|
    ensures Pos(Later(fs, d), from + d, k) == Pos(fs, from, k)
  {
    hide RoundDiv;
    RunStartLater(fs, d, k);
  }

  lemma PcmLater(dec: Decoder, fs: Lane, d: Time, k: nat)
    requires k < |fs|
    ensures Pcm(dec, Later(fs, d), k) == Pcm(dec, fs, k)
  {
    assert Payloads(Later(fs, d)) == Payloads(fs);
  }

  lemma {:induction false} HeardLater(dec: Decoder, fs: Lane, from: Time, d: Time, n: nat, i: int)
    requires n <= |fs|
    ensures Heard(dec, Later(fs, d), from + d, n, i) == Heard(dec, fs, from, n, i)
  {
    hide Pos, Pcm, Later;
    LaterLen(fs, d);
    if n > 0 {
      HeardLater(dec, fs, from, d, n - 1, i);
      PosLater(fs, from, d, n - 1);
      PcmLater(dec, fs, d, n - 1);
    }
  }

  lemma {:induction false} SumLater(dec: Decoder, lanes: seq<Lane>, from: Time, d: Time, i: int)
    ensures Sum(dec, seq(|lanes|, l requires 0 <= l < |lanes| => Later(lanes[l], d)), from + d, i) == Sum(dec, lanes, from, i)
  {
    hide Later, Heard, InTimeOrder;
    var moved := seq(|lanes|, l requires 0 <= l < |lanes| => Later(lanes[l], d));
    if lanes != [] {
      var front, last := lanes[..|lanes| - 1], lanes[|lanes| - 1];
      SumLater(dec, front, from, d, i);
      assert moved[..|lanes| - 1] == seq(|front|, l requires 0 <= l < |front| => Later(front[l], d));
      InTimeOrderLater(last, d);
      assert |InTimeOrder(Later(last, d))| == |InTimeOrder(last)| by { LaterLen(InTimeOrder(last), d); }
      HeardLater(dec, InTimeOrder(last), from, d, |InTimeOrder(last)|, i);
    }
  }

  // The clip depends on the frames' times only relative to the start of its window.
  lemma MixMovesWithItsWindow(dec: Decoder, lanes: seq<Lane>, from: Time, d: Time, n: nat)
    ensures Mixed(dec, seq(|lanes|, l requires 0 <= l < |lanes| => Later(lanes[l], d)), from + d, n) == Mixed(dec, lanes, from, n)
  {
    hide Sum, Later;
    var moved := seq(|lanes|, l requires 0 <= l < |lanes| => Later(lanes[l], d));
    forall i | 0 <= i < n ensures Sum(dec, moved, from + d, i) == Sum(dec, lanes, from, i) { SumLater(dec, lanes, from, d, i); }
  }

  // A frame that arrives as the window opens is heard from the first sample on.
  lemma FrameAtTheStart(dec: Decoder, opus: Opus, from: Time, i: nat)
    requires dec([opus]).Some? && i < |dec([opus]).value|
    ensures LaneSample(dec, [Frame(from, opus)], from, i) == dec([opus]).value[i]
  {
    hide InTimeOrder, LaneSample;
    var lane, pcm := [Frame(from, opus)], dec([opus]).value;
    OneFrame(lane[0]);
    assert seq(1, j requires 0 <= j <= 0 => lane[j].opus) == [opus];
    assert Decoded(dec, lane, [pcm]);
    assert Nearest(0, from, lane[0].at) && Places(lane, from, [0]);
    LaneSampleExactly(dec, lane, from, [0], [pcm], i, 1);
  }

  lemma OneFrame(f: Frame)
    ensures InTimeOrder([f]) == [f]
  {
    assert [f][..0] == [] && InTimeOrder([]) == [];
  }

  lemma LaneSampleIs16Bit(dec: Decoder, lane: Lane, from: Time, i: int)
    requires SoundDecoder(dec)
    ensures Int16(LaneSample(dec, lane, from, i))
  {
    var fs := InTimeOrder(lane);
    HeardIsTheLastCover(dec, fs, from, |fs|, i);
  }

  lemma {:induction false} SumIsBounded(dec: Decoder, lanes: seq<Lane>, from: Time, i: int)
    requires SoundDecoder(dec)
    ensures -32768 * |lanes| <= Sum(dec, lanes, from, i) <= 32767 * |lanes|
  {
    if lanes != [] {
      SumIsBounded(dec, lanes[..|lanes| - 1], from, i);
      LaneSampleIs16Bit(dec, lanes[|lanes| - 1], from, i);
    }
  }

  // Up to 65536 lanes the accumulator holds the true sum.
  lemma MixNeverWraps(dec: Decoder, lanes: seq<Lane>, from: Time, n: nat, i: nat)
    requires SoundDecoder(dec) && |lanes| <= 65536 && i < n
    ensures Mixed(dec, lanes, from, n)[i] == Clamp16(Sum(dec, lanes, from, i))
  {
    SumIsBounded(dec, lanes, from, i);
  }

  const LOUD: Lane := [Frame(0, [])]

  lemma {:induction false} LoudSum(n: nat)
    ensures var dec: Decoder := _ => Some([-32768]); var lanes := seq(n, _ => LOUD);
            Sum(dec, lanes, 0, 0) == -32768 * n
  {
    hide LaneSample;
    var dec: Decoder := _ => Some([-32768]);
    var lanes := seq(n, _ => LOUD);
    if n > 0 {
      LoudSum(n - 1);
      assert lanes[..n - 1] == seq(n - 1, _ => LOUD);
      FrameAtTheStart(dec, [], 0, 0);
    }
  }

  // One lane more, and a full-scale sample wraps to the other end of the range.
  lemma OneLaneMoreWraps()
    ensures var dec: Decoder := _ => Some([-32768]); var lanes := seq(65537, _ => LOUD);
            Mixed(dec, lanes, 0, 1)[0] == 32767 && Clamp16(Sum(dec, lanes, 0, 0)) == -32768
  {
    LoudSum(65537);
  }

  // ---- The buffers ------------------------------------------------------------------------------

  datatype Error = TooLarge | Unavailable | DecodeFailed

  // Without a decoder only an empty lane decodes.
  const NO_DECODER: Decoder := _ => None

  function Used(dec: Option<Decoder>): Decoder {
    if dec.Some? then dec.value else NO_DECODER
  }

  predicate Word(x: int) { -0x8000_0000 <= x < 0x8000_0000 }

  // What the lane buffers hold at i: a sample where one was written.
  predicate Holds(sample: int, written: bool, heard: Option<int>) {
    if written then heard == Some(sample) else heard == None
  }

  // Decode the frames and lay each at its place, later frames over earlier ones.
  method LayFrames(lbuf: array<int>, written: array<bool>, frames: Lane, from: Time, dec: Decoder) returns (ok: bool)
    requires lbuf.Length == written.Length && forall i :: 0 <= i < written.Length ==> !written[i]
    modifies lbuf, written
    ensures ok <==> Decodes(dec, frames)
    ensures ok ==> forall i :: 0 <= i < lbuf.Length ==> Holds(lbuf[i], written[i], Heard(dec, frames, from, |frames|, i))
  {
    var runStart, k, history := 0, 0, [];
    for i := 0 to |frames|
      invariant history == Payloads(frames)[..i]
      invariant forall j :: 0 <= j < i ==> Reply(dec, frames, j).Some?
      invariant i > 0 ==> k == i - RunStart(frames, i - 1) && runStart == OffsetSamples(from, frames[RunStart(frames, i - 1)].at)
      invariant forall x :: 0 <= x < lbuf.Length ==> Holds(lbuf[x], written[x], Heard(dec, frames, from, i, x))
    {
      var f := frames[i];
      history := history + [f.opus];
      assert history == Payloads(frames)[..i + 1];
      var r := dec(history);
      assert r == Reply(dec, frames, i);
      if r.None? { return false; }
      var pcm := r.value;
      if i == 0 || f.at - frames[i - 1].at > RUN_GAP {
        runStart, k := OffsetSamples(from, f.at), 0;
      }
      var pos := runStart + k * FRAME_SAMPLES;
      assert pos == Pos(frames, from, i) && pcm == Pcm(dec, frames, i);
      LayFrame(lbuf, written, frames, from, dec, i, pcm, pos);
      k := k + 1;
    }
    ok := true;
  }

  method LayFrame(lbuf: array<int>, written: array<bool>, ghost frames: Lane, ghost from: Time, ghost dec: Decoder, ghost i: nat, pcm: seq<int>, pos: int)
    requires lbuf.Length == written.Length && i < |frames| && pcm == Pcm(dec, frames, i) && pos == Pos(frames, from, i)
    requires forall x :: 0 <= x < lbuf.Length ==> Holds(lbuf[x], written[x], Heard(dec, frames, from, i, x))
    modifies lbuf, written
    ensures forall x :: 0 <= x < lbuf.Length ==> Holds(lbuf[x], written[x], Heard(dec, frames, from, i + 1, x))
  {
    hide Heard, Pos, Pcm;
    for j := 0 to |pcm|
      invariant forall x :: 0 <= x < lbuf.Length ==>
        Holds(lbuf[x], written[x], if pos <= x < pos + j then Some(pcm[x - pos]) else Heard(dec, frames, from, i, x))
    {
      var x := pos + j;
      if x < 0 || x >= lbuf.Length { continue; }
      lbuf[x], written[x] := pcm[j], true;
    }
    forall x | 0 <= x < lbuf.Length ensures Holds(lbuf[x], written[x], Heard(dec, frames, from, i + 1, x)) {
      HeardStep(dec, frames, from, i, x);
    }
  }

  lemma HeardStep(dec: Decoder, fs: Lane, from: Time, i: nat, x: int)
    requires i < |fs|
    ensures var pos, pcm := Pos(fs, from, i), Pcm(dec, fs, i);
            Heard(dec, fs, from, i + 1, x) == if pos <= x < pos + |pcm| then Some(pcm[x - pos]) else Heard(dec, fs, from, i, x)
  {
  }

  // mixLane: decode in time order into a lane buffer, then add what was written.
  method MixLane(accum: array<int>, lane: Lane, from: Time, dec: Option<Decoder>) returns (err: Option<Error>)
    requires forall i :: 0 <= i < accum.Length ==> Word(accum[i])
    modifies accum
    ensures err.None? <==> Decodes(Used(dec), InTimeOrder(lane))
    ensures err.Some? ==> err.value == (if dec.None? then Unavailable else DecodeFailed)
    ensures err.None? ==> forall i :: 0 <= i < accum.Length ==> accum[i] == Wrap32(old(accum[i]) + LaneSample(Used(dec), lane, from, i))
    ensures err.Some? ==> accum[..] == old(accum[..])
  {
    TimeOrderIsStable(lane);
    var frames := InTimeOrder(lane);
    assert |multiset(lane)| == |lane| && |multiset(frames)| == |frames|;
    if |lane| == 0 { return None; }
    if dec.None? {
      assert Reply(NO_DECODER, frames, 0) == None;
      return Some(Unavailable);
    }
    var lbuf := new int[accum.Length](_ => 0);
    var written := new bool[accum.Length](_ => false);
    var ok := LayFrames(lbuf, written, frames, from, dec.value);
    if !ok { return Some(DecodeFailed); }
    Fold(accum, lbuf, written, lane, from, dec.value);
    err := None;
  }

  method Fold(accum: array<int>, lbuf: array<int>, written: array<bool>, ghost lane: Lane, ghost from: Time, ghost dec: Decoder)
    requires accum.Length == lbuf.Length == written.Length && accum != lbuf
    requires forall i :: 0 <= i < accum.Length ==> Word(accum[i])
    requires forall i :: 0 <= i < accum.Length ==> Holds(lbuf[i], written[i], Heard(dec, InTimeOrder(lane), from, |InTimeOrder(lane)|, i))
    modifies accum
    ensures forall i :: 0 <= i < accum.Length ==> accum[i] == Wrap32(old(accum[i]) + LaneSample(dec, lane, from, i))
  {
    hide Heard, InTimeOrder;
    for i := 0 to accum.Length
      invariant forall j :: 0 <= j < accum.Length ==>
        accum[j] == if j < i then Wrap32(old(accum[j]) + LaneSample(dec, lane, from, j)) else old(accum[j])
    {
      if written[i] { accum[i] := Wrap32(accum[i] + lbuf[i]); }
    }
  }

  // The window's samples at the decode rate: every lane added in turn, then narrowed.
  method MixAll(lanes: seq<Lane>, from: Time, dec: Option<Decoder>, n: nat) returns (err: Option<Error>, out: seq<int>)
    ensures err.None? <==> AllDecode(Used(dec), lanes)
    ensures err.Some? ==> err.value == (if dec.None? then Unavailable else DecodeFailed)
    ensures err.None? ==> out == Mixed(Used(dec), lanes, from, n)
  {
    hide Sum, Decodes, LaneSample;
    out := [];
    var accum := new int[n](_ => 0);
    SumOfNone(Used(dec), lanes, from);
    for l := 0 to |lanes|
      invariant fresh(accum) && accum.Length == n
      invariant forall j :: 0 <= j < l ==> Decodes(Used(dec), InTimeOrder(lanes[j]))
      invariant forall i :: 0 <= i < n ==> accum[i] == Wrap32(Sum(Used(dec), lanes[..l], from, i))
    {
      ghost var was := accum[..];
      err := MixLane(accum, lanes[l], from, dec);
      if err.Some? { return; }
      forall i | 0 <= i < n ensures accum[i] == Wrap32(Sum(Used(dec), lanes[..l + 1], from, i)) {
        SumStep(Used(dec), lanes, from, l, i);
        assert was[i] == Wrap32(Sum(Used(dec), lanes[..l], from, i));
      }
    }
    assert lanes[..|lanes|] == lanes;
    out := Narrow(accum);
    err := None;
  }

  lemma SumOfNone(dec: Decoder, lanes: seq<Lane>, from: Time)
    ensures forall i :: Wrap32(Sum(dec, lanes[..0], from, i)) == 0
  {
  }

  lemma SumStep(dec: Decoder, lanes: seq<Lane>, from: Time, l: nat, i: int)
    requires l < |lanes|
    ensures Wrap32(Wrap32(Sum(dec, lanes[..l], from, i)) + LaneSample(dec, lanes[l], from, i)) == Wrap32(Sum(dec, lanes[..l + 1], from, i))
  {
    hide LaneSample;
    assert lanes[..l + 1][..l] == lanes[..l];
  }

  // WAVClip up to the encoding: the samples of the clip. resample stands for the rate converter.
  method Mix(lanes: seq<Lane>, from: Time, to: Time, rate: int, dec: Option<Decoder>, resample: (seq<int>, nat) -> seq<int>)
    returns (err: Option<Error>, out: seq<int>)
    ensures var r := if rate <= 0 then DECODE_RATE else rate;
            && (err == Some(TooLarge) <==> 44 + 2 * SamplesFor(from, to, r) > 33_554_432)
            && (err.None? <==> 44 + 2 * SamplesFor(from, to, r) <= 33_554_432 && AllDecode(Used(dec), lanes))
            && (err.None? ==> |out| == SamplesFor(from, to, r))
            && (err.None? && r != DECODE_RATE ==>
                  out == FitLen(resample(Mixed(Used(dec), lanes, from, SamplesFor(from, to, DECODE_RATE)), r), SamplesFor(from, to, r)))
            && (err.None? && r == DECODE_RATE ==> out == Mixed(Used(dec), lanes, from, SamplesFor(from, to, r)))
  {
    var outRate: nat := if rate <= 0 then DECODE_RATE else rate;
    out := [];
    if 44 + SamplesFor(from, to, outRate) * 2 > MAX_SIZE { return Some(TooLarge), out; }
    var n := SamplesFor(from, to, DECODE_RATE);
    var mixed;
    err, mixed := MixAll(lanes, from, dec, n);
    if err.Some? { return; }
    out := mixed;
    if outRate != DECODE_RATE {
      out := FitLen(resample(mixed, outRate), SamplesFor(from, to, outRate));
    }
  }

  method Narrow(accum: array<int>) returns (out: seq<int>)
    ensures |out| == accum.Length && forall i :: 0 <= i < |out| ==> out[i] == Clamp16(accum[i])
  {
    out := [];
    for i := 0 to accum.Length
      invariant |out| == i && forall j :: 0 <= j < i ==> out[j] == Clamp16(accum[j])
    {
      out := out + [Clamp16(accum[i])];
    }
  }

  // Pad with silence or cut to exactly n samples.
  function FitLen(s: seq<int>, n: nat): (r: seq<int>)
    ensures |r| == n && forall i :: 0 <= i < n ==> r[i] == if i < |s| then s[i] else 0
  {
    if |s| >= n then s[..n] else s + seq(n - |s|, _ => 0)
  }
}
