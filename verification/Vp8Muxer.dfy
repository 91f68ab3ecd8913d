/** The RTP to WebM writer for VP8: nothing before the first key frame, the frame size of that key frame, and block
    timecodes in whole milliseconds. */
module Vp8Muxers {
  import opened Wrappers

  type Byte = bv8

  // A sample assembled from packets; the duration is in nanoseconds.
  datatype Sample = Sample(data: seq<Byte>, duration: int)

  // A packet handed to Write: whether it parses, and the sample that the builder has ready after it, if any.
  datatype Input = Input(parses: bool, sample: Option<Sample>)

  datatype Track = Track(width: bv32, height: bv32)

  datatype Block = Block(keyframe: bool, timecode: int, data: seq<Byte>)

  // Panicked: the sample is too short for the bytes the writer reads.
  datatype WriteResult = Written | UnmarshalError | EmptySampleError | UnableInitWebmBuilder | Panicked

  datatype Muxer = Muxer(track: Option<Track>, timestamp: int, blocks: seq<Block>)

  const MILLISECOND := 1_000_000

  predicate IsKeyframe(data: seq<Byte>)
    requires |data| > 0
  {
    data[0] & 1 == 0
  }

  function RawSize(data: seq<Byte>): bv32
    requires |data| >= 10
  {
    (data[6] as bv32) | ((data[7] as bv32) << 8) | ((data[8] as bv32) << 16) | ((data[9] as bv32) << 24)
  }

  function TrackOf(data: seq<Byte>): Track
    requires |data| >= 10
  {
    var raw := RawSize(data);
    Track(raw & 0x3FFF, (raw >> 16) & 0x3FFF)
  }

  // Go divides towards zero.
  function Quotient(a: int, b: int): int
    requires b > 0
  {
    if a >= 0 then a / b else -((-a) / b)
  }

  // ---------- Frame size ----------

  // Bytes 6 to 9 of a key frame as section 9.1 of RFC 6386 lays them out: two little-endian 16-bit fields, each with a
  // 2-bit scale above a 14-bit size.
  function SizeBytes(width: bv16, horizontalScale: bv16, height: bv16, verticalScale: bv16): seq<Byte> {
    var horizontal := (horizontalScale << 14) | width;
    var vertical := (verticalScale << 14) | height;
    [(horizontal & 0xFF) as Byte, (horizontal >> 8) as Byte, (vertical & 0xFF) as Byte, (vertical >> 8) as Byte]
  }

  // The writer recovers width and height exactly, whatever the scales.
  lemma SizeRoundTrip(data: seq<Byte>, width: bv16, horizontalScale: bv16, height: bv16, verticalScale: bv16)
    requires width < 0x4000 && height < 0x4000 && horizontalScale < 4 && verticalScale < 4
    requires |data| >= 10 && data[6..10] == SizeBytes(width, horizontalScale, height, verticalScale)
    ensures TrackOf(data) == Track(width as bv32, height as bv32)
  {
    var bytes := SizeBytes(width, horizontalScale, height, verticalScale);
    assert data[6] == bytes[0] && data[7] == bytes[1] && data[8] == bytes[2] && data[9] == bytes[3];
  }

  // ---------- Writing ----------

  function WriteSpec(m: Muxer, input: Input): (Muxer, WriteResult) {
    if !input.parses then (m, UnmarshalError)
    else if input.sample.None? then (m, EmptySampleError)
    else
      var sample := input.sample.value;
      if sample.data == [] then (m, Panicked)
      else if m.track.None? && !IsKeyframe(sample.data) then (m, UnableInitWebmBuilder)
      else if m.track.None? && |sample.data| < 10 then (m, Panicked)
      else
        var track := if m.track.None? then TrackOf(sample.data) else m.track.value;
        var timestamp := m.timestamp + sample.duration;
        (Muxer(Some(track), timestamp,
               m.blocks + [Block(IsKeyframe(sample.data), Quotient(timestamp, MILLISECOND), sample.data)]),
         Written)
  }

  class RtpToWebmVP8MuxWriter {
    var webmBuilder: Option<Track>
    var timestamp: int
    var blocks: seq<Block>

    function State(): Muxer
      reads this
    {
      Muxer(webmBuilder, timestamp, blocks)
    }

    constructor ()
      ensures State() == Muxer(None, 0, [])
    {
      webmBuilder, timestamp, blocks := None, 0, [];
    }

    method Write(input: Input) returns (r: WriteResult)
      modifies this
      ensures (State(), r) == WriteSpec(old(State()), input)
    {
      if !input.parses {
        return UnmarshalError;
      }
      if input.sample.None? {
        return EmptySampleError;
      }
      var data := input.sample.value.data;
      if |data| < 1 {
        return Panicked;
      }
      var videoKeyframe := IsKeyframe(data);
      if webmBuilder.None? {
        if !videoKeyframe {
          return UnableInitWebmBuilder;
        }
        if |data| < 10 {
          return Panicked;
        }
        webmBuilder := Some(TrackOf(data));
      }
      timestamp := timestamp + input.sample.value.duration;
      blocks := blocks + [Block(videoKeyframe, Quotient(timestamp, MILLISECOND), data)];
      return Written;
    }
  }

  // A key frame has an even first byte: its lowest bit is 0, as in section 9.1 of RFC 6386.
  lemma KeyframesAreEven(data: seq<Byte>)
    requires |data| > 0
    ensures IsKeyframe(data) <==> (data[0] as int) % 2 == 0
  {
  }

  // What one write answers, exactly. A file begins with the first sample that has an even first byte and the ten bytes
  // of a key frame header; from then on every sample that is not empty is written.
  lemma WriteDecides(m: Muxer, input: Input)
    ensures var (after, r) := WriteSpec(m, input);
            var ready := input.parses && input.sample.Some?;
            && (r == UnmarshalError <==> !input.parses)
            && (r == EmptySampleError <==> input.parses && input.sample.None?)
            && (r == UnableInitWebmBuilder <==>
                  ready && input.sample.value.data != [] && m.track.None?
                      && (input.sample.value.data[0] as int) % 2 == 1)
            && (r == Panicked <==>
                  ready && (input.sample.value.data == []
                            || (m.track.None? && (input.sample.value.data[0] as int) % 2 == 0
                                && |input.sample.value.data| < 10)))
            && (r == Written <==>
                  ready && input.sample.value.data != []
                  && (m.track.None? ==>
                        |input.sample.value.data| >= 10 && (input.sample.value.data[0] as int) % 2 == 0))
            && (r != Written ==> after == m)
  {
    if input.sample.Some? && input.sample.value.data != [] {
      KeyframesAreEven(input.sample.value.data);
    }
  }

  // ---------- Any sequence of packets ----------

  function Feed(inputs: seq<Input>): Muxer {
    if inputs == [] then Muxer(None, 0, [])
    else WriteSpec(Feed(inputs[..|inputs| - 1]), inputs[|inputs| - 1]).0
  }

  // The samples the packets yield.
  function Samples(inputs: seq<Input>): seq<Sample> {
    if inputs == [] then []
    else
      var last := inputs[|inputs| - 1];
      Samples(inputs[..|inputs| - 1])
      + if last.parses && last.sample.Some? && last.sample.value.data != [] then [last.sample.value] else []
  }

  // A key frame whose header the writer can read.
  predicate CanStart(s: Sample) {
    |s.data| >= 10 && (s.data[0] as int) % 2 == 0
  }

  // The number of samples before the first that can start the file.
  function Prefix(samples: seq<Sample>): (n: nat)
    ensures n <= |samples|
    ensures n < |samples| ==> CanStart(samples[n])
    ensures forall i :: 0 <= i < n ==> !CanStart(samples[i])
  {
    if samples == [] || CanStart(samples[0]) then 0 else 1 + Prefix(samples[1..])
  }

  function Total(samples: seq<Sample>): int {
    if samples == [] then 0 else Total(samples[..|samples| - 1]) + samples[|samples| - 1].duration
  }

  // The samples the file keeps: all from the first that can start it.
  function Kept(samples: seq<Sample>): seq<Sample> {
    samples[Prefix(samples)..]
  }

  // The time at which sample k ends: the exact sum of the durations up to and with it.
  function EndOf(kept: seq<Sample>, k: nat): int
    requires k < |kept|
  {
    Total(kept[..k + 1])
  }

  predicate IsBlockOf(block: Block, sample: Sample, end: int) {
    && sample.data != []
    && block.data == sample.data
    && (block.keyframe <==> (sample.data[0] as int) % 2 == 0)
    && block.timecode == Quotient(end, 1_000_000)
  }

  // What the blocks must be for the samples that are kept.
  ghost predicate BlocksFor(blocks: seq<Block>, kept: seq<Sample>) {
    && |blocks| == |kept|
    && forall k :: 0 <= k < |kept| ==> IsBlockOf(blocks[k], kept[k], EndOf(kept, k))
  }

  // The track is that of the first kept sample.
  ghost predicate TrackFor(track: Option<Track>, kept: seq<Sample>) {
    if kept == [] then track.None? else CanStart(kept[0]) && track == Some(TrackOf(kept[0].data))
  }

  // The writer's state is the one that these samples call for.
  ghost predicate Writes(m: Muxer, samples: seq<Sample>) {
    var kept := Kept(samples);
    BlocksFor(m.blocks, kept) && m.timestamp == Total(kept) && TrackFor(m.track, kept)
  }

  lemma PrefixGrows(samples: seq<Sample>, s: Sample)
    ensures Prefix(samples + [s])
            == if Prefix(samples) < |samples| || CanStart(s) then Prefix(samples) else |samples| + 1
  {
    var n := Prefix(samples + [s]);
    var m := Prefix(samples);
    assert forall i :: 0 <= i < |samples| ==> (samples + [s])[i] == samples[i];
    if m < |samples| {
      assert CanStart((samples + [s])[m]);
    } else if CanStart(s) {
      assert CanStart((samples + [s])[|samples|]);
    }
  }

  lemma KeptGrows(samples: seq<Sample>, s: Sample)
    ensures Kept(samples + [s]) == if Kept(samples) != [] || CanStart(s) then Kept(samples) + [s] else []
  {
    PrefixGrows(samples, s);
  }

  lemma BlocksGrow(blocks: seq<Block>, kept: seq<Sample>, block: Block, s: Sample)
    requires BlocksFor(blocks, kept) && IsBlockOf(block, s, Total(kept) + s.duration)
    ensures BlocksFor(blocks + [block], kept + [s]) && Total(kept + [s]) == Total(kept) + s.duration
  {
    hide IsBlockOf;
    var more := kept + [s];
    assert more[..|kept|] == kept && more[..|more|] == more;
    forall k | 0 <= k < |more| ensures IsBlockOf((blocks + [block])[k], more[k], EndOf(more, k)) {
      if k < |kept| {
        assert more[..k + 1] == kept[..k + 1];
      }
    }
  }

  // One write of a sample that the builder has ready.
  lemma SampleKeeps(m: Muxer, samples: seq<Sample>, input: Input)
    requires Writes(m, samples) && input.parses && input.sample.Some? && input.sample.value.data != []
    ensures Writes(WriteSpec(m, input).0, samples + [input.sample.value])
  {
    hide RawSize, TrackOf, Quotient, Prefix, IsKeyframe, Total, EndOf;
    var s := input.sample.value;
    var kept := Kept(samples);
    KeptGrows(samples, s);
    KeyframesAreEven(s.data);
    if kept != [] || CanStart(s) {
      var m' := WriteSpec(m, input).0;
      var block := m'.blocks[|m.blocks|];
      BlocksGrow(m.blocks, kept, block, s);
    }
  }

  // The emitted blocks are exactly the samples with the prefix before the first key frame dropped, in order, each with
  // the exact sum of durations, in milliseconds, as its timecode; the track keeps the size of that key frame.
  lemma {:induction false} EmittedBlocks(inputs: seq<Input>)
    ensures Writes(Feed(inputs), Samples(inputs))
  {
    hide Writes, WriteSpec;
    if inputs == [] {
      NothingWritten();
    } else {
      var before, last := inputs[..|inputs| - 1], inputs[|inputs| - 1];
      EmittedBlocks(before);
      if last.parses && last.sample.Some? && last.sample.value.data != [] {
        SampleKeeps(Feed(before), Samples(before), last);
      } else {
        NoSampleNoChange(Feed(before), last);
        assert Samples(inputs) == Samples(before);
      }
    }
  }

  lemma NothingWritten()
    ensures Writes(Muxer(None, 0, []), [])
  {
  }

  lemma NoSampleNoChange(m: Muxer, input: Input)
    requires !input.parses || input.sample.None? || input.sample.value.data == []
    ensures WriteSpec(m, input).0 == m
  {
  }

  // Each timecode is the exact time of its block in milliseconds, rounded towards zero whatever the durations: no
  // rounding error accumulates.
  lemma TimecodesAreExact(inputs: seq<Input>, k: nat)
    requires k < |Feed(inputs).blocks|
    ensures var kept, blocks := Kept(Samples(inputs)), Feed(inputs).blocks;
            && |blocks| == |kept|
            && (EndOf(kept, k) >= 0 ==>
                  0 <= blocks[k].timecode * 1_000_000 <= EndOf(kept, k) < (blocks[k].timecode + 1) * 1_000_000)
            && (EndOf(kept, k) <= 0 ==>
                  (blocks[k].timecode - 1) * 1_000_000 < EndOf(kept, k) <= blocks[k].timecode * 1_000_000 <= 0)
  {
    hide Writes, BlocksFor, Quotient, Feed, Samples, Total;
    EmittedBlocks(inputs);
    TimecodeOf(Feed(inputs), Samples(inputs), k);
    RoundsTowardsZero(EndOf(Kept(Samples(inputs)), k));
  }

  lemma TimecodeOf(m: Muxer, samples: seq<Sample>, k: nat)
    requires Writes(m, samples) && k < |m.blocks|
    ensures |m.blocks| == |Kept(samples)| && m.blocks[k].timecode == Quotient(EndOf(Kept(samples), k), 1_000_000)
  {
    hide Quotient, Prefix, Total;
    assert IsBlockOf(m.blocks[k], Kept(samples)[k], EndOf(Kept(samples), k));
  }

  lemma RoundsTowardsZero(a: int)
    ensures var q := Quotient(a, 1_000_000);
            && (a >= 0 ==> 0 <= q * 1_000_000 <= a < (q + 1) * 1_000_000)
            && (a <= 0 ==> (q - 1) * 1_000_000 < a <= q * 1_000_000 <= 0)
  {
  }

  // With no negative duration, timecodes never go back.
  lemma TimecodesNeverGoBack(inputs: seq<Input>, k: nat)
    requires forall i :: 0 <= i < |Samples(inputs)| ==> Samples(inputs)[i].duration >= 0
    requires 0 < k < |Feed(inputs).blocks|
    ensures 0 <= Feed(inputs).blocks[k - 1].timecode <= Feed(inputs).blocks[k].timecode
  {
    EmittedBlocks(inputs);
    var kept := Kept(Samples(inputs));
    TotalGrows(kept, k);
    TotalGrows(kept, k - 1);
  }

  lemma {:induction false} TotalGrows(samples: seq<Sample>, k: nat)
    requires k < |samples| && forall i :: 0 <= i < |samples| ==> samples[i].duration >= 0
    ensures 0 <= Total(samples[..k]) <= EndOf(samples, k)
  {
    assert samples[..k + 1][..k] == samples[..k];
    if k > 0 {
      TotalGrows(samples, k - 1);
    }
  }

  // The first block is a key frame, and the file has its size from the first write to the last.
  lemma FirstBlockIsKeyframe(inputs: seq<Input>)
    requires Feed(inputs).blocks != []
    ensures var first := Feed(inputs).blocks[0];
            && first.keyframe && |first.data| >= 10 && (first.data[0] as int) % 2 == 0
            && Feed(inputs).track == Some(TrackOf(first.data))
  {
    EmittedBlocks(inputs);
  }
}
