/** `clone_voice.py`: the recording is cut into 20-second chunks, chunks shorter than
    5 seconds are dropped, the rest are exported as numbered segment files into the voice
    samples directory, and a test sentence is generated with four attempts of falling
    quality. Durations are whole milliseconds, as pydub measures them. */
module CloneVoice {
  import opened Wrappers
  import opened Text
  import opened Synthesis

  const SegmentLength: nat := 20000
  const MinSegmentLength: nat := 5000
  const SamplesDir := "voice_samples"
  const OutputFile := "high_quality_voice.wav"

  /** `long_audio[start:start + 20000]`: where it starts and how long it is. */
  datatype Chunk = Chunk(start: nat, length: nat)

  /** The slice at `start` of a recording `total` milliseconds long: a full segment, or
      what remains of the recording. */
  function Slice(total: nat, start: nat): (c: Chunk)
    ensures c.start == start && c.length <= SegmentLength
    ensures start + SegmentLength <= total ==> c.length == SegmentLength
    ensures start <= total ==> start + c.length <= total
  {
    Chunk(start, if start >= total then 0 else if total - start < SegmentLength then total - start else SegmentLength)
  }

  /** `len(range(0, total, 20000))` */
  function OffsetCount(total: nat): nat
  {
    (total + SegmentLength - 1) / SegmentLength
  }

  /** The chunks kept among the first `n` offsets 0, 20000, 40000, ... */
  function ChunksBelow(total: nat, n: nat): seq<Chunk>
  {
    if n == 0 then []
    else
      var c := Slice(total, SegmentLength * (n - 1));
      ChunksBelow(total, n - 1) + (if c.length >= MinSegmentLength then [c] else [])
  }

  /** The chunks the splitting loop keeps. */
  function KeptChunks(total: nat): seq<Chunk>
  {
    ChunksBelow(total, OffsetCount(total))
  }

  /** The splitting loop: one slice per offset, kept when at least 5 seconds long. */
  method SplitIntoChunks(total: nat) returns (chunks: seq<Chunk>)
    ensures chunks == KeptChunks(total)
  {
    chunks := [];
    for n := 0 to OffsetCount(total)
      invariant chunks == ChunksBelow(total, n)
    {
      var chunk := Slice(total, SegmentLength * n);
      if chunk.length >= MinSegmentLength {
        chunks := chunks + [chunk];
      }
    }
  }

  /** Below the last full segment every offset gives a full, kept chunk. */
  lemma {:induction false} FullChunks(total: nat, n: nat)
    requires SegmentLength * n <= total
    ensures |ChunksBelow(total, n)| == n
    ensures forall j | 0 <= j < n :: ChunksBelow(total, n)[j] == Chunk(SegmentLength * j, SegmentLength)
    decreases n
  {
    if n > 0 {
      FullChunks(total, n - 1);
      var c := Slice(total, SegmentLength * (n - 1));
      assert c == Chunk(SegmentLength * (n - 1), SegmentLength);
      assert ChunksBelow(total, n) == ChunksBelow(total, n - 1) + [c];
    }
  }

  /** The kept chunks are the full segments followed by the remainder when that is at
      least 5 seconds long. */
  lemma KeptChunksShape(total: nat)
    ensures var q := total / SegmentLength;
            var rest := total % SegmentLength;
            KeptChunks(total) == ChunksBelow(total, q)
                                 + (if rest >= MinSegmentLength then [Chunk(SegmentLength * q, rest)] else [])
  {
    var q := total / SegmentLength;
    var rest := total % SegmentLength;
    assert total == SegmentLength * q + rest;
    if rest == 0 {
      assert OffsetCount(total) == q;
    } else {
      assert OffsetCount(total) == q + 1;
      assert Slice(total, SegmentLength * q) == Chunk(SegmentLength * q, rest);
    }
  }

  /** `floor(total / 20000)` chunks, plus one when the remainder is at least 5 seconds. */
  lemma ChunkCount(total: nat)
    ensures |KeptChunks(total)| == total / SegmentLength + (if total % SegmentLength >= MinSegmentLength then 1 else 0)
  {
    KeptChunksShape(total);
    FullChunks(total, total / SegmentLength);
  }

  /** Chunk `j` starts at `20000 * j`, lies inside the recording, is between 5 and 20
      seconds long, and only the last one can be shorter than 20 seconds; so the chunks
      are in order and follow one another without gaps. */
  lemma ChunkLayout(total: nat)
    ensures var c := KeptChunks(total);
      && (forall j | 0 <= j < |c| ::
            c[j].start == SegmentLength * j && c[j].start + c[j].length <= total
            && MinSegmentLength <= c[j].length <= SegmentLength)
      && (forall j | 0 <= j < |c| - 1 :: c[j].length == SegmentLength)
  {
    var q := total / SegmentLength;
    KeptChunksShape(total);
    FullChunks(total, q);
    var c := KeptChunks(total);
    var full := ChunksBelow(total, q);
    forall j | 0 <= j < |c|
      ensures c[j].start == SegmentLength * j && c[j].start + c[j].length <= total
              && MinSegmentLength <= c[j].length <= SegmentLength
    {
      if j < q {
        assert c[j] == full[j];
      } else {
        assert c[j] == Chunk(SegmentLength * q, total % SegmentLength);
      }
    }
    forall j | 0 <= j < |c| - 1
      ensures c[j].length == SegmentLength
    {
      assert c[j] == full[j];
    }
  }

  // ---------------------------------------------------------------------------------------
  // Segment files

  /** `segment_{i:03d}.wav`, the name under which segment `i` is listed. */
  function SegmentFile(i: nat): (r: string)
    ensures IsWav(r) && IsPrefix("segment_", r)
  {
    "segment_" + Pad3(i) + ".wav"
  }

  /** Different segments get different names: the padded index reads back as `i`. */
  lemma SegmentFilesDistinct(i: nat, j: nat)
    requires i != j
    ensures SegmentFile(i) != SegmentFile(j)
  {
    var a := SegmentFile(i);
    var b := SegmentFile(j);
    assert a[8..|a| - 4] == Pad3(i);
    assert b[8..|b| - 4] == Pad3(j);
  }

  /** `f"{output_dir}/segment_{i:03d}.wav"`, the path segment `i` is exported to. */
  function SegmentPath(i: nat): string
  {
    SamplesDir + "/" + SegmentFile(i)
  }

  /** The export loop: chunk `i` is written to the `i`-th segment path. */
  method ExportSegments(chunks: seq<Chunk>) returns (paths: seq<string>)
    ensures |paths| == |chunks|
    ensures forall i | 0 <= i < |paths| :: paths[i] == SegmentPath(i)
  {
    paths := [];
    for i := 0 to |chunks|
      invariant |paths| == i
      invariant forall k | 0 <= k < i :: paths[k] == SegmentPath(k)
    {
      paths := paths + [SegmentPath(i)];
    }
  }

  /** Each exported segment is among the samples loaded back from the directory: its
      listed name is a `.wav` file, and joining it to the directory gives its path. */
  lemma ExportedSegmentLoaded(files: seq<string>, i: nat)
    requires SegmentFile(i) in files
    ensures SegmentFile(i) in WavFiles(files)
    ensures JoinPath(SamplesDir, SegmentFile(i)) == SegmentPath(i)
  {
    WavFilesComplete(files, SegmentFile(i));
    assert SegmentFile(i)[0] == 's';
    assert !IsPrefix("/", SegmentFile(i));
    assert !IsSuffix("/", SamplesDir);
  }

  // ---------------------------------------------------------------------------------------
  // Generation

  /** The four attempts in order: the "high_quality" preset; k 6, 200 diffusion
      iterations, 256 autoregressive samples with the tuned sampling arguments; k 4 with
      128 samples; the library defaults. */
  const Plan: seq<Attempt> :=
    [WithPreset("high_quality"), Manual(6, Some(200), 256, true), Manual(4, None, 128, false), Basic]

  /** The script after the recording has been read (`loaded` is its length, `None` when
      pydub cannot read it): the chunks are split and exported, the voice directory is
      loaded back, and the four attempts run. Exit 1 when the recording cannot be read
      (nothing is exported) or when all four attempts raise; otherwise the reshaped
      audio is written to `high_quality_voice.wav`. */
  method Clone(loaded: Option<nat>, listing: seq<string>, synth: Attempt -> Option<Shape>)
    returns (exitCode: int, exported: seq<string>, samples: seq<string>, tried: seq<Attempt>,
             written: Option<(string, Shape)>)
    ensures loaded.None? ==> exitCode == 1 && exported == [] && samples == [] && tried == [] && written.None?
    ensures loaded.Some? ==>
      && |exported| == |KeptChunks(loaded.value)|
      && (forall i | 0 <= i < |exported| :: exported[i] == SegmentPath(i))
      && samples == LoadedFrom(SamplesDir, WavFiles(listing))
      && tried == RunCascade(Plan, synth).tried
      && (exitCode == 1 <==> forall j | 0 <= j < |Plan| :: synth(Plan[j]).None?)
      && (exitCode == 0 <==> written.Some?)
      && (written.Some? ==> written.value == (OutputFile, Reshape(RunCascade(Plan, synth).audio.value)))
  {
    if loaded.None? {
      return 1, [], [], [], None;
    }
    var chunks := SplitIntoChunks(loaded.value);
    exported := ExportSegments(chunks);
    samples := LoadVoiceSamples(SamplesDir, listing);
    var g := RunCascade(Plan, synth);
    CascadeFailsIffAllFail(Plan, synth);
    tried := g.tried;
    if g.audio.None? {
      exitCode, written := 1, None;
    } else {
      exitCode, written := 0, Some((OutputFile, Reshape(g.audio.value)));
    }
  }
}
