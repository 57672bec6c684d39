/** What the Python scripts around Tortoise share: the attempts made at synthesis and the
    order in which they fall back on one another, the rank rule that flattens the generated
    tensor, POSIX `os.path.join`, and the loop that collects the `.wav` voice samples of a
    directory.

    The synthesis itself is a parameter `synth: Attempt -> Option<Shape>`: the shape of
    the tensor an attempt returns, or `None` when it raises. */
module Synthesis {
  import opened Wrappers
  import opened Text

  /** The dimensions of a tensor. */
  type Shape = seq<nat>

  /** One call into Tortoise: `tts_with_preset` with a preset name, `tts` with explicit
      `k`, diffusion iterations (absent when the call leaves the library default) and
      autoregressive sample count, or `tts` with nothing but the text and the samples.
      `tuned` records the extra sampling arguments (temperature, penalties, `top_p`)
      that one attempt passes; their floating-point values are not modelled. */
  datatype Attempt =
    | WithPreset(preset: string)
    | Manual(k: nat, diffusionIterations: Option<nat>, autoregressiveSamples: nat, tuned: bool)
    | Basic

  /** The attempts made, in order, and the audio the last one produced. */
  datatype Generation = Generation(tried: seq<Attempt>, audio: Option<Shape>)

  /** A nested `try`/`except` cascade: each attempt runs only when every attempt before
      it raised, and the first that returns ends the cascade. */
  function RunCascade(plan: seq<Attempt>, synth: Attempt -> Option<Shape>): (r: Generation)
    ensures |r.tried| <= |plan| && r.tried == plan[..|r.tried|]
    ensures forall j | 0 <= j < |r.tried| - 1 :: synth(r.tried[j]).None?
    ensures r.audio.Some? ==> |r.tried| > 0 && r.audio == synth(r.tried[|r.tried| - 1])
    ensures r.audio.None? ==> r.tried == plan && forall j | 0 <= j < |plan| :: synth(plan[j]).None?
    decreases |plan|
  {
    if plan == [] then Generation([], None)
    else match synth(plan[0])
      case Some(a) => Generation([plan[0]], Some(a))
      case None =>
        var rest := RunCascade(plan[1..], synth);
        Generation([plan[0]] + rest.tried, rest.audio)
  }

  /** The cascade fails exactly when every planned attempt raises. */
  lemma CascadeFailsIffAllFail(plan: seq<Attempt>, synth: Attempt -> Option<Shape>)
    ensures RunCascade(plan, synth).audio.None? <==> forall j | 0 <= j < |plan| :: synth(plan[j]).None?
  {
    var r := RunCascade(plan, synth);
    if r.audio.Some? {
      var last := |r.tried| - 1;
      assert plan[last] == r.tried[last];
    }
  }

  // ---------------------------------------------------------------------------------------
  // Flattening the generated tensor

  /** The number of elements of a tensor of this shape. */
  function Elements(s: Shape): nat
  {
    if s == [] then 1 else s[0] * Elements(s[1..])
  }

  /** `tensor.squeeze()`: every dimension of size 1 is dropped, the others keep their order. */
  function SqueezeAll(s: Shape): (r: Shape)
    ensures |r| <= |s|
    ensures forall i | 0 <= i < |r| :: r[i] != 1
    ensures forall i | 0 <= i < |r| :: r[i] in s
    decreases |s|
  {
    if s == [] then []
    else (if s[0] == 1 then [] else [s[0]]) + SqueezeAll(s[1..])
  }

  /** Dropping the dimensions of size 1 leaves the number of elements alone. */
  lemma {:induction false} SqueezeAllKeepsElements(s: Shape)
    ensures Elements(SqueezeAll(s)) == Elements(s)
    decreases |s|
  {
    if s != [] {
      SqueezeAllKeepsElements(s[1..]);
      var rest := SqueezeAll(s[1..]);
      if s[0] != 1 {
        assert SqueezeAll(s) == [s[0]] + rest;
        assert ([s[0]] + rest)[1..] == rest;
      } else {
        assert SqueezeAll(s) == rest;
      }
    }
  }

  /** A shape without dimensions of size 1 is left as it is. */
  lemma {:induction false} SqueezeAllNoOnes(s: Shape)
    requires forall i | 0 <= i < |s| :: s[i] != 1
    ensures SqueezeAll(s) == s
    decreases |s|
  {
    if s != [] {
      SqueezeAllNoOnes(s[1..]);
      assert [s[0]] + s[1..] == s;
    }
  }

  /** `tensor.squeeze(0)`: the first dimension is dropped when its size is 1. */
  function SqueezeFirst(s: Shape): (r: Shape)
    ensures |s| > 0 && s[0] == 1 ==> |r| == |s| - 1 && r == s[1..]
    ensures !(|s| > 0 && s[0] == 1) ==> r == s
  {
    if |s| > 0 && s[0] == 1 then s[1..] else s
  }

  /** The shape rule both scripts apply before writing: a rank-3 tensor is fully squeezed,
      a rank-2 tensor is squeezed on dimension 0, any other rank is kept. */
  function Reshape(s: Shape): (r: Shape)
    ensures |r| <= |s|
    ensures |s| == 3 ==> forall i | 0 <= i < |r| :: r[i] != 1
    ensures |s| == 2 ==> r == (if s[0] == 1 then [s[1]] else s)
    ensures |s| != 2 && |s| != 3 ==> r == s
  {
    if |s| == 3 then SqueezeAll(s)
    else if |s| == 2 then SqueezeFirst(s)
    else s
  }

  /** The usual outputs `[1, 1, n]` and `[1, n]` both become the one-dimensional `[n]`, and a
      rank-3 tensor loses inner dimensions of size 1 too. */
  lemma ReshapeFlattens(n: nat)
    requires n != 1
    ensures Reshape([1, 1, n]) == [n]
    ensures Reshape([1, n]) == [n]
    ensures Reshape([n]) == [n]
    ensures Reshape([n, 1, n]) == [n, n]
  {
    assert SqueezeAll([n]) == [n] by { assert SqueezeAll([n][1..]) == []; }
    assert SqueezeAll([1, n]) == [n] by { assert [1, n][1..] == [n]; }
    assert SqueezeAll([1, 1, n]) == [n] by { assert [1, 1, n][1..] == [1, n]; }
    assert SqueezeAll([1, n]) == [n] by { assert [1, n][1..] == [n]; }
    assert SqueezeAll([n, 1, n]) == [n, n] by {
      assert [n, 1, n][1..] == [1, n];
    }
  }

  /** Reshaping never changes how many samples the audio holds. */
  lemma ReshapeKeepsElements(s: Shape)
    ensures Elements(Reshape(s)) == Elements(s)
  {
    if |s| == 3 {
      SqueezeAllKeepsElements(s);
    } else if |s| == 2 && s[0] == 1 {
      assert Elements(s) == 1 * Elements(s[1..]);
    }
  }

  /** Reshaping an already reshaped tensor changes nothing. */
  lemma ReshapeIdempotent(s: Shape)
    ensures Reshape(Reshape(s)) == Reshape(s)
  {
    var r := Reshape(s);
    if |s| == 3 && |r| == 3 {
      SqueezeAllNoOnes(r);
    }
  }

  // ---------------------------------------------------------------------------------------
  // Paths and voice samples

  /** POSIX `os.path.join(a, b)`: an absolute `b` replaces `a`; otherwise `b` is appended,
      with a `/` in between unless `a` is empty or already ends in one. */
  function JoinPath(a: string, b: string): (r: string)
    ensures IsPrefix("/", b) ==> r == b
    ensures !IsPrefix("/", b) ==> IsPrefix(a, r) && IsSuffix(b, r) && |r| <= |a| + 1 + |b|
    ensures !IsPrefix("/", b) && a != "" && !IsSuffix("/", a) ==> r == a + "/" + b
    ensures !IsPrefix("/", b) && (a == "" || IsSuffix("/", a)) ==> r == a + b
  {
    if IsPrefix("/", b) then b
    else if a == "" || IsSuffix("/", a) then a + b
    else a + "/" + b
  }

  /** `file.endswith(".wav")` */
  predicate IsWav(name: string)
  {
    IsSuffix(".wav", name)
  }

  /** The `.wav` files of a directory listing, in listing order. */
  function WavFiles(files: seq<string>): (r: seq<string>)
    ensures |r| <= |files|
    ensures forall x | x in r :: x in files && IsWav(x)
    decreases |files|
  {
    if files == [] then []
    else
      var last := files[|files| - 1];
      WavFiles(files[..|files| - 1]) + (if IsWav(last) then [last] else [])
  }

  /** Every listed `.wav` file is kept. */
  lemma {:induction false} WavFilesComplete(files: seq<string>, x: string)
    requires x in files && IsWav(x)
    ensures x in WavFiles(files)
    decreases |files|
  {
    var init := files[..|files| - 1];
    if x != files[|files| - 1] {
      assert files == init + [files[|files| - 1]];
      WavFilesComplete(init, x);
    }
  }

  lemma WavFilesStep(files: seq<string>, n: nat)
    requires n < |files|
    ensures WavFiles(files[..n + 1]) == WavFiles(files[..n]) + (if IsWav(files[n]) then [files[n]] else [])
  {
    assert files[..n + 1][..n] == files[..n];
  }

  /** The paths the named files are loaded from, in order. */
  function LoadedFrom(dir: string, names: seq<string>): (r: seq<string>)
    ensures |r| == |names|
    ensures forall i | 0 <= i < |r| :: r[i] == JoinPath(dir, names[i])
  {
    seq(|names|, i requires 0 <= i < |names| => JoinPath(dir, names[i]))
  }

  lemma LoadedFromSnoc(dir: string, names: seq<string>, x: string)
    ensures LoadedFrom(dir, names + [x]) == LoadedFrom(dir, names) + [JoinPath(dir, x)]
  {
  }

  /** The loop that loads a voice directory: each listed `.wav` file, in listing order, is
      loaded from its joined path (the audio arrays are represented by those paths). */
  method LoadVoiceSamples(dir: string, files: seq<string>) returns (samples: seq<string>)
    ensures samples == LoadedFrom(dir, WavFiles(files))
  {
    samples := [];
    for n := 0 to |files|
      invariant samples == LoadedFrom(dir, WavFiles(files[..n]))
    {
      WavFilesStep(files, n);
      if IsWav(files[n]) {
        LoadedFromSnoc(dir, WavFiles(files[..n]), files[n]);
        samples := samples + [JoinPath(dir, files[n])];
      } else {
        assert WavFiles(files[..n]) + [] == WavFiles(files[..n]);
      }
    }
    assert files[..|files|] == files;
  }
}
