/**
 * The pattern table of the e-stim toys (toys/estim/estim.py, `Estim.load_patterns`).
 *
 * The JSON files are abstracted: `index` is the parsed pattern_dict.json, mapping each pattern
 * name to the list of pattern files it is made of, and `files` maps the name of every pattern file
 * that can be opened and parsed to the list of frames it holds. A file name missing from `files`
 * stands for a file whose `open` or `json.loads` raises.
 */
module Estim {
  import opened Wrappers

  /** One `[pulse, pause, amplitude]` state of a pattern. */
  datatype Frame = Frame(pulse: int, pause: int, amplitude: int)

  /**
   * A value of the pattern table. Entries loaded from files are lists of frames; the built-in
   * entry under "" is a list of two patterns, that is, a list of lists of frames.
   */
  datatype Entry = Frames(frames: seq<Frame>) | Alternatives(patterns: seq<seq<Frame>>)

  /** The exception `load_patterns` raises: a referenced pattern file cannot be read. */
  datatype LoadError = MissingFile(file: string)

  /** A frame inside the input ranges of encode_pattern. */
  predicate Encodable(f: Frame)
  {
    0 <= f.pulse < 32 && 0 <= f.pause < 1024 && 0 <= f.amplitude < 32
  }

  /** Built-in pattern: 10 ms pulse, 90 ms pause, amplitude 10. */
  const SimplePattern: seq<Frame> := [Frame(10, 90, 10)]

  /** Built-in pattern of 20 states with shrinking pauses. */
  const VariedPattern: seq<Frame> :=
    [Frame(5, 135, 20), Frame(5, 135, 20), Frame(5, 135, 20), Frame(5, 135, 20), Frame(5, 135, 20),
     Frame(5, 135, 20), Frame(5, 135, 20), Frame(5, 135, 20), Frame(5, 135, 20), Frame(5, 95, 20),
     Frame(4, 86, 20), Frame(4, 76, 20), Frame(4, 66, 20), Frame(3, 57, 20), Frame(3, 37, 20),
     Frame(3, 37, 20), Frame(2, 28, 20), Frame(2, 18, 20), Frame(1, 14, 20), Frame(1, 9, 20)]

  /** The literal that `load_patterns` stores under "" after the merge. */
  const DefaultEntry: Entry := Alternatives([SimplePattern, VariedPattern])

  /** Every file each pattern name refers to can be read. */
  predicate Readable(index: map<string, seq<string>>, files: map<string, seq<Frame>>)
  {
    forall k, n | k in index && n in index[k] :: n in files
  }

  /** The frames of the files `names`, each file's list appended in turn (`pattern_list.extend`). */
  function Concat(names: seq<string>, files: map<string, seq<Frame>>): seq<Frame>
    requires forall n | n in names :: n in files
  {
    if names == [] then []
    else Concat(names[..|names| - 1], files) + files[names[|names| - 1]]
  }

  /** The table `load_patterns` returns when every file can be read. */
  function Table(index: map<string, seq<string>>, files: map<string, seq<Frame>>): (t: map<string, Entry>)
    requires Readable(index, files)
    ensures t.Keys == index.Keys + {""}
    ensures t[""] == DefaultEntry
  {
    (map k | k in index :: Frames(Concat(index[k], files)))["" := DefaultEntry]
  }

  /**
   * load_patterns: every name of the index gets the concatenation of its files' frames, then ""
   * gets the built-in entry. The index is a Python dict and is walked in its insertion order; the
   * model walks it in an unspecified order, which only decides which missing file is reported when
   * several are missing.
   */
  method LoadPatterns(index: map<string, seq<string>>, files: map<string, seq<Frame>>)
    returns (r: Result<map<string, Entry>, LoadError>)
    ensures r.Success? <==> Readable(index, files)
    ensures r.Success? ==> r.value == Table(index, files)
    ensures r.Failure? ==> r.error.file !in files && exists k | k in index :: r.error.file in index[k]
  {
    var patterns: map<string, Entry> := map[];
    var pending := index.Keys;
    while pending != {}
      invariant pending <= index.Keys
      invariant patterns.Keys == index.Keys - pending
      invariant forall k, n | k in patterns && n in index[k] :: n in files
      invariant forall k | k in patterns :: patterns[k] == Frames(Concat(index[k], files))
      decreases pending
    {
      var k :| k in pending;
      var loaded := LoadFiles(index[k], files);
      if loaded.Failure? {
        return Failure(loaded.error);
      }
      patterns := patterns[k := Frames(loaded.value)];
      pending := pending - {k};
    }
    assert Readable(index, files);
    assert patterns == map k | k in index :: Frames(Concat(index[k], files));
    patterns := patterns["" := DefaultEntry];
    return Success(patterns);
  }

  /**
   * The inner loop of load_patterns: read the files `names` in order and extend the pattern's
   * frame list with each; the first file that cannot be read is raised.
   */
  method LoadFiles(names: seq<string>, files: map<string, seq<Frame>>) returns (r: Result<seq<Frame>, LoadError>)
    ensures r.Success? <==> forall n | n in names :: n in files
    ensures r.Success? ==> r.value == Concat(names, files)
    ensures r.Failure? ==> r.error.file in names && r.error.file !in files
  {
    var patternList: seq<Frame> := [];
    var j := 0;
    while j < |names|
      invariant 0 <= j <= |names|
      invariant forall n | n in names[..j] :: n in files
      invariant patternList == Concat(names[..j], files)
    {
      var name := names[j];
      if name !in files {
        return Failure(MissingFile(name));
      }
      assert names[..j + 1][..j] == names[..j];
      patternList := patternList + files[name];
      j := j + 1;
    }
    assert names[..j] == names;
    return Success(patternList);
  }

  /** A single file contributes exactly its own frames. */
  lemma {:induction false} ConcatSingle(name: string, files: map<string, seq<Frame>>)
    requires name in files
    ensures Concat([name], files) == files[name]
  {
    assert [name][..0] == [];
  }

  /** Concatenation follows the order of the file list: the frames of `a + b` are those of `a`, then those of `b`. */
  lemma {:induction false} ConcatAppend(a: seq<string>, b: seq<string>, files: map<string, seq<Frame>>)
    requires forall n | n in a + b :: n in files
    ensures Concat(a + b, files) == Concat(a, files) + Concat(b, files)
    decreases |b|
  {
    if b == [] {
      assert a + b == a;
    } else {
      var b' := b[..|b| - 1];
      assert (a + b)[..|a + b| - 1] == a + b';
      assert (a + b)[|a + b| - 1] == b[|b| - 1];
      ConcatAppend(a, b', files);
    }
  }

  /** The number of frames of a name is the total of its files' frame counts. */
  lemma {:induction false} ConcatLength(names: seq<string>, files: map<string, seq<Frame>>)
    requires forall n | n in names :: n in files
    ensures |Concat(names, files)| == FrameCount(names, files)
    decreases |names|
  {
    if names != [] {
      ConcatLength(names[..|names| - 1], files);
    }
  }

  /** Total number of frames in the files `names`. */
  function FrameCount(names: seq<string>, files: map<string, seq<Frame>>): nat
    requires forall n | n in names :: n in files
  {
    if names == [] then 0 else FrameCount(names[..|names| - 1], files) + |files[names[|names| - 1]]|
  }

  /** Each name of the index other than "" maps to the in-order concatenation of its files' frames. */
  lemma TableEntry(index: map<string, seq<string>>, files: map<string, seq<Frame>>, k: string, i: nat)
    requires Readable(index, files)
    requires k in index && k != "" && i < |index[k]|
    ensures Table(index, files)[k].Frames?
    ensures Table(index, files)[k].frames
         == Concat(index[k][..i], files) + files[index[k][i]] + Concat(index[k][i + 1..], files)
  {
    var names := index[k];
    assert names == names[..i] + [names[i]] + names[i + 1..];
    ConcatAppend(names[..i] + [names[i]], names[i + 1..], files);
    ConcatAppend(names[..i], [names[i]], files);
    ConcatSingle(names[i], files);
  }

  /**
   * The "" entry holds two patterns, not frames: the single frame [10, 90, 10] and a 20-frame
   * pattern; every one of its frames is inside encode_pattern's input ranges.
   */
  lemma DefaultEntryShape()
    ensures DefaultEntry.Alternatives? && |DefaultEntry.patterns| == 2
    ensures DefaultEntry.patterns[0] == [Frame(10, 90, 10)]
    ensures |DefaultEntry.patterns[1]| == 20
    ensures forall p, f | p in DefaultEntry.patterns && f in p :: Encodable(f)
  {
  }
}
