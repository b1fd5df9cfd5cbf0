/** `build_ravdess_dataset`: walks the dataset's files, labels each `.wav`
    from the emotion code in its name, extracts its features and counts what
    it keeps and what it skips.  The directory walk is given as a sequence of
    (directory, file name) entries in the order `os.walk` yields them. */
module Ravdess {
  import opened Wrappers
  import Features

  /** The training script's extractor defaults. */
  const TargetRate: nat := 48000
  const NMfcc: nat := 40
  const MinDuration: real := 1.0

  /** `emotion_map`: the third field of a RAVDESS file name to its label. */
  const EmotionMap: map<string, string> := map[
    "01" := "neutral", "02" := "calm", "03" := "happy", "04" := "sad",
    "05" := "angry", "06" := "fearful", "07" := "disgust", "08" := "surprised"]

  const Emotions: set<string> :=
    {"neutral", "calm", "happy", "sad", "angry", "fearful", "disgust", "surprised"}

  /** `s.endswith(suffix)`: a name that ends with `suffix` is what comes
      before it followed by `suffix`. */
  function EndsWith(s: string, suffix: string): (ok: bool)
    ensures ok ==> |suffix| <= |s| && s == s[..|s| - |suffix|] + suffix
  {
    |suffix| <= |s| && s[|s| - |suffix|..] == suffix
  }

  /** Every name of the form `prefix + suffix` ends with `suffix`. */
  lemma EndsWithConcat(prefix: string, suffix: string)
    ensures EndsWith(prefix + suffix, suffix)
  {
    assert (prefix + suffix)[|prefix|..] == suffix;
  }

  /** Number of occurrences of `c` in `s`. */
  function Count(s: string, c: char): nat
  {
    if |s| == 0 then 0 else (if s[0] == c then 1 else 0) + Count(s[1..], c)
  }

  /** `s.split(sep)` for a one-character separator: every occurrence cuts,
      so there is one more field than separators, none holding `sep`. */
  function Split(s: string, sep: char): (parts: seq<string>)
    ensures |parts| == Count(s, sep) + 1
    ensures forall i :: 0 <= i < |parts| ==> sep !in parts[i]
  {
    if |s| == 0 then [""]
    else
      var rest := Split(s[1..], sep);
      if s[0] == sep then [""] + rest
      else [[s[0]] + rest[0]] + rest[1..]
  }

  /** `sep.join(parts)`, the inverse of `Split`. */
  function Join(parts: seq<string>, sep: char): string
    requires |parts| > 0
  {
    if |parts| == 1 then parts[0] else parts[0] + [sep] + Join(parts[1..], sep)
  }

  lemma {:induction false} JoinSplit(s: string, sep: char)
    ensures Join(Split(s, sep), sep) == s
  {
    if |s| > 0 {
      var rest := Split(s[1..], sep);
      JoinSplit(s[1..], sep);
      if s[0] == sep {
        assert Split(s, sep) == [""] + rest;
        assert ([""] + rest)[1..] == rest;
      } else {
        var parts := Split(s, sep);
        assert parts == [[s[0]] + rest[0]] + rest[1..];
        if |rest| == 1 {
          assert parts == [[s[0]] + rest[0]];
        } else {
          assert parts[1..] == rest[1..];
          assert Join(rest, sep) == rest[0] + [sep] + Join(rest[1..], sep);
        }
      }
    }
  }

  /** Splitting a field free of `sep`, followed by the rest, cuts at the
      first separator. */
  lemma {:induction false} SplitField(field: string, tail: seq<string>, sep: char)
    requires sep !in field
    requires |tail| > 0 && Split(Join(tail, sep), sep) == tail
    ensures Split(field + [sep] + Join(tail, sep), sep) == [field] + tail
  {
    var t := Join(tail, sep);
    if |field| == 0 {
      assert field + [sep] + t == [sep] + t;
      assert ([sep] + t)[1..] == t;
    } else {
      var s := field + [sep] + t;
      assert s[1..] == field[1..] + [sep] + t;
      SplitField(field[1..], tail, sep);
      assert [field[0]] + field[1..] == field;
    }
  }

  lemma {:induction false} SplitSingle(field: string, sep: char)
    requires sep !in field
    ensures Split(field, sep) == [field]
  {
    if |field| > 0 {
      SplitSingle(field[1..], sep);
      assert [field[0]] + field[1..] == field;
    }
  }

  lemma {:induction false} SplitJoin(parts: seq<string>, sep: char)
    requires |parts| > 0
    requires forall i :: 0 <= i < |parts| ==> sep !in parts[i]
    ensures Split(Join(parts, sep), sep) == parts
  {
    if |parts| == 1 {
      SplitSingle(parts[0], sep);
    } else {
      SplitJoin(parts[1..], sep);
      SplitField(parts[0], parts[1..], sep);
      assert [parts[0]] + parts[1..] == parts;
    }
  }

  /** `emotion_map.get(parts[2])` after the field-count check; every label
      is non-empty, so the `not emotion` test rejects only a missing code. */
  function ParseLabel(name: string): (emotion: Option<string>)
    ensures emotion.Some? ==> emotion.value in Emotions
    ensures emotion.Some? <==> |Split(name, '-')| >= 3 && Split(name, '-')[2] in EmotionMap
    ensures emotion.Some? ==> emotion.value == EmotionMap[Split(name, '-')[2]]
  {
    var parts := Split(name, '-');
    if |parts| < 3 then None
    else if parts[2] !in EmotionMap then None
    else Some(EmotionMap[parts[2]])
  }

  /** A name with fewer than two dashes has fewer than three fields and gets
      no label. */
  lemma FewFieldsNoLabel(name: string)
    requires Count(name, '-') < 2
    ensures ParseLabel(name) == None
  {
  }

  /** The codes are exactly `01` to `08`, and the labels exactly the eight
      emotions. */
  lemma EmotionTable()
    ensures EmotionMap.Keys == {"01", "02", "03", "04", "05", "06", "07", "08"}
    ensures EmotionMap.Values == Emotions
  {
    assert EmotionMap["01"] == "neutral" && EmotionMap["02"] == "calm";
    assert EmotionMap["03"] == "happy" && EmotionMap["04"] == "sad";
    assert EmotionMap["05"] == "angry" && EmotionMap["06"] == "fearful";
    assert EmotionMap["07"] == "disgust" && EmotionMap["08"] == "surprised";
  }

  /** A RAVDESS name: modality, channel, emotion, intensity, statement,
      repetition and actor, joined by dashes. */
  lemma RavdessNameExample()
    ensures ParseLabel("03-01-06-01-02-01-12.wav") == Some("fearful")
  {
    RavdessNameFields();
  }

  /** The example name has seven fields, the third being the code `06`. */
  lemma RavdessNameFields()
    ensures |Split("03-01-06-01-02-01-12.wav", '-')| == 7
    ensures Split("03-01-06-01-02-01-12.wav", '-')[2] == "06"
  {
    var parts := ["03", "01", "06", "01", "02", "01", "12.wav"];
    assert Join(parts, '-') == "03-01-06-01-02-01-12.wav";
    SplitJoin(parts, '-');
  }

  /** One item of the walk: the directory and the file's name in it. */
  datatype Entry = Entry(root: string, name: string)

  /** `os.path.join(root, name)` for a plain file name: the path starts with
      the directory and ends with the name, with one `/` between them unless
      the directory is empty or already ends in one. */
  function PathOf(e: Entry): (path: string)
    ensures |path| == |e.root| + |e.name| + (if |e.root| == 0 || e.root[|e.root| - 1] == '/' then 0 else 1)
    ensures path[..|e.root|] == e.root
    ensures EndsWith(path, e.name)
    ensures |path| == |e.root| + |e.name| + 1 ==> path[|e.root|] == '/'
  {
    if |e.root| == 0 || e.root[|e.root| - 1] == '/' then e.root + e.name
    else e.root + "/" + e.name
  }

  /** The training script's `extract_features(file)`: `librosa.load` at the
      target rate (`None` when loading raises), then the shared extractor. */
  function FileFeatures(path: string, load: string -> Option<seq<real>>, lib: Features.Librosa): (r: Option<seq<real>>)
    ensures r.Some? ==> load(path).Some? && Features.LongEnough(|load(path).value|, TargetRate, MinDuration)
    ensures load(path).Some? ==> r == Features.Extract(load(path).value, TargetRate, NMfcc, MinDuration, lib)
    ensures load(path).None? ==> r.None?
  {
    match load(path)
    case None => None
    case Some(audio) => Features.Extract(audio, TargetRate, NMfcc, MinDuration, lib)
  }

  /** What the loop does with one file. */
  datatype FileOutcome = Ignored | Skipped | Kept(features: seq<real>, emotion: string)

  function Classify(e: Entry, load: string -> Option<seq<real>>, lib: Features.Librosa): (o: FileOutcome)
    ensures o == Ignored <==> !EndsWith(e.name, ".wav")
    ensures ParseLabel(e.name) == None && EndsWith(e.name, ".wav") ==> o == Skipped
    ensures o.Kept? ==> ParseLabel(e.name) == Some(o.emotion) && FileFeatures(PathOf(e), load, lib) == Some(o.features)
    ensures EndsWith(e.name, ".wav") && ParseLabel(e.name).Some? && FileFeatures(PathOf(e), load, lib).Some? ==>
      o == Kept(FileFeatures(PathOf(e), load, lib).value, ParseLabel(e.name).value)
  {
    if !EndsWith(e.name, ".wav") then Ignored
    else match ParseLabel(e.name)
      case None => Skipped
      case Some(emotion) =>
        match FileFeatures(PathOf(e), load, lib)
        case None => Skipped
        case Some(f) => Kept(f, emotion)
  }

  /** The loop's four accumulators. */
  datatype Tally = Tally(features: seq<seq<real>>, labels: seq<string>, total: nat, skipped: nat)

  function Step(t: Tally, o: FileOutcome): Tally
  {
    match o
    case Ignored => t
    case Skipped => t.(total := t.total + 1, skipped := t.skipped + 1)
    case Kept(f, emotion) => Tally(t.features + [f], t.labels + [emotion], t.total + 1, t.skipped)
  }

  /** The accumulators after the loop has seen `entries`. */
  function Tallied(entries: seq<Entry>, load: string -> Option<seq<real>>, lib: Features.Librosa): Tally
  {
    if |entries| == 0 then Tally([], [], 0, 0)
    else Step(Tallied(entries[..|entries| - 1], load, lib), Classify(entries[|entries| - 1], load, lib))
  }

  /** Number of `.wav` names among the entries. */
  function WavCount(entries: seq<Entry>): nat
  {
    if |entries| == 0 then 0
    else WavCount(entries[..|entries| - 1]) + (if EndsWith(entries[|entries| - 1].name, ".wav") then 1 else 0)
  }

  /** The balance the log line reports: every `.wav` file is counted once
      and is either skipped or kept; features and labels stay paired and
      every label is one of the eight emotions. */
  lemma {:induction false} TallyBalanced(entries: seq<Entry>, load: string -> Option<seq<real>>, lib: Features.Librosa)
    ensures var t := Tallied(entries, load, lib);
      t.total == WavCount(entries) &&
      t.total == t.skipped + |t.features| &&
      |t.features| == |t.labels| &&
      forall i :: 0 <= i < |t.labels| ==> t.labels[i] in Emotions
  {
    if |entries| > 0 {
      TallyBalanced(entries[..|entries| - 1], load, lib);
    }
  }

  /** The entries without the files whose names do not end in `.wav`. */
  function WavOnly(entries: seq<Entry>): (r: seq<Entry>)
    ensures forall i :: 0 <= i < |r| ==> EndsWith(r[i].name, ".wav")
  {
    if |entries| == 0 then []
    else
      var rest := WavOnly(entries[..|entries| - 1]);
      if EndsWith(entries[|entries| - 1].name, ".wav") then rest + [entries[|entries| - 1]] else rest
  }

  /** Other files are ignored entirely: dropping them changes nothing. */
  lemma {:induction false} OtherFilesIgnored(entries: seq<Entry>, load: string -> Option<seq<real>>, lib: Features.Librosa)
    ensures Tallied(WavOnly(entries), load, lib) == Tallied(entries, load, lib)
  {
    if |entries| > 0 {
      var init := entries[..|entries| - 1];
      var last := entries[|entries| - 1];
      OtherFilesIgnored(init, load, lib);
      if EndsWith(last.name, ".wav") {
        var w := WavOnly(init) + [last];
        assert w[..|w| - 1] == WavOnly(init);
      }
    }
  }

  /** `build_ravdess_dataset`, returning the two lists and the two counters
      it prints. */
  method BuildDataset(entries: seq<Entry>, load: string -> Option<seq<real>>, lib: Features.Librosa)
    returns (features: seq<seq<real>>, labels: seq<string>, total: nat, skipped: nat)
    ensures Tally(features, labels, total, skipped) == Tallied(entries, load, lib)
    ensures total == WavCount(entries) && total == skipped + |features|
    ensures |features| == |labels|
    ensures forall i :: 0 <= i < |labels| ==> labels[i] in Emotions
  {
    features, labels := [], [];
    skipped, total := 0, 0;
    for k := 0 to |entries|
      invariant Tally(features, labels, total, skipped) == Tallied(entries[..k], load, lib)
    {
      assert entries[..k + 1][..k] == entries[..k];
      var e := entries[k];
      ghost var o := Classify(e, load, lib);
      assert Tallied(entries[..k + 1], load, lib) == Step(Tallied(entries[..k], load, lib), o);
      if EndsWith(e.name, ".wav") {
        total := total + 1;
        var parts := Split(e.name, '-');
        if |parts| < 3 {
          assert o == Skipped;
          skipped := skipped + 1;
          continue;
        }
        if parts[2] !in EmotionMap {
          assert o == Skipped;
          skipped := skipped + 1;
          continue;
        }
        var emotion := EmotionMap[parts[2]];
        assert ParseLabel(e.name) == Some(emotion);
        var feat := FileFeatures(PathOf(e), load, lib);
        if feat.Some? {
          assert o == Kept(feat.value, emotion);
          features := features + [feat.value];
          labels := labels + [emotion];
        } else {
          assert o == Skipped;
          skipped := skipped + 1;
        }
      } else {
        assert o == Ignored;
      }
    }
    assert entries[..|entries|] == entries;
    TallyBalanced(entries, load, lib);
  }
}
