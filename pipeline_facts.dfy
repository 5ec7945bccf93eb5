/**
 * What processing one file guarantees: which files are skipped, where the
 * artifact lands, and that a processed file is skipped the next time.
 */
module ProcessFileFacts {
  import opened Wrappers
  import opened Text
  import opened Paths
  import opened Artifact
  import opened Pipeline

  // ---------------------------------------------------------------------------
  // Path helpers

  /** `path.join(cwd, 'temp/' + name)` is the entry `name` of the scratch directory. */
  lemma TempWavPathInTemp(cwd: Path, name: string)
    requires IsName(name)
    ensures TempWavPath(cwd, name) == TempDir(cwd) + [name]
  {
    var s := "temp/" + name;
    assert s[4] == '/' && s[0] != '/' && s[1] != '/' && s[2] != '/' && s[3] != '/';
    assert SegmentLength(s) == 4;
    assert s[..4] == "temp" && s[4..] == "/" + name && ("/" + name)[1..] == name;
    SplitName(name);
    assert Split(s) == ["temp", name];
    ResolveNormal(cwd, ["temp", name]);
  }

  /** The stem of a name with an extension is a non-empty prefix without `/`. */
  lemma StemIsName(entry: string)
    requires IsName(entry) && Extname(entry) != ""
    ensures var stem := Basename(entry, Extname(entry));
      stem != "" && '/' !in stem && entry == stem + Extname(entry)
  {
    StemAndExtension(entry);
    var stem := Basename(entry, Extname(entry));
    assert forall c :: c in stem ==> c in entry;
  }

  lemma JsonNameIsName(stem: string)
    requires stem != "" && '/' !in stem
    ensures IsName(stem + ".json")
  {
    var n := stem + ".json";
    assert n[|n| - 1] == 'n';
    assert forall c :: c in n ==> c in stem || c in ".json";
  }

  /**
   * The artifact of `directory + [entry]` is written beside the source: the
   * base name of the scratch WAV file is the source's stem, and joining the
   * public directory with the directory's path relative to it gets back to
   * the directory.
   */
  lemma OutPathBesideSource(cwd: Path, directory: Path, entry: string)
    requires IsNormal(directory) && IsName(entry) && Extname(entry) != ""
    ensures OutPath(cwd, Relative(PublicDir(cwd), directory), TempWavName(entry)) == ArtifactPath(directory, entry)
  {
    var stem := Basename(entry, Extname(entry));
    StemIsName(entry);
    WavNameStem(stem);
    var name := stem + ".json";
    JsonNameIsName(stem);
    var rel := Relative(PublicDir(cwd), directory);
    ResolveAppend(PublicDir(cwd), rel, [name]);
    ResolveRelative(PublicDir(cwd), directory);
    ResolveNormal(directory, [name]);
  }

  // ---------------------------------------------------------------------------
  // The skip probe

  /** The probe of `stem.tail` for the extension `.tail` is `stem.json`. */
  lemma ProbeOfStem(fullPath: Path, stem: string, tail: string)
    requires fullPath != [] && Last(fullPath) == stem + ['.'] + tail
    ensures SkipProbe(fullPath, ['.'] + tail) == fullPath[..|fullPath| - 1] + [stem + ".json"]
  {
    ReplaceDotTailAt(stem, '.', tail, ".json");
    assert (['.'] + tail)[1..] == tail;
  }

  /** The probe of `stem + e` for an extension `e` is `stem.json`. */
  lemma ProbeOfExtension(fullPath: Path, stem: string, e: string)
    requires fullPath != [] && e != "" && e[0] == '.' && Last(fullPath) == stem + e
    ensures SkipProbe(fullPath, e) == fullPath[..|fullPath| - 1] + [stem + ".json"]
  {
    assert e == ['.'] + e[1..];
    assert stem + e == stem + ['.'] + e[1..];
    ProbeOfStem(fullPath, stem, e[1..]);
  }

  /**
   * When the extension is already lower case, the probe is the sibling with
   * the same stem and the extension `.json`.
   */
  lemma ProbeOfLowerCaseExtension(fullPath: Path)
    requires fullPath != [] && Extname(Last(fullPath)) != ""
    requires Lower(Extname(Last(fullPath))) == Extname(Last(fullPath))
    ensures SkipProbe(fullPath, LowerExtension(fullPath))
         == fullPath[..|fullPath| - 1] + [Basename(Last(fullPath), Extname(Last(fullPath))) + ".json"]
  {
    var name, e := Last(fullPath), Extname(Last(fullPath));
    StemAndExtension(name);
    ProbeOfExtension(fullPath, Basename(name, e), e);
  }

  /**
   * A pattern of the same length as the extension `e` the name ends with,
   * with the same `.` but a different tail, does not match: the probe is the
   * file itself.
   */
  lemma ProbeOfOtherTail(fullPath: Path, e: string, le: string)
    requires fullPath != [] && EndsWith(Last(fullPath), e)
    requires |le| == |e| && le != e && e != "" && le[0] == e[0]
    ensures SkipProbe(fullPath, le) == fullPath
  {
    var name, tail := Last(fullPath), le[1..];
    assert le == [e[0]] + tail && e == [e[0]] + e[1..];
    assert tail != e[1..];
    assert name[|name| - |tail|..] == e[1..];
    assert !DotTailMatches(name, tail);
    assert fullPath[..|fullPath| - 1] + [name] == fullPath;
  }

  /**
   * When the extension is not lower case, the case-sensitive pattern built
   * from its lower-cased form cannot match, and the probe is the file itself.
   */
  lemma ProbeOfOtherCaseExtension(fullPath: Path)
    requires Lower(Extname(Last(fullPath))) != Extname(Last(fullPath))
    ensures SkipProbe(fullPath, LowerExtension(fullPath)) == fullPath
  {
    var e := Extname(Last(fullPath));
    assert e != "";
    assert Lower(e)[0] == LowerChar(e[0]) == '.';
    assert fullPath != [];
    ProbeOfOtherTail(fullPath, e, Lower(e));
  }

  /**
   * A file whose extension is not all lower case (`X.MP4`) is always skipped
   * when it exists, whatever else exists beside it.
   */
  lemma OtherCaseExtensionAlwaysSkipped(s: State, cwd: Path, fullPath: Path, entry: string,
                                        directory: Path, lang: string, svc: Services)
    requires fullPath in s.nodes
    requires Lower(Extname(Last(fullPath))) != Extname(Last(fullPath))
    ensures ProcessFile(s, cwd, fullPath, entry, directory, lang, svc)
         == (Done, s.(visited := s.visited + [fullPath]))
  {
    ProbeOfOtherCaseExtension(fullPath);
  }

  /**
   * For a supported extension, the file is skipped, with no change but the
   * record of the call, exactly when its probe path exists. Otherwise
   * extraction is attempted; a failed extraction ends the call, and a
   * successful one is followed by exactly one transcription, of the scratch
   * WAV file.
   */
  lemma SkipExactlyWhenProbeExists(s: State, cwd: Path, fullPath: Path, entry: string,
                                   directory: Path, lang: string, svc: Services)
    requires LowerExtension(fullPath) in SupportedExtensions
    ensures var r := ProcessFile(s, cwd, fullPath, entry, directory, lang, svc);
      && (SkipProbe(fullPath, LowerExtension(fullPath)) in s.nodes ==>
            r == (Done, s.(visited := s.visited + [fullPath])))
      && (SkipProbe(fullPath, LowerExtension(fullPath)) !in s.nodes && !svc.extract(fullPath) ==>
            r.0 == Failed(ExtractionFailed(fullPath)) && r.1.transcribed == s.transcribed)
      && (SkipProbe(fullPath, LowerExtension(fullPath)) !in s.nodes && svc.extract(fullPath) ==>
            r.1.transcribed == s.transcribed + [TempWavPath(cwd, TempWavName(entry))])
  {
    if SkipProbe(fullPath, LowerExtension(fullPath)) !in s.nodes {
      var s0 := s.(visited := s.visited + [fullPath]);
      assert ProcessFile(s, cwd, fullPath, entry, directory, lang, svc)
          == Transcode(s0, cwd, fullPath, TempWavPath(cwd, TempWavName(entry)), TempWavName(entry),
                       Relative(PublicDir(cwd), directory), lang, svc);
    }
  }

  // ---------------------------------------------------------------------------
  // What else processing a file changes

  /**
   * From `a` to `b`: nothing outside `temp` is removed, nothing outside
   * `changed` is created, and outside `temp` only the paths in `changed` can
   * hold something new.
   */
  ghost predicate ChangesOnly(cwd: Path, a: map<Path, Node>, b: map<Path, Node>, changed: set<Path>) {
    && (forall p :: p in a && !IsPrefix(TempDir(cwd), p) ==> p in b)
    && (forall p :: p in b ==> p in a || p in changed)
    && (forall p :: p in a && !IsPrefix(TempDir(cwd), p) && p !in changed ==> p in b && b[p] == a[p])
  }

  lemma ChangesOnlyTrans(cwd: Path, a: map<Path, Node>, b: map<Path, Node>, c: map<Path, Node>,
                         x: set<Path>, y: set<Path>, z: set<Path>)
    requires ChangesOnly(cwd, a, b, x) && ChangesOnly(cwd, b, c, y) && x + y <= z
    ensures ChangesOnly(cwd, a, c, z)
  {}

  lemma ChangesOnlyWrite(cwd: Path, a: map<Path, Node>, q: Path, v: Node, z: set<Path>)
    requires q in z
    ensures ChangesOnly(cwd, a, a[q := v], z)
  {}

  lemma ChangesOnlyRemoveTemp(cwd: Path, a: map<Path, Node>, z: set<Path>)
    ensures ChangesOnly(cwd, a, RemoveTree(a, TempDir(cwd)), z)
  {}

  /** A conversion changes nothing but `temp`, the scratch WAV file and the artifact. */
  lemma TranscodeFrame(s: State, cwd: Path, fullPath: Path, tempOutFilePath: Path,
                       tempWavFileName: string, folder: seq<string>, lang: string, svc: Services)
    ensures var r := Transcode(s, cwd, fullPath, tempOutFilePath, tempWavFileName, folder, lang, svc);
      ChangesOnly(cwd, s.nodes, r.1.nodes, {TempDir(cwd), tempOutFilePath, OutPath(cwd, folder, tempWavFileName)})
  {
    var temp, out := TempDir(cwd), OutPath(cwd, folder, tempWavFileName);
    var z := {temp, tempOutFilePath, out};
    var r := Transcode(s, cwd, fullPath, tempOutFilePath, tempWavFileName, folder, lang, svc);
    var s1 := if temp !in s.nodes then s.(nodes := s.nodes[temp := Directory]) else s;
    assert ChangesOnly(cwd, s.nodes, s1.nodes, z) by {
      if temp !in s.nodes { ChangesOnlyWrite(cwd, s.nodes, temp, Directory, z); }
    }
    if !svc.extract(fullPath) {
      assert r.1 == s1;
    } else {
      var s2 := s1.(nodes := s1.nodes[tempOutFilePath := Wav(fullPath)]);
      ChangesOnlyWrite(cwd, s1.nodes, tempOutFilePath, Wav(fullPath), z);
      ChangesOnlyTrans(cwd, s.nodes, s1.nodes, s2.nodes, z, z, z);
      var (outcome, s3) := SubFile(s2, cwd, tempOutFilePath, tempWavFileName, folder, lang, svc);
      SubFileFrame(s2, cwd, tempOutFilePath, tempWavFileName, folder, lang, svc, z);
      ChangesOnlyTrans(cwd, s.nodes, s2.nodes, s3.nodes, z, z, z);
      if outcome.Done? && temp !in s.nodes {
        assert r.1.nodes == RemoveTree(s3.nodes, temp);
        ChangesOnlyRemoveTemp(cwd, s3.nodes, z);
        ChangesOnlyTrans(cwd, s.nodes, s3.nodes, r.1.nodes, z, z, z);
      } else {
        assert r.1 == s3;
      }
    }
  }

  lemma SubFileFrame(s: State, cwd: Path, filePath: Path, fileName: string, folder: seq<string>,
                     lang: string, svc: Services, z: set<Path>)
    requires OutPath(cwd, folder, fileName) in z
    ensures ChangesOnly(cwd, s.nodes, SubFile(s, cwd, filePath, fileName, folder, lang, svc).1.nodes, z)
  {}

  /** The same for a whole `processFile` call, with its scratch WAV path and artifact path. */
  lemma ProcessFileFrame(s: State, cwd: Path, fullPath: Path, entry: string, directory: Path,
                         lang: string, svc: Services)
    ensures var r := ProcessFile(s, cwd, fullPath, entry, directory, lang, svc);
      ChangesOnly(cwd, s.nodes, r.1.nodes,
                  {TempDir(cwd), TempWavPath(cwd, TempWavName(entry)),
                   OutPath(cwd, Relative(PublicDir(cwd), directory), TempWavName(entry))})
  {
    var ext := LowerExtension(fullPath);
    if ext in SupportedExtensions && SkipProbe(fullPath, ext) !in s.nodes {
      var s0 := s.(visited := s.visited + [fullPath]);
      assert ProcessFile(s, cwd, fullPath, entry, directory, lang, svc)
          == Transcode(s0, cwd, fullPath, TempWavPath(cwd, TempWavName(entry)), TempWavName(entry),
                       Relative(PublicDir(cwd), directory), lang, svc);
      TranscodeFrame(s0, cwd, fullPath, TempWavPath(cwd, TempWavName(entry)), TempWavName(entry),
                     Relative(PublicDir(cwd), directory), lang, svc);
    }
  }

  // ---------------------------------------------------------------------------
  // The artifact and idempotency

  /** The conditions under which a file of `directory` is processed rather than skipped. */
  predicate Processable(s: State, cwd: Path, directory: Path, entry: string) {
    && IsNormal(directory) && IsName(entry)
    && Extname(entry) != ""
    && Lower(Extname(entry)) == Extname(entry)
    && Extname(entry) in SupportedExtensions
    && ArtifactPath(directory, entry) !in s.nodes
    && !IsPrefix(TempDir(cwd), directory)
  }

  /** The artifact path of `directory + [entry]`. */
  function ArtifactPath(directory: Path, entry: string): Path {
    directory + [Basename(entry, Extname(entry)) + ".json"]
  }

  /** An artifact of a directory outside the scratch directory is not removed with it. */
  lemma ArtifactOutsideTemp(cwd: Path, directory: Path, stem: string)
    requires !IsPrefix(TempDir(cwd), directory)
    ensures !IsPrefix(TempDir(cwd), directory + [stem + ".json"])
  {
    var p, t := directory + [stem + ".json"], TempDir(cwd);
    if |t| <= |directory| {
      assert p[..|t|] == directory[..|t|];
    } else if |t| <= |p| {
      assert (stem + ".json")[|stem| + 4] == 'n';
      assert p[|t| - 1] == stem + ".json" != "temp";
    }
  }

  /**
   * subFile proceeds past the transcription only when the result holds its
   * raw items under `transcription`; otherwise it fails with NoTranscription
   * and writes nothing.
   */
  lemma SubFileNeedsRawItems(s: State, cwd: Path, filePath: Path, fileName: string,
                             folder: seq<string>, lang: string, svc: Services)
    requires filePath in s.nodes && s.nodes[filePath].Wav?
    requires svc.transcribe(s.nodes[filePath].source, lang).Some?
    ensures var result := svc.transcribe(s.nodes[filePath].source, lang).value;
      var r := SubFile(s, cwd, filePath, fileName, folder, lang, svc);
      && (r.0 == Failed(NoTranscription(filePath))
          <==> !("transcription" in result && result["transcription"].Items?))
      && (r.0 == Failed(NoTranscription(filePath)) ==> r.1.nodes == s.nodes)
  {
  }

  /**
   * A completed conversion leaves at the artifact path, unless `temp` took it
   * away, the transcription of the extracted source with the merged captions
   * and the joined raw texts.
   */
  lemma TranscodeWritesArtifact(s: State, cwd: Path, fullPath: Path, tempOutFilePath: Path,
                                tempWavFileName: string, folder: seq<string>, lang: string, svc: Services)
    requires Transcode(s, cwd, fullPath, tempOutFilePath, tempWavFileName, folder, lang, svc).0.Done?
    requires !IsPrefix(TempDir(cwd), OutPath(cwd, folder, tempWavFileName))
    ensures var r := Transcode(s, cwd, fullPath, tempOutFilePath, tempWavFileName, folder, lang, svc);
      var result := svc.transcribe(fullPath, lang);
      var out := OutPath(cwd, folder, tempWavFileName);
      && result.Some? && RawItems(result.value).Some?
      && svc.toCaptions(RawItems(result.value).value).Some?
      && out in r.1.nodes
      && r.1.nodes[out] == Json(Build(result.value, RawItems(result.value).value,
                                      svc.toCaptions(RawItems(result.value).value).value))
  {
    var temp := TempDir(cwd);
    var s1 := if temp !in s.nodes then s.(nodes := s.nodes[temp := Directory]) else s;
    var s2 := s1.(nodes := s1.nodes[tempOutFilePath := Wav(fullPath)]);
    assert s2.nodes[tempOutFilePath] == Wav(fullPath);
  }

  /**
   * A completed call on a lower-case supported file outside the scratch
   * directory leaves the artifact beside the source: the transcription result
   * with the merged captions and the joined raw texts.
   */
  lemma ArtifactWrittenBesideSource(s: State, cwd: Path, directory: Path, entry: string,
                                    lang: string, svc: Services)
    requires Processable(s, cwd, directory, entry)
    requires ProcessFile(s, cwd, directory + [entry], entry, directory, lang, svc).0.Done?
    ensures var r := ProcessFile(s, cwd, directory + [entry], entry, directory, lang, svc);
      var result := svc.transcribe(directory + [entry], lang);
      && result.Some? && RawItems(result.value).Some?
      && svc.toCaptions(RawItems(result.value).value).Some?
      && ArtifactPath(directory, entry) in r.1.nodes
      && r.1.nodes[ArtifactPath(directory, entry)]
         == Json(Build(result.value, RawItems(result.value).value,
                       svc.toCaptions(RawItems(result.value).value).value))
  {
    var fullPath := directory + [entry];
    assert Last(fullPath) == entry && fullPath[..|fullPath| - 1] == directory;
    ProbeOfLowerCaseExtension(fullPath);
    var stem := Basename(entry, Extname(entry));
    var folder := Relative(PublicDir(cwd), directory);
    var tempWavFileName := TempWavName(entry);
    var tempOutFilePath := TempWavPath(cwd, tempWavFileName);
    var s0 := s.(visited := s.visited + [fullPath]);
    assert SkipProbe(fullPath, LowerExtension(fullPath)) !in s.nodes;
    assert ProcessFile(s, cwd, fullPath, entry, directory, lang, svc)
        == Transcode(s0, cwd, fullPath, tempOutFilePath, tempWavFileName, folder, lang, svc);
    OutPathBesideSource(cwd, directory, entry);
    ArtifactOutsideTemp(cwd, directory, stem);
    TranscodeWritesArtifact(s0, cwd, fullPath, tempOutFilePath, tempWavFileName, folder, lang, svc);
  }

  /**
   * Idempotency for one file: once a lower-case supported file has been
   * processed to completion, processing it again is a skip and calls no
   * transcription.
   */
  lemma ProcessedFileIsSkippedNextTime(s: State, cwd: Path, directory: Path, entry: string,
                                       lang: string, svc: Services)
    requires Processable(s, cwd, directory, entry)
    requires ProcessFile(s, cwd, directory + [entry], entry, directory, lang, svc).0.Done?
    ensures var s1 := ProcessFile(s, cwd, directory + [entry], entry, directory, lang, svc).1;
      ProcessFile(s1, cwd, directory + [entry], entry, directory, lang, svc)
        == (Done, s1.(visited := s1.visited + [directory + [entry]]))
  {
    var fullPath := directory + [entry];
    assert Last(fullPath) == entry && fullPath[..|fullPath| - 1] == directory;
    ArtifactWrittenBesideSource(s, cwd, directory, entry, lang, svc);
    ProbeOfLowerCaseExtension(fullPath);
  }
}
