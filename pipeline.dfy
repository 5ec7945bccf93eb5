/**
 * What one run of the batch transcription driver does to the file system, as
 * functions of the state before: processing one file (filter, skip check,
 * scratch directory, extraction, transcription, artifact), walking a directory
 * depth first, and dispatching the command-line paths.
 *
 * The file system is a map from paths to what is stored there (`existsSync`
 * is membership). Directory listings come from a snapshot tree taken when the
 * run starts. Audio extraction, transcription and caption merging are outside
 * operations given as `Services`; each may fail, and a failure is returned as
 * an outcome because nothing in the driver catches it.
 */
module Pipeline {
  import opened Wrappers
  import opened Text
  import opened Paths
  import opened Artifact

  /** What is stored at a path. */
  datatype Node = Directory | Media | Wav(source: Path) | Json(content: Object)

  /** A directory entry of the listing snapshot, in `readdirSync` order. */
  datatype Entry = File(name: string) | Dir(name: string, entries: seq<Entry>)

  /**
   * The outside operations. Extraction succeeds or not for a source file;
   * transcription maps the source a WAV file was extracted from and the
   * language to a result object, or fails; caption merging maps the raw items
   * to captions, or fails.
   */
  datatype Services = Services(
    extract: Path -> bool,
    transcribe: (Path, string) -> Option<Object>,
    toCaptions: seq<Item> -> Option<seq<Caption>>)

  datatype Failure =
    | NoSuchPath(path: Path)
    | NotADirectory(path: Path)
    | ExtractionFailed(source: Path)
    | TranscriptionFailed(input: Path)
    | NoTranscription(input: Path)
    | CaptionsFailed(input: Path)

  datatype Outcome = Done | Failed(failure: Failure)

  /**
   * The file system, the paths `processFile` was called with and the WAV
   * paths `transcribe` was called with, in call order.
   */
  datatype State = State(nodes: map<Path, Node>, visited: seq<Path>, transcribed: seq<Path>)

  const SupportedExtensions: seq<string> := [".mp4", ".webm", ".mkv", ".mov", ".mp3", ".wav"]
  const IgnoredName := ".DS_Store"

  predicate IsPrefix(a: Path, b: Path) {
    |a| <= |b| && b[..|a|] == a
  }

  /** `path.join(process.cwd(), 'temp')`. */
  function TempDir(cwd: Path): Path {
    cwd + ["temp"]
  }

  function PublicDir(cwd: Path): Path {
    cwd + ["public"]
  }

  /** `rmSync(dir, {recursive: true})`: the directory and everything below it are gone. */
  function RemoveTree(nodes: map<Path, Node>, dir: Path): (r: map<Path, Node>)
    ensures forall p :: p in r <==> p in nodes && !IsPrefix(dir, p)
    ensures forall p :: p in r ==> r[p] == nodes[p]
  {
    map p | p in nodes && !IsPrefix(dir, p) :: nodes[p]
  }

  /**
   * What removing a tree means for the other paths: a second removal does
   * nothing, a tree that holds nothing leaves the map as it was, and a write
   * outside the tree is kept whether it happens before or after the removal.
   */
  lemma RemoveTreeFacts(nodes: map<Path, Node>, dir: Path, q: Path, v: Node)
    ensures RemoveTree(RemoveTree(nodes, dir), dir) == RemoveTree(nodes, dir)
    ensures (forall p :: p in nodes ==> !IsPrefix(dir, p)) ==> RemoveTree(nodes, dir) == nodes
    ensures !IsPrefix(dir, q) ==> RemoveTree(nodes[q := v], dir) == RemoveTree(nodes, dir)[q := v]
    ensures IsPrefix(dir, q) ==> RemoveTree(nodes[q := v], dir) == RemoveTree(nodes, dir)
  {
  }

  // ---------------------------------------------------------------------------
  // Paths derived by processFile and subFile

  /** `path.extname(fullPath).toLowerCase()`. */
  function LowerExtension(fullPath: Path): string {
    Lower(Extname(Last(fullPath)))
  }

  /**
   * `fullPath.replace(new RegExp(`${ext}$`), '.json')`: the extension's `.` is
   * unescaped and the match is case-sensitive. The pattern is anchored at the
   * end and is no longer than the last segment (which ends with an extension
   * of the same length), so replacing within the last segment is replacing
   * within the whole path.
   */
  function SkipProbe(fullPath: Path, ext: string): Path {
    if fullPath == [] || ext == "" then fullPath
    else fullPath[..|fullPath| - 1] + [ReplaceDotTail(Last(fullPath), ext[1..], ".json")]
  }

  /** `path.basename(entry, path.extname(entry)) + '.wav'`. */
  function TempWavName(entry: string): string {
    Basename(entry, Extname(entry)) + ".wav"
  }

  /** `path.join(process.cwd(), 'temp/' + name)`. */
  function TempWavPath(cwd: Path, name: string): Path {
    Join(cwd, "temp/" + name)
  }

  /** `path.join(process.cwd(), 'public', folder, path.basename(fileName, path.extname(fileName)) + '.json')`. */
  function OutPath(cwd: Path, folder: seq<string>, fileName: string): Path {
    Resolve(PublicDir(cwd), folder + [Basename(fileName, Extname(fileName)) + ".json"])
  }

  // ---------------------------------------------------------------------------
  // subFile and processFile

  /**
   * `subFile(filePath, fileName, folder)`: transcribe the WAV file, merge its
   * items into captions and write the artifact.
   */
  function SubFile(s: State, cwd: Path, filePath: Path, fileName: string, folder: seq<string>,
                   lang: string, svc: Services): (r: (Outcome, State))
    ensures r.1.visited == s.visited
    ensures r.1.transcribed == s.transcribed + [filePath]
    ensures r.0.Failed? ==> r.1.nodes == s.nodes
    ensures r.0.Done? ==> r.1.nodes.Keys == s.nodes.Keys + {OutPath(cwd, folder, fileName)}
    // every other path keeps what it held
    ensures r.0.Done? ==> forall p :: p in s.nodes && p != OutPath(cwd, folder, fileName) ==> r.1.nodes[p] == s.nodes[p]
  {
    var s1 := s.(transcribed := s.transcribed + [filePath]);
    if filePath !in s.nodes || !s.nodes[filePath].Wav? then (Failed(TranscriptionFailed(filePath)), s1)
    else match svc.transcribe(s.nodes[filePath].source, lang)
      case None => (Failed(TranscriptionFailed(filePath)), s1)
      case Some(result) =>
        match RawItems(result)
        case None => (Failed(NoTranscription(filePath)), s1)
        case Some(items) =>
          match svc.toCaptions(items)
          case None => (Failed(CaptionsFailed(filePath)), s1)
          case Some(captions) =>
            var artifact := Build(result, items, captions);
            (Done, s1.(nodes := s1.nodes[OutPath(cwd, folder, fileName) := Json(artifact)]))
  }

  /**
   * `processFile(fullPath, entry, directory)`. A file whose lower-cased
   * extension is unsupported, or whose probe path exists, returns with no
   * change. Otherwise the file is converted and transcribed by `Transcode`.
   */
  function ProcessFile(s: State, cwd: Path, fullPath: Path, entry: string, directory: Path,
                       lang: string, svc: Services): (r: (Outcome, State))
    ensures r.1.visited == s.visited + [fullPath]
    ensures LowerExtension(fullPath) !in SupportedExtensions ==>
      r == (Done, s.(visited := s.visited + [fullPath]))
    ensures |r.1.transcribed| <= |s.transcribed| + 1
    // a `temp` that existed before is never removed
    ensures TempDir(cwd) in s.nodes ==> TempDir(cwd) in r.1.nodes
    // one this call found absent is gone again after a completed call ...
    ensures r.0.Done? && TempDir(cwd) !in s.nodes ==> TempDir(cwd) !in r.1.nodes
    // ... but survives a failed one: the removal is not in a `finally`
    ensures r.0.Failed? && TempDir(cwd) !in s.nodes ==> TempDir(cwd) in r.1.nodes
  {
    var s0 := s.(visited := s.visited + [fullPath]);
    var ext := LowerExtension(fullPath);
    if ext !in SupportedExtensions then (Done, s0)
    else if SkipProbe(fullPath, ext) in s.nodes then (Done, s0)
    else
      var tempWavFileName := TempWavName(entry);
      var tempOutFilePath := TempWavPath(cwd, tempWavFileName);
      Transcode(s0, cwd, fullPath, tempOutFilePath, tempWavFileName, Relative(PublicDir(cwd), directory), lang, svc)
  }

  /**
   * The rest of `processFile`: `temp` is created when absent, audio is
   * extracted to `tempOutFilePath`, `subFile` writes the artifact, and `temp`
   * is removed if and only if this call created it and nothing failed before.
   */
  function Transcode(s: State, cwd: Path, fullPath: Path, tempOutFilePath: Path, tempWavFileName: string,
                     folder: seq<string>, lang: string, svc: Services): (r: (Outcome, State))
    ensures r.1.visited == s.visited
    // `transcribe` is called, on the extracted file, exactly when extraction succeeds
    ensures !svc.extract(fullPath) ==> r.0 == Failed(ExtractionFailed(fullPath)) && r.1.transcribed == s.transcribed
    ensures svc.extract(fullPath) ==> r.1.transcribed == s.transcribed + [tempOutFilePath]
    ensures TempDir(cwd) in s.nodes ==> TempDir(cwd) in r.1.nodes
    ensures r.0.Done? && TempDir(cwd) !in s.nodes ==> TempDir(cwd) !in r.1.nodes
    ensures r.0.Failed? && TempDir(cwd) !in s.nodes ==> TempDir(cwd) in r.1.nodes
  {
    var temp := TempDir(cwd);
    var shouldRemoveTempDirectory := temp !in s.nodes;
    var s1 := if shouldRemoveTempDirectory then s.(nodes := s.nodes[temp := Directory]) else s;
    if !svc.extract(fullPath) then (Failed(ExtractionFailed(fullPath)), s1)
    else
      var s2 := s1.(nodes := s1.nodes[tempOutFilePath := Wav(fullPath)]);
      var (outcome, s3) := SubFile(s2, cwd, tempOutFilePath, tempWavFileName, folder, lang, svc);
      if outcome.Failed? then (outcome, s3)
      else if shouldRemoveTempDirectory then
        assert IsPrefix(temp, temp);
        (Done, s3.(nodes := RemoveTree(s3.nodes, temp)))
      else (Done, s3)
  }

  // ---------------------------------------------------------------------------
  // processDirectory

  function EntrySize(e: Entry): (n: nat)
    ensures n >= 1
  {
    match e
    case File(_) => 1
    case Dir(_, es) => 1 + Size(es)
  }

  /** The number of entries in a listing, counting every level below it. */
  function Size(es: seq<Entry>): nat {
    if es == [] then 0 else EntrySize(es[0]) + Size(es[1..])
  }

  /** `readdirSync(directory).filter((f) => f !== '.DS_Store')`. */
  function Visible(es: seq<Entry>): (r: seq<Entry>)
    ensures Size(r) <= Size(es)
    ensures |r| <= |es|
    ensures forall i :: 0 <= i < |r| ==> r[i] in es && r[i].name != IgnoredName
    ensures forall e :: e in es && e.name != IgnoredName ==> e in r
  {
    if es == [] then []
    else if es[0].name == IgnoredName then Visible(es[1..])
    else [es[0]] + Visible(es[1..])
  }

  /**
   * `processDirectory(directory)` over the listing `listing`: every visible
   * entry in order, a subdirectory walked to the end before the next
   * sibling, each file awaited before the next; the first failure ends the
   * walk.
   */
  function ProcessDirectory(s: State, cwd: Path, directory: Path, listing: seq<Entry>,
                            lang: string, svc: Services): (Outcome, State)
    decreases Size(listing), 2
  {
    WalkEntries(s, cwd, directory, Visible(listing), lang, svc)
  }

  /** The `for` loop of `processDirectory` from entry `es[0]` on. */
  function WalkEntries(s: State, cwd: Path, directory: Path, es: seq<Entry>,
                       lang: string, svc: Services): (Outcome, State)
    decreases Size(es), 1
  {
    if es == [] then (Done, s)
    else
      assert Size(es) == EntrySize(es[0]) + Size(es[1..]);
      var (outcome, s1) := EntryStep(s, cwd, directory, es, lang, svc);
      if outcome.Failed? then (outcome, s1)
      else WalkEntries(s1, cwd, directory, es[1..], lang, svc)
  }

  /** One iteration of that loop: recurse into a directory, or process a file. */
  function EntryStep(s: State, cwd: Path, directory: Path, es: seq<Entry>,
                     lang: string, svc: Services): (Outcome, State)
    requires es != []
    decreases Size(es), 0
  {
    assert Size(es) == EntrySize(es[0]) + Size(es[1..]);
    match es[0]
    case Dir(name, listing) => ProcessDirectory(s, cwd, directory + [name], listing, lang, svc)
    case File(name) => ProcessFile(s, cwd, directory + [name], name, directory, lang, svc)
  }

  /** The paths a complete walk hands to `processFile`, in order. */
  function FilesDepthFirst(directory: Path, listing: seq<Entry>): seq<Path>
    decreases Size(listing), 2
  {
    FilesOf(directory, Visible(listing))
  }

  function FilesOf(directory: Path, es: seq<Entry>): seq<Path>
    decreases Size(es), 1
  {
    if es == [] then []
    else
      assert Size(es) == EntrySize(es[0]) + Size(es[1..]);
      EntryFiles(directory, es[0]) + FilesOf(directory, es[1..])
  }

  /** The paths the entry `e` of `directory` contributes: itself, or its subtree's. */
  function EntryFiles(directory: Path, e: Entry): seq<Path>
    decreases EntrySize(e), 0
  {
    match e
    case File(name) => [directory + [name]]
    case Dir(name, listing) => FilesDepthFirst(directory + [name], listing)
  }

  // ---------------------------------------------------------------------------
  // The top level

  /** The entry of `es` named `name`, if any. */
  function Find(es: seq<Entry>, name: string): (r: Option<Entry>)
    ensures r.Some? ==> r.value in es && r.value.name == name
    ensures r.None? ==> forall e :: e in es ==> e.name != name
  {
    if es == [] then None
    else if es[0].name == name then Some(es[0])
    else Find(es[1..], name)
  }

  /** `lstatSync(path)` against the snapshot rooted at `root` (the directory `/`). */
  function Lookup(root: Entry, p: Path): (r: Option<Entry>)
    decreases |p|
    ensures r.Some? && p != [] ==> r.value.name == p[|p| - 1]
    ensures r.Some? && p != [] ==> root.Dir?
  {
    if p == [] then Some(root)
    else match root
      case File(_) => None
      case Dir(_, es) =>
        match Find(es, p[0])
        case None => None
        case Some(e) => Lookup(e, p[1..])
  }

  /** The loop over the path arguments: a directory is walked, anything else is processed as a file. */
  function RunPaths(s: State, cwd: Path, root: Entry, args: seq<string>,
                    lang: string, svc: Services): (Outcome, State)
    decreases |args|
  {
    if args == [] then (Done, s)
    else
      var (outcome, s1) := RunPath(s, cwd, root, args[0], lang, svc);
      if outcome.Failed? then (outcome, s1)
      else RunPaths(s1, cwd, root, args[1..], lang, svc)
  }

  /** One argument: `lstatSync` fails on a missing path, ending the run. */
  function RunPath(s: State, cwd: Path, root: Entry, arg: string,
                   lang: string, svc: Services): (Outcome, State)
  {
    var fullPath := Join(cwd, arg);
    match Lookup(root, fullPath)
    case None => (Failed(NoSuchPath(fullPath)), s)
    case Some(Dir(_, listing)) => ProcessDirectory(s, cwd, fullPath, listing, lang, svc)
    case Some(File(_)) =>
      ProcessFile(s, cwd, fullPath, Last(fullPath),
                  if fullPath == [] then [] else fullPath[..|fullPath| - 1], lang, svc)
  }

  /**
   * The script after argument parsing: with no path arguments the public
   * directory is walked (and the process exits), otherwise each argument is
   * handled in turn.
   */
  function Run(s: State, cwd: Path, root: Entry, args: seq<string>,
               lang: string, svc: Services): (Outcome, State)
  {
    if args == [] then
      match Lookup(root, PublicDir(cwd))
      case None => (Failed(NoSuchPath(PublicDir(cwd))), s)
      case Some(File(_)) => (Failed(NotADirectory(PublicDir(cwd))), s)
      case Some(Dir(_, listing)) => ProcessDirectory(s, cwd, PublicDir(cwd), listing, lang, svc)
    else RunPaths(s, cwd, root, args, lang, svc)
  }
}
