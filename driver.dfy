/**
 * The batch transcription driver as it runs: one object holding the
 * argument array, the file system and the call record, and methods that
 * update them step by step as the script does. Each method is proved
 * against the function of the same name in `Pipeline` (or `CommandLine`),
 * whose properties are proved in `ProcessFileFacts` and `WalkFacts`.
 */
module Driver {
  import opened Wrappers
  import opened Paths
  import opened Artifact
  import opened CommandLine
  import opened Pipeline
  import WalkFacts

  class Session {
    /** `process.cwd()`. */
    const cwd: Path
    /** The argument array the script works on. */
    var args: seq<string>
    var nodes: map<Path, Node>
    var visited: seq<Path>
    var transcribed: seq<Path>

    function Current(): State
      reads this
    {
      State(nodes, visited, transcribed)
    }

    /** `process.argv.slice(2)` over a file system `nodes`, before any call. */
    constructor(cwd: Path, argv: seq<string>, nodes: map<Path, Node>)
      ensures this.cwd == cwd && this.nodes == nodes
      ensures args == if |argv| >= 2 then argv[2..] else []
      ensures visited == [] && transcribed == []
    {
      this.cwd := cwd;
      args := if |argv| >= 2 then argv[2..] else [];
      this.nodes := nodes;
      visited := [];
      transcribed := [];
    }

    /** Read `--lang <code>` and splice both out of the argument array. */
    method TakeLanguage() returns (lang: string)
      modifies this
      ensures lang == Language(old(args)) && args == WithoutLanguage(old(args))
      ensures Current() == old(Current())
    {
      var langIndex := IndexOf(args, LangFlag);
      lang := if langIndex != -1 && langIndex + 1 < |args| && args[langIndex + 1] != ""
              then args[langIndex + 1] else DefaultLanguage;
      if langIndex != -1 {
        var stop := if langIndex + 2 <= |args| then langIndex + 2 else |args|;
        args := args[..langIndex] + args[stop..];
      }
    }

    /** `subFile(filePath, fileName, folder)`. */
    method SubFile(filePath: Path, fileName: string, folder: seq<string>, lang: string, svc: Services)
      returns (outcome: Outcome)
      modifies this
      ensures (outcome, Current()) == Pipeline.SubFile(old(Current()), cwd, filePath, fileName, folder, lang, svc)
      ensures args == old(args)
    {
      var outPath := OutPath(cwd, folder, fileName);
      transcribed := transcribed + [filePath];
      if filePath !in nodes || !nodes[filePath].Wav? {
        return Failed(TranscriptionFailed(filePath));
      }
      var result := svc.transcribe(nodes[filePath].source, lang);
      if result.None? {
        return Failed(TranscriptionFailed(filePath));
      }
      var items := RawItems(result.value);
      if items.None? {
        return Failed(NoTranscription(filePath));
      }
      var captions := svc.toCaptions(items.value);
      if captions.None? {
        return Failed(CaptionsFailed(filePath));
      }
      nodes := nodes[outPath := Json(Build(result.value, items.value, captions.value))];
      outcome := Done;
    }

    /** `processFile(fullPath, entry, directory)`. */
    method ProcessFile(fullPath: Path, entry: string, directory: Path, lang: string, svc: Services)
      returns (outcome: Outcome)
      modifies this
      ensures (outcome, Current()) == Pipeline.ProcessFile(old(Current()), cwd, fullPath, entry, directory, lang, svc)
      ensures args == old(args)
    {
      visited := visited + [fullPath];
      var fileExtension := LowerExtension(fullPath);
      if fileExtension !in SupportedExtensions {
        return Done;
      }
      var isTranscribed := SkipProbe(fullPath, fileExtension) in nodes;
      if isTranscribed {
        return Done;
      }
      var shouldRemoveTempDirectory := false;
      if TempDir(cwd) !in nodes {
        nodes := nodes[TempDir(cwd) := Directory];
        shouldRemoveTempDirectory := true;
      }
      var tempWavFileName := TempWavName(entry);
      var tempOutFilePath := TempWavPath(cwd, tempWavFileName);
      if !svc.extract(fullPath) {
        return Failed(ExtractionFailed(fullPath));
      }
      nodes := nodes[tempOutFilePath := Wav(fullPath)];
      outcome := SubFile(tempOutFilePath, tempWavFileName, Relative(PublicDir(cwd), directory), lang, svc);
      if outcome.Failed? {
        return;
      }
      if shouldRemoveTempDirectory {
        nodes := RemoveTree(nodes, TempDir(cwd));
      }
    }

    /** `processDirectory(directory)`, where `listing` is what `readdirSync(directory)` returns. */
    method ProcessDirectory(directory: Path, listing: seq<Entry>, lang: string, svc: Services)
      returns (outcome: Outcome)
      modifies this
      decreases Size(listing)
      ensures (outcome, Current()) == Pipeline.ProcessDirectory(old(Current()), cwd, directory, listing, lang, svc)
      ensures args == old(args)
    {
      var entries := Visible(listing);
      var i := 0;
      while i < |entries|
        invariant 0 <= i <= |entries|
        invariant args == old(args)
        invariant WalkEntries(old(Current()), cwd, directory, entries, lang, svc)
               == WalkEntries(Current(), cwd, directory, entries[i..], lang, svc)
      {
        var entry := entries[i];
        var fullPath := directory + [entry.name];
        ghost var before := Current();
        WalkFacts.SizeOfMember(entry, listing);
        match entry {
          case Dir(name, children) =>
            outcome := ProcessDirectory(fullPath, children, lang, svc);
            WalkFacts.EntryStepOfDir(before, cwd, directory, entries[i..], name, children, lang, svc);
          case File(name) =>
            outcome := ProcessFile(fullPath, name, directory, lang, svc);
            WalkFacts.EntryStepOfFile(before, cwd, directory, entries[i..], name, lang, svc);
        }
        WalkFacts.WalkEntriesStep(before, Current(), outcome, cwd, directory, entries[i..], lang, svc);
        if outcome.Failed? {
          return;
        }
        assert entries[i..][1..] == entries[i + 1..];
        i := i + 1;
      }
      outcome := Done;
    }

    /** The script after argument parsing, over the snapshot rooted at `root`. */
    method Run(root: Entry, lang: string, svc: Services) returns (outcome: Outcome)
      modifies this
      ensures (outcome, Current()) == Pipeline.Run(old(Current()), cwd, root, old(args), lang, svc)
      ensures args == old(args)
    {
      if |args| == 0 {
        match Lookup(root, PublicDir(cwd))
        case None =>
          return Failed(NoSuchPath(PublicDir(cwd)));
        case Some(File(_)) =>
          return Failed(NotADirectory(PublicDir(cwd)));
        case Some(Dir(_, listing)) =>
          outcome := ProcessDirectory(PublicDir(cwd), listing, lang, svc);
          return;
      }
      outcome := ProcessArguments(root, lang, svc);
    }

    /** The `for` loop over the path arguments; the first failure ends it. */
    method ProcessArguments(root: Entry, lang: string, svc: Services) returns (outcome: Outcome)
      modifies this
      ensures (outcome, Current()) == RunPaths(old(Current()), cwd, root, old(args), lang, svc)
      ensures args == old(args)
    {
      var paths := args;
      var k := 0;
      while k < |paths|
        invariant 0 <= k <= |paths|
        invariant args == old(args)
        invariant RunPaths(old(Current()), cwd, root, paths, lang, svc)
               == RunPaths(Current(), cwd, root, paths[k..], lang, svc)
      {
        ghost var before := Current();
        outcome := ProcessArgument(root, paths[k], lang, svc);
        WalkFacts.RunPathsStep(before, Current(), outcome, cwd, root, paths[k..], lang, svc);
        if outcome.Failed? {
          return;
        }
        assert paths[k..][1..] == paths[k + 1..];
        k := k + 1;
      }
      outcome := Done;
    }

    /** One path argument: a directory is walked, anything else is processed as a file. */
    method ProcessArgument(root: Entry, arg: string, lang: string, svc: Services) returns (outcome: Outcome)
      modifies this
      ensures (outcome, Current()) == RunPath(old(Current()), cwd, root, arg, lang, svc)
      ensures args == old(args)
    {
      var fullPath := Join(cwd, arg);
      ghost var before := Current();
      match Lookup(root, fullPath)
      case None =>
        return Failed(NoSuchPath(fullPath));
      case Some(Dir(name, listing)) =>
        outcome := ProcessDirectory(fullPath, listing, lang, svc);
        WalkFacts.RunPathOfDir(before, cwd, root, arg, name, listing, lang, svc);
      case Some(File(name)) =>
        var directory := if fullPath == [] then [] else fullPath[..|fullPath| - 1];
        var fileName := Last(fullPath);
        outcome := ProcessFile(fullPath, fileName, directory, lang, svc);
        WalkFacts.RunPathOfFile(before, cwd, root, arg, name, lang, svc);
    }

    /** The whole script: the language flag first, then the run on what remains. */
    method Start(root: Entry, svc: Services) returns (outcome: Outcome)
      modifies this
      ensures (outcome, Current())
           == Pipeline.Run(old(Current()), cwd, root, WithoutLanguage(old(args)), Language(old(args)), svc)
      ensures args == WithoutLanguage(old(args))
    {
      var lang := TakeLanguage();
      outcome := Run(root, lang, svc);
    }
  }
}
