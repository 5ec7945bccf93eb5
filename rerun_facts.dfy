/**
 * Running the driver a second time: once a walk over a directory has
 * completed, walking the same listing again skips every file, calls no
 * transcription and changes nothing in the file system.
 *
 * The listing snapshot and the file system map are separate parts of the
 * model; the facts here assume that every listed file exists in the map,
 * which is what a snapshot of that file system gives.
 */
module RerunFacts {
  import opened Wrappers
  import opened Text
  import opened Paths
  import opened Pipeline
  import opened ProcessFileFacts
  import opened WalkFacts

  /** Neither path lies inside the other. */
  predicate Apart(a: Path, b: Path) {
    !IsPrefix(a, b) && !IsPrefix(b, a)
  }

  lemma ApartChild(a: Path, d: Path, x: string)
    requires Apart(a, d)
    ensures Apart(a, d + [x])
  {
    var c := d + [x];
    assert c[..|d|] == d;
    if |a| <= |d| {
      assert c[..|a|] == d[..|a|];
    }
  }

  /**
   * Every path of `files` exists, is normalised, and lies in a directory
   * apart from the scratch directory.
   */
  ghost predicate Present(cwd: Path, nodes: map<Path, Node>, files: seq<Path>) {
    forall p :: p in files ==> p != [] && IsNormal(p) && p in nodes && Apart(TempDir(cwd), p[..|p| - 1])
  }

  /**
   * `processFile` would skip `p`: its extension is unsupported, or its probe
   * path exists outside the scratch directory.
   */
  ghost predicate Settled(cwd: Path, nodes: map<Path, Node>, p: Path) {
    LowerExtension(p) in SupportedExtensions ==>
      SkipProbe(p, LowerExtension(p)) in nodes && !IsPrefix(TempDir(cwd), SkipProbe(p, LowerExtension(p)))
  }

  ghost predicate AllSettled(cwd: Path, nodes: map<Path, Node>, files: seq<Path>) {
    forall p :: p in files ==> Settled(cwd, nodes, p)
  }

  /** Nothing outside the scratch directory is removed from `a` to `b`. */
  ghost predicate KeepsOutside(cwd: Path, a: map<Path, Node>, b: map<Path, Node>) {
    forall p :: p in a && !IsPrefix(TempDir(cwd), p) ==> p in b
  }

  lemma KeepsOutsideTrans(cwd: Path, a: map<Path, Node>, b: map<Path, Node>, c: map<Path, Node>)
    requires KeepsOutside(cwd, a, b) && KeepsOutside(cwd, b, c)
    ensures KeepsOutside(cwd, a, c)
  {}

  lemma SettledStays(cwd: Path, a: map<Path, Node>, b: map<Path, Node>, files: seq<Path>)
    requires AllSettled(cwd, a, files) && KeepsOutside(cwd, a, b)
    ensures AllSettled(cwd, b, files)
  {}

  lemma AllSettledSplit(cwd: Path, nodes: map<Path, Node>, first: seq<Path>, rest: seq<Path>)
    requires AllSettled(cwd, nodes, first + rest)
    ensures AllSettled(cwd, nodes, first) && AllSettled(cwd, nodes, rest)
  {}

  lemma PresentStays(cwd: Path, a: map<Path, Node>, b: map<Path, Node>, files: seq<Path>)
    requires Present(cwd, a, files) && KeepsOutside(cwd, a, b)
    ensures Present(cwd, b, files)
  {
    forall p | p in files ensures p in b {
      var d := p[..|p| - 1];
      assert p == d + [p[|p| - 1]];
      ApartChild(TempDir(cwd), d, p[|p| - 1]);
    }
  }

  // ---------------------------------------------------------------------------
  // Nothing outside `temp` is removed by a walk

  lemma {:induction false} DirectoryKeepsOutside(s: State, cwd: Path, directory: Path, listing: seq<Entry>,
                                                  lang: string, svc: Services)
    decreases Size(listing), 2
    ensures KeepsOutside(cwd, s.nodes, ProcessDirectory(s, cwd, directory, listing, lang, svc).1.nodes)
  {
    EntriesKeepOutside(s, cwd, directory, Visible(listing), lang, svc);
  }

  lemma {:induction false} EntriesKeepOutside(s: State, cwd: Path, directory: Path, es: seq<Entry>,
                                               lang: string, svc: Services)
    decreases Size(es), 1
    ensures KeepsOutside(cwd, s.nodes, WalkEntries(s, cwd, directory, es, lang, svc).1.nodes)
  {
    if es != [] {
      assert Size(es) == EntrySize(es[0]) + Size(es[1..]);
      EntryKeepsOutside(s, cwd, directory, es, lang, svc);
      var (o1, s1) := EntryStep(s, cwd, directory, es, lang, svc);
      if o1.Done? {
        EntriesKeepOutside(s1, cwd, directory, es[1..], lang, svc);
        KeepsOutsideTrans(cwd, s.nodes, s1.nodes, WalkEntries(s1, cwd, directory, es[1..], lang, svc).1.nodes);
      }
    }
  }

  lemma {:induction false} EntryKeepsOutside(s: State, cwd: Path, directory: Path, es: seq<Entry>,
                                              lang: string, svc: Services)
    requires es != []
    decreases Size(es), 0
    ensures KeepsOutside(cwd, s.nodes, EntryStep(s, cwd, directory, es, lang, svc).1.nodes)
  {
    assert Size(es) == EntrySize(es[0]) + Size(es[1..]);
    match es[0]
    case File(name) =>
      ProcessFileFrame(s, cwd, directory + [name], name, directory, lang, svc);
    case Dir(name, listing) =>
      DirectoryKeepsOutside(s, cwd, directory + [name], listing, lang, svc);
  }

  // ---------------------------------------------------------------------------
  // A completed walk settles every file it lists

  /**
   * A completed call on an existing file leaves it settled: an unsupported
   * file is settled anyway, a skipped one by the probe that made it skip,
   * and a processed one by the artifact written at its probe path.
   */
  lemma FileSettles(s: State, cwd: Path, directory: Path, entry: string, lang: string, svc: Services)
    requires IsNormal(directory + [entry]) && directory + [entry] in s.nodes
    requires Apart(TempDir(cwd), directory)
    requires ProcessFile(s, cwd, directory + [entry], entry, directory, lang, svc).0.Done?
    ensures Settled(cwd, ProcessFile(s, cwd, directory + [entry], entry, directory, lang, svc).1.nodes,
                    directory + [entry])
  {
    var p := directory + [entry];
    var r := ProcessFile(s, cwd, p, entry, directory, lang, svc);
    assert Last(p) == entry && p[..|p| - 1] == directory;
    assert IsNormal(directory) && IsName(entry) by {
      assert forall i :: 0 <= i < |directory| ==> directory[i] == p[i];
      assert p[|directory|] == entry;
    }
    var ext := LowerExtension(p);
    if ext in SupportedExtensions {
      var probe := SkipProbe(p, ext);
      assert probe == directory + [probe[|probe| - 1]];
      ApartChild(TempDir(cwd), directory, probe[|probe| - 1]);
      SkipExactlyWhenProbeExists(s, cwd, p, entry, directory, lang, svc);
      if probe !in s.nodes {
        if Lower(Extname(entry)) != Extname(entry) {
          ProbeOfOtherCaseExtension(p);
          assert false;
        }
        assert Extname(entry) != "";
        ProbeOfLowerCaseExtension(p);
        ArtifactWrittenBesideSource(s, cwd, directory, entry, lang, svc);
      }
    }
  }

  lemma {:induction false} DirectorySettles(s: State, cwd: Path, directory: Path, listing: seq<Entry>,
                                             lang: string, svc: Services)
    requires Present(cwd, s.nodes, FilesDepthFirst(directory, listing))
    requires ProcessDirectory(s, cwd, directory, listing, lang, svc).0.Done?
    decreases Size(listing), 2
    ensures AllSettled(cwd, ProcessDirectory(s, cwd, directory, listing, lang, svc).1.nodes,
                       FilesDepthFirst(directory, listing))
  {
    EntriesSettle(s, cwd, directory, Visible(listing), lang, svc);
  }

  lemma {:induction false} EntriesSettle(s: State, cwd: Path, directory: Path, es: seq<Entry>,
                                          lang: string, svc: Services)
    requires Present(cwd, s.nodes, FilesOf(directory, es))
    requires WalkEntries(s, cwd, directory, es, lang, svc).0.Done?
    decreases Size(es), 1
    ensures AllSettled(cwd, WalkEntries(s, cwd, directory, es, lang, svc).1.nodes, FilesOf(directory, es))
  {
    if es != [] {
      assert Size(es) == EntrySize(es[0]) + Size(es[1..]);
      var first, rest := EntryFiles(directory, es[0]), FilesOf(directory, es[1..]);
      assert FilesOf(directory, es) == first + rest;
      var (o1, s1) := EntryStep(s, cwd, directory, es, lang, svc);
      var r := WalkEntries(s1, cwd, directory, es[1..], lang, svc);
      assert o1.Done? && WalkEntries(s, cwd, directory, es, lang, svc) == r;
      EntrySettles(s, cwd, directory, es, lang, svc);
      EntryKeepsOutside(s, cwd, directory, es, lang, svc);
      PresentStays(cwd, s.nodes, s1.nodes, rest);
      EntriesSettle(s1, cwd, directory, es[1..], lang, svc);
      EntriesKeepOutside(s1, cwd, directory, es[1..], lang, svc);
      SettledStays(cwd, s1.nodes, r.1.nodes, first);
    }
  }

  lemma {:induction false} EntrySettles(s: State, cwd: Path, directory: Path, es: seq<Entry>,
                                         lang: string, svc: Services)
    requires es != []
    requires Present(cwd, s.nodes, EntryFiles(directory, es[0]))
    requires EntryStep(s, cwd, directory, es, lang, svc).0.Done?
    decreases Size(es), 0
    ensures AllSettled(cwd, EntryStep(s, cwd, directory, es, lang, svc).1.nodes, EntryFiles(directory, es[0]))
  {
    assert Size(es) == EntrySize(es[0]) + Size(es[1..]);
    match es[0]
    case File(name) =>
      var p := directory + [name];
      assert p in EntryFiles(directory, es[0]) && p[..|p| - 1] == directory;
      FileSettles(s, cwd, directory, name, lang, svc);
    case Dir(name, listing) =>
      DirectorySettles(s, cwd, directory + [name], listing, lang, svc);
  }

  // ---------------------------------------------------------------------------
  // A walk over settled files only records the calls

  /** The outcome of a walk or step that completes, records `files` and changes nothing else. */
  predicate Quiet(s: State, r: (Outcome, State), files: seq<Path>) {
    r.0 == Done && r.1.nodes == s.nodes && r.1.transcribed == s.transcribed && r.1.visited == s.visited + files
  }

  lemma QuietCompose(s: State, s1: State, r: (Outcome, State), first: seq<Path>, rest: seq<Path>)
    requires Quiet(s, (Done, s1), first) && Quiet(s1, r, rest)
    ensures Quiet(s, r, first + rest)
  {
    assert s1.visited + rest == s.visited + (first + rest);
  }

  lemma {:induction false} DirectoryQuiet(s: State, cwd: Path, directory: Path, listing: seq<Entry>,
                                           lang: string, svc: Services)
    requires AllSettled(cwd, s.nodes, FilesDepthFirst(directory, listing))
    decreases Size(listing), 2
    ensures Quiet(s, ProcessDirectory(s, cwd, directory, listing, lang, svc), FilesDepthFirst(directory, listing))
  {
    EntriesQuiet(s, cwd, directory, Visible(listing), lang, svc);
  }

  lemma {:induction false} EntriesQuiet(s: State, cwd: Path, directory: Path, es: seq<Entry>,
                                         lang: string, svc: Services)
    requires AllSettled(cwd, s.nodes, FilesOf(directory, es))
    decreases Size(es), 1
    ensures Quiet(s, WalkEntries(s, cwd, directory, es, lang, svc), FilesOf(directory, es))
  {
    if es == [] {
      assert s.visited + [] == s.visited;
    } else {
      assert Size(es) == EntrySize(es[0]) + Size(es[1..]);
      var first, rest := EntryFiles(directory, es[0]), FilesOf(directory, es[1..]);
      assert FilesOf(directory, es) == first + rest;
      AllSettledSplit(cwd, s.nodes, first, rest);
      EntryQuiet(s, cwd, directory, es, lang, svc);
      var (o1, s1) := EntryStep(s, cwd, directory, es, lang, svc);
      WalkEntriesStep(s, s1, o1, cwd, directory, es, lang, svc);
      EntriesQuiet(s1, cwd, directory, es[1..], lang, svc);
      QuietCompose(s, s1, WalkEntries(s1, cwd, directory, es[1..], lang, svc), first, rest);
    }
  }

  lemma {:induction false} EntryQuiet(s: State, cwd: Path, directory: Path, es: seq<Entry>,
                                       lang: string, svc: Services)
    requires es != []
    requires AllSettled(cwd, s.nodes, EntryFiles(directory, es[0]))
    decreases Size(es), 0
    ensures Quiet(s, EntryStep(s, cwd, directory, es, lang, svc), EntryFiles(directory, es[0]))
  {
    assert Size(es) == EntrySize(es[0]) + Size(es[1..]);
    match es[0]
    case File(name) =>
      var p := directory + [name];
      assert p in EntryFiles(directory, es[0]);
      if LowerExtension(p) in SupportedExtensions {
        SkipExactlyWhenProbeExists(s, cwd, p, name, directory, lang, svc);
      }
    case Dir(name, listing) =>
      DirectoryQuiet(s, cwd, directory + [name], listing, lang, svc);
  }

  // ---------------------------------------------------------------------------
  // Running again

  /**
   * Idempotency of a walk: after a completed walk over a listing whose files
   * exist, walking it again completes, hands `processFile` the same paths,
   * calls no transcription and leaves the file system as it is.
   */
  lemma WalkIdempotent(s: State, cwd: Path, directory: Path, listing: seq<Entry>, lang: string, svc: Services)
    requires Present(cwd, s.nodes, FilesDepthFirst(directory, listing))
    requires ProcessDirectory(s, cwd, directory, listing, lang, svc).0.Done?
    ensures var s1 := ProcessDirectory(s, cwd, directory, listing, lang, svc).1;
      Quiet(s1, ProcessDirectory(s1, cwd, directory, listing, lang, svc), FilesDepthFirst(directory, listing))
  {
    DirectorySettles(s, cwd, directory, listing, lang, svc);
    DirectoryQuiet(ProcessDirectory(s, cwd, directory, listing, lang, svc).1, cwd, directory, listing, lang, svc);
  }

  /** Every file below the public directory lies in a directory apart from `temp`. */
  lemma PublicFilesPresent(cwd: Path, nodes: map<Path, Node>, listing: seq<Entry>)
    requires forall p :: p in FilesDepthFirst(PublicDir(cwd), listing) ==> IsNormal(p) && p in nodes
    ensures Present(cwd, nodes, FilesDepthFirst(PublicDir(cwd), listing))
  {
    FilesBelow(PublicDir(cwd), listing);
    forall p | p in FilesDepthFirst(PublicDir(cwd), listing)
      ensures p != [] && Apart(TempDir(cwd), p[..|p| - 1])
    {
      BelowPublicApart(cwd, p);
    }
  }

  lemma BelowPublicApart(cwd: Path, p: Path)
    requires IsPrefix(PublicDir(cwd), p) && |PublicDir(cwd)| < |p|
    ensures Apart(TempDir(cwd), p[..|p| - 1])
  {
    var d, t, pub := p[..|p| - 1], TempDir(cwd), PublicDir(cwd);
    assert d[..|pub|] == p[..|pub|] == pub;
    assert d[|cwd|] == "public" != "temp" == t[|cwd|];
  }

  /**
   * Idempotency of a run without path arguments: when every file listed
   * below the public directory exists with a normalised path, a second run
   * after a completed one skips everything and calls no transcription.
   */
  lemma RunIdempotent(s: State, cwd: Path, root: Entry, name: string, listing: seq<Entry>,
                      lang: string, svc: Services)
    requires Lookup(root, PublicDir(cwd)) == Some(Dir(name, listing))
    requires forall p :: p in FilesDepthFirst(PublicDir(cwd), listing) ==> IsNormal(p) && p in s.nodes
    requires Run(s, cwd, root, [], lang, svc).0.Done?
    ensures var s1 := Run(s, cwd, root, [], lang, svc).1;
      Quiet(s1, Run(s1, cwd, root, [], lang, svc), FilesDepthFirst(PublicDir(cwd), listing))
  {
    PublicFilesPresent(cwd, s.nodes, listing);
    WalkIdempotent(s, cwd, PublicDir(cwd), listing, lang, svc);
  }
}
