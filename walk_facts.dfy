/**
 * What the depth-first walk guarantees: which paths reach `processFile` and
 * in which order, that each does once, and what happens to the scratch
 * directory over a whole walk.
 */
module WalkFacts {
  import opened Wrappers
  import opened Paths
  import opened Pipeline

  // ---------------------------------------------------------------------------
  // One step of the walk

  /** After the step on `es[0]`, the walk of `es` is done if that step failed, and goes on with `es[1..]` otherwise. */
  lemma WalkEntriesStep(s: State, s1: State, outcome: Outcome, cwd: Path, directory: Path,
                        es: seq<Entry>, lang: string, svc: Services)
    requires es != [] && (outcome, s1) == EntryStep(s, cwd, directory, es, lang, svc)
    ensures outcome.Failed? ==> WalkEntries(s, cwd, directory, es, lang, svc) == (outcome, s1)
    ensures outcome.Done? ==>
      WalkEntries(s, cwd, directory, es, lang, svc) == WalkEntries(s1, cwd, directory, es[1..], lang, svc)
  {}

  lemma EntryStepOfDir(s: State, cwd: Path, directory: Path, es: seq<Entry>, name: string,
                       listing: seq<Entry>, lang: string, svc: Services)
    requires es != [] && es[0] == Dir(name, listing)
    ensures EntryStep(s, cwd, directory, es, lang, svc)
         == ProcessDirectory(s, cwd, directory + [name], listing, lang, svc)
  {}

  lemma EntryStepOfFile(s: State, cwd: Path, directory: Path, es: seq<Entry>, name: string,
                        lang: string, svc: Services)
    requires es != [] && es[0] == File(name)
    ensures EntryStep(s, cwd, directory, es, lang, svc)
         == ProcessFile(s, cwd, directory + [name], name, directory, lang, svc)
  {}

  /** The same for the loop over the command-line paths. */
  lemma RunPathsStep(s: State, s1: State, outcome: Outcome, cwd: Path, root: Entry,
                     args: seq<string>, lang: string, svc: Services)
    requires args != [] && (outcome, s1) == RunPath(s, cwd, root, args[0], lang, svc)
    ensures outcome.Failed? ==> RunPaths(s, cwd, root, args, lang, svc) == (outcome, s1)
    ensures outcome.Done? ==> RunPaths(s, cwd, root, args, lang, svc) == RunPaths(s1, cwd, root, args[1..], lang, svc)
  {}

  lemma RunPathOfDir(s: State, cwd: Path, root: Entry, arg: string, name: string, listing: seq<Entry>,
                     lang: string, svc: Services)
    requires Lookup(root, Join(cwd, arg)) == Some(Dir(name, listing))
    ensures RunPath(s, cwd, root, arg, lang, svc) == ProcessDirectory(s, cwd, Join(cwd, arg), listing, lang, svc)
  {}

  lemma RunPathOfFile(s: State, cwd: Path, root: Entry, arg: string, name: string, lang: string, svc: Services)
    requires Lookup(root, Join(cwd, arg)) == Some(File(name))
    ensures var p := Join(cwd, arg);
      RunPath(s, cwd, root, arg, lang, svc)
        == ProcessFile(s, cwd, p, Last(p), if p == [] then [] else p[..|p| - 1], lang, svc)
  {}

  // ---------------------------------------------------------------------------
  // Order of the calls

  /**
   * A walk hands `processFile` the depth-first file list in order: all of it
   * when it completes, a prefix of it when a file fails.
   */
  lemma {:induction false} DirectoryVisits(s: State, cwd: Path, directory: Path, listing: seq<Entry>,
                                           lang: string, svc: Services)
    decreases Size(listing), 2
    ensures var r := ProcessDirectory(s, cwd, directory, listing, lang, svc);
      && s.visited <= r.1.visited <= s.visited + FilesDepthFirst(directory, listing)
      && (r.0.Done? ==> r.1.visited == s.visited + FilesDepthFirst(directory, listing))
  {
    EntriesVisits(s, cwd, directory, Visible(listing), lang, svc);
  }

  lemma {:induction false} EntriesVisits(s: State, cwd: Path, directory: Path, es: seq<Entry>,
                                         lang: string, svc: Services)
    decreases Size(es), 1
    ensures var r := WalkEntries(s, cwd, directory, es, lang, svc);
      && s.visited <= r.1.visited <= s.visited + FilesOf(directory, es)
      && (r.0.Done? ==> r.1.visited == s.visited + FilesOf(directory, es))
  {
    if es != [] {
      assert Size(es) == EntrySize(es[0]) + Size(es[1..]);
      var first, rest := EntryFiles(directory, es[0]), FilesOf(directory, es[1..]);
      assert FilesOf(directory, es) == first + rest;
      EntryVisits(s, cwd, directory, es, lang, svc);
      var (o1, s1) := EntryStep(s, cwd, directory, es, lang, svc);
      if o1.Done? {
        EntriesVisits(s1, cwd, directory, es[1..], lang, svc);
        var r := WalkEntries(s1, cwd, directory, es[1..], lang, svc);
        PrefixChain(s.visited, first, s1.visited, rest, r.1.visited);
      } else {
        assert s.visited + first <= s.visited + (first + rest);
      }
    }
  }

  /** Sequence prefixes compose along the two halves of a walk. */
  lemma PrefixChain(v: seq<Path>, first: seq<Path>, v1: seq<Path>, rest: seq<Path>, v2: seq<Path>)
    requires v1 == v + first && v1 <= v2 <= v1 + rest
    ensures v <= v2 <= v + (first + rest)
  {
    assert v1 + rest == v + (first + rest);
  }

  lemma {:induction false} EntryVisits(s: State, cwd: Path, directory: Path, es: seq<Entry>,
                                       lang: string, svc: Services)
    requires es != []
    decreases Size(es), 0
    ensures var r := EntryStep(s, cwd, directory, es, lang, svc);
      && s.visited <= r.1.visited <= s.visited + EntryFiles(directory, es[0])
      && (r.0.Done? ==> r.1.visited == s.visited + EntryFiles(directory, es[0]))
  {
    assert Size(es) == EntrySize(es[0]) + Size(es[1..]);
    match es[0]
    case File(name) =>
    case Dir(name, listing) =>
      DirectoryVisits(s, cwd, directory + [name], listing, lang, svc);
  }

  // ---------------------------------------------------------------------------
  // Order of the calls over the command-line paths

  /**
   * The paths one argument hands to `processFile`: the depth-first list of a
   * directory, the file itself, nothing for a path that does not exist.
   */
  function ArgFiles(cwd: Path, root: Entry, arg: string): seq<Path> {
    var p := Join(cwd, arg);
    match Lookup(root, p)
    case None => []
    case Some(Dir(_, listing)) => FilesDepthFirst(p, listing)
    case Some(File(_)) => [p]
  }

  function ArgsFiles(cwd: Path, root: Entry, args: seq<string>): seq<Path>
    decreases |args|
  {
    if args == [] then [] else ArgFiles(cwd, root, args[0]) + ArgsFiles(cwd, root, args[1..])
  }

  /** The paths a whole run hands to `processFile`: the public directory's, or the arguments'. */
  function RunFiles(cwd: Path, root: Entry, args: seq<string>): seq<Path> {
    if args == [] then
      match Lookup(root, PublicDir(cwd))
      case Some(Dir(_, listing)) => FilesDepthFirst(PublicDir(cwd), listing)
      case _ => []
    else ArgsFiles(cwd, root, args)
  }

  lemma ArgVisits(s: State, cwd: Path, root: Entry, arg: string, lang: string, svc: Services)
    ensures var r := RunPath(s, cwd, root, arg, lang, svc);
      && s.visited <= r.1.visited <= s.visited + ArgFiles(cwd, root, arg)
      && (r.0.Done? ==> r.1.visited == s.visited + ArgFiles(cwd, root, arg))
  {
    var p := Join(cwd, arg);
    match Lookup(root, p)
    case None =>
    case Some(Dir(_, listing)) =>
      DirectoryVisits(s, cwd, p, listing, lang, svc);
    case Some(File(_)) =>
  }

  /**
   * The path arguments are handled in order, each to the end before the
   * next: a completed loop hands `processFile` the paths of every argument in
   * turn; a failed one hands it a prefix of that.
   */
  lemma {:induction false} ArgsVisits(s: State, cwd: Path, root: Entry, args: seq<string>,
                                      lang: string, svc: Services)
    decreases |args|
    ensures var r := RunPaths(s, cwd, root, args, lang, svc);
      && s.visited <= r.1.visited <= s.visited + ArgsFiles(cwd, root, args)
      && (r.0.Done? ==> r.1.visited == s.visited + ArgsFiles(cwd, root, args))
  {
    if args != [] {
      var first, rest := ArgFiles(cwd, root, args[0]), ArgsFiles(cwd, root, args[1..]);
      ArgVisits(s, cwd, root, args[0], lang, svc);
      var (o1, s1) := RunPath(s, cwd, root, args[0], lang, svc);
      RunPathsStep(s, s1, o1, cwd, root, args, lang, svc);
      if o1.Done? {
        ArgsVisits(s1, cwd, root, args[1..], lang, svc);
        var r := RunPaths(s1, cwd, root, args[1..], lang, svc);
        PrefixChain(s.visited, first, s1.visited, rest, r.1.visited);
      } else {
        assert s.visited + first <= s.visited + (first + rest);
      }
    }
  }

  /** A completed loop found every argument; a missing one fails the run with `lstat`'s error. */
  lemma {:induction false} ArgsExist(s: State, cwd: Path, root: Entry, args: seq<string>,
                                     lang: string, svc: Services)
    decreases |args|
    ensures RunPaths(s, cwd, root, args, lang, svc).0.Done? ==>
      forall a :: a in args ==> Lookup(root, Join(cwd, a)).Some?
  {
    if args != [] {
      var (o1, s1) := RunPath(s, cwd, root, args[0], lang, svc);
      RunPathsStep(s, s1, o1, cwd, root, args, lang, svc);
      if o1.Done? {
        ArgFound(s, cwd, root, args[0], lang, svc);
        ArgsExist(s1, cwd, root, args[1..], lang, svc);
        if RunPaths(s1, cwd, root, args[1..], lang, svc).0.Done? {
          forall a | a in args ensures Lookup(root, Join(cwd, a)).Some? {
            if a != args[0] {
              assert a in args[1..];
            }
          }
        }
      }
    }
  }

  lemma ArgFound(s: State, cwd: Path, root: Entry, arg: string, lang: string, svc: Services)
    ensures RunPath(s, cwd, root, arg, lang, svc).0.Done? ==> Lookup(root, Join(cwd, arg)).Some?
  {}

  /** The same for a whole run, with or without path arguments. */
  lemma RunVisits(s: State, cwd: Path, root: Entry, args: seq<string>, lang: string, svc: Services)
    ensures var r := Run(s, cwd, root, args, lang, svc);
      && s.visited <= r.1.visited <= s.visited + RunFiles(cwd, root, args)
      && (r.0.Done? ==> r.1.visited == s.visited + RunFiles(cwd, root, args))
  {
    if args == [] {
      match Lookup(root, PublicDir(cwd))
      case None =>
      case Some(File(_)) =>
      case Some(Dir(_, listing)) =>
        DirectoryVisits(s, cwd, PublicDir(cwd), listing, lang, svc);
    } else {
      ArgsVisits(s, cwd, root, args, lang, svc);
    }
  }

  // ---------------------------------------------------------------------------
  // The depth-first file list

  predicate DistinctNames(es: seq<Entry>) {
    forall i, j :: 0 <= i < j < |es| ==> es[i].name != es[j].name
  }

  /** Names are distinct within every directory of the tree, as in a real file system. */
  predicate UniqueNames(es: seq<Entry>)
    decreases Size(es)
  {
    DistinctNames(es) &&
    (es != [] ==>
      EntrySize(es[0]) + Size(es[1..]) == Size(es) &&
      (es[0].Dir? ==> UniqueNames(es[0].entries)) && UniqueNames(es[1..]))
  }

  predicate NoDuplicates(ps: seq<Path>) {
    forall i, j :: 0 <= i < j < |ps| ==> ps[i] != ps[j]
  }

  lemma SizeOfMember(e: Entry, es: seq<Entry>)
    requires e in es
    ensures EntrySize(e) <= Size(es)
  {
    if es[0] != e {
      SizeOfMember(e, es[1..]);
    }
  }

  /** A path listed for `es` comes from one of its entries. */
  lemma {:induction false} FilesOfMember(directory: Path, es: seq<Entry>, p: Path) returns (j: nat)
    requires p in FilesOf(directory, es)
    ensures j < |es| && p in EntryFiles(directory, es[j])
  {
    if p in EntryFiles(directory, es[0]) {
      j := 0;
    } else {
      var k := FilesOfMember(directory, es[1..], p);
      j := k + 1;
    }
  }

  /** A path an entry contributes lies below it and is not named `.DS_Store`. */
  lemma {:induction false} EntryFilesBelow(directory: Path, e: Entry, p: Path)
    requires e.name != IgnoredName && p in EntryFiles(directory, e)
    decreases EntrySize(e)
    ensures IsPrefix(directory + [e.name], p) && Last(p) != IgnoredName
    ensures |directory| < |p| && p[|directory|] == e.name
  {
    match e
    case File(name) =>
    case Dir(name, listing) =>
      var d := directory + [name];
      var es := Visible(listing);
      var j := FilesOfMember(d, es, p);
      SizeOfMember(es[j], listing);
      EntryFilesBelow(d, es[j], p);
      PrefixOfLonger(directory, name, es[j].name, p);
  }

  lemma PrefixOfLonger(a: Path, x: string, y: string, p: Path)
    requires IsPrefix(a + [x] + [y], p)
    ensures IsPrefix(a + [x], p) && |a| < |p| && p[|a|] == x
  {
    assert p[..|a| + 1] == p[..|a| + 2][..|a| + 1];
    assert p[|a|] == (a + [x])[|a|];
  }

  /** Every listed path lies strictly below the walked directory and is not named `.DS_Store`. */
  lemma FilesBelow(directory: Path, listing: seq<Entry>)
    ensures forall p :: p in FilesDepthFirst(directory, listing) ==>
      IsPrefix(directory, p) && |directory| < |p| && Last(p) != IgnoredName
  {
    forall p | p in FilesDepthFirst(directory, listing)
      ensures IsPrefix(directory, p) && |directory| < |p| && Last(p) != IgnoredName
    {
      var es := Visible(listing);
      var j := FilesOfMember(directory, es, p);
      EntryFilesBelow(directory, es[j], p);
      assert p[..|directory|] == p[..|directory| + 1][..|directory|];
    }
  }

  /**
   * The filter keeps order: the visible entries of a concatenation are those
   * of each part, in turn, and one entry is kept exactly when it is not
   * `.DS_Store`. Together these fix `Visible` on every listing.
   */
  lemma {:induction false} VisibleAppend(a: seq<Entry>, b: seq<Entry>)
    ensures Visible(a + b) == Visible(a) + Visible(b)
  {
    if a == [] {
      assert a + b == b;
    } else {
      assert (a + b)[0] == a[0] && (a + b)[1..] == a[1..] + b;
      VisibleAppend(a[1..], b);
    }
  }

  lemma VisibleOne(e: Entry)
    ensures Visible([e]) == if e.name == IgnoredName then [] else [e]
  {
    assert [e][1..] == [];
  }

  lemma VisibleKeepsDistinctNames(es: seq<Entry>)
    requires DistinctNames(es)
    ensures DistinctNames(Visible(es))
  {
    if es != [] && es[0].name != IgnoredName {
      VisibleKeepsDistinctNames(es[1..]);
      var r := Visible(es[1..]);
      assert forall i :: 0 <= i < |r| ==> r[i] in es[1..] && r[i].name != es[0].name;
    } else if es != [] {
      VisibleKeepsDistinctNames(es[1..]);
    }
  }

  lemma VisibleKeepsUniqueNames(es: seq<Entry>)
    requires UniqueNames(es)
    decreases Size(es)
    ensures UniqueNames(Visible(es))
  {
    VisibleKeepsDistinctNames(es);
    if es != [] {
      VisibleKeepsUniqueNames(es[1..]);
      if es[0].name != IgnoredName {
        assert Visible(es)[1..] == Visible(es[1..]);
      }
    }
  }

  lemma NoDuplicatesAppend(a: seq<Path>, b: seq<Path>)
    requires NoDuplicates(a) && NoDuplicates(b)
    requires forall p :: p in a ==> p !in b
    ensures NoDuplicates(a + b)
  {
    var ab := a + b;
    forall i, j | 0 <= i < j < |ab| ensures ab[i] != ab[j] {
      if j < |a| {
        assert ab[i] == a[i] && ab[j] == a[j];
      } else if i >= |a| {
        assert ab[i] == b[i - |a|] && ab[j] == b[j - |a|];
      } else {
        assert ab[i] == a[i] && a[i] in a;
        assert ab[j] == b[j - |a|] && b[j - |a|] in b;
      }
    }
  }

  /** With distinct names in every directory, no path is handed to `processFile` twice. */
  lemma {:induction false} FilesDepthFirstDistinct(directory: Path, listing: seq<Entry>)
    requires UniqueNames(listing)
    decreases Size(listing), 2
    ensures NoDuplicates(FilesDepthFirst(directory, listing))
  {
    VisibleKeepsUniqueNames(listing);
    FilesOfDistinct(directory, Visible(listing));
  }

  lemma {:induction false} FilesOfDistinct(directory: Path, es: seq<Entry>)
    requires UniqueNames(es)
    requires forall e :: e in es ==> e.name != IgnoredName
    decreases Size(es), 1
    ensures NoDuplicates(FilesOf(directory, es))
  {
    if es != [] {
      var first, rest := EntryFiles(directory, es[0]), FilesOf(directory, es[1..]);
      EntryFilesDistinct(directory, es[0]);
      FilesOfDistinct(directory, es[1..]);
      forall p | p in first ensures p !in rest {
        EntryFilesBelow(directory, es[0], p);
        if p in rest {
          var k := FilesOfMember(directory, es[1..], p);
          assert es[1..][k] == es[k + 1];
          EntryFilesBelow(directory, es[k + 1], p);
          assert false;
        }
      }
      NoDuplicatesAppend(first, rest);
    }
  }

  lemma {:induction false} EntryFilesDistinct(directory: Path, e: Entry)
    requires e.Dir? ==> UniqueNames(e.entries)
    decreases EntrySize(e), 0
    ensures NoDuplicates(EntryFiles(directory, e))
  {
    match e
    case File(name) =>
    case Dir(name, listing) =>
      FilesDepthFirstDistinct(directory + [name], listing);
  }

  /**
   * Depth first: the paths of entry `es[i]`, a whole subtree for a
   * directory, come together, after those of every earlier sibling and
   * before those of every later one.
   */
  lemma {:induction false} FilesOfSplit(directory: Path, es: seq<Entry>, i: nat)
    requires i < |es|
    ensures FilesOf(directory, es)
         == FilesOf(directory, es[..i]) + EntryFiles(directory, es[i]) + FilesOf(directory, es[i + 1..])
  {
    assert es == es[..i] + ([es[i]] + es[i + 1..]);
    FilesOfAppend(directory, es[..i], [es[i]] + es[i + 1..]);
    FilesOfCons(directory, [es[i]] + es[i + 1..]);
    assert ([es[i]] + es[i + 1..])[1..] == es[i + 1..];
  }

  /** The paths of two consecutive runs of entries are those of the first, then those of the second. */
  lemma {:induction false} FilesOfAppend(directory: Path, x: seq<Entry>, y: seq<Entry>)
    ensures FilesOf(directory, x + y) == FilesOf(directory, x) + FilesOf(directory, y)
    decreases |x|
  {
    if x == [] {
      assert x + y == y;
    } else {
      FilesOfAppend(directory, x[1..], y);
      FilesOfCons(directory, x + y);
      FilesOfCons(directory, x);
      assert (x + y)[0] == x[0] && (x + y)[1..] == x[1..] + y;
    }
  }

  lemma FilesOfCons(directory: Path, es: seq<Entry>)
    requires es != []
    ensures FilesOf(directory, es) == EntryFiles(directory, es[0]) + FilesOf(directory, es[1..])
  {}

  /**
   * `rel` leads from the listed directory to a file through entries none of
   * which is named `.DS_Store`.
   */
  ghost predicate VisibleFile(listing: seq<Entry>, rel: seq<string>)
    decreases |rel|
  {
    && rel != [] && rel[0] != IgnoredName
    && if |rel| == 1 then File(rel[0]) in listing
       else exists sub :: Dir(rel[0], sub) in listing && VisibleFile(sub, rel[1..])
  }

  lemma EntryFilesInFilesOf(directory: Path, es: seq<Entry>, e: Entry, p: Path)
    requires e in es && p in EntryFiles(directory, e)
    ensures p in FilesOf(directory, es)
  {
    var i :| 0 <= i < |es| && es[i] == e;
    FilesOfSplit(directory, es, i);
  }

  /** Every file of the tree reached without passing a `.DS_Store` entry is handed to `processFile`. */
  lemma {:induction false} VisibleFilesListed(directory: Path, listing: seq<Entry>, rel: seq<string>)
    requires VisibleFile(listing, rel)
    decreases |rel|
    ensures directory + rel in FilesDepthFirst(directory, listing)
  {
    var es := Visible(listing);
    if |rel| == 1 {
      assert File(rel[0]) in es;
      assert rel == [rel[0]];
      assert directory + rel in EntryFiles(directory, File(rel[0]));
      EntryFilesInFilesOf(directory, es, File(rel[0]), directory + rel);
    } else {
      var sub :| Dir(rel[0], sub) in listing && VisibleFile(sub, rel[1..]);
      VisibleFilesListed(directory + [rel[0]], sub, rel[1..]);
      assert directory + [rel[0]] + rel[1..] == directory + rel;
      assert Dir(rel[0], sub) in es;
      EntryFilesInFilesOf(directory, es, Dir(rel[0], sub), directory + rel);
    }
  }

  /** Nothing else is: each listed path is such a file. */
  lemma {:induction false} ListedFilesVisible(directory: Path, listing: seq<Entry>, p: Path)
    requires p in FilesDepthFirst(directory, listing)
    decreases Size(listing), 1
    ensures |directory| < |p| && p[..|directory|] == directory && VisibleFile(listing, p[|directory|..])
  {
    var es := Visible(listing);
    var j := FilesOfMember(directory, es, p);
    SizeOfMember(es[j], listing);
    EntryFileVisible(directory, listing, es[j], p);
  }

  lemma {:induction false} EntryFileVisible(directory: Path, listing: seq<Entry>, e: Entry, p: Path)
    requires e in listing && e.name != IgnoredName && p in EntryFiles(directory, e)
    decreases EntrySize(e), 0
    ensures |directory| < |p| && p[..|directory|] == directory && VisibleFile(listing, p[|directory|..])
  {
    match e
    case File(name) =>
      assert p == directory + [name];
      assert p[..|directory|] == directory && p[|directory|..] == [name];
    case Dir(name, sub) =>
      var d := directory + [name];
      ListedFilesVisible(d, sub, p);
      var rel := p[|directory|..];
      assert p[..|directory|] == d[..|directory|] == directory;
      assert rel[0] == p[..|d|][|directory|] == name;
      assert rel[1..] == p[|d|..];
      VisibleFileOfDir(listing, name, sub, rel);
  }

  lemma VisibleFileOfDir(listing: seq<Entry>, name: string, sub: seq<Entry>, rel: seq<string>)
    requires Dir(name, sub) in listing && name != IgnoredName
    requires |rel| > 1 && rel[0] == name && VisibleFile(sub, rel[1..])
    ensures VisibleFile(listing, rel)
  {}

  // ---------------------------------------------------------------------------
  // The scratch directory over a whole walk

  /**
   * A `temp` that existed before a walk still exists after it; one that did
   * not exist is gone again after a walk that completes.
   */
  lemma {:induction false} DirectoryKeepsTemp(s: State, cwd: Path, directory: Path, listing: seq<Entry>,
                                              lang: string, svc: Services)
    decreases Size(listing), 2
    ensures var r := ProcessDirectory(s, cwd, directory, listing, lang, svc);
      && (TempDir(cwd) in s.nodes ==> TempDir(cwd) in r.1.nodes)
      && (r.0.Done? && TempDir(cwd) !in s.nodes ==> TempDir(cwd) !in r.1.nodes)
  {
    EntriesKeepTemp(s, cwd, directory, Visible(listing), lang, svc);
  }

  lemma {:induction false} EntriesKeepTemp(s: State, cwd: Path, directory: Path, es: seq<Entry>,
                                           lang: string, svc: Services)
    decreases Size(es), 1
    ensures var r := WalkEntries(s, cwd, directory, es, lang, svc);
      && (TempDir(cwd) in s.nodes ==> TempDir(cwd) in r.1.nodes)
      && (r.0.Done? && TempDir(cwd) !in s.nodes ==> TempDir(cwd) !in r.1.nodes)
  {
    if es != [] {
      assert Size(es) == EntrySize(es[0]) + Size(es[1..]);
      EntryKeepsTemp(s, cwd, directory, es, lang, svc);
      var (o1, s1) := EntryStep(s, cwd, directory, es, lang, svc);
      if o1.Done? {
        EntriesKeepTemp(s1, cwd, directory, es[1..], lang, svc);
      }
    }
  }

  lemma {:induction false} EntryKeepsTemp(s: State, cwd: Path, directory: Path, es: seq<Entry>,
                                          lang: string, svc: Services)
    requires es != []
    decreases Size(es), 0
    ensures var r := EntryStep(s, cwd, directory, es, lang, svc);
      && (TempDir(cwd) in s.nodes ==> TempDir(cwd) in r.1.nodes)
      && (r.0.Done? && TempDir(cwd) !in s.nodes ==> TempDir(cwd) !in r.1.nodes)
  {
    assert Size(es) == EntrySize(es[0]) + Size(es[1..]);
    match es[0]
    case File(name) =>
    case Dir(name, listing) =>
      DirectoryKeepsTemp(s, cwd, directory + [name], listing, lang, svc);
  }
}
