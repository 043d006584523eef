/** ZIP extraction (pkg/utils/zip.go) after the archive is decoded: the path checks and the byte
    budget. What the file system and the decompressor do is a parameter of each entry. */
module Zip {
  import opened Paths
  import opened Text
  import opened Trees

  const MAX_ZIP_ENTRIES := 200
  const MAX_ZIP_SIZE := 20 * 1024 * 1024

  /** Where the file system or the decompressor fails an entry, if it does: after making some of
      the missing directories, at opening the entry or its target, or after copying some bytes. */
  datatype Fault = NoFault | Mkdir(made: nat) | Open | Create | Copy(after: nat)

  /** `data` is the uncompressed content. */
  datatype Entry = Entry(name: string, isDir: bool, data: string, fault: Fault)

  datatype Reason = TooManyEntries | DangerousPath | ZipSlip | IoError | TooLarge

  datatype Outcome = Done | Refused(reason: Reason, at: nat)

  // The two path checks.

  predicate NameOk(name: string) {
    !(HasPrefix(Clean(name), "..") || IsAbs(Clean(name)))
  }

  function Target(dest: string, name: string): string {
    JoinPath(Clean(dest), Clean(name))
  }

  predicate StaysIn(dest: string, name: string) {
    HasPrefix(Target(dest, name), Clean(dest) + "/") || Target(dest, name) == Clean(dest)
  }

  /** The first check looks at the first component alone; it also refuses names such as `..a`
      that do not climb. */
  lemma NameOkExactly(name: string)
    ensures NameOk(name) <==> !IsAbs(name) && (Parts(name) == [] || !HasPrefix(Parts(name)[0], ".."))
  {
    CleanTwice(name);
    PartsNormal(name);
    var parts := Parts(name);
    if !IsAbs(name) && parts != [] {
      assert Plain(parts[0]);
      JoinHead(parts);
    }
  }

  /** An accepted name has no component that climbs. */
  lemma OnlyDown(name: string)
    requires NameOk(name)
    ensures forall k | 0 <= k < |Parts(name)| :: Plain(Parts(name)[k]) && Parts(name)[k] != ".."
  {
    NameOkExactly(name);
    PartsNormal(name);
  }

  lemma AppendNormal(rooted: bool, a: seq<string>, b: seq<string>)
    requires Normal(rooted, a) && forall k | 0 <= k < |b| :: Plain(b[k]) && b[k] != ".."
    ensures Normal(rooted, a + b)
  {
  }

  /** The target of an accepted name: the components of the destination, then those of the name. */
  lemma TargetExactly(dest: string, name: string)
    requires NameOk(name)
    ensures Normal(IsAbs(dest), Parts(dest) + Parts(name))
    ensures Target(dest, name) == Render(IsAbs(dest), Parts(dest) + Parts(name))
  {
    OnlyDown(name);
    NameOkExactly(name);
    PartsNormal(dest);
    PartsNormal(name);
    var rooted, d, c := IsAbs(dest), Parts(dest), Parts(name);
    AppendNormal(rooted, d, c);
    CleanTwice(dest);
    RenderParts(false, c);
    SplitAround(Clean(dest), Clean(name), '/');
    assert Clean(dest) + "/" + Clean(name) == Clean(dest) + ['/'] + Clean(name);
    assert Clean(dest) != "" && IsAbs(Clean(dest) + "/" + Clean(name)) == rooted;
    ResolveConcat(rooted, [], Split(Clean(dest), '/'), Split(Clean(name), '/'));
    if c == [] {
      assert ["."][1..] == [];
      assert d + c == d;
    } else {
      assert [] + c == c;
      ResolveCleaned(rooted, d, c);
    }
  }

  lemma {:induction false} JoinConcat(a: seq<string>, b: seq<string>)
    requires a != [] && b != []
    ensures Join(a + b, '/') == Join(a, '/') + "/" + Join(b, '/')
  {
    if |a| == 1 {
      assert (a + b)[1..] == b;
    } else {
      assert (a + b)[1..] == a[1..] + b;
      JoinConcat(a[1..], b);
    }
  }

  lemma StaysBelow(rooted: bool, d: seq<string>, c: seq<string>)
    requires Normal(rooted, d + c) && d != [] && c != []
    ensures HasPrefix(Render(rooted, d + c), Render(rooted, d) + "/")
  {
    hide Join, Normal;
    JoinConcat(d, c);
    assert d + c != [];
    assert Render(rooted, d + c) == (Render(rooted, d) + "/") + Join(c, '/');
  }

  /** The root and the working directory are no textual prefix of what is in them. */
  lemma NothingStaysBelow(rooted: bool, c: seq<string>)
    requires c != [] && Plain(c[0])
    ensures !HasPrefix(Render(rooted, c), Render(rooted, []) + "/") && Render(rooted, c) != Render(rooted, [])
  {
    JoinHead(c);
    var target, part := Render(rooted, c), c[0];
    if rooted {
      assert target[1] == part[0] && Render(rooted, []) + "/" == "//";
      assert part[0] in part;
    } else {
      assert target[0] == part[0] && Render(rooted, []) + "/" == "./";
      if |part| > 1 {
        assert target[1] == part[1] && part[1] in part;
      }
    }
  }

  /** The second check fires exactly when the destination is the root or the working directory
      and the entry is not that directory itself; under any other destination it never fires. */
  lemma SecondCheckExactly(dest: string, name: string)
    requires NameOk(name)
    ensures StaysIn(dest, name) <==> Parts(dest) != [] || Parts(name) == []
  {
    TargetExactly(dest, name);
    OnlyDown(name);
    hide Resolve, Enter, Split, Join, NameOk, Parts, Target, Render;
    var rooted, d, c := IsAbs(dest), Parts(dest), Parts(name);
    if c == [] {
      assert d + c == d;
    } else if d != [] {
      StaysBelow(rooted, d, c);
    } else {
      assert d + c == c && Plain(c[0]);
      NothingStaysBelow(rooted, c);
    }
  }

  /** The directory that is made for a file. */
  lemma ParentExactly(rooted: bool, parts: seq<string>, cwd: seq<string>)
    requires Normal(rooted, parts) && parts != []
    ensures Denotes(Dir(Render(rooted, parts)), cwd) == Walk(if rooted then [] else cwd, parts[..|parts| - 1])
  {
    var n := |parts| - 1;
    var front := (if rooted then [""] else []) + parts[..n];
    var up := Join(front + [""], '/');
    ParentOf(rooted, parts);
    CleanKeepsMeaning(up, cwd);
    var start := if rooted then [] else cwd;
    WalkConcat(start, front, [""]);
    assert [""][1..] == [];
    assert rooted ==> front[1..] == parts[..n];
    assert !rooted ==> front == parts[..n];
  }

  lemma ParentOf(rooted: bool, parts: seq<string>)
    requires Normal(rooted, parts) && parts != []
    ensures var front := (if rooted then [""] else []) + parts[..|parts| - 1];
      var up := Join(front + [""], '/');
      Dir(Render(rooted, parts)) == Clean(up) && Split(up, '/') == front + [""] && IsAbs(up) == rooted
  {
    hide Clean, Parts, Render, Split, Join, Resolve, Enter, IsAbs;
    var n := |parts| - 1;
    var lead := if rooted then [""] else [];
    var front := lead + parts[..n];
    RenderParts(rooted, parts);
    var all := Split(Render(rooted, parts), '/');
    assert all == lead + parts;
    assert all[..|all| - 1] == front;
    forall k | 0 <= k < |front + [""]| ensures '/' !in (front + [""])[k] {
      if k < |front| {
        assert front[k] == all[k];
      }
    }
    SplitJoin(front + [""], '/');
    JoinedUp(rooted, parts[..n]);
  }

  lemma JoinedUp(rooted: bool, parts: seq<string>)
    requires parts != [] ==> Plain(parts[0])
    ensures IsAbs(Join((if rooted then [""] else []) + parts + [""], '/')) == rooted
  {
    var front := (if rooted then [""] else []) + parts;
    if front != [] {
      assert (front + [""])[0] == front[0];
      assert Join(front + [""], '/') == front[0] + "/" + Join((front + [""])[1..], '/');
    }
  }

  /** The root and the working directory are their own parents. */
  lemma ParentOfNothing(rooted: bool, cwd: seq<string>)
    ensures Denotes(Dir(Render(rooted, [])), cwd) == if rooted then [] else cwd
  {
    var path := Render(rooted, []);
    RenderParts(rooted, []);
    var up := if rooted then "/" else "";
    var front := if rooted then [""] else [];
    assert Split(path, '/')[..|Split(path, '/')| - 1] == front;
    assert Join(front + [""], '/') == up by {
      assert rooted ==> (front + [""])[1..] == [""];
    }
    CleanKeepsMeaning(up, cwd);
    assert rooted ==> Split(up, '/') == ["", ""] && ["", ""][1..] == [""];
    assert [""][1..] == [];
  }

  lemma ContainedFrom(dest: string, name: string, cwd: seq<string>)
    requires NameOk(name)
    ensures Denotes(Target(dest, name), cwd) == Denotes(dest, cwd) + Parts(name)
  {
    hide Resolve, Walk, Split, Join, Move, Enter;
    TargetExactly(dest, name);
    OnlyDown(name);
    var rooted, d, c := IsAbs(dest), Parts(dest), Parts(name);
    var start := if rooted then [] else cwd;
    CleanKeepsMeaning(dest, cwd);
    RenderParts(rooted, d + c);
    CleanKeepsMeaning(Target(dest, name), cwd);
    WalkConcat(start, d, c);
    WalkDown(Walk(start, d), c);
  }

  lemma ParentFrom(dest: string, name: string, cwd: seq<string>)
    requires NameOk(name) && Parts(dest) + Parts(name) != []
    ensures var all := Parts(dest) + Parts(name);
      Denotes(Dir(Target(dest, name)), cwd) == Walk(if IsAbs(dest) then [] else cwd, all[..|all| - 1])
  {
    hide Resolve, Walk, Split, Join, Move, Enter;
    TargetExactly(dest, name);
    ParentExactly(IsAbs(dest), Parts(dest) + Parts(name), cwd);
  }

  /** Under a name that has components, the parent of the target is still inside. */
  lemma ParentContainedFrom(dest: string, name: string, cwd: seq<string>)
    requires NameOk(name) && Parts(name) != []
    ensures Denotes(Dir(Target(dest, name)), cwd) == Denotes(dest, cwd) + Parts(name)[..|Parts(name)| - 1]
  {
    hide Resolve, Walk, Split, Join, Move, Enter;
    OnlyDown(name);
    var d, c := Parts(dest), Parts(name);
    var start := if IsAbs(dest) then [] else cwd;
    CleanKeepsMeaning(dest, cwd);
    ParentFrom(dest, name, cwd);
    var front := c[..|c| - 1];
    assert (d + c)[..|d + c| - 1] == d + front;
    WalkConcat(start, d, front);
    WalkDown(Walk(start, d), front);
  }

  /** Under a name that has none, it is the parent of the destination. */
  lemma ParentOfDest(dest: string, name: string, cwd: seq<string>)
    requires NameOk(name) && Parts(name) == []
    ensures var d := Parts(dest);
      if d == [] then Denotes(Dir(Target(dest, name)), cwd) == Denotes(dest, cwd)
      else Denotes(dest, cwd) == Move(Denotes(Dir(Target(dest, name)), cwd), d[|d| - 1])
  {
    hide Resolve, Walk, Split, Join, Move, Enter;
    var d := Parts(dest);
    var start := if IsAbs(dest) then [] else cwd;
    CleanKeepsMeaning(dest, cwd);
    assert d + Parts(name) == d;
    if d == [] {
      TargetExactly(dest, name);
      ParentOfNothing(IsAbs(dest), cwd);
      NoSteps(start);
    } else {
      ParentFrom(dest, name, cwd);
      WalkLast(start, d);
    }
  }

  lemma NoSteps(at: seq<string>)
    ensures Walk(at, []) == at
  {
  }

  /** The target of an accepted name is the destination or below it, in every working directory. */
  lemma Contained(dest: string, name: string)
    requires NameOk(name)
    ensures Within(dest, Target(dest, name))
  {
    hide Denotes, Target, Parts, Dir;
    forall cwd: seq<string> ensures Denotes(dest, cwd) <= Denotes(Target(dest, name), cwd) {
      ContainedFrom(dest, name, cwd);
    }
  }

  lemma PartsOfName(name: string)
    requires '/' !in name && name != "" && name != "." && name != ".."
    ensures Parts(name) == [name] && !IsAbs(name)
  {
    SplitOne(name, '/');
    assert [name][1..] == [] && [] + [name] == [name];
    assert name[0] in name;
    assert Resolve(false, [], [name]) == Resolve(false, Enter(false, [], name), [name][1..]);
  }

  /** A refused name that does not climb. */
  lemma TwoDotsRefused()
    ensures Parts("..a") == ["..a"] && !NameOk("..a")
  {
    PartsOfName("..a");
    NameOkExactly("..a");
  }

  // Where an entry goes in a tree.

  function Home(t: Tree, dest: string): Place {
    Denotes(dest, t.cwd)
  }

  /** The directory that is made for the entry. */
  function MadeFor(t: Tree, dest: string, e: Entry): Place {
    var target := Target(dest, e.name);
    Denotes(if e.isDir then target else Dir(target), t.cwd)
  }

  function FileOf(t: Tree, dest: string, e: Entry): Place {
    Denotes(Target(dest, e.name), t.cwd)
  }

  /** Upwards only, from the working directory. */
  lemma {:induction false} WalkUp(at: Place, parts: seq<string>)
    requires forall k | 0 <= k < |parts| :: parts[k] == ".."
    ensures Walk(at, parts) <= at
    decreases |parts|
  {
    if parts != [] {
      WalkUp(Move(at, parts[0]), parts[1..]);
    }
  }

  /** Components that end upwards are all upwards. */
  lemma UpLeads(rooted: bool, parts: seq<string>)
    requires Normal(rooted, parts) && (parts == [] || parts[|parts| - 1] == "..")
    ensures forall k | 0 <= k < |parts| :: parts[k] == ".."
    ensures rooted ==> parts == []
  {
  }

  lemma RootIsThere(t: Tree)
    requires IsTree(t)
    ensures [] in t.dirs && t.cwd in t.dirs
  {
  }

  /** A destination that names no directory of its own is there. */
  lemma UnnamedIsThere(t: Tree, dest: string)
    requires IsTree(t) && (Parts(dest) == [] || Parts(dest)[|Parts(dest)| - 1] == "..")
    ensures Home(t, dest) in t.dirs
  {
    hide Resolve, Split, Parts, IsTree, Walk, Denotes, Normal;
    CleanKeepsMeaning(dest, t.cwd);
    PartsNormal(dest);
    RootIsThere(t);
    UpLeads(IsAbs(dest), Parts(dest));
    if IsAbs(dest) {
      NoSteps([]);
    } else {
      WalkUp(t.cwd, Parts(dest));
      Closed(t, Home(t, dest), t.cwd);
    }
  }

  /** What is made is the home, below it, or its parent, and a file goes into what was made unless
      it would replace the home. */
  lemma PlacesExactly(t: Tree, dest: string, e: Entry)
    requires IsTree(t) && NameOk(e.name)
    ensures var home, p := Home(t, dest), MadeFor(t, dest, e);
      home <= p || (home != [] && p == Parent(home))
    ensures FileOf(t, dest, e) == Home(t, dest) + Parts(e.name)
    ensures e.isDir ==> MadeFor(t, dest, e) == Home(t, dest) + Parts(e.name)
    ensures var f := FileOf(t, dest, e); !e.isDir ==> f in t.dirs || (f != [] && MadeFor(t, dest, e) == Parent(f))
  {
    hide Denotes, Target, Parts, Dir, NameOk, IsTree;
    var home, d, c := Home(t, dest), Parts(dest), Parts(e.name);
    ContainedFrom(dest, e.name, t.cwd);
    if !e.isDir {
      if c != [] {
        ParentContainedFrom(dest, e.name, t.cwd);
        assert Parent(home + c) == home + c[..|c| - 1];
      } else {
        assert home + c == home;
        ParentOfDest(dest, e.name, t.cwd);
        if d == [] || d[|d| - 1] == ".." {
          UnnamedIsThere(t, dest);
        } else {
          LastIsName(dest, MadeFor(t, dest, e));
        }
      }
    }
  }

  lemma LastIsName(dest: string, at: Place)
    requires Parts(dest) != [] && Parts(dest)[|Parts(dest)| - 1] != ".."
    ensures Move(at, Parts(dest)[|Parts(dest)| - 1]) == at + [Parts(dest)[|Parts(dest)| - 1]]
  {
    PartsNormal(dest);
    assert Plain(Parts(dest)[|Parts(dest)| - 1]);
  }

  lemma PrefixesComparable(p: Place, home: Place)
    requires home <= p || (home != [] && p == Parent(home))
    ensures forall q | q <= p :: Comparable(home, q)
  {
  }

  // The extraction loop.

  /** All that the extraction of an entry does to the tree when nothing stops it. */
  function Whole(t: Tree, dest: string, e: Entry): seq<Effect> {
    Missing(t.dirs, MadeFor(t, dest, e)) + if e.isDir then [] else [Wrote(FileOf(t, dest, e), e.data)]
  }

  function WholeArchive(t: Tree, dest: string, entries: seq<Entry>): seq<Effect> {
    if entries == [] then []
    else
      var before := WholeArchive(t, dest, entries[..|entries| - 1]);
      before + Whole(Apply(t, before), dest, entries[|entries| - 1])
  }

  /** The tree once the first `k` entries are extracted. */
  function TreeAt(t: Tree, dest: string, entries: seq<Entry>, k: nat): Tree
    requires k <= |entries|
  {
    Apply(t, WholeArchive(t, dest, entries[..k]))
  }

  function Written(effects: seq<Effect>): nat {
    if effects == [] then 0
    else
      var last := effects[|effects| - 1];
      Written(effects[..|effects| - 1]) + if last.Wrote? then |last.data| else 0
  }

  /** `part` came first, and was cut short if at all in what it wrote last. */
  predicate Begins(part: seq<Effect>, whole: seq<Effect>) {
    && |part| <= |whole|
    && (part == whole[..|part|] ||
        (var n := |part| - 1;
         n >= 0 && part[..n] == whole[..n] && part[n].Wrote? && whole[n].Wrote?
         && part[n].at == whole[n].at && part[n].data <= whole[n].data))
  }

  function Size(e: Entry): nat {
    if e.isDir then 0 else |e.data|
  }

  function Sizes(entries: seq<Entry>): nat {
    if entries == [] then 0 else Sizes(entries[..|entries| - 1]) + Size(entries[|entries| - 1])
  }

  predicate Faulty(e: Entry) {
    e.fault != NoFault && (e.isDir ==> e.fault.Mkdir?)
  }

  /** The fault is met when `before` bytes were written before. A copy stops at its limit, so it
      meets a fault only if that, or the end of the data, comes first. */
  predicate Struck(e: Entry, before: int) {
    Faulty(e) && (e.fault.Copy? ==> var limit := MAX_ZIP_SIZE - before + 1; e.fault.after < limit || |e.data| < limit)
  }

  predicate Placed(dest: string, name: string) {
    NameOk(name) && (Parts(dest) != [] || Parts(name) == [])
  }

  /** The entry raises no objection of its own. */
  predicate Sound(dest: string, e: Entry) {
    Placed(dest, e.name) && !Faulty(e)
  }

  /** No file is in the way of its directory, and no directory in the way of the file. */
  predicate Fits(t: Tree, dest: string, e: Entry) {
    && !Blocked(t, MadeFor(t, dest, e))
    && (!e.isDir ==> FileOf(t, dest, e) !in Apply(t, Missing(t.dirs, MadeFor(t, dest, e))).dirs)
  }

  /** What is wrong with the first entry that is refused. */
  predicate Explains(t: Tree, dest: string, entries: seq<Entry>, reason: Reason, at: nat) {
    if at >= |entries| then false
    else
      var e := entries[at];
      match reason
      case TooManyEntries => false
      case DangerousPath => !NameOk(e.name)
      case ZipSlip => NameOk(e.name) && Parts(dest) == [] && Parts(e.name) != []
      case IoError =>
        Placed(dest, e.name) && (Struck(e, Sizes(entries[..at])) || !Fits(TreeAt(t, dest, entries, at), dest, e))
      case TooLarge =>
        && Placed(dest, e.name) && !Struck(e, Sizes(entries[..at])) && Fits(TreeAt(t, dest, entries, at), dest, e)
        && Sizes(entries[..at + 1]) > MAX_ZIP_SIZE
  }

  /** Nothing is needed both as a file and as a directory. */
  ghost predicate NoClash(t: Tree) {
    forall p | p in t.files :: p !in t.dirs
  }

  /** The home and the directory it would be in are both missing. */
  predicate Orphan(t: Tree, dest: string) {
    Home(t, dest) != [] && Parent(Home(t, dest)) !in t.dirs
  }

  /** The entry gets as far as making a directory. */
  predicate Starts(t: Tree, dest: string, e: Entry) {
    Placed(dest, e.name) && !Blocked(t, MadeFor(t, dest, e)) && (e.fault.Mkdir? ==> e.fault.made > 0)
  }

  // One entry.

  lemma MakingIsLegal(t: Tree, dest: string, e: Entry)
    requires IsTree(t) && NameOk(e.name) && !Blocked(t, MadeFor(t, dest, e))
    ensures AllLegal(t, Home(t, dest), Missing(t.dirs, MadeFor(t, dest, e)))
    ensures var made := Apply(t, Missing(t.dirs, MadeFor(t, dest, e)));
      && IsTree(made) && made.cwd == t.cwd && made.files == t.files
      && MadeFor(t, dest, e) in made.dirs && t.dirs <= made.dirs
  {
    hide MadeFor, Home, NameOk, IsTree, FileOf;
    PlacesExactly(t, dest, e);
    PrefixesComparable(MadeFor(t, dest, e), Home(t, dest));
    MissingLegal(t, Home(t, dest), MadeFor(t, dest, e));
    LegalKeepsTree(t, Home(t, dest), Missing(t.dirs, MadeFor(t, dest, e)));
  }

  /** An entry that fits has legal effects, however much of its data is written. */
  lemma FileIsLegal(t: Tree, dest: string, e: Entry, data: string)
    requires IsTree(t) && NameOk(e.name) && Fits(t, dest, e) && !e.isDir
    ensures AllLegal(t, Home(t, dest), Missing(t.dirs, MadeFor(t, dest, e)) + [Wrote(FileOf(t, dest, e), data)])
  {
    hide MadeFor, Home, NameOk, IsTree, FileOf;
    MakingIsLegal(t, dest, e);
    PlacesExactly(t, dest, e);
    var made := Missing(t.dirs, MadeFor(t, dest, e));
    OneLegal(Apply(t, made), Home(t, dest), Wrote(FileOf(t, dest, e), data));
    LegalConcat(t, Home(t, dest), made, [Wrote(FileOf(t, dest, e), data)]);
  }

  lemma WholeIsLegal(t: Tree, dest: string, e: Entry)
    requires IsTree(t) && NameOk(e.name) && Fits(t, dest, e)
    ensures AllLegal(t, Home(t, dest), Whole(t, dest, e))
  {
    hide MadeFor, Home, NameOk, IsTree, FileOf;
    MakingIsLegal(t, dest, e);
    if !e.isDir {
      FileIsLegal(t, dest, e, e.data);
    } else {
      assert Whole(t, dest, e) == Missing(t.dirs, MadeFor(t, dest, e));
    }
  }

  lemma {:induction false} MissingHasPrefixes(t: Tree, p: Place, k: nat)
    requires IsTree(t) && k <= |p|
    ensures p[..k] in Apply(t, Missing(t.dirs, p)).dirs && Apply(t, Missing(t.dirs, p)).files == t.files
    decreases |p|
  {
    if p == [] || p in t.dirs {
      assert p[..k] <= p;
      Closed(t, p[..k], p);
    } else {
      var up := Missing(t.dirs, Parent(p));
      ApplyConcat(t, up, [Made(p)]);
      ApplyOne(Apply(t, up), Made(p));
      if k < |p| {
        MissingHasPrefixes(t, Parent(p), k);
        assert Parent(p)[..k] == p[..k];
      } else {
        MissingHasPrefixes(t, Parent(p), 0);
        assert p[..k] == p;
      }
    }
  }

  /** An entry fits exactly if what it would leave is free of clashes. */
  lemma FitsExactly(t: Tree, dest: string, e: Entry)
    requires IsTree(t) && NameOk(e.name)
    ensures Fits(t, dest, e) <==> NoClash(Apply(t, Whole(t, dest, e)))
  {
    hide MadeFor, Home, NameOk, FileOf;
    var p := MadeFor(t, dest, e);
    var made := Missing(t.dirs, p);
    WholeApplied(t, dest, e);
    if Blocked(t, p) {
      BlockedExactly(t, p);
      var k :| 0 <= k <= |p| && p[..k] in t.files;
      MissingHasPrefixes(t, p, k);
      assert p[..k] in Apply(t, Whole(t, dest, e)).files;
    } else {
      MakingIsLegal(t, dest, e);
    }
  }

  lemma WholeApplied(t: Tree, dest: string, e: Entry)
    ensures var made := Apply(t, Missing(t.dirs, MadeFor(t, dest, e)));
      Apply(t, Whole(t, dest, e)) == if e.isDir then made else After(made, Wrote(FileOf(t, dest, e), e.data))
  {
    hide MadeFor, FileOf;
    var made := Missing(t.dirs, MadeFor(t, dest, e));
    if e.isDir {
      assert Whole(t, dest, e) == made;
    } else {
      ApplyConcat(t, made, [Wrote(FileOf(t, dest, e), e.data)]);
      ApplyOne(Apply(t, made), Wrote(FileOf(t, dest, e), e.data));
    }
  }

  // All entries.

  lemma {:induction false} ApplyGrows(t: Tree, effects: seq<Effect>)
    ensures t.dirs <= Apply(t, effects).dirs && t.files.Keys <= Apply(t, effects).files.Keys
    ensures Apply(t, effects).cwd == t.cwd
  {
    if effects != [] {
      ApplyGrows(t, effects[..|effects| - 1]);
    }
  }

  lemma {:induction false} WrittenConcat(a: seq<Effect>, b: seq<Effect>)
    ensures Written(a + b) == Written(a) + Written(b)
  {
    if b == [] {
      assert a + b == a;
    } else {
      var n := |b| - 1;
      assert (a + b)[..|a + b| - 1] == a + b[..n];
      WrittenConcat(a, b[..n]);
    }
  }

  lemma {:induction false} MakingWritesNothing(dirs: set<Place>, p: Place, n: nat)
    requires n <= |Missing(dirs, p)|
    ensures Written(Missing(dirs, p)[..n]) == 0
    decreases |p|
  {
    if p != [] && p !in dirs {
      var up := Missing(dirs, Parent(p));
      if n <= |up| {
        assert Missing(dirs, p)[..n] == up[..n];
        MakingWritesNothing(dirs, Parent(p), n);
      } else {
        MakingWritesNothing(dirs, Parent(p), |up|);
        assert up[..|up|] == up;
        assert Missing(dirs, p)[..n][..n - 1] == up;
      }
    }
  }

  /** What making directories and writing some of the data come to. */
  lemma FileWrites(t: Tree, dest: string, e: Entry, n: nat)
    requires n <= |e.data|
    ensures var made, f := Missing(t.dirs, MadeFor(t, dest, e)), FileOf(t, dest, e);
      Written(made) == 0 && Written(made + [Wrote(f, e.data[..n])]) == n
  {
    hide MadeFor, FileOf;
    var made, last := Missing(t.dirs, MadeFor(t, dest, e)), [Wrote(FileOf(t, dest, e), e.data[..n])];
    MakingWritesNothing(t.dirs, MadeFor(t, dest, e), |made|);
    assert made[..|made|] == made;
    assert (made + last)[..|made|] == made;
  }

  lemma WrittenWhole(t: Tree, dest: string, e: Entry)
    ensures Written(Whole(t, dest, e)) == Size(e)
  {
    hide MadeFor, FileOf, Written;
    FileWrites(t, dest, e, |e.data|);
    assert e.data[..|e.data|] == e.data;
    assert e.isDir ==> Whole(t, dest, e) == Missing(t.dirs, MadeFor(t, dest, e));
  }

  /** An entry more. */
  lemma Advance(t: Tree, dest: string, entries: seq<Entry>, i: nat)
    requires i < |entries|
    ensures var before := WholeArchive(t, dest, entries[..i]);
      WholeArchive(t, dest, entries[..i + 1]) == before + Whole(Apply(t, before), dest, entries[i])
    ensures TreeAt(t, dest, entries, i + 1) ==
      Apply(TreeAt(t, dest, entries, i), Whole(TreeAt(t, dest, entries, i), dest, entries[i]))
    ensures Sizes(entries[..i + 1]) == Sizes(entries[..i]) + Size(entries[i])
  {
    hide Whole, Apply;
    assert entries[..i + 1][..i] == entries[..i];
    ApplyConcat(t, WholeArchive(t, dest, entries[..i]), Whole(TreeAt(t, dest, entries, i), dest, entries[i]));
  }

  lemma {:induction false} Grows(t: Tree, dest: string, entries: seq<Entry>, i: nat)
    requires i <= |entries|
    ensures WholeArchive(t, dest, entries[..i]) <= WholeArchive(t, dest, entries)
    ensures Sizes(entries[..i]) <= Sizes(entries)
    decreases |entries| - i
  {
    hide WholeArchive, Sizes, Whole, TreeAt, Apply;
    if i < |entries| {
      var before := WholeArchive(t, dest, entries[..i]);
      Advance(t, dest, entries, i);
      assert before <= WholeArchive(t, dest, entries[..i + 1]);
      Grows(t, dest, entries, i + 1);
    } else {
      assert entries[..i] == entries;
    }
  }

  /** A clash stays one. */
  lemma ClashStays(t: Tree, dest: string, entries: seq<Entry>, i: nat)
    requires i <= |entries| && !NoClash(TreeAt(t, dest, entries, i))
    ensures !NoClash(Apply(t, WholeArchive(t, dest, entries)))
  {
    hide WholeArchive, Apply;
    Grows(t, dest, entries, i);
    var before, all := WholeArchive(t, dest, entries[..i]), WholeArchive(t, dest, entries);
    assert all == before + all[|before|..];
    ApplyConcat(t, before, all[|before|..]);
    ApplyGrows(Apply(t, before), all[|before|..]);
  }

  lemma BeginsConcat(done: seq<Effect>, part: seq<Effect>, whole: seq<Effect>, all: seq<Effect>)
    requires Begins(part, whole) && done + whole <= all
    ensures Begins(done + part, all)
  {
    var n := |part| - 1;
    if part == whole[..|part|] {
      assert done + part == (done + whole)[..|done + part|];
    } else {
      assert (done + part)[..|done| + n] == done + part[..n];
      assert (done + whole)[..|done| + n] == done + whole[..n];
    }
  }

  predicate Fine(t: Tree, dest: string, entries: seq<Entry>, k: nat)
    requires k < |entries|
  {
    && Sound(dest, entries[k]) && Fits(TreeAt(t, dest, entries, k), dest, entries[k])
    && Sizes(entries[..k + 1]) <= MAX_ZIP_SIZE
  }

  /** The first `i` entries were extracted in full. */
  ghost predicate Through(t: Tree, dest: string, entries: seq<Entry>, i: nat, effects: seq<Effect>) {
    && i <= |entries|
    && IsTree(Apply(t, effects)) && AllLegal(t, Home(t, dest), effects)
    && effects == WholeArchive(t, dest, entries[..i])
    && Written(effects) == Sizes(entries[..i])
    && (forall k | 0 <= k < i :: Fine(t, dest, entries, k))
    && (i > 0 && Orphan(t, dest) ==> effects != [] && Starts(t, dest, entries[0]))
  }

  lemma NothingYet(t: Tree, dest: string, entries: seq<Entry>)
    requires IsTree(t)
    ensures Through(t, dest, entries, 0, []) && AllLegal(t, Home(t, dest), [])
    ensures Written([]) == 0 && Begins([], WholeArchive(t, dest, entries))
  {
  }

  /** Without a parent for the home, the first directory made for an entry is missing. */
  lemma OrphanMakes(t: Tree, dest: string, e: Entry)
    requires IsTree(t) && Orphan(t, dest) && NameOk(e.name)
    ensures Missing(t.dirs, MadeFor(t, dest, e)) != []
  {
    hide Home, MadeFor, FileOf, NameOk;
    var home, p := Home(t, dest), MadeFor(t, dest, e);
    PlacesExactly(t, dest, e);
    if p == [] || p in t.dirs {
      assert home <= p ==> Parent(home) <= p;
      Closed(t, Parent(home), p);
    }
  }

  lemma ThroughNext(t: Tree, dest: string, entries: seq<Entry>, i: nat, effects: seq<Effect>)
    requires IsTree(t) && Through(t, dest, entries, i, effects) && i < |entries| && Fine(t, dest, entries, i)
    ensures Through(t, dest, entries, i + 1, effects + Whole(Apply(t, effects), dest, entries[i]))
  {
    var e, now := entries[i], Apply(t, effects);
    StepIsLegal(t, dest, effects, e);
    FirstStarts(t, dest, entries, i, effects);
    hide Sound, Fits, Home, Sizes, Written, WholeArchive, Apply, Orphan, Starts, IsTree, AllLegal;
    Advance(t, dest, entries, i);
    WrittenConcat(effects, Whole(now, dest, e));
    WrittenWhole(now, dest, e);
    ApplyConcat(t, effects, Whole(now, dest, e));
    assert forall k | 0 <= k < i + 1 :: Fine(t, dest, entries, k);
  }

  lemma StepIsLegal(t: Tree, dest: string, effects: seq<Effect>, e: Entry)
    requires IsTree(Apply(t, effects)) && AllLegal(t, Home(t, dest), effects)
    requires NameOk(e.name) && Fits(Apply(t, effects), dest, e)
    ensures AllLegal(t, Home(t, dest), effects + Whole(Apply(t, effects), dest, e))
    ensures IsTree(Apply(Apply(t, effects), Whole(Apply(t, effects), dest, e)))
  {
    hide IsTree, AllLegal, Denotes, Fits, NameOk, Whole;
    var now := Apply(t, effects);
    ApplyGrows(t, effects);
    WholeIsLegal(now, dest, e);
    LegalConcat(t, Home(t, dest), effects, Whole(now, dest, e));
    LegalKeepsTree(now, Home(t, dest), Whole(now, dest, e));
  }

  lemma FirstStarts(t: Tree, dest: string, entries: seq<Entry>, i: nat, effects: seq<Effect>)
    requires IsTree(t) && Through(t, dest, entries, i, effects) && i < |entries| && Fine(t, dest, entries, i)
    ensures Orphan(t, dest) ==>
      effects + Whole(Apply(t, effects), dest, entries[i]) != [] && Starts(t, dest, entries[0])
  {
    hide Home, MadeFor, FileOf, NameOk, IsTree, AllLegal;
    if i == 0 && Orphan(t, dest) {
      assert entries[..0] == [] && effects == [];
      OrphanMakes(t, dest, entries[0]);
    }
  }

  /** Where the effects are: all inside, unless the home has no directory to be in and the
      extraction makes anything at all. */
  lemma InsideExactly(t: Tree, dest: string, effects: seq<Effect>)
    requires IsTree(t) && AllLegal(t, Home(t, dest), effects)
    ensures AllWithin(Home(t, dest), effects) <==> effects == [] || !Orphan(t, dest)
    ensures Home(t, dest) in t.dirs ==> AllWithin(Home(t, dest), effects)
    ensures IsTree(Apply(t, effects))
  {
    WithinExactly(t, Home(t, dest), effects);
    LegalKeepsTree(t, Home(t, dest), effects);
  }

  /** What a refusal leaves behind. */
  lemma Stopped(
    t: Tree, dest: string, entries: seq<Entry>, i: nat, effects: seq<Effect>, part: seq<Effect>, reason: Reason)
    requires IsTree(t) && Through(t, dest, entries, i, effects) && Explains(t, dest, entries, reason, i)
    requires Begins(part, Whole(Apply(t, effects), dest, entries[i]))
    requires AllLegal(Apply(t, effects), Home(t, dest), part)
    requires Written(effects) + Written(part) <= MAX_ZIP_SIZE + 1
    requires i == 0 && Orphan(t, dest) ==> (part != [] <==> Starts(t, dest, entries[0]))
    ensures IsTree(Apply(t, effects + part)) && Apply(t, effects + part) == Apply(Apply(t, effects), part)
    ensures AllWithin(Home(t, dest), effects + part) <==> effects + part == [] || !Orphan(t, dest)
    ensures Home(t, dest) in t.dirs ==> AllWithin(Home(t, dest), effects + part)
    ensures Written(effects + part) <= MAX_ZIP_SIZE + 1
    ensures Begins(effects + part, WholeArchive(t, dest, entries))
    ensures WholeArchive(t, dest, entries[..i]) <= effects + part
    ensures Begins(effects + part, WholeArchive(t, dest, entries[..i + 1]))
    ensures (forall e | e in entries :: Sound(dest, e)) && NoClash(Apply(t, WholeArchive(t, dest, entries))) ==>
      Sizes(entries) > MAX_ZIP_SIZE
    ensures Orphan(t, dest) ==> (effects + part != [] <==> Starts(t, dest, entries[0]))
  {
    var e := entries[i];
    RefusedForGood(t, dest, entries, i, effects, reason);
    LegalConcat(t, Home(t, dest), effects, part);
    InsideExactly(t, dest, effects + part);
    ApplyConcat(t, effects, part);
    hide AllLegal, AllWithin, Apply, Home, Sizes, Written, WholeArchive, Begins, Whole, Orphan, Starts;
    hide NoClash, Fits, Explains, IsTree;
    WrittenConcat(effects, part);
    Advance(t, dest, entries, i);
    Grows(t, dest, entries, i + 1);
    BeginsConcat(effects, part, Whole(Apply(t, effects), dest, e), WholeArchive(t, dest, entries));
    BeginsConcat(effects, part, Whole(Apply(t, effects), dest, e), WholeArchive(t, dest, entries[..i + 1]));
    assert i == 0 ==> effects == [] by {
      assert entries[..0] == [];
      NoEntries(t, dest);
    }
    assert effects + part != [] <==> effects != [] || part != [];
  }

  /** Refused for its path. */
  lemma Untouched(t: Tree, dest: string, entries: seq<Entry>, i: nat, effects: seq<Effect>, reason: Reason)
    requires IsTree(t) && Through(t, dest, entries, i, effects) && Written(effects) <= MAX_ZIP_SIZE
    requires Explains(t, dest, entries, reason, i) && !Placed(dest, entries[i].name)
    ensures Refusal(t, dest, entries, i, effects)
  {
    hide Home, NameOk, Parts, Whole, WholeArchive, IsTree, AllWithin, NoClash, Sizes;
    NothingLegal(Apply(t, effects), Home(t, dest));
    assert effects + [] == effects;
    Stopped(t, dest, entries, i, effects, [], reason);
  }

  /** What the effects of a refused extraction are. */
  ghost predicate Refusal(t: Tree, dest: string, entries: seq<Entry>, i: nat, effects: seq<Effect>)
    requires i < |entries|
  {
    && IsTree(Apply(t, effects))
    && (AllWithin(Home(t, dest), effects) <==> effects == [] || !Orphan(t, dest))
    && (Home(t, dest) in t.dirs ==> AllWithin(Home(t, dest), effects))
    && Written(effects) <= MAX_ZIP_SIZE + 1
    && Begins(effects, WholeArchive(t, dest, entries))
    && WholeArchive(t, dest, entries[..i]) <= effects && Begins(effects, WholeArchive(t, dest, entries[..i + 1]))
    && ((forall e | e in entries :: Sound(dest, e)) && NoClash(Apply(t, WholeArchive(t, dest, entries))) ==>
          Sizes(entries) > MAX_ZIP_SIZE)
    && (Orphan(t, dest) ==> (effects != [] <==> Starts(t, dest, entries[0])))
  }

  /** Refused after some or all of its directories were made. */
  lemma MakingStopped(t: Tree, dest: string, entries: seq<Entry>, i: nat, effects: seq<Effect>, n: nat)
    requires IsTree(t) && Through(t, dest, entries, i, effects) && Written(effects) <= MAX_ZIP_SIZE
    requires Explains(t, dest, entries, IoError, i)
    requires var now := Apply(t, effects); !Blocked(now, MadeFor(now, dest, entries[i]))
    requires var made := Missing(Apply(t, effects).dirs, MadeFor(Apply(t, effects), dest, entries[i]));
      n <= |made| && (made != [] ==> (n > 0 <==> (entries[i].fault.Mkdir? ==> entries[i].fault.made > 0)))
    ensures var made := Missing(Apply(t, effects).dirs, MadeFor(Apply(t, effects), dest, entries[i]));
      && Refusal(t, dest, entries, i, effects + made[..n])
      && Apply(t, effects + made[..n]) == Apply(Apply(t, effects), made[..n])
      && Written(effects + made[..n]) == Written(effects)
  {
    hide Home, NameOk, Parts, WholeArchive, IsTree, AllLegal, AllWithin, NoClash, Sizes, Fits, MadeFor, FileOf, Denotes;
    var e, now := entries[i], Apply(t, effects);
    var made := Missing(now.dirs, MadeFor(now, dest, e));
    ApplyGrows(t, effects);
    SameHome(t, now, dest);
    MakingIsLegal(now, dest, e);
    LegalPrefix(now, Home(t, dest), made, n);
    MakingWritesNothing(now.dirs, MadeFor(now, dest, e), n);
    WrittenConcat(effects, made[..n]);
    assert Begins(made[..n], Whole(now, dest, e));
    if i == 0 && Orphan(t, dest) {
      AtStart(t, dest, entries, effects);
      OrphanMakes(t, dest, e);
    }
    Stopped(t, dest, entries, i, effects, made[..n], IoError);
  }

  lemma SameHome(t: Tree, now: Tree, dest: string)
    requires now.cwd == t.cwd
    ensures Home(now, dest) == Home(t, dest)
  {
  }

  lemma AtStart(t: Tree, dest: string, entries: seq<Entry>, effects: seq<Effect>)
    requires Through(t, dest, entries, 0, effects)
    ensures effects == [] && Apply(t, effects) == t
  {
    assert entries[..0] == [];
  }

  /** Nothing can be made: a file is in the way. */
  lemma MakingBlocked(t: Tree, dest: string, entries: seq<Entry>, i: nat, effects: seq<Effect>)
    requires IsTree(t) && Through(t, dest, entries, i, effects) && Written(effects) <= MAX_ZIP_SIZE
    requires Explains(t, dest, entries, IoError, i)
    requires var now := Apply(t, effects); Blocked(now, MadeFor(now, dest, entries[i]))
    ensures Refusal(t, dest, entries, i, effects)
  {
    hide Home, NameOk, Parts, Whole, WholeArchive, IsTree, AllWithin, NoClash, Sizes, Fits, MadeFor, FileOf;
    NothingLegal(Apply(t, effects), Home(t, dest));
    assert effects + [] == effects;
    if i == 0 {
      AtStart(t, dest, entries, effects);
    }
    Stopped(t, dest, entries, i, effects, [], IoError);
  }

  /** Refused after its directories were made and `n` bytes were written. */
  lemma CopyStopped(t: Tree, dest: string, entries: seq<Entry>, i: nat, effects: seq<Effect>, n: nat, reason: Reason)
    requires IsTree(t) && Through(t, dest, entries, i, effects) && Explains(t, dest, entries, reason, i)
    requires n <= |entries[i].data| && Written(effects) + n <= MAX_ZIP_SIZE + 1
    requires !entries[i].isDir && Placed(dest, entries[i].name) && Fits(Apply(t, effects), dest, entries[i])
    requires !entries[i].fault.Mkdir?
    ensures var now, e := Apply(t, effects), entries[i];
      var part := Missing(now.dirs, MadeFor(now, dest, e)) + [Wrote(FileOf(now, dest, e), e.data[..n])];
      && Refusal(t, dest, entries, i, effects + part) && Apply(t, effects + part) == Apply(now, part)
      && Written(effects + part) == Written(effects) + n
  {
    hide Home, NameOk, Parts, WholeArchive, IsTree, AllLegal, AllWithin, NoClash, Sizes, MadeFor, FileOf, Denotes;
    var e, now := entries[i], Apply(t, effects);
    var made := Missing(now.dirs, MadeFor(now, dest, e));
    var part := made + [Wrote(FileOf(now, dest, e), e.data[..n])];
    ApplyGrows(t, effects);
    SameHome(t, now, dest);
    FileIsLegal(now, dest, e, e.data[..n]);
    FileWrites(now, dest, e, n);
    WrittenConcat(effects, part);
    assert part[..|part| - 1] == made && Whole(now, dest, e)[..|part| - 1] == made;
    assert Begins(part, Whole(now, dest, e));
    if i == 0 {
      AtStart(t, dest, entries, effects);
    }
    Stopped(t, dest, entries, i, effects, part, reason);
  }

  lemma NoEntries(t: Tree, dest: string)
    ensures WholeArchive(t, dest, []) == []
  {
  }

  lemma RefusedForGood(t: Tree, dest: string, entries: seq<Entry>, i: nat, effects: seq<Effect>, reason: Reason)
    requires Through(t, dest, entries, i, effects) && Explains(t, dest, entries, reason, i)
    ensures (forall e | e in entries :: Sound(dest, e)) && NoClash(Apply(t, WholeArchive(t, dest, entries))) ==>
      Sizes(entries) > MAX_ZIP_SIZE
  {
    hide IsTree, Home, NoClash, Fits, WholeArchive, Sizes, NameOk, Parts, Whole;
    var e, now := entries[i], TreeAt(t, dest, entries, i);
    assert e in entries;
    if Sound(dest, e) {
      if !Fits(now, dest, e) {
        FitsExactly(now, dest, e);
        Advance(t, dest, entries, i);
        ClashStays(t, dest, entries, i + 1);
      } else {
        Grows(t, dest, entries, i + 1);
      }
    }
  }

  lemma Finished(t: Tree, dest: string, entries: seq<Entry>, effects: seq<Effect>)
    requires IsTree(t) && Through(t, dest, entries, |entries|, effects)
    ensures effects == WholeArchive(t, dest, entries) && Written(effects) == Sizes(entries)
    ensures Begins(effects, WholeArchive(t, dest, entries))
    ensures forall e | e in entries :: Sound(dest, e)
    ensures NoClash(Apply(t, WholeArchive(t, dest, entries)))
    ensures entries == [] ==> effects == []
  {
    hide AllLegal, Sound, Fits, Sizes, Written, Home;
    assert entries[..|entries|] == entries;
    forall e | e in entries ensures Sound(dest, e) {
      var k :| 0 <= k < |entries| && entries[k] == e;
      assert Fine(t, dest, entries, k);
    }
  }

  /** A file whose name cleans to `.` would replace the destination, so no archive that has one is
      extracted where the destination exists. */
  lemma DotFileClashes(t: Tree, dest: string, entries: seq<Entry>, k: nat)
    requires Home(t, dest) in t.dirs && k < |entries|
    requires NameOk(entries[k].name) && !entries[k].isDir && Parts(entries[k].name) == []
    ensures !NoClash(Apply(t, WholeArchive(t, dest, entries)))
  {
    hide NameOk, Denotes, MadeFor, WholeArchive, Whole;
    var e, before := entries[k], WholeArchive(t, dest, entries[..k]);
    var now := Apply(t, before);
    ApplyGrows(t, before);
    ContainedFrom(dest, e.name, now.cwd);
    assert Home(t, dest) + [] == Home(t, dest) == FileOf(now, dest, e);
    Advance(t, dest, entries, k);
    WholeApplied(now, dest, e);
    ApplyGrows(now, Missing(now.dirs, MadeFor(now, dest, e)));
    assert TreeAt(t, dest, entries, k + 1) == Apply(now, Whole(now, dest, e));
    ClashStays(t, dest, entries, k + 1);
  }

  lemma NoDotFile(t: Tree, dest: string, entries: seq<Entry>)
    requires (forall e | e in entries :: Sound(dest, e)) && NoClash(Apply(t, WholeArchive(t, dest, entries)))
    ensures Home(t, dest) in t.dirs ==> forall e | e in entries :: e.isDir || Parts(e.name) != []
  {
    hide Home, NoClash, Apply, WholeArchive, NameOk, Parts;
    if Home(t, dest) in t.dirs {
      forall e | e in entries ensures e.isDir || Parts(e.name) != [] {
        var k :| 0 <= k < |entries| && entries[k] == e;
        if !e.isDir && Parts(e.name) == [] {
          DotFileClashes(t, dest, entries, k);
        }
      }
    }
  }

  lemma NowIs(t: Tree, dest: string, entries: seq<Entry>, i: nat, effects: seq<Effect>)
    requires Through(t, dest, entries, i, effects) && i < |entries|
    ensures TreeAt(t, dest, entries, i) == Apply(t, effects) && Sizes(entries[..i]) == Written(effects)
    ensures Sizes(entries[..i + 1]) == Sizes(entries[..i]) + Size(entries[i])
  {
    hide WholeArchive, Sizes, Written, Apply, IsTree, AllLegal;
    Advance(t, dest, entries, i);
  }

  lemma MakingFailed(t: Tree, dest: string, entries: seq<Entry>, i: nat, effects: seq<Effect>)
    requires IsTree(t) && Through(t, dest, entries, i, effects) && Written(effects) <= MAX_ZIP_SIZE
    requires i < |entries| && Placed(dest, entries[i].name)
    requires var now := Apply(t, effects); Blocked(now, MadeFor(now, dest, entries[i])) || entries[i].fault.Mkdir?
    ensures Explains(t, dest, entries, IoError, i)
    ensures var now := Apply(t, effects);
      var p := MadeFor(now, dest, entries[i]);
      var made := Missing(now.dirs, p)[..MadeBefore(now, p, entries[i].fault)];
      && Refusal(t, dest, entries, i, effects + made) && Apply(t, effects + made) == Apply(now, made)
      && Written(effects + made) == Written(effects)
  {
    hide NameOk, Parts, MadeFor, FileOf, IsTree, AllLegal, WholeArchive, Sizes, Refusal, Apply, Missing, Orphan, Starts;
    var now := Apply(t, effects);
    var p := MadeFor(now, dest, entries[i]);
    NowIs(t, dest, entries, i, effects);
    if Blocked(now, p) {
      MakingBlocked(t, dest, entries, i, effects);
      assert effects + Missing(now.dirs, p)[..0] == effects;
      NothingApplied(now);
    } else {
      MakingStopped(t, dest, entries, i, effects, MadeBefore(now, p, entries[i].fault));
    }
  }

  lemma NothingApplied(t: Tree)
    ensures Apply(t, []) == t
  {
  }

  /** An entry that met nothing. */
  lemma EntryDone(t: Tree, dest: string, entries: seq<Entry>, i: nat, effects: seq<Effect>)
    requires IsTree(t) && Through(t, dest, entries, i, effects) && i < |entries| && Fine(t, dest, entries, i)
    ensures Through(t, dest, entries, i + 1, effects + Whole(Apply(t, effects), dest, entries[i]))
    ensures Apply(t, effects + Whole(Apply(t, effects), dest, entries[i])) ==
      Apply(Apply(t, effects), Whole(Apply(t, effects), dest, entries[i]))
    ensures var now, e := Apply(t, effects), entries[i];
      Whole(now, dest, e) ==
      Missing(now.dirs, MadeFor(now, dest, e)) + if e.isDir then [] else [Wrote(FileOf(now, dest, e), e.data)]
    ensures Written(effects + Whole(Apply(t, effects), dest, entries[i])) == Written(effects) + Size(entries[i])
  {
    hide Through, Fine, Written, Apply, MadeFor, FileOf, IsTree;
    ThroughNext(t, dest, entries, i, effects);
    ApplyConcat(t, effects, Whole(Apply(t, effects), dest, entries[i]));
    WrittenConcat(effects, Whole(Apply(t, effects), dest, entries[i]));
    WrittenWhole(Apply(t, effects), dest, entries[i]);
  }

  // What a complete extraction leaves.

  lemma {:induction false} MissingKeepsFiles(t: Tree, p: Place)
    ensures Apply(t, Missing(t.dirs, p)).files == t.files
    ensures [] in t.dirs ==> p in Apply(t, Missing(t.dirs, p)).dirs
    decreases |p|
  {
    if p != [] && p !in t.dirs {
      var up := Missing(t.dirs, Parent(p));
      MissingKeepsFiles(t, Parent(p));
      ApplyConcat(t, up, [Made(p)]);
      ApplyOne(Apply(t, up), Made(p));
    }
  }

  /** What the last entry does to the tree of the others. */
  lemma LastEntry(t: Tree, dest: string, entries: seq<Entry>)
    requires entries != []
    ensures var n := |entries| - 1;
      var before, after := Apply(t, WholeArchive(t, dest, entries[..n])), Apply(t, WholeArchive(t, dest, entries));
      && before.dirs <= after.dirs && ([] in t.dirs ==> MadeFor(t, dest, entries[n]) in after.dirs)
      && after.files ==
         if entries[n].isDir then before.files else before.files[FileOf(t, dest, entries[n]) := entries[n].data]
  {
    hide MadeFor, FileOf, WholeArchive, Whole, Apply, Denotes;
    var n := |entries| - 1;
    var before := Apply(t, WholeArchive(t, dest, entries[..n]));
    ApplyGrows(t, WholeArchive(t, dest, entries[..n]));
    SamePlaces(t, before, dest, entries[n]);
    assert entries[..n + 1] == entries;
    Advance(t, dest, entries, n);
    WholeApplied(before, dest, entries[n]);
    MissingKeepsFiles(before, MadeFor(before, dest, entries[n]));
    ApplyGrows(before, Missing(before.dirs, MadeFor(before, dest, entries[n])));
  }

  lemma SamePlaces(t: Tree, now: Tree, dest: string, e: Entry)
    requires now.cwd == t.cwd
    ensures MadeFor(now, dest, e) == MadeFor(t, dest, e) && FileOf(now, dest, e) == FileOf(t, dest, e)
  {
  }

  /** Of several entries for one file the last one wins, whole; every directory is there. */
  lemma {:induction false} LastWriteWins(t: Tree, dest: string, entries: seq<Entry>, k: nat)
    requires k < |entries| && [] in t.dirs
    ensures var after := Apply(t, WholeArchive(t, dest, entries));
      && MadeFor(t, dest, entries[k]) in after.dirs
      && (!entries[k].isDir
          && (forall l | k < l < |entries| && !entries[l].isDir ::
                FileOf(t, dest, entries[l]) != FileOf(t, dest, entries[k])) ==>
            FileOf(t, dest, entries[k]) in after.files
            && after.files[FileOf(t, dest, entries[k])] == entries[k].data)
  {
    hide MadeFor, FileOf, WholeArchive, Apply;
    var n := |entries| - 1;
    LastEntry(t, dest, entries);
    if k < n {
      assert forall l | k <= l < n :: entries[..n][l] == entries[l];
      LastWriteWins(t, dest, entries[..n], k);
    }
  }

  /** No other file is touched. */
  lemma {:induction false} OthersStay(t: Tree, dest: string, entries: seq<Entry>, p: Place)
    requires forall e | e in entries && !e.isDir :: FileOf(t, dest, e) != p
    ensures var after := Apply(t, WholeArchive(t, dest, entries));
      (p in after.files <==> p in t.files) && (p in t.files ==> after.files[p] == t.files[p])
  {
    if entries != [] {
      hide FileOf, WholeArchive, Apply;
      LastEntry(t, dest, entries);
      OthersStay(t, dest, entries[..|entries| - 1], p);
    }
  }

  /** `os.MkdirAll`: the directories that are missing, up to the fault if there is one; none if a
      file is in the way. */
  method MakeDirs(t: Tree, p: Place, fault: Fault) returns (ok: bool, made: seq<Effect>)
    ensures ok <==> !Blocked(t, p) && !fault.Mkdir?
    ensures made == Missing(t.dirs, p)[..MadeBefore(t, p, fault)]
    ensures ok ==> made == Missing(t.dirs, p)
  {
    if Blocked(t, p) {
      return false, [];
    }
    made := Missing(t.dirs, p);
    return !fault.Mkdir?, made[..MadeBefore(t, p, fault)];
  }

  function MadeBefore(t: Tree, p: Place, fault: Fault): (n: nat)
    ensures n <= |Missing(t.dirs, p)|
  {
    if Blocked(t, p) then 0
    else if fault.Mkdir? && fault.made < |Missing(t.dirs, p)| then fault.made
    else |Missing(t.dirs, p)|
  }

  method Extract(disk: Tree, dest: string, entries: seq<Entry>)
    returns (r: Outcome, tree: Tree, effects: seq<Effect>)
    requires IsTree(disk)
    // where
    ensures IsTree(tree) && tree == Apply(disk, effects)
    ensures AllWithin(Home(disk, dest), effects) <==> effects == [] || !Orphan(disk, dest)
    ensures Home(disk, dest) in disk.dirs ==> AllWithin(Home(disk, dest), effects)
    ensures Orphan(disk, dest) ==>
      (effects != [] <==> 0 < |entries| <= MAX_ZIP_ENTRIES && Starts(disk, dest, entries[0]))
    // how much
    ensures Written(effects) <= MAX_ZIP_SIZE + 1
    ensures Begins(effects, WholeArchive(disk, dest, entries))
    // success
    ensures r.Done? ==>
      effects == WholeArchive(disk, dest, entries) && Written(effects) == Sizes(entries) <= MAX_ZIP_SIZE
    ensures r.Done? <==>
      && |entries| <= MAX_ZIP_ENTRIES && (forall e | e in entries :: Sound(dest, e))
      && NoClash(Apply(disk, WholeArchive(disk, dest, entries))) && Sizes(entries) <= MAX_ZIP_SIZE
    ensures r.Done? && Home(disk, dest) in disk.dirs ==> forall e | e in entries :: e.isDir || Parts(e.name) != []
    // refusal
    ensures |entries| > MAX_ZIP_ENTRIES <==> r == Refused(TooManyEntries, 0)
    ensures |entries| > MAX_ZIP_ENTRIES ==> effects == []
    ensures r.Refused? && |entries| <= MAX_ZIP_ENTRIES ==>
      Explains(disk, dest, entries, r.reason, r.at) && forall k | 0 <= k < r.at :: Fine(disk, dest, entries, k)
    // what it leaves
    ensures r.Refused? && |entries| <= MAX_ZIP_ENTRIES ==>
      && WholeArchive(disk, dest, entries[..r.at]) <= effects
      && Begins(effects, WholeArchive(disk, dest, entries[..r.at + 1]))
      && (r.reason == DangerousPath || r.reason == ZipSlip ==> effects == WholeArchive(disk, dest, entries[..r.at]))
      && (r.reason == TooLarge <==> Written(effects) == MAX_ZIP_SIZE + 1)
  {
    hide Clean, JoinPath, Dir, Parts, Home, Missing, Blocked, Apply, WholeArchive, Sizes, Written;
    hide Begins, Whole, AllLegal, AllWithin, IsTree, NoClash, Orphan, TreeAt, Denotes;
    tree, effects := disk, [];
    NothingYet(disk, dest, entries);
    NothingApplied(disk);
    if |entries| > MAX_ZIP_ENTRIES {
      InsideExactly(disk, dest, []);
      return Refused(TooManyEntries, 0), tree, effects;
    }
    var totalExtractedBytes := 0;
    var cleanDestDir := Clean(dest);
    var i := 0;
    while i < |entries|
      invariant Through(disk, dest, entries, i, effects) && tree == Apply(disk, effects)
      invariant totalExtractedBytes == Written(effects) <= MAX_ZIP_SIZE
      decreases |entries| - i
    {
      var file := entries[i];
      var cleanedPath := Clean(file.name);
      if HasPrefix(cleanedPath, "..") || IsAbs(cleanedPath) {
        Untouched(disk, dest, entries, i, effects, DangerousPath);
        return Refused(DangerousPath, i), tree, effects;
      }
      SecondCheckExactly(dest, file.name);
      var targetPath := JoinPath(cleanDestDir, cleanedPath);
      if !HasPrefix(targetPath, cleanDestDir + "/") && targetPath != cleanDestDir {
        Untouched(disk, dest, entries, i, effects, ZipSlip);
        return Refused(ZipSlip, i), tree, effects;
      }
      NowIs(disk, dest, entries, i, effects);
      var ok, made := MakeDirs(tree, Denotes(if file.isDir then targetPath else Dir(targetPath), tree.cwd), file.fault);
      if !ok {
        MakingFailed(disk, dest, entries, i, effects);
        return Refused(IoError, i), Apply(tree, made), effects + made;
      }
      if file.isDir {
        EntryDone(disk, dest, entries, i, effects);
        assert made + [] == made;
        effects, tree := effects + made, Apply(tree, made);
        i := i + 1;
        continue;
      }
      var target := Denotes(targetPath, tree.cwd);
      if file.fault == Open || file.fault == Create || target in Apply(tree, made).dirs {
        MakingStopped(disk, dest, entries, i, effects, |made|);
        assert made[..|made|] == made;
        return Refused(IoError, i), Apply(tree, made), effects + made;
      }
      var limit := MAX_ZIP_SIZE - totalExtractedBytes + 1;
      var written := if |file.data| < limit then |file.data| else limit;
      if file.fault.Copy? && file.fault.after < written {
        written := file.fault.after;
      }
      var done := made + [Wrote(target, file.data[..written])];
      if file.fault.Copy? && (file.fault.after < limit || |file.data| < limit) {
        CopyStopped(disk, dest, entries, i, effects, written, IoError);
        return Refused(IoError, i), Apply(tree, done), effects + done;
      }
      totalExtractedBytes := totalExtractedBytes + written;
      if totalExtractedBytes > MAX_ZIP_SIZE {
        CopyStopped(disk, dest, entries, i, effects, written, TooLarge);
        return Refused(TooLarge, i), Apply(tree, done), effects + done;
      }
      assert file.data[..written] == file.data;
      EntryDone(disk, dest, entries, i, effects);
      effects, tree := effects + done, Apply(tree, done);
      i := i + 1;
    }
    Finished(disk, dest, entries, effects);
    InsideExactly(disk, dest, effects);
    NoDotFile(disk, dest, entries);
    return Done, tree, effects;
  }
}
