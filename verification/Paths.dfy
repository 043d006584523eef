/** Slash-separated paths: the lexical rules of `filepath.Clean`, `filepath.Join` and
    `filepath.Dir` on Unix, which the ZIP extraction relies on, and what a path denotes. */
module Paths {
  import opened Text

  predicate IsAbs(path: string) {
    path != "" && path[0] == '/'
  }

  predicate HasPrefix(s: string, prefix: string) {
    prefix <= s
  }

  /** One component after the cleaned components `acc`. */
  function Enter(rooted: bool, acc: seq<string>, part: string): seq<string> {
    if part == "" || part == "." then acc
    else if part != ".." then acc + [part]
    else if acc != [] && acc[|acc| - 1] != ".." then acc[..|acc| - 1]
    else if rooted then acc
    else acc + [".."]
  }

  function Resolve(rooted: bool, acc: seq<string>, parts: seq<string>): seq<string>
    decreases |parts|
  {
    if parts == [] then acc else Resolve(rooted, Enter(rooted, acc, parts[0]), parts[1..])
  }

  /** The components of a path, cleaned. */
  function Parts(path: string): seq<string> {
    Resolve(IsAbs(path), [], Split(path, '/'))
  }

  function Render(rooted: bool, parts: seq<string>): string {
    if rooted then "/" + Join(parts, '/') else if parts == [] then "." else Join(parts, '/')
  }

  function Clean(path: string): string {
    Render(IsAbs(path), Parts(path))
  }

  /** `filepath.Join` of two paths, the first not empty. */
  function JoinPath(dir: string, path: string): string {
    Clean(dir + "/" + path)
  }

  /** All of the path up to its last slash, cleaned. */
  function Dir(path: string): string {
    var parts := Split(path, '/');
    Clean(Join(parts[..|parts| - 1] + [""], '/'))
  }

  // What a path denotes.

  function Move(at: seq<string>, part: string): seq<string> {
    if part == "" || part == "." then at
    else if part != ".." then at + [part]
    else if at == [] then []
    else at[..|at| - 1]
  }

  function Walk(at: seq<string>, parts: seq<string>): seq<string>
    decreases |parts|
  {
    if parts == [] then at else Walk(Move(at, parts[0]), parts[1..])
  }

  /** The names that lead from the root to what the path denotes, in the working directory
      `cwd`, where no symbolic link is on the way. */
  function Denotes(path: string, cwd: seq<string>): seq<string> {
    Walk(if IsAbs(path) then [] else cwd, Split(path, '/'))
  }

  /** What `path` denotes is what `dir` denotes, or below it, in every working directory. */
  ghost predicate Within(dir: string, path: string) {
    forall cwd: seq<string> :: Denotes(dir, cwd) <= Denotes(path, cwd)
  }

  // Cleaned components.

  predicate Plain(part: string) {
    part != "" && part != "." && '/' !in part
  }

  /** Nothing is left to clean: `..` only leads a path that is not rooted. */
  predicate Normal(rooted: bool, parts: seq<string>) {
    && (forall k | 0 <= k < |parts| :: Plain(parts[k]))
    && (forall k | 0 <= k < |parts| && parts[k] == ".." :: !rooted && forall j | 0 <= j < k :: parts[j] == "..")
  }

  lemma {:induction false} ResolveNormal(rooted: bool, acc: seq<string>, parts: seq<string>)
    requires Normal(rooted, acc) && forall k | 0 <= k < |parts| :: '/' !in parts[k]
    ensures Normal(rooted, Resolve(rooted, acc, parts))
    decreases |parts|
  {
    if parts != [] {
      assert '/' !in parts[0];
      ResolveNormal(rooted, Enter(rooted, acc, parts[0]), parts[1..]);
    }
  }

  lemma {:induction false} ResolveConcat(rooted: bool, acc: seq<string>, a: seq<string>, b: seq<string>)
    ensures Resolve(rooted, acc, a + b) == Resolve(rooted, Resolve(rooted, acc, a), b)
    decreases |a|
  {
    if a == [] {
      assert a + b == b;
    } else {
      assert (a + b)[1..] == a[1..] + b;
      ResolveConcat(rooted, Enter(rooted, acc, a[0]), a[1..], b);
    }
  }

  lemma {:induction false} ResolveCleaned(rooted: bool, acc: seq<string>, parts: seq<string>)
    requires Normal(rooted, acc + parts)
    ensures Resolve(rooted, acc, parts) == acc + parts
    decreases |parts|
  {
    if parts != [] {
      var whole := acc + parts;
      assert whole[|acc|] == parts[0] && Plain(whole[|acc|]);
      if parts[0] == ".." && acc != [] {
        assert whole[|acc| - 1] == "..";
      }
      assert acc + [parts[0]] + parts[1..] == whole;
      ResolveCleaned(rooted, acc + [parts[0]], parts[1..]);
    } else {
      assert acc + parts == acc;
    }
  }

  lemma PartsNormal(path: string)
    ensures Normal(IsAbs(path), Parts(path))
  {
    ResolveNormal(IsAbs(path), [], Split(path, '/'));
  }

  lemma JoinHead(parts: seq<string>)
    requires parts != [] && Plain(parts[0])
    ensures parts[0] <= Join(parts, '/') && !IsAbs(Join(parts, '/'))
  {
  }

  /** Rendering loses nothing. */
  lemma RenderParts(rooted: bool, parts: seq<string>)
    requires Normal(rooted, parts)
    ensures IsAbs(Render(rooted, parts)) == rooted
    ensures Split(Render(rooted, parts), '/') ==
      (if rooted then [""] else []) + (if parts != [] then parts else if rooted then [""] else ["."])
    ensures Parts(Render(rooted, parts)) == parts
  {
    var shown := Render(rooted, parts);
    var body := if parts != [] then parts else if rooted then [""] else ["."];
    forall k | 0 <= k < |body| ensures '/' !in body[k] {
      assert parts != [] ==> Plain(parts[k]);
    }
    SplitJoin(body, '/');
    if parts != [] {
      assert Plain(parts[0]);
      JoinHead(parts);
    }
    if rooted {
      SplitCons('/', Join(body, '/'), '/');
      assert shown == ['/'] + Join(body, '/');
      assert ([""] + body)[1..] == body;
    }
    if parts == [] {
      assert body[1..] == [];
      assert Resolve(rooted, [], body) == Resolve(rooted, [], body[1..]) == [];
      assert [] + body == body;
    } else {
      assert [] + parts == parts;
      ResolveCleaned(rooted, [], parts);
    }
  }

  /** Cleaning is idempotent. */
  lemma CleanTwice(path: string)
    ensures Clean(Clean(path)) == Clean(path) && IsAbs(Clean(path)) == IsAbs(path) && Parts(Clean(path)) == Parts(path)
  {
    PartsNormal(path);
    RenderParts(IsAbs(path), Parts(path));
  }

  lemma {:induction false} WalkConcat(at: seq<string>, a: seq<string>, b: seq<string>)
    ensures Walk(at, a + b) == Walk(Walk(at, a), b)
    decreases |a|
  {
    if a == [] {
      assert a + b == b;
    } else {
      assert (a + b)[1..] == a[1..] + b;
      WalkConcat(Move(at, a[0]), a[1..], b);
    }
  }

  lemma WalkLast(at: seq<string>, parts: seq<string>)
    requires parts != []
    ensures Walk(at, parts) == Move(Walk(at, parts[..|parts| - 1]), parts[|parts| - 1])
  {
    var n := |parts| - 1;
    assert parts == parts[..n] + [parts[n]];
    WalkConcat(at, parts[..n], [parts[n]]);
    assert [parts[n]][1..] == [];
  }

  lemma EnterKeepsMeaning(start: seq<string>, rooted: bool, acc: seq<string>, part: string)
    requires Normal(rooted, acc) && (rooted ==> start == [])
    ensures Walk(start, Enter(rooted, acc, part)) == Move(Walk(start, acc), part)
  {
    var next := Enter(rooted, acc, part);
    if |next| > |acc| {
      assert next[..|acc|] == acc;
      WalkLast(start, next);
    } else if acc != [] {
      assert Plain(acc[|acc| - 1]);
      WalkLast(start, acc);
    }
  }

  lemma {:induction false} ResolveKeepsMeaning(start: seq<string>, rooted: bool, acc: seq<string>, parts: seq<string>)
    requires Normal(rooted, acc) && (rooted ==> start == []) && forall k | 0 <= k < |parts| :: '/' !in parts[k]
    ensures Walk(start, Resolve(rooted, acc, parts)) == Walk(Walk(start, acc), parts)
    decreases |parts|
  {
    if parts != [] {
      var next := Enter(rooted, acc, parts[0]);
      EnterKeepsMeaning(start, rooted, acc, parts[0]);
      ResolveNormal(rooted, acc, parts[..1]);
      assert parts[..1][1..] == [] && Resolve(rooted, acc, parts[..1]) == next;
      ResolveKeepsMeaning(start, rooted, next, parts[1..]);
    }
  }

  lemma {:induction false} WalkRendered(at: seq<string>, rooted: bool, parts: seq<string>)
    requires Normal(rooted, parts) && (rooted ==> at == [])
    ensures Walk(at, Split(Render(rooted, parts), '/')) == Walk(at, parts)
  {
    RenderParts(rooted, parts);
    var body := if parts != [] then parts else if rooted then [""] else ["."];
    assert parts == [] ==> body[1..] == [];
    assert rooted ==> ([""] + body)[1..] == body;
    assert [] + body == body;
  }

  /** A cleaned path denotes what the path denotes. */
  lemma CleanKeepsMeaning(path: string, cwd: seq<string>)
    ensures Denotes(Clean(path), cwd) == Denotes(path, cwd)
    ensures Denotes(path, cwd) == Walk(if IsAbs(path) then [] else cwd, Parts(path))
  {
    var start := if IsAbs(path) then [] else cwd;
    PartsNormal(path);
    RenderParts(IsAbs(path), Parts(path));
    ResolveKeepsMeaning(start, IsAbs(path), [], Split(path, '/'));
    WalkRendered(start, IsAbs(path), Parts(path));
  }

  /** Names lead down only. */
  lemma {:induction false} WalkDown(at: seq<string>, parts: seq<string>)
    requires forall k | 0 <= k < |parts| :: Plain(parts[k]) && parts[k] != ".."
    ensures Walk(at, parts) == at + parts
    decreases |parts|
  {
    if parts != [] {
      assert Plain(parts[0]);
      WalkDown(at + [parts[0]], parts[1..]);
      assert at + [parts[0]] + parts[1..] == at + parts;
    }
  }
}
