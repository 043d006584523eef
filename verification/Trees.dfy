/** The directory tree that an extraction works on, and what `os.MkdirAll` does to it. A place is
    the sequence of names that leads to it from the root; there are no symbolic links. */
module Trees {
  type Place = seq<string>

  datatype Tree = Tree(cwd: Place, dirs: set<Place>, files: map<Place, string>)

  /** One directory that was really made, or one file that was written. */
  datatype Effect = Made(at: Place) | Wrote(at: Place, data: string)

  function Parent(p: Place): Place
    requires p != []
  {
    p[..|p| - 1]
  }

  /** The root is there, every directory is in one, and so is every file; nothing is both. */
  ghost predicate IsTree(t: Tree) {
    && [] in t.dirs && t.cwd in t.dirs
    && (forall p | p in t.dirs && p != [] :: Parent(p) in t.dirs)
    && (forall p | p in t.files :: p !in t.dirs)
  }

  function After(t: Tree, e: Effect): Tree {
    Tree(t.cwd,
         if e.Made? then t.dirs + {e.at} else t.dirs,
         if e.Wrote? then t.files[e.at := e.data] else t.files)
  }

  function Apply(t: Tree, effects: seq<Effect>): Tree {
    if effects == [] then t else After(Apply(t, effects[..|effects| - 1]), effects[|effects| - 1])
  }

  /** What `MkdirAll` makes: its parent first, if the place is not there. */
  function Missing(dirs: set<Place>, p: Place): seq<Effect>
    decreases |p|
  {
    if p == [] || p in dirs then [] else Missing(dirs, Parent(p)) + [Made(p)]
  }

  /** `MkdirAll` fails and makes nothing: a file is in the way. */
  predicate Blocked(t: Tree, p: Place)
    decreases |p|
  {
    p != [] && p !in t.dirs && (p in t.files || Blocked(t, Parent(p)))
  }

  lemma {:induction false} ApplyConcat(t: Tree, a: seq<Effect>, b: seq<Effect>)
    ensures Apply(t, a + b) == Apply(Apply(t, a), b)
  {
    if b == [] {
      assert a + b == a;
    } else {
      var n := |b| - 1;
      assert (a + b)[..|a + b| - 1] == a + b[..n];
      ApplyConcat(t, a, b[..n]);
    }
  }

  lemma ApplyOne(t: Tree, e: Effect)
    ensures Apply(t, [e]) == After(t, e)
  {
    assert [e][..|[e]| - 1] == [];
  }

  /** Everything above a directory is there. */
  lemma {:induction false} Closed(t: Tree, p: Place, q: Place)
    requires IsTree(t) && q in t.dirs && p <= q
    ensures p in t.dirs
    decreases |q|
  {
    if p != q {
      assert p <= Parent(q);
      Closed(t, p, Parent(q));
    }
  }

  /** A file is in the way exactly if some part of the path is one. */
  lemma {:induction false} BlockedExactly(t: Tree, p: Place)
    requires IsTree(t)
    ensures Blocked(t, p) <==> exists k :: 0 <= k <= |p| && p[..k] in t.files
    decreases |p|
  {
    if p == [] {
      assert p[..0] == [];
    } else if p in t.dirs {
      forall k | 0 <= k <= |p| ensures p[..k] !in t.files {
        Closed(t, p[..k], p);
      }
    } else {
      var up := Parent(p);
      BlockedExactly(t, up);
      assert forall k | 0 <= k <= |up| :: up[..k] == p[..k];
      assert p[..|p|] == p;
    }
  }

  // What may happen below a home.

  predicate Comparable(p: Place, q: Place) {
    p <= q || q <= p
  }

  /** A directory is made in a directory that is there, on the way to the home or below it; a file
      is written in one, at the home or below it; neither replaces the other. */
  ghost predicate Legal(t: Tree, home: Place, e: Effect) {
    && e.at != [] && Parent(e.at) in t.dirs && e.at !in t.dirs
    && match e
       case Made(p) => p !in t.files && Comparable(home, p)
       case Wrote(p, _) => home <= p
  }

  ghost predicate AllLegal(t: Tree, home: Place, effects: seq<Effect>) {
    forall k | 0 <= k < |effects| :: Legal(Apply(t, effects[..k]), home, effects[k])
  }

  lemma NothingLegal(t: Tree, home: Place)
    ensures AllLegal(t, home, [])
  {
  }

  lemma LegalConcat(t: Tree, home: Place, a: seq<Effect>, b: seq<Effect>)
    requires AllLegal(t, home, a) && AllLegal(Apply(t, a), home, b)
    ensures AllLegal(t, home, a + b)
  {
    forall k | 0 <= k < |a + b| ensures Legal(Apply(t, (a + b)[..k]), home, (a + b)[k]) {
      if k < |a| {
        assert (a + b)[..k] == a[..k];
      } else {
        assert (a + b)[..k] == a + b[..k - |a|];
        ApplyConcat(t, a, b[..k - |a|]);
      }
    }
  }

  lemma LegalPrefix(t: Tree, home: Place, effects: seq<Effect>, n: nat)
    requires AllLegal(t, home, effects) && n <= |effects|
    ensures AllLegal(t, home, effects[..n])
  {
    forall k | 0 <= k < n ensures Legal(Apply(t, effects[..n][..k]), home, effects[..n][k]) {
      assert effects[..n][..k] == effects[..k];
    }
  }

  /** Legal effects leave a tree, with all that was there. */
  lemma {:induction false} LegalKeepsTree(t: Tree, home: Place, effects: seq<Effect>)
    requires IsTree(t) && AllLegal(t, home, effects)
    ensures IsTree(Apply(t, effects)) && Apply(t, effects).cwd == t.cwd
    ensures t.dirs <= Apply(t, effects).dirs && t.files.Keys <= Apply(t, effects).files.Keys
  {
    if effects != [] {
      var n := |effects| - 1;
      LegalPrefix(t, home, effects, n);
      LegalKeepsTree(t, home, effects[..n]);
      assert Legal(Apply(t, effects[..n]), home, effects[n]);
    }
  }

  lemma {:induction false} MissingLegal(t: Tree, home: Place, p: Place)
    requires IsTree(t) && !Blocked(t, p) && Comparable(home, p)
    requires forall q | q <= p :: Comparable(home, q)
    ensures AllLegal(t, home, Missing(t.dirs, p))
    ensures Apply(t, Missing(t.dirs, p)).files == t.files && p in Apply(t, Missing(t.dirs, p)).dirs
    decreases |p|
  {
    if p == [] || p in t.dirs {
      NothingLegal(t, home);
    } else {
      var up := Parent(p);
      MissingLegal(t, home, up);
      LegalKeepsTree(t, home, Missing(t.dirs, up));
      var t' := Apply(t, Missing(t.dirs, up));
      MissingNotYet(t, p, up);
      ApplyOne(t', Made(p));
      OneLegal(t', home, Made(p));
      LegalConcat(t, home, Missing(t.dirs, up), [Made(p)]);
      ApplyConcat(t, Missing(t.dirs, up), [Made(p)]);
    }
  }

  lemma OneLegal(t: Tree, home: Place, e: Effect)
    requires Legal(t, home, e)
    ensures AllLegal(t, home, [e])
  {
    assert [e][..0] == [];
  }

  /** Making what is above a place does not make the place. */
  lemma {:induction false} MissingNotYet(t: Tree, p: Place, up: Place)
    requires |up| < |p| && p !in t.dirs
    ensures p !in Apply(t, Missing(t.dirs, up)).dirs
    decreases |up|
  {
    if up != [] && up !in t.dirs {
      MissingNotYet(t, p, Parent(up));
      ApplyConcat(t, Missing(t.dirs, Parent(up)), [Made(up)]);
      ApplyOne(Apply(t, Missing(t.dirs, Parent(up))), Made(up));
    }
  }

  // Where legal effects are.

  ghost predicate AllWithin(home: Place, effects: seq<Effect>) {
    forall k | 0 <= k < |effects| :: home <= effects[k].at
  }

  /** All legal effects are at the home or below it exactly if the home is in a directory that is
      there, or nothing happens at all. */
  lemma WithinExactly(t: Tree, home: Place, effects: seq<Effect>)
    requires IsTree(t) && AllLegal(t, home, effects)
    ensures AllWithin(home, effects) <==> effects == [] || home == [] || Parent(home) in t.dirs
  {
    if home == [] || Parent(home) in t.dirs {
      forall k | 0 <= k < |effects| ensures home <= effects[k].at {
        LegalWithin(t, home, effects, k);
      }
    } else if effects != [] {
      assert effects[..0] == [] && Legal(t, home, effects[0]);
      FirstIsOutside(t, home, effects[0]);
    }
  }

  lemma LegalWithin(t: Tree, home: Place, effects: seq<Effect>, k: nat)
    requires IsTree(t) && AllLegal(t, home, effects) && k < |effects| && (home == [] || Parent(home) in t.dirs)
    ensures home <= effects[k].at
  {
    var e := effects[k];
    LegalPrefix(t, home, effects, k);
    LegalKeepsTree(t, home, effects[..k]);
    assert Legal(Apply(t, effects[..k]), home, e);
    if !(home <= e.at) {
      assert e.at <= Parent(home);
      Closed(t, e.at, Parent(home));
    }
  }

  lemma FirstIsOutside(t: Tree, home: Place, e: Effect)
    requires IsTree(t) && Legal(t, home, e) && home != [] && Parent(home) !in t.dirs
    ensures !(home <= e.at)
  {
    if home <= e.at {
      assert Parent(home) <= Parent(e.at);
      Closed(t, Parent(home), Parent(e.at));
    }
  }
}
