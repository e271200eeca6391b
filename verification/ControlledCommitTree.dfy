/** The tree of a controlled commit (src/server/execution-policy-git.ts): the baseline overlaid with the
    working files, except under `.hive` and under the denied roots.

    Paths are relative to the checkout, separated by '/', as Git lists them. */
module ControlledCommitTree {
  import opened Wrappers

  type Path = string
  type Blob = int
  type Content = seq<int>

  datatype Mode = Plain | Executable | Special
  datatype Node = Node(mode: Mode, blob: Blob)
  type Tree = map<Path, Node>

  /** What `readCheckoutFile` finds: no file, an ordinary file, or something it refuses to read. */
  datatype Found = Missing | File(content: Content, executable: bool) | Unsafe

  /** What the call reads. `hash` stands for the object id Git gives a blob; `hashed` says whether
      `git hash-object` printed an id for every path it was given. */
  datatype Input = Input(
    base: Tree, listing: seq<Path>, untracked: seq<Path>, denied: seq<Path>, windows: bool,
    found: Path -> Found, hash: Content -> Blob, hashed: bool
  )

  predicate StartsWith(p: Path, prefix: Path) {
    |prefix| <= |p| && forall i :: 0 <= i < |prefix| ==> p[i] == prefix[i]
  }

  /** `name === root || name.startsWith(root + '/')`. */
  predicate Under(root: Path, p: Path) {
    p == root || StartsWith(p, root + "/")
  }

  predicate Denied(x: Input, p: Path) {
    exists i :: 0 <= i < |x.denied| && Under(x.denied[i], p)
  }

  /** A path whose baseline entry, or absence, is preserved without reading the file. */
  predicate Preserved(x: Input, p: Path) {
    Under(".hive", p) || Denied(x, p)
  }

  predicate Distinct(paths: seq<Path>) {
    forall i, j :: 0 <= i < j < |paths| ==> paths[i] != paths[j]
  }

  /** `git ls-tree -rz` lists every path of the tree exactly once. */
  ghost predicate Listed(x: Input) {
    Distinct(x.listing) && forall p :: p in x.listing <==> p in x.base
  }

  predicate Considered(x: Input, p: Path) {
    !Preserved(x, p) && (p in x.base || p in x.untracked)
  }

  // ---- The reference definition ----

  function ModeOf(x: Input, p: Path): Mode {
    if x.windows then (if p in x.base then x.base[p].mode else Plain)
    else if x.found(p).File? && x.found(p).executable then Executable else Plain
  }

  /** The promised tree: preserved paths as in the baseline, every other known path as in the working
      directory. */
  ghost function Overlay(x: Input): Tree {
    map p | p in x.base.Keys + (set q | q in x.untracked) && (if Considered(x, p) then x.found(p).File? else p in x.base)
      :: if Considered(x, p) then Node(ModeOf(x, p), x.hash(x.found(p).content)) else x.base[p]
  }

  /** The call builds a tree exactly when the baseline has only ordinary files, every considered path is
      safe to read, and Git hashed every file. */
  ghost predicate Buildable(x: Input) {
    && (forall p :: p in x.base ==> x.base[p].mode != Special)
    && (forall p :: Considered(x, p) ==> !x.found(p).Unsafe?)
    && (x.hashed || forall p :: Considered(x, p) ==> !x.found(p).File?)
  }

  // ---- The code ----

  datatype Update = Remove(name: Path) | Put(name: Path, mode: Mode, blob: Blob)
  datatype Snapshot = Snapshot(name: Path, mode: Mode, content: Content)

  /** `git update-index --index-info`: the updates take effect in order. */
  function Apply(tree: Tree, updates: seq<Update>): Tree {
    if updates == [] then tree
    else
      var before := Apply(tree, updates[..|updates| - 1]);
      match updates[|updates| - 1]
      case Remove(name) => before - {name}
      case Put(name, mode, blob) => before[name := Node(mode, blob)]
  }

  /** The update a considered path must get. */
  function Wanted(x: Input, p: Path): Update {
    if x.found(p).File? then Put(p, ModeOf(x, p), x.hash(x.found(p).content)) else Remove(p)
  }

  ghost predicate Named(updates: seq<Update>, p: Path) {
    exists k :: 0 <= k < |updates| && updates[k].name == p
  }

  /** Updates that each say what is wanted give every named path its file or its absence, in any order,
      and leave every other path as it was. */
  lemma {:induction false} ApplyWanted(x: Input, updates: seq<Update>, p: Path)
    requires forall k :: 0 <= k < |updates| ==> updates[k] == Wanted(x, updates[k].name)
    ensures var t := Apply(x.base, updates);
      && (Named(updates, p) ==> (p in t <==> x.found(p).File?) && (p in t ==> t[p] == Node(ModeOf(x, p), x.hash(x.found(p).content))))
      && (!Named(updates, p) ==> (p in t <==> p in x.base) && (p in t ==> t[p] == x.base[p]))
  {
    if updates != [] {
      var rest, last := updates[..|updates| - 1], updates[|updates| - 1];
      ApplyWanted(x, rest, p);
      assert last == Wanted(x, last.name);
      if last.name != p && Named(updates, p) {
        var k :| 0 <= k < |updates| && updates[k].name == p;
        assert rest[k].name == p;
      }
      if Named(rest, p) {
        var k :| 0 <= k < |rest| && rest[k].name == p;
        assert updates[k].name == p;
      }
      if last.name == p { assert Named(updates, p); }
    }
  }

  lemma OverlayReached(x: Input, updates: seq<Update>)
    requires forall k :: 0 <= k < |updates| ==> updates[k] == Wanted(x, updates[k].name)
    requires forall p :: Named(updates, p) <==> Considered(x, p)
    ensures Apply(x.base, updates) == Overlay(x)
  {
    var t, goal := Apply(x.base, updates), Overlay(x);
    forall p ensures (p in t <==> p in goal) && (p in t ==> t[p] == goal[p]) {
      ApplyWanted(x, updates, p);
    }
  }

  // ---- The loops ----

  /** The paths of `entries`, a map in insertion order: the baseline, then what is new. */
  method CollectEntries(x: Input) returns (names: Option<seq<Path>>)
    requires Listed(x)
    ensures names.Some? <==> forall p :: p in x.base ==> x.base[p].mode != Special
    ensures names.Some? ==> Distinct(names.value) && forall p :: p in names.value <==> p in x.base || p in x.untracked
  {
    var entries, i := [], 0;
    while i < |x.listing|
      invariant 0 <= i <= |x.listing| && entries == x.listing[..i]
      invariant forall j :: 0 <= j < i ==> x.base[x.listing[j]].mode != Special
    {
      assert x.listing[i] in x.listing;
      if x.base[x.listing[i]].mode == Special { return None; }
      entries := entries + [x.listing[i]];
      i := i + 1;
    }
    assert entries == x.listing;
    forall p | p in x.base ensures x.base[p].mode != Special {
      assert p in x.listing;
    }
    var k := 0;
    while k < |x.untracked|
      invariant 0 <= k <= |x.untracked| && Distinct(entries)
      invariant forall p :: p in entries <==> p in x.base || p in x.untracked[..k]
    {
      if x.untracked[k] !in entries { entries := entries + [x.untracked[k]]; }
      k := k + 1;
    }
    return Some(entries);
  }

  /** Reads one path after the other. A missing file becomes a removal at once; the files are put aside and
      hashed together, so what is promised is that snapshot and object id stay aligned. */
  method CollectUpdates(x: Input, entries: seq<Path>) returns (updates: Option<seq<Update>>)
    requires forall p :: p in entries <==> p in x.base || p in x.untracked
    ensures updates.Some? <==>
      (forall p :: Considered(x, p) ==> !x.found(p).Unsafe?) && (x.hashed || forall p :: Considered(x, p) ==> !x.found(p).File?)
    ensures updates.Some? ==> forall k :: 0 <= k < |updates.value| ==> updates.value[k] == Wanted(x, updates.value[k].name)
    ensures updates.Some? ==> forall p :: Named(updates.value, p) <==> Considered(x, p)
  {
    var removals: seq<Update>, snapshots: seq<Snapshot>, i := [], [], 0;
    while i < |entries|
      invariant 0 <= i <= |entries|
      invariant forall k :: 0 <= k < |removals| ==> RemovalOk(x, removals[k])
      invariant forall k :: 0 <= k < |snapshots| ==> SnapshotOk(x, snapshots[k])
      invariant forall j :: 0 <= j < i ==> Handled(x, entries[j], removals, snapshots)
    {
      var name := entries[i];
      assert name in entries;
      ghost var removed, snapped := removals, snapshots;
      if !Preserved(x, name) {
        var file := x.found(name);
        if file.Unsafe? { assert Considered(x, name); return None; }
        if file.Missing? {
          removals := removals + [Remove(name)];
          assert removals[|removed|].name == name;
        } else {
          var mode := if x.windows then (if name in x.base then x.base[name].mode else Plain) else if file.executable then Executable else Plain;
          snapshots := snapshots + [Snapshot(name, mode, file.content)];
          assert snapshots[|snapped|].name == name;
        }
      }
      forall j | 0 <= j < i ensures Handled(x, entries[j], removals, snapshots) {
        HandledStays(x, entries[j], removed, snapped, removals[|removed|..], snapshots[|snapped|..]);
        assert removed + removals[|removed|..] == removals && snapped + snapshots[|snapped|..] == snapshots;
      }
      i := i + 1;
    }
    AllHandled(x, entries, removals, snapshots);
    var blobs := if snapshots == [] then [] else HashObjects(x, snapshots);
    if |blobs| != |snapshots| {
      assert SnapshotOk(x, snapshots[0]);
      return None;
    }
    var puts := Puts(snapshots, blobs);
    UpdatesWanted(x, removals, snapshots, blobs);
    return Some(removals + puts);
  }

  ghost predicate RemovalOk(x: Input, u: Update) {
    Considered(x, u.name) && u == Remove(u.name) && x.found(u.name).Missing?
  }

  ghost predicate SnapshotOk(x: Input, s: Snapshot) {
    Considered(x, s.name) && x.found(s.name).File? && s.mode == ModeOf(x, s.name) && s.content == x.found(s.name).content
  }

  ghost predicate InSnapshots(snapshots: seq<Snapshot>, p: Path) {
    exists k :: 0 <= k < |snapshots| && snapshots[k].name == p
  }

  ghost predicate Handled(x: Input, p: Path, removals: seq<Update>, snapshots: seq<Snapshot>) {
    Preserved(x, p) || (!x.found(p).Unsafe? && (Named(removals, p) || InSnapshots(snapshots, p)))
  }

  lemma HandledStays(x: Input, p: Path, r: seq<Update>, s: seq<Snapshot>, r': seq<Update>, s': seq<Snapshot>)
    requires Handled(x, p, r, s)
    ensures Handled(x, p, r + r', s + s')
  {
    if Named(r, p) {
      var k :| 0 <= k < |r| && r[k].name == p;
      assert (r + r')[k].name == p;
    } else if InSnapshots(s, p) {
      var k :| 0 <= k < |s| && s[k].name == p;
      assert (s + s')[k].name == p;
    }
  }

  lemma AllHandled(x: Input, entries: seq<Path>, removals: seq<Update>, snapshots: seq<Snapshot>)
    requires forall p :: p in entries <==> p in x.base || p in x.untracked
    requires forall k :: 0 <= k < |removals| ==> RemovalOk(x, removals[k])
    requires forall k :: 0 <= k < |snapshots| ==> SnapshotOk(x, snapshots[k])
    requires forall j :: 0 <= j < |entries| ==> Handled(x, entries[j], removals, snapshots)
    ensures forall p :: Considered(x, p) ==> !x.found(p).Unsafe?
    ensures forall p :: Named(removals, p) || InSnapshots(snapshots, p) <==> Considered(x, p)
    ensures snapshots == [] <==> forall p :: Considered(x, p) ==> !x.found(p).File?
  {
    forall p | Considered(x, p) ensures !x.found(p).Unsafe? && (Named(removals, p) || InSnapshots(snapshots, p)) {
      assert p in entries;
      var j :| 0 <= j < |entries| && entries[j] == p;
      assert Handled(x, entries[j], removals, snapshots);
    }
    if snapshots != [] { assert SnapshotOk(x, snapshots[0]); }
  }

  /** `git hash-object --stdin-paths`: one id per file, in order, unless it stops early. */
  function HashObjects(x: Input, snapshots: seq<Snapshot>): (blobs: seq<Blob>)
    requires snapshots != []
    ensures |blobs| == (if x.hashed then |snapshots| else |snapshots| - 1)
  {
    seq(if x.hashed then |snapshots| else |snapshots| - 1, i requires 0 <= i < |snapshots| => x.hash(snapshots[i].content))
  }

  function Puts(snapshots: seq<Snapshot>, blobs: seq<Blob>): (puts: seq<Update>)
    requires |snapshots| == |blobs|
    ensures |puts| == |snapshots|
  {
    seq(|snapshots|, i requires 0 <= i < |snapshots| => Put(snapshots[i].name, snapshots[i].mode, blobs[i]))
  }

  lemma UpdatesWanted(x: Input, removals: seq<Update>, snapshots: seq<Snapshot>, blobs: seq<Blob>)
    requires forall k :: 0 <= k < |removals| ==> RemovalOk(x, removals[k])
    requires forall k :: 0 <= k < |snapshots| ==> SnapshotOk(x, snapshots[k])
    requires |blobs| == |snapshots| && forall k :: 0 <= k < |blobs| ==> blobs[k] == x.hash(snapshots[k].content)
    ensures var all := removals + Puts(snapshots, blobs);
      && (forall k :: 0 <= k < |all| ==> all[k] == Wanted(x, all[k].name))
      && (forall p :: Named(all, p) <==> Named(removals, p) || InSnapshots(snapshots, p))
  {
    var puts := Puts(snapshots, blobs);
    var all := removals + puts;
    forall k | 0 <= k < |all| ensures all[k] == Wanted(x, all[k].name) {
      if k < |removals| { assert RemovalOk(x, removals[k]); } else { assert SnapshotOk(x, snapshots[k - |removals|]); }
    }
    forall p ensures Named(all, p) <==> Named(removals, p) || InSnapshots(snapshots, p) {
      if Named(all, p) {
        var k :| 0 <= k < |all| && all[k].name == p;
        if k < |removals| { assert removals[k].name == p; } else { assert snapshots[k - |removals|].name == p; }
      }
      if Named(removals, p) {
        var k :| 0 <= k < |removals| && removals[k].name == p;
        assert all[k].name == p;
      }
      if InSnapshots(snapshots, p) {
        var k :| 0 <= k < |snapshots| && snapshots[k].name == p;
        assert all[|removals| + k].name == p;
      }
    }
  }

  // ---- What a built tree is, path by path ----

  /** `.hive`, a denied root, and what lies below one of them. */
  predicate Shielded(x: Input, p: Path) {
    || p == ".hive" || (|p| > 5 && p[..5] == ".hive" && p[5] == '/')
    || exists i :: 0 <= i < |x.denied| && (p == x.denied[i] || (|p| > |x.denied[i]| && p[..|x.denied[i]|] == x.denied[i] && p[|x.denied[i]|] == '/'))
  }

  /** The same, from the names: every path of these forms is shielded, and a shielded path has one of them. */
  lemma ShieldedForms(x: Input, p: Path, q: Path)
    ensures Shielded(x, ".hive") && Shielded(x, ".hive/" + q)
    ensures forall d :: d in x.denied ==> Shielded(x, d) && Shielded(x, d + "/" + q)
    ensures Shielded(x, p) ==>
              || p == ".hive" || p == ".hive/" + p[if |p| >= 6 then 6 else 0..]
              || exists d :: d in x.denied && (p == d || (|p| > |d| && p == d + "/" + p[|d| + 1..]))
  {
    assert (".hive/" + q)[..5] == ".hive";
    forall d | d in x.denied ensures Shielded(x, d) && Shielded(x, d + "/" + q) {
      var i :| 0 <= i < |x.denied| && x.denied[i] == d;
      assert (d + "/" + q)[..|d|] == d;
    }
    if Shielded(x, p) && p != ".hive" && !(|p| > 5 && p[..5] == ".hive" && p[5] == '/') {
      var i :| 0 <= i < |x.denied| && (p == x.denied[i] || (|p| > |x.denied[i]| && p[..|x.denied[i]|] == x.denied[i] && p[|x.denied[i]|] == '/'));
      var d := x.denied[i];
      assert d in x.denied;
      if p != d { assert p == d + "/" + p[|d| + 1..]; }
    } else if |p| > 5 && p[..5] == ".hive" && p[5] == '/' {
      assert p == ".hive/" + p[6..];
    }
  }

  lemma UnderIs(root: Path, p: Path)
    ensures Under(root, p) <==> p == root || (|p| > |root| && p[..|root|] == root && p[|root|] == '/')
  {
    var front := root + "/";
    assert forall i :: 0 <= i < |root| ==> front[i] == root[i];
    if StartsWith(p, front) {
      assert forall i :: 0 <= i < |root| ==> p[i] == front[i];
      assert p[|root|] == front[|root|];
    }
    if |p| > |root| && p[..|root|] == root && p[|root|] == '/' {
      assert forall i :: 0 <= i < |root| ==> p[i] == p[..|root|][i];
    }
  }

  lemma PreservedIsShielded(x: Input, p: Path)
    ensures Preserved(x, p) <==> Shielded(x, p)
  {
    hide Under;
    UnderIs(".hive", p);
    forall i | 0 <= i < |x.denied| ensures Under(x.denied[i], p) <==>
      p == x.denied[i] || (|p| > |x.denied[i]| && p[..|x.denied[i]|] == x.denied[i] && p[|x.denied[i]|] == '/')
    {
      UnderIs(x.denied[i], p);
    }
  }

  /** The entry or the absence of this path is that of the baseline. */
  predicate AsBefore(x: Input, t: Tree, p: Path) {
    (p in t <==> p in x.base) && (p in t ==> t[p] == x.base[p])
  }

  /** The path is in the tree exactly if its file is there, with the content of the file. The mode is that of the file,
      and on Windows that of the baseline. */
  predicate AsOnDisk(x: Input, t: Tree, p: Path) {
    && (p in t <==> x.found(p).File?)
    && (p in t ==>
          && t[p].blob == x.hash(x.found(p).content)
          && t[p].mode == if x.windows && p in x.base then x.base[p].mode
                          else if !x.windows && x.found(p).executable then Executable else Plain)
  }

  /** Shielded paths are as before, every other path that Git knows is as on disk, and there are no others. */
  ghost predicate OverlaysDisk(x: Input, t: Tree) {
    forall p: Path :: if Shielded(x, p) then AsBefore(x, t, p)
                      else if p in x.base || p in x.untracked then AsOnDisk(x, t, p) else p !in t
  }

  /** Every shielded path is left unread; of the others none is refused, and Git hashes them if there are any. */
  ghost predicate Readable(x: Input) {
    && (forall p :: p in x.base ==> x.base[p].mode == Plain || x.base[p].mode == Executable)
    && (forall p :: (p in x.base || p in x.untracked) && !Shielded(x, p) ==>
          x.found(p).Missing? || (x.found(p).File? && x.hashed))
  }

  lemma OverlayMeans(x: Input)
    ensures OverlaysDisk(x, Overlay(x)) && (Buildable(x) <==> Readable(x))
  {
    hide Preserved, Shielded;
    forall p ensures Preserved(x, p) <==> Shielded(x, p) {
      PreservedIsShielded(x, p);
    }
    forall p ensures Considered(x, p) <==> !Shielded(x, p) && (p in x.base || p in x.untracked) {}
  }

  /** The tree of the controlled commit is exactly the overlay, and is built exactly when it can be. */
  method BuildTree(x: Input) returns (tree: Option<Tree>)
    requires Listed(x)
    ensures tree.Some? <==> Buildable(x)
    ensures tree.Some? ==> tree.value == Overlay(x)
    ensures tree.Some? <==> Readable(x)
    ensures tree.Some? ==> OverlaysDisk(x, tree.value)
  {
    OverlayMeans(x);
    var entries := CollectEntries(x);
    if entries.None? { return None; }
    var updates := CollectUpdates(x, entries.value);
    if updates.None? { return None; }
    OverlayReached(x, updates.value);
    return Some(Apply(x.base, updates.value));
  }

  // ---- What the overlay means ----

  /** Nothing under `.hive` or a denied root is read into the commit: two working directories that differ
      only there give the same tree, and fail alike. */
  lemma PreservedPathsDoNotLeak(x: Input, y: Input)
    requires y == x.(found := y.found)
    requires forall p :: !Shielded(x, p) ==> x.found(p) == y.found(p)
    ensures Overlay(x) == Overlay(y) && (Buildable(x) <==> Buildable(y))
    ensures forall p :: Shielded(x, p) ==> AsBefore(x, Overlay(x), p)
  {
    hide Shielded, AsOnDisk, AsBefore, Buildable, Overlay;
    forall p ensures Shielded(x, p) == Shielded(y, p) {
      SameShield(x, y, p);
    }
    OverlayMeans(x);
    OverlayMeans(y);
    var t, u := Overlay(x), Overlay(y);
    forall p ensures (p in t <==> p in u) && (p in t ==> t[p] == u[p]) {
      SamePath(x, y, t, u, p);
    }
  }

  lemma SameShield(x: Input, y: Input, p: Path)
    requires y.denied == x.denied
    ensures Shielded(x, p) == Shielded(y, p)
  {}

  lemma SamePath(x: Input, y: Input, t: Tree, u: Tree, p: Path)
    requires y == x.(found := y.found) && OverlaysDisk(x, t) && OverlaysDisk(y, u)
    requires Shielded(x, p) == Shielded(y, p) && (!Shielded(x, p) ==> x.found(p) == y.found(p))
    ensures (p in t <==> p in u) && (p in t ==> t[p] == u[p])
  {
    hide Shielded;
  }

  /** A second commit over unchanged files has nothing to commit: the overlay of the new tree is the new
      tree itself, so the call ends in a conflict instead of an empty commit. */
  lemma OverlayIsStable(x: Input)
    ensures Overlay(x.(base := Overlay(x), untracked := [])) == Overlay(x)
  {
    var once := Overlay(x);
    var y := x.(base := once, untracked := []);
    forall p ensures Preserved(x, p) == Preserved(y, p) {
      assert Denied(x, p) == Denied(y, p);
    }
    forall p | p in once ensures p in Overlay(y) && Overlay(y)[p] == once[p] {}
    assert Overlay(y).Keys == once.Keys;
  }
}
