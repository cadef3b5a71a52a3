/** The hierarchical key JSON store: a dot-separated key names a JSON
    document under `<root_folder>/mstorage`, every segment but the last being
    a directory and the last `<segment>.json`. */
module ModelStorage {
  import opened Values
  import opened Builtins

  /** A file system path as its list of components. */
  type Path = seq<string>

  /** Every leading part of `p` that names a directory: what `os.makedirs(p)` leaves existing. */
  function Ancestors(p: Path): set<Path> {
    set k | 1 <= k <= |p| :: p[..k]
  }

  /** A directory tree: each directory's parents exist too. */
  ghost predicate PrefixClosed(dirs: set<Path>) {
    forall d, k :: d in dirs && 1 <= k <= |d| ==> d[..k] in dirs
  }

  /** The document at `p`; a missing file reads as the empty document. */
  function DocAt(files: map<Path, Doc>, p: Path): Doc {
    if p in files then files[p] else map[]
  }

  /** The segments `os.path.join` keeps: an empty segment adds nothing to a path. */
  function NonEmpty(segs: seq<string>): seq<string> {
    if segs == [] then []
    else if segs[0] == "" then NonEmpty(segs[1..])
    else [segs[0]] + NonEmpty(segs[1..])
  }

  lemma {:induction false} NonEmptyId(segs: seq<string>)
    requires forall i :: 0 <= i < |segs| ==> segs[i] != ""
    ensures NonEmpty(segs) == segs
  {
    if segs != [] {
      NonEmptyId(segs[1..]);
      assert [segs[0]] + segs[1..] == segs;
    }
  }

  /** Whether a path string starts at the file-system root. */
  predicate IsAbsolute(s: string) {
    |s| > 0 && s[0] == '/'
  }

  /** The components a path string names: its '/'-separated pieces, empty ones dropped. */
  function Components(s: string): seq<string> {
    NonEmpty(Split(s, '/'))
  }

  /** The component an absolute path starts from: "/etc/x" is ["/", "etc", "x"]. */
  const FsRoot: string := "/"

  /** A path string built by `os.path.join`: relative (to be joined under the
      store's root) or absolute, with its components. */
  datatype Location = Location(absolute: bool, parts: seq<string>)

  /** `os.path.join(prev, s)`: a path string starting with '/' replaces what
      came before; any other is appended component by component. */
  function JoinLoc(prev: Location, s: string): Location {
    if IsAbsolute(s) then Location(true, Components(s))
    else Location(prev.absolute, prev.parts + Components(s))
  }

  /** `os.path.join(root, loc)`: an absolute location ignores the root. */
  function Resolve(root: Path, loc: Location): Path {
    if loc.absolute then [FsRoot] + loc.parts else root + loc.parts
  }

  /** `prev_path` in `key_to_path` once the segments `segs` have been joined. */
  function PrevPath(segs: seq<string>): Location
    decreases |segs|
  {
    if segs == [] then Location(false, [])
    else JoinLoc(PrevPath(segs[..|segs| - 1]), segs[|segs| - 1])
  }

  /** The dot-separated segments of a key that name directories: all but the last. */
  function DirSegments(key: string): seq<string> {
    var parts := Split(key, '.');
    parts[..|parts| - 1]
  }

  /** The last dot-separated segment of a key: its document is `<segment>.json`. */
  function LastSegment(key: string): string {
    var parts := Split(key, '.');
    parts[|parts| - 1]
  }

  /** The file that `key_to_path` resolves `key` to. */
  function KeyPath(root: Path, key: string): Path {
    Resolve(root, JoinLoc(PrevPath(DirSegments(key)), LastSegment(key) + ".json"))
  }

  /** The directories that `key_to_path` leaves existing once it has handled the
      first `i` directory segments: each folder path it visited and its parents. */
  function DirsUpTo(root: Path, segs: seq<string>, i: nat): set<Path>
    requires i <= |segs|
  {
    if i == 0 then {}
    else DirsUpTo(root, segs, i - 1) + Ancestors(Resolve(root, PrevPath(segs[..i])))
  }

  /** The directories that resolving `key` leaves existing. */
  function KeyDirs(root: Path, key: string): set<Path> {
    DirsUpTo(root, DirSegments(key), |DirSegments(key)|)
  }

  /** The directory a file lives in. */
  function Parent(p: Path): Path {
    if p == [] then [] else p[..|p| - 1]
  }

  /** The document after `save`: every entry of the update written over the old document. */
  function Merge(stored: Doc, update: Doc): Doc {
    stored + update
  }

  /** A dict every key of which is a string, as pickledb's `set` demands. */
  predicate StrKeys(d: Doc) {
    forall k :: k in d ==> k.StrKey?
  }

  /** A key whose dot-separated segments are all non-empty and free of '/'. */
  predicate PlainKey(key: string) {
    forall i :: 0 <= i < |Split(key, '.')| ==> Split(key, '.')[i] != "" && '/' !in Split(key, '.')[i]
  }

  /** A '/'-free string is a single path component, or none when empty. */
  lemma ComponentsPlain(s: string)
    requires '/' !in s
    ensures !IsAbsolute(s)
    ensures Components(s) == if s == "" then [] else [s]
  {
    SplitNoSep(s, '/');
    if s != "" {
      NonEmptyId([s]);
    }
  }

  /** The name `<segment>.json` of a '/'-free segment is one relative component. */
  lemma JsonName(last: string)
    requires '/' !in last
    ensures '/' !in last + ".json" && last + ".json" != ""
    ensures !IsAbsolute(last + ".json") && Components(last + ".json") == [last + ".json"]
  {
    assert forall c :: c in last + ".json" ==> c in last || c in ".json";
    ComponentsPlain(last + ".json");
  }

  /** Joining '/'-free segments keeps the path relative and drops only the empty ones. */
  lemma {:induction false} PrevPathRelative(segs: seq<string>)
    requires forall i :: 0 <= i < |segs| ==> '/' !in segs[i]
    ensures PrevPath(segs) == Location(false, NonEmpty(segs))
    decreases |segs|
  {
    if segs != [] {
      var n := |segs| - 1;
      PrevPathRelative(segs[..n]);
      ComponentsPlain(segs[n]);
      NonEmptyStep(segs, n);
      assert segs[..n + 1] == segs;
    }
  }

  /** When the last segment has no '/', the document sits directly in the
      folder the directory segments lead to. */
  lemma KeyPathInFolder(root: Path, key: string)
    requires '/' !in LastSegment(key)
    ensures KeyPath(root, key) == Resolve(root, PrevPath(DirSegments(key))) + [LastSegment(key) + ".json"]
  {
    var loc, name := PrevPath(DirSegments(key)), LastSegment(key) + ".json";
    JsonName(LastSegment(key));
    assert JoinLoc(loc, name) == Location(loc.absolute, loc.parts + [name]);
    ResolveAppend(root, loc, name);
  }

  lemma ResolveAppend(root: Path, loc: Location, name: string)
    ensures Resolve(root, Location(loc.absolute, loc.parts + [name])) == Resolve(root, loc) + [name]
  {
    if loc.absolute {
      assert [FsRoot] + (loc.parts + [name]) == [FsRoot] + loc.parts + [name];
    } else {
      assert root + (loc.parts + [name]) == root + loc.parts + [name];
    }
  }

  /** A key without '/' resolves under the root, each non-empty directory
      segment one component. */
  lemma KeyPathRelative(root: Path, key: string)
    requires forall i :: 0 <= i < |DirSegments(key)| ==> '/' !in DirSegments(key)[i]
    requires '/' !in LastSegment(key)
    ensures KeyPath(root, key) == root + NonEmpty(DirSegments(key)) + [LastSegment(key) + ".json"]
  {
    var d, l := DirSegments(key), LastSegment(key);
    PrevPathRelative(d);
    JsonName(l);
  }

  /** The segments of a dot-joined key are the joined pieces. */
  lemma SegmentsOfJoin(segs: seq<string>)
    requires |segs| >= 1
    requires forall i :: 0 <= i < |segs| ==> '.' !in segs[i]
    ensures DirSegments(Join(segs, '.')) == segs[..|segs| - 1]
    ensures LastSegment(Join(segs, '.')) == segs[|segs| - 1]
  {
    SplitJoin(segs, '.');
    SegmentsOfSplit(Join(segs, '.'), segs);
  }

  lemma SegmentsOfSplit(key: string, segs: seq<string>)
    requires Split(key, '.') == segs
    ensures DirSegments(key) == segs[..|segs| - 1]
    ensures LastSegment(key) == segs[|segs| - 1]
  {
  }

  /** For a key s1. ... .sN with non-empty segments free of '.' and '/', the
      document lives at root/s1/.../s(N-1)/sN.json. */
  lemma KeyPathOfSegments(root: Path, segs: seq<string>)
    requires |segs| >= 1
    requires forall i :: 0 <= i < |segs| ==> segs[i] != "" && '.' !in segs[i] && '/' !in segs[i]
    ensures KeyPath(root, Join(segs, '.')) == root + segs[..|segs| - 1] + [segs[|segs| - 1] + ".json"]
  {
    SegmentsOfJoin(segs);
    KeyPathRelative(root, Join(segs, '.'));
    NonEmptyId(segs[..|segs| - 1]);
  }

  /** A single-segment key without '/' names a file directly under the root. */
  lemma KeyPathSingle(root: Path, key: string)
    requires '.' !in key && '/' !in key
    ensures KeyPath(root, key) == root + [key + ".json"]
  {
    SplitNoSep(key, '.');
    JsonName(key);
  }

  lemma SuffixCancel(a: string, b: string, suffix: string)
    requires a + suffix == b + suffix
    ensures a == b
  {
    assert a == (a + suffix)[..|a|];
    assert b == (b + suffix)[..|b|];
  }

  /** For a plain key, every segment is one directory component. */
  lemma KeyPathPlain(root: Path, key: string)
    requires PlainKey(key)
    ensures var p := Split(key, '.');
      KeyPath(root, key) == root + p[..|p| - 1] + [p[|p| - 1] + ".json"]
  {
    var p := Split(key, '.');
    PrevPathRelative(p[..|p| - 1]);
    NonEmptyId(p[..|p| - 1]);
    JsonName(p[|p| - 1]);
  }

  lemma SameInitAndLast(p1: seq<string>, p2: seq<string>)
    requires |p1| == |p2| >= 1
    requires p1[..|p1| - 1] == p2[..|p2| - 1] && p1[|p1| - 1] == p2[|p2| - 1]
    ensures p1 == p2
  {
    assert p1 == p1[..|p1| - 1] + [p1[|p1| - 1]];
    assert p2 == p2[..|p2| - 1] + [p2[|p2| - 1]];
  }

  /** Distinct plain keys resolve to distinct files, so saving under one key
      never touches the document of another. */
  lemma KeyPathInjective(root: Path, k1: string, k2: string)
    requires PlainKey(k1) && PlainKey(k2)
    requires KeyPath(root, k1) == KeyPath(root, k2)
    ensures k1 == k2
  {
    var p1, p2 := Split(k1, '.'), Split(k2, '.');
    KeyPathPlain(root, k1);
    KeyPathPlain(root, k2);
    var path := KeyPath(root, k1);
    var d1, d2 := p1[..|p1| - 1], p2[..|p2| - 1];
    var f1, f2 := p1[|p1| - 1], p2[|p2| - 1];
    assert path == root + d1 + [f1 + ".json"] == root + d2 + [f2 + ".json"];
    assert |d1| == |d2|;
    assert d1 == path[|root|..|path| - 1] == d2;
    assert f1 + ".json" == path[|path| - 1] == f2 + ".json";
    SuffixCancel(f1, f2, ".json");
    SameInitAndLast(p1, p2);
    JoinSplit(k1, '.');
    JoinSplit(k2, '.');
  }

  lemma SplitDoubleDot()
    ensures Split("a..b", '.') == ["a", "", "b"]
  {
    SplitNoSep("b", '.');
    SplitPrefix("", "b", '.');
    SplitPrefix("a", ".b", '.');
    assert "" + ['.'] + "b" == ".b";
    assert "a" + ['.'] + ".b" == "a..b";
  }

  lemma SplitSingleDot()
    ensures Split("a.b", '.') == ["a", "b"]
  {
    SplitNoSep("b", '.');
    SplitPrefix("a", "b", '.');
    assert "a" + ['.'] + "b" == "a.b";
  }

  /** A name free of '.' and '/' that is not empty. */
  predicate Name(a: string) {
    a != "" && '.' !in a && '/' !in a
  }

  lemma SplitTwo(a: string, b: string, sep: char)
    requires sep !in a && sep !in b
    ensures Split(a + [sep] + b, sep) == [a, b]
  {
    SplitNoSep(b, sep);
    SplitPrefix(a, b, sep);
  }

  lemma DotDotSegments(a: string, b: string)
    requires Name(a) && Name(b)
    ensures DirSegments(a + ".." + b) == [a, ""] && LastSegment(a + ".." + b) == b
    ensures DirSegments(a + "." + b) == [a] && LastSegment(a + "." + b) == b
  {
    SplitTwo(a, b, '.');
    SplitTwo("", b, '.');
    SplitPrefix(a, "." + b, '.');
    assert a + ['.'] + ("." + b) == a + ".." + b;
    assert "" + ['.'] + b == "." + b;
    assert a + ['.'] + b == a + "." + b;
  }

  /** Empty segments are dropped by `os.path.join`: "a..b" and "a.b" share a file. */
  lemma EmptySegmentShares(root: Path, a: string, b: string)
    requires Name(a) && Name(b)
    ensures KeyPath(root, a + ".." + b) == KeyPath(root, a + "." + b) == root + [a, b + ".json"]
  {
    DotDotSegments(a, b);
    KeyPathRelative(root, a + ".." + b);
    KeyPathRelative(root, a + "." + b);
    NonEmptyId([a]);
    assert [a, ""][1..] == [""] && [""][1..] == [];
    assert NonEmpty([a, ""]) == [a];
  }

  lemma SlashSegments(a: string, b: string, c: string)
    requires Name(a) && Name(b) && Name(c)
    ensures DirSegments(a + "/" + b + "." + c) == [a + "/" + b] && LastSegment(a + "/" + b + "." + c) == c
    ensures Components(a + "/" + b) == [a, b]
  {
    var ab := a + "/" + b;
    SplitTwo(a, b, '/');
    assert a + ['/'] + b == ab;
    SplitTwo(ab, c, '.');
    assert ab + ['.'] + c == a + "/" + b + "." + c;
    NonEmptyId([a, b]);
  }

  lemma JoinThree(a: string, b: string, c: string)
    ensures Join([a, b, c], '.') == a + "." + b + "." + c
  {
    assert [a, b, c][1..] == [b, c] && [b, c][1..] == [c];
    assert Join([b, c], '.') == b + "." + c;
    assert a + ['.'] + (b + "." + c) == a + "." + b + "." + c;
  }

  lemma SlashKeyPath(root: Path, a: string, b: string, c: string)
    requires Name(a) && Name(b) && Name(c)
    ensures KeyPath(root, a + "/" + b + "." + c) == root + [a, b, c + ".json"]
  {
    var ab := a + "/" + b;
    SlashSegments(a, b, c);
    KeyPathInFolder(root, a + "/" + b + "." + c);
    assert [ab][..0] == [];
    assert PrevPath([ab]) == Location(false, [a, b]);
  }

  lemma DottedKeyPath(root: Path, a: string, b: string, c: string)
    requires Name(a) && Name(b) && Name(c)
    ensures KeyPath(root, a + "." + b + "." + c) == root + [a, b, c + ".json"]
  {
    var segs := [a, b, c];
    assert forall i :: 0 <= i < |segs| ==> Name(segs[i]);
    JoinThree(a, b, c);
    KeyPathOfSegments(root, segs);
    assert segs[..2] == [a, b];
  }

  /** A '/' inside a segment is a directory separator to `os.path.join`:
      the distinct keys "a/b.c" and "a.b.c" share one file. */
  lemma SlashSegmentShares(root: Path, a: string, b: string, c: string)
    requires Name(a) && Name(b) && Name(c)
    ensures KeyPath(root, a + "/" + b + "." + c) == KeyPath(root, a + "." + b + "." + c) == root + [a, b, c + ".json"]
    ensures a + "/" + b + "." + c != a + "." + b + "." + c
  {
    SlashKeyPath(root, a, b, c);
    DottedKeyPath(root, a, b, c);
    assert (a + "/" + b + "." + c)[|a|] == '/';
    assert (a + "." + b + "." + c)[|a|] == '.';
  }

  lemma LeadingSlashSegments(a: string, x: string)
    requires Name(a) && Name(x)
    ensures DirSegments("/" + a + "." + x) == ["/" + a] && LastSegment("/" + a + "." + x) == x
    ensures IsAbsolute("/" + a) && Components("/" + a) == [a]
  {
    var sa := "/" + a;
    SplitTwo("", a, '/');
    assert "" + ['/'] + a == sa;
    assert '.' !in sa;
    SplitTwo(sa, x, '.');
    assert sa + ['.'] + x == "/" + a + "." + x;
    NonEmptyId([a]);
    assert ["", a][1..] == [a];
  }

  /** A segment starting with '/' restarts the path at the file-system root:
      the key "/a.x" names the file /a/x.json, outside the store. */
  lemma AbsoluteSegmentLeavesRoot(root: Path, a: string, x: string)
    requires Name(a) && Name(x)
    ensures KeyPath(root, "/" + a + "." + x) == [FsRoot, a, x + ".json"]
  {
    LeadingSlashSegments(a, x);
    KeyPathInFolder(root, "/" + a + "." + x);
    assert ["/" + a][..0] == [];
    assert PrevPath(["/" + a]) == Location(true, [a]);
  }

  /** Saving under one plain key leaves the document of every other plain key as it was. */
  lemma SaveLeavesOtherKeys(root: Path, files: map<Path, Doc>, key: string, other: string, value: Doc)
    requires PlainKey(key) && PlainKey(other) && key != other
    ensures DocAt(files[KeyPath(root, key) := Merge(DocAt(files, KeyPath(root, key)), value)], KeyPath(root, other))
         == DocAt(files, KeyPath(root, other))
  {
    if KeyPath(root, key) == KeyPath(root, other) {
      KeyPathInjective(root, key, other);
    }
  }

  /** The file system the store works on: the set of existing directories and
      the JSON documents held in files. */
  class FileSystem {
    var dirs: set<Path>
    var files: map<Path, Doc>

    /** The directories are closed under parents, and the file-system root
        always exists. */
    ghost predicate Valid()
      reads this
    {
      PrefixClosed(dirs) && [FsRoot] in dirs
    }

    constructor (dirs0: set<Path>, files0: map<Path, Doc>)
      requires PrefixClosed(dirs0) && [FsRoot] in dirs0
      ensures Valid() && dirs == dirs0 && files == files0
    {
      dirs, files := dirs0, files0;
    }

    /** `os.makedirs(p)`: creates `p` and every missing parent. */
    method MakeDirs(p: Path)
      requires Valid()
      modifies this
      ensures Valid()
      ensures dirs == old(dirs) + Ancestors(p) && files == old(files)
    {
      dirs := dirs + Ancestors(p);
      forall d, k | d in dirs && 1 <= k <= |d| ensures d[..k] in dirs {
        if d in Ancestors(p) {
          var j :| 1 <= j <= |p| && d == p[..j];
          assert d[..k] == p[..k];
        }
      }
    }

    /** `if not os.path.isdir(p): os.makedirs(p)`: afterwards `p` and all its
        parents exist, whether or not `p` did before. */
    method EnsureDir(p: Path)
      requires Valid()
      modifies this
      ensures Valid()
      ensures dirs == old(dirs) + Ancestors(p) && files == old(files)
    {
      if p !in dirs {
        MakeDirs(p);
      } else {
        AncestorsWithin(p, dirs);
      }
    }

    /** Writing a whole document to a file; its directory has to exist. */
    method WriteDoc(p: Path, doc: Doc)
      requires p != [] && Parent(p) in dirs
      modifies this
      ensures files == old(files)[p := doc] && dirs == old(dirs)
    {
      files := files[p := doc];
    }
  }

  /** `db[k] = v` for every entry of `update`, on a dict `db`. */
  method Upsert(db: Doc, update: Doc) returns (merged: Doc)
    ensures merged.Keys == db.Keys + update.Keys
    ensures forall k :: k in update ==> merged[k] == update[k]
    ensures forall k :: k in db && k !in update ==> merged[k] == db[k]
  {
    merged := db;
    var todo := update.Keys;
    while todo != {}
      invariant todo <= update.Keys
      invariant merged.Keys == db.Keys + (update.Keys - todo)
      invariant forall k :: k in update && k !in todo ==> merged[k] == update[k]
      invariant forall k :: k in db && k !in update ==> merged[k] == db[k]
      decreases todo
    {
      var k :| k in todo;
      merged := merged[k := update[k]];
      todo := todo - {k};
    }
  }

  /** ModelStorageChopt: a store rooted at `<root_folder>/mstorage`. */
  class ModelStorageChopt {
    const root: Path
    const fs: FileSystem

    ghost predicate Valid()
      reads this, fs
    {
      fs.Valid() && |root| >= 1 && root in fs.dirs
    }

    /** Creates the root directory (and its parents) when it does not exist yet. */
    constructor (rootFolder: Path, fs: FileSystem)
      requires fs.Valid()
      modifies fs
      ensures this.fs == fs && root == rootFolder + ["mstorage"] && Valid()
      ensures fs.dirs == old(fs.dirs) + Ancestors(root) && fs.files == old(fs.files)
    {
      var rootPath := rootFolder + ["mstorage"];
      fs.EnsureDir(rootPath);
      assert rootPath[..|rootPath|] == rootPath;
      this.root := rootPath;
      this.fs := fs;
    }

    /** Resolves a key to its file, creating the directory of each leading
        segment (and its parents) when it does not exist yet. */
    method KeyToPath(key: string) returns (path: Path)
      requires Valid()
      modifies fs
      ensures Valid()
      ensures path == KeyPath(root, key) && path != []
      ensures fs.dirs == old(fs.dirs) + KeyDirs(root, key) && fs.files == old(fs.files)
      ensures '/' !in LastSegment(key) ==> Parent(path) in fs.dirs
    {
      var folders := Split(key, '.');
      var dirs := folders[..|folders| - 1];
      var prev := Location(false, []);
      for i := 0 to |dirs|
        invariant prev == PrevPath(dirs[..i])
        invariant Valid()
        invariant fs.dirs == old(fs.dirs) + DirsUpTo(root, dirs, i)
        invariant fs.files == old(fs.files)
      {
        DirsUpToNext(root, dirs, i, prev);
        prev := JoinLoc(prev, dirs[i]);
        fs.EnsureDir(Resolve(root, prev));
      }
      assert prev == PrevPath(DirSegments(key)) && fs.dirs == old(fs.dirs) + KeyDirs(root, key) by {
        assert dirs[..|dirs|] == dirs;
      }
      path := Resolve(root, JoinLoc(prev, folders[|folders| - 1] + ".json"));
      if '/' !in LastSegment(key) {
        FolderCreated(root, key);
      }
    }

    /** save(key, value): a merge-upsert of the dict `value` into the key's
        document; writing fails when the file's directory does not exist. */
    method Save(key: string, value: Value) returns (r: Outcome)
      requires Valid()
      modifies fs
      ensures Valid()
      ensures !value.Dict? ==> r == Fail(ValueError) && fs.dirs == old(fs.dirs) && fs.files == old(fs.files)
      ensures value.Dict? ==> fs.dirs == old(fs.dirs) + KeyDirs(root, key)
      ensures value.Dict? ==> (r == Pass <==> StrKeys(value.entries) && Parent(KeyPath(root, key)) in fs.dirs)
      ensures value.Dict? && StrKeys(value.entries) && '/' !in LastSegment(key) ==> r == Pass
      ensures r == Pass ==>
        fs.files == old(fs.files)[KeyPath(root, key) := Merge(DocAt(old(fs.files), KeyPath(root, key)), value.entries)]
      ensures value.Dict? && !StrKeys(value.entries) ==> r == Fail(TypeError) && fs.files == old(fs.files)
      ensures value.Dict? && StrKeys(value.entries) && r != Pass ==>
                r == Fail(FileNotFoundError) && fs.files == old(fs.files)
    {
      if !value.Dict? {
        return Fail(ValueError);
      }
      var path := KeyToPath(key);
      if !StrKeys(value.entries) {
        // `db[k] = v` raises on a key that is not a string, before the dump
        return Fail(TypeError);
      }
      var db := DocAt(fs.files, path);
      db := Upsert(db, value.entries);
      assert db == Merge(DocAt(old(fs.files), path), value.entries);
      if Parent(path) !in fs.dirs {
        return Fail(FileNotFoundError);
      }
      fs.WriteDoc(path, db);
      r := Pass;
    }

    /** load(key): a copy of the key's document, empty when there is none. */
    method Load(key: string) returns (doc: Doc)
      requires Valid()
      modifies fs
      ensures Valid()
      ensures doc == DocAt(old(fs.files), KeyPath(root, key))
      ensures fs.dirs == old(fs.dirs) + KeyDirs(root, key) && fs.files == old(fs.files)
    {
      var path := KeyToPath(key);
      doc := DocAt(fs.files, path);
    }

    /** updates_since(key, datetime): a stub that always reports a change. */
    method UpdatesSince(key: string, datetime: int) returns (updated: bool)
      ensures updated
    {
      updated := true;
    }
  }

  /** Saving a dict with string keys under a key and loading that key gives
      back the old document with the dict written over it; a dict with any
      other key is refused and the old document is read back. Another plain
      key still reads as before the save. */
  method SaveThenLoad(store: ModelStorageChopt, key: string, other: string, value: Doc)
    returns (loaded: Doc, otherDoc: Doc)
    requires store.Valid() && PlainKey(key) && PlainKey(other) && key != other
    modifies store.fs
    ensures StrKeys(value) ==> loaded == Merge(DocAt(old(store.fs.files), KeyPath(store.root, key)), value)
    ensures !StrKeys(value) ==> loaded == DocAt(old(store.fs.files), KeyPath(store.root, key))
    ensures otherDoc == DocAt(old(store.fs.files), KeyPath(store.root, other))
    ensures StrKeys(value) ==> forall k :: k in value ==> loaded[k] == value[k]
  {
    PlainLastSegment(key);
    var saved := store.Save(key, Dict(value));
    loaded := store.Load(key);
    otherDoc := store.Load(other);
    SaveLeavesOtherKeys(store.root, old(store.fs.files), key, other, value);
  }

  lemma {:induction false} NonEmptyStep(segs: seq<string>, i: nat)
    requires i < |segs|
    ensures NonEmpty(segs[..i + 1]) == NonEmpty(segs[..i]) + (if segs[i] == "" then [] else [segs[i]])
    decreases i
  {
    if i == 0 {
      assert segs[..1] == [segs[0]];
      assert segs[..1][1..] == [];
    } else {
      var tail := segs[1..];
      NonEmptyStep(tail, i - 1);
      assert segs[..i + 1][1..] == tail[..i];
      assert segs[..i][1..] == tail[..i - 1];
    }
  }

  /** The folder a key's document sits in is the root or one of the
      directories resolving the key creates. */
  lemma FolderCreated(root: Path, key: string)
    requires '/' !in LastSegment(key)
    ensures Parent(KeyPath(root, key)) == root || Parent(KeyPath(root, key)) in KeyDirs(root, key)
  {
    KeyPathInFolder(root, key);
    var d := DirSegments(key);
    var folder := Resolve(root, PrevPath(d));
    assert Parent(KeyPath(root, key)) == folder;
    if d != [] && folder != root {
      assert d[..|d|] == d;
      assert |folder| >= 1 && folder[..|folder|] == folder;
      assert folder in Ancestors(folder);
    }
  }

  /** `prev_path` after one more segment of the loop. */
  lemma PrevPathStep(segs: seq<string>, i: nat)
    requires i < |segs|
    ensures PrevPath(segs[..i + 1]) == JoinLoc(PrevPath(segs[..i]), segs[i])
  {
    assert segs[..i + 1][..i] == segs[..i];
  }

  /** One more segment in `key_to_path`'s loop: the new `prev_path`, and the
      directories of the folder it leads to added. */
  lemma DirsUpToNext(root: Path, segs: seq<string>, i: nat, prev: Location)
    requires i < |segs| && prev == PrevPath(segs[..i])
    ensures JoinLoc(prev, segs[i]) == PrevPath(segs[..i + 1])
    ensures DirsUpTo(root, segs, i + 1) == DirsUpTo(root, segs, i) + Ancestors(Resolve(root, JoinLoc(prev, segs[i])))
  {
    PrevPathStep(segs, i);
  }

  /** A directory of a tree has all its parents in the tree too. */
  lemma AncestorsWithin(p: Path, dirs: set<Path>)
    requires PrefixClosed(dirs) && p in dirs
    ensures Ancestors(p) <= dirs
  {
  }

  /** The leading parts of a prefix of `q` are leading parts of `q`. */
  lemma AncestorsOfPrefix(p: Path, q: Path)
    requires |p| <= |q| && p == q[..|p|]
    ensures Ancestors(p) <= Ancestors(q)
  {
    forall k | 1 <= k <= |p| ensures p[..k] in Ancestors(q) {
      assert p[..k] == q[..k];
    }
  }

  /** With non-empty, '/'-free segments, the folder visited after `i`
      segments is `root + segs[..i]`. */
  lemma PlainFolder(root: Path, segs: seq<string>, i: nat)
    requires i <= |segs|
    requires forall j :: 0 <= j < |segs| ==> segs[j] != "" && '/' !in segs[j]
    ensures Resolve(root, PrevPath(segs[..i])) == root + segs[..i]
  {
    var prefix := segs[..i];
    PrevPathRelative(prefix);
    NonEmptyId(prefix);
  }

  /** Each folder visited lies inside the next one's parents. */
  lemma PlainFoldersNest(root: Path, segs: seq<string>, i: nat)
    requires 1 <= i < |segs|
    ensures Ancestors(root + segs[..i]) <= Ancestors(root + segs[..i + 1])
  {
    var shorter, longer := root + segs[..i], root + segs[..i + 1];
    assert shorter == longer[..|shorter|];
    AncestorsOfPrefix(shorter, longer);
  }

  /** With non-empty, '/'-free segments, the folders visited nest, so the
      directories created for the first `i` segments are the leading parts
      of the deepest one, `root + segs[..i]`. */
  lemma {:induction false} DirsUpToPlain(root: Path, segs: seq<string>, i: nat)
    requires i <= |segs|
    requires forall j :: 0 <= j < |segs| ==> segs[j] != "" && '/' !in segs[j]
    ensures DirsUpTo(root, segs, i) == if i == 0 then {} else Ancestors(root + segs[..i])
    decreases i
  {
    if i > 0 {
      var deepest := root + segs[..i];
      assert DirsUpTo(root, segs, i - 1) <= Ancestors(deepest) by {
        DirsUpToPlain(root, segs, i - 1);
        if i > 1 {
          PlainFoldersNest(root, segs, i - 1);
        }
      }
      assert Resolve(root, PrevPath(segs[..i])) == deepest by {
        PlainFolder(root, segs, i);
      }
    }
  }

  /** The directories `key_to_path` leaves existing for a plain key
      `s1. … .sN`: none when N is 1, otherwise every leading part of
      `root/s1/…/s(N-1)` (the root's own ancestors included). */
  lemma KeyDirsPlain(root: Path, key: string)
    requires PlainKey(key)
    ensures KeyDirs(root, key) == if DirSegments(key) == [] then {} else Ancestors(root + DirSegments(key))
  {
    var d := DirSegments(key);
    var p := Split(key, '.');
    assert forall j :: 0 <= j < |d| ==> d[j] == p[j];
    DirsUpToPlain(root, d, |d|);
    assert d[..|d|] == d;
  }

  lemma PlainLastSegment(key: string)
    requires PlainKey(key)
    ensures '/' !in LastSegment(key)
  {
    var p := Split(key, '.');
    assert '/' !in p[|p| - 1];
  }
}
