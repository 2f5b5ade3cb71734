/** How a backup finds the snapshot directories under the data directory,
    groups them by tag, and turns the tag's directories into the manifest's
    table entries (`findKeyspaceColumnFamilySnapshots`,
    `KeyspaceColumnFamilySnapshot` and `generateManifest`). */
module Snapshots {
  import opened Errors
  import opened Strings
  import opened Paths
  import opened Manifest

  /** One file or directory of the local tree: its absolute path as the
      names below the root, and its size in bytes. */
  datatype FsNode = FsNode(names: seq<string>, isDirectory: bool, size: nat)

  /** A snapshot directory `.../<keyspace>/<table>/snapshots/<tag>` and the
      keyspace and table read off its path. */
  datatype KeyspaceColumnFamilySnapshot = KeyspaceColumnFamilySnapshot(keyspace: string, table: string, snapshotDirectory: seq<string>)

  predicate IsPrefix(p: seq<string>, s: seq<string>)
  {
    |p| <= |s| && s[..|p|] == p
  }

  /** The matcher handed to `Files.find`: `path.getParent().endsWith("snapshots")`. */
  predicate ParentIsSnapshots(names: seq<string>)
  {
    |names| >= 2 && names[|names| - 2] == "snapshots"
  }

  /** `Files.find(dataDir, 4, matcher)` keeps a node when it is `dataDir`
      or below it, at most four levels down, and the matcher accepts it. */
  predicate Matched(n: FsNode, dataDir: seq<string>)
  {
    IsPrefix(dataDir, n.names) && |n.names| <= |dataDir| + 4 && ParentIsSnapshots(n.names)
  }

  /** The matched nodes in walk order (FoundExactly and FoundAppend say
      which nodes and in what order). */
  function Found(fs: seq<FsNode>, dataDir: seq<string>): (r: seq<FsNode>)
    ensures forall i :: 0 <= i < |r| ==> Matched(r[i], dataDir)
  {
    if fs == [] then []
    else if Matched(fs[0], dataDir) then [fs[0]] + Found(fs[1..], dataDir)
    else Found(fs[1..], dataDir)
  }

  predicate Exists(fs: seq<FsNode>, names: seq<string>)
  {
    exists i :: 0 <= i < |fs| && fs[i].names == names
  }

  /** The `KeyspaceColumnFamilySnapshot` constructor: the table is the name
      of the directory's grandparent and the keyspace that of its
      great-grandparent; a path with fewer than four names makes
      `getParent()` or `getFileName()` return null. */
  function SnapshotOf(dir: seq<string>): (r: Result<KeyspaceColumnFamilySnapshot>)
    ensures r.Ok? <==> |dir| >= 4
  {
    if |dir| < 4 then Err(NullReference)
    else Ok(KeyspaceColumnFamilySnapshot(dir[|dir| - 4], dir[|dir| - 3], dir))
  }

  predicate ValidSnapshot(k: KeyspaceColumnFamilySnapshot)
  {
    |k.snapshotDirectory| >= 4
  }

  predicate AllValid(ks: seq<KeyspaceColumnFamilySnapshot>)
  {
    forall i :: 0 <= i < |ks| ==> ValidSnapshot(ks[i])
  }

  /** `.map(KeyspaceColumnFamilySnapshot::new)` over the found nodes; the
      first null ends the stream. */
  function SnapshotsOf(found: seq<FsNode>): (r: Result<seq<KeyspaceColumnFamilySnapshot>>)
    ensures r.Ok? <==> forall i :: 0 <= i < |found| ==> |found[i].names| >= 4
    ensures r.Ok? ==> |r.value| == |found| && AllValid(r.value)
    ensures r.Ok? ==> forall i :: 0 <= i < |found| ==> Ok(r.value[i]) == SnapshotOf(found[i].names)
  {
    if found == [] then Ok([])
    else match (SnapshotOf(found[0].names), SnapshotsOf(found[1..]))
      case (Err(e), _) => Err(e)
      case (Ok(_), Err(e)) => Err(e)
      case (Ok(k), Ok(rest)) => Ok([k] + rest)
  }

  /** The grouping key: the snapshot directory's own name. */
  function TagOf(k: KeyspaceColumnFamilySnapshot): string
    requires ValidSnapshot(k)
  {
    k.snapshotDirectory[|k.snapshotDirectory| - 1]
  }

  /** The snapshots that carry `tag`, in the order they were found. */
  function WithTag(ks: seq<KeyspaceColumnFamilySnapshot>, tag: string): (r: seq<KeyspaceColumnFamilySnapshot>)
    requires AllValid(ks)
    ensures AllValid(r)
  {
    if ks == [] then []
    else if TagOf(ks[0]) == tag then [ks[0]] + WithTag(ks[1..], tag)
    else WithTag(ks[1..], tag)
  }

  function Tags(ks: seq<KeyspaceColumnFamilySnapshot>): set<string>
    requires AllValid(ks)
  {
    set i | 0 <= i < |ks| :: TagOf(ks[i])
  }

  /** `collect(groupingBy(tag))`: one list per tag that occurs, each in
      encounter order. */
  function GroupByTag(ks: seq<KeyspaceColumnFamilySnapshot>): (groups: map<string, seq<KeyspaceColumnFamilySnapshot>>)
    requires AllValid(ks)
    ensures forall t :: t in groups <==> WithTag(ks, t) != []
    ensures forall t :: t in groups ==> groups[t] == WithTag(ks, t)
  {
    assert forall t :: t in Tags(ks) <==> WithTag(ks, t) != [] by {
      forall t
        ensures t in Tags(ks) <==> WithTag(ks, t) != []
      {
        WithTagEmptyIffAbsent(ks, t);
      }
    }
    map t | t in Tags(ks) :: WithTag(ks, t)
  }

  /** The files of one snapshot directory, each keyed
      `data/<keyspace>/<table>/<file name>`: the regular files directly in
      the directory, in listing order. */
  function TableEntries(fs: seq<FsNode>, k: KeyspaceColumnFamilySnapshot): seq<ManifestEntry>
  {
    if fs == [] then []
    else
      var n := fs[0];
      var rest := TableEntries(fs[1..], k);
      if !n.isDirectory && |n.names| == |k.snapshotDirectory| + 1 && IsPrefix(k.snapshotDirectory, n.names)
      then [TableEntry(n, k)] + rest
      else rest
  }

  function TableEntry(n: FsNode, k: KeyspaceColumnFamilySnapshot): ManifestEntry
    requires n.names != []
  {
    ManifestEntry(Path(false, ["data", k.keyspace, k.table, n.names[|n.names| - 1]]), Path(true, n.names), n.size, File)
  }

  /** The table entries of several snapshots, one snapshot after another. */
  function SnapshotEntries(fs: seq<FsNode>, ks: seq<KeyspaceColumnFamilySnapshot>): seq<ManifestEntry>
  {
    if ks == [] then [] else SnapshotEntries(fs, ks[..|ks| - 1]) + TableEntries(fs, ks[|ks| - 1])
  }

  /** Some entry's local file name contains `-Data.db`. */
  predicate AnyDataFile(m: seq<ManifestEntry>)
  {
    exists i :: 0 <= i < |m| && Contains(ToString(m[i].localFile), "-Data.db")
  }

  const NoDataFilesMessage := "No Data.db SSTables found in manifest. Aborting backup."

  function NoSnapshotsMessage(tag: string): string
  {
    "No keyspace column family snapshot directories were found for snapshot \"" + tag + "\" of all data."
  }

  /** `cassandraDirectory.resolve("data")`. */
  function DataDirectory(cassandraDirectory: seq<string>): seq<string>
  {
    cassandraDirectory + ["data"]
  }

  /** What `generateManifest` returns or throws. */
  function ManifestFor(fs: seq<FsNode>, keyspaces: Option<seq<string>>, tag: string, dataDir: seq<string>)
    : Result<seq<ManifestEntry>>
  {
    if !Exists(fs, dataDir) then Err(NoSuchFile)
    else
      var snapshots :- SnapshotsOf(Found(fs, dataDir));
      var groups := GroupByTag(snapshots);
      if tag !in groups then
        if keyspaces.Some? && keyspaces.value != [] then Ok([])
        else Err(IllegalState(NoSnapshotsMessage(tag)))
      else
        var manifest := SnapshotEntries(fs, groups[tag]);
        if AnyDataFile(manifest) then Ok(manifest) else Err(IllegalState(NoDataFilesMessage))
  }

  /** `generateManifest`: the manifest is built in a loop, snapshot by
      snapshot, then checked for a data component. */
  method GenerateManifest(fs: seq<FsNode>, keyspaces: Option<seq<string>>, tag: string, dataDir: seq<string>)
    returns (r: Result<seq<ManifestEntry>>)
    ensures r == ManifestFor(fs, keyspaces, tag, dataDir)
    ensures r.Ok? && r.value == [] ==> keyspaces.Some? && keyspaces.value != []
    ensures r.Ok? && r.value != [] ==> AnyDataFile(r.value)
  {
    if !Exists(fs, dataDir) {
      return Err(NoSuchFile);
    }
    var snapshots := SnapshotsOf(Found(fs, dataDir));
    if snapshots.Err? {
      return Err(snapshots.error);
    }
    var groups := GroupByTag(snapshots.value);
    if tag !in groups {
      if keyspaces.Some? && keyspaces.value != [] {
        return Ok([]);
      }
      return Err(IllegalState(NoSnapshotsMessage(tag)));
    }
    var kcfss := groups[tag];
    var manifest: seq<ManifestEntry> := [];
    var i := 0;
    while i < |kcfss|
      invariant 0 <= i <= |kcfss|
      invariant manifest == SnapshotEntries(fs, kcfss[..i])
    {
      assert kcfss[..i + 1][..i] == kcfss[..i];
      manifest := manifest + TableEntries(fs, kcfss[i]);
      i := i + 1;
    }
    assert kcfss[..i] == kcfss;
    if !AnyDataFile(manifest) {
      return Err(IllegalState(NoDataFilesMessage));
    }
    return Ok(manifest);
  }

  // ---------------------------------------------------------------- lemmas

  lemma {:induction false} WithTagEmptyIffAbsent(ks: seq<KeyspaceColumnFamilySnapshot>, tag: string)
    requires AllValid(ks)
    ensures WithTag(ks, tag) == [] <==> tag !in Tags(ks)
  {
    if ks != [] {
      WithTagEmptyIffAbsent(ks[1..], tag);
      assert Tags(ks) == {TagOf(ks[0])} + Tags(ks[1..]) by {
        forall t | t in Tags(ks) ensures t in {TagOf(ks[0])} + Tags(ks[1..]) {
          var i :| 0 <= i < |ks| && TagOf(ks[i]) == t;
          if i > 0 {
            assert TagOf(ks[1..][i - 1]) == t;
          }
        }
        forall t | t in Tags(ks[1..]) ensures t in Tags(ks) {
          var i :| 0 <= i < |ks[1..]| && TagOf(ks[1..][i]) == t;
          assert TagOf(ks[i + 1]) == t;
        }
      }
    }
  }

  /** Grouping keeps order: the group of a concatenation is the
      concatenation of the groups. */
  lemma {:induction false} WithTagAppend(a: seq<KeyspaceColumnFamilySnapshot>, b: seq<KeyspaceColumnFamilySnapshot>, tag: string)
    requires AllValid(a) && AllValid(b)
    ensures AllValid(a + b)
    ensures WithTag(a + b, tag) == WithTag(a, tag) + WithTag(b, tag)
  {
    assert AllValid(a + b) by {
      forall i | 0 <= i < |a + b| ensures ValidSnapshot((a + b)[i]) {
        if i >= |a| {
          assert (a + b)[i] == b[i - |a|];
        }
      }
    }
    if a == [] {
      assert a + b == b;
    } else {
      assert (a + b)[1..] == a[1..] + b;
      WithTagAppend(a[1..], b, tag);
    }
  }

  /** Every snapshot of a group carries the group's tag, and every snapshot
      with that tag is in the group. */
  lemma {:induction false} WithTagMembers(ks: seq<KeyspaceColumnFamilySnapshot>, tag: string)
    requires AllValid(ks)
    ensures forall k :: k in WithTag(ks, tag) ==> k in ks && ValidSnapshot(k) && TagOf(k) == tag
    ensures forall i :: 0 <= i < |ks| && TagOf(ks[i]) == tag ==> ks[i] in WithTag(ks, tag)
  {
    if ks != [] {
      WithTagMembers(ks[1..], tag);
      forall i | 0 <= i < |ks| && TagOf(ks[i]) == tag
        ensures ks[i] in WithTag(ks, tag)
      {
        if i > 0 {
          assert ks[1..][i - 1] == ks[i];
        }
      }
    }
  }

  /** The walk yields exactly the nodes of the tree that the matcher
      accepts. */
  lemma {:induction false} FoundExactly(fs: seq<FsNode>, dataDir: seq<string>)
    ensures forall n :: n in Found(fs, dataDir) <==> n in fs && Matched(n, dataDir)
  {
    if fs != [] {
      FoundExactly(fs[1..], dataDir);
      assert forall n :: n in fs <==> n == fs[0] || n in fs[1..];
    }
  }

  /** The walk keeps the tree's order: the nodes found in two stretches of
      the tree are those of the first, then those of the second. */
  lemma {:induction false} FoundAppend(a: seq<FsNode>, b: seq<FsNode>, dataDir: seq<string>)
    ensures Found(a + b, dataDir) == Found(a, dataDir) + Found(b, dataDir)
  {
    if a == [] {
      assert a + b == b;
    } else {
      assert (a + b)[1..] == a[1..] + b;
      FoundAppend(a[1..], b, dataDir);
      if Matched(a[0], dataDir) {
        assert [a[0]] + (Found(a[1..], dataDir) + Found(b, dataDir)) == ([a[0]] + Found(a[1..], dataDir)) + Found(b, dataDir);
      }
    }
  }

  /** Every `<dataDir>/<keyspace>/<table>/snapshots/<tag>` node of the tree
      ends up in its tag's group, read as that keyspace and table, once the
      found paths all make snapshots. */
  lemma SnapshotReachesGroup(fs: seq<FsNode>, dataDir: seq<string>, keyspace: string, table: string, tag: string, isDirectory: bool, size: nat)
    requires FsNode(dataDir + [keyspace, table, "snapshots", tag], isDirectory, size) in fs
    requires SnapshotsOf(Found(fs, dataDir)).Ok?
    ensures var groups := GroupByTag(SnapshotsOf(Found(fs, dataDir)).value);
      && tag in groups
      && KeyspaceColumnFamilySnapshot(keyspace, table, dataDir + [keyspace, table, "snapshots", tag]) in groups[tag]
  {
    var dir := dataDir + [keyspace, table, "snapshots", tag];
    var n := FsNode(dir, isDirectory, size);
    SnapshotLayout(dataDir, keyspace, table, tag, isDirectory, size);
    var found := Found(fs, dataDir);
    FoundExactly(fs, dataDir);
    assert n in found;
    var i :| 0 <= i < |found| && found[i] == n;
    var ks := SnapshotsOf(found).value;
    assert Ok(ks[i]) == SnapshotOf(dir);
    assert TagOf(ks[i]) == tag;
    WithTagMembers(ks, tag);
    assert ks[i] in WithTag(ks, tag);
  }

  /** A directory laid out as `<dataDir>/<keyspace>/<table>/snapshots/<tag>`
      is matched by the walk, and reads as that keyspace, table and tag. */
  lemma SnapshotLayout(dataDir: seq<string>, keyspace: string, table: string, tag: string, isDirectory: bool, size: nat)
    ensures var dir := dataDir + [keyspace, table, "snapshots", tag];
      && Matched(FsNode(dir, isDirectory, size), dataDir)
      && SnapshotOf(dir) == Ok(KeyspaceColumnFamilySnapshot(keyspace, table, dir))
      && TagOf(SnapshotOf(dir).value) == tag
  {
    var dir := dataDir + [keyspace, table, "snapshots", tag];
    assert dir[..|dataDir|] == dataDir;
  }

  /** The constructor's path calls, one by one, with Java's nulls: the
      table directory is `getParent().getParent()`, the table its
      `getFileName()`, the keyspace the file name of its `getParent()`. */
  function SnapshotOfByPathCalls(dir: seq<string>): Result<KeyspaceColumnFamilySnapshot>
  {
    match Parent(Path(true, dir))
    case None => Err(NullReference)
    case Some(snapshots) =>
      match Parent(snapshots)
      case None => Err(NullReference)
      case Some(tableDir) =>
        match (FileName(tableDir), Parent(tableDir))
        case (Some(table), Some(keyspaceDir)) =>
          (match FileName(keyspaceDir)
           case Some(keyspace) => Ok(KeyspaceColumnFamilySnapshot(keyspace, table, dir))
           case None => Err(NullReference))
        case _ => Err(NullReference)
  }

  /** `SnapshotOf` is what the constructor's chain of path calls computes. */
  lemma SnapshotOfIsPathCalls(dir: seq<string>)
    ensures SnapshotOf(dir) == SnapshotOfByPathCalls(dir)
  {
    if |dir| >= 4 {
      var tableDir := dir[..|dir| - 2];
      assert dir[..|dir| - 1][..|dir| - 2] == tableDir;
      assert tableDir[..|tableDir| - 1] == dir[..|dir| - 3];
    }
  }

  /** Snapshot entries are laid out snapshot by snapshot. */
  lemma {:induction false} SnapshotEntriesAppend(fs: seq<FsNode>, a: seq<KeyspaceColumnFamilySnapshot>, b: seq<KeyspaceColumnFamilySnapshot>)
    ensures SnapshotEntries(fs, a + b) == SnapshotEntries(fs, a) + SnapshotEntries(fs, b)
    decreases |b|
  {
    if b == [] {
      assert a + b == a;
    } else {
      var b' := b[..|b| - 1];
      var last := b[|b| - 1];
      var ab := a + b;
      assert ab[..|ab| - 1] == a + b';
      assert ab[|ab| - 1] == last;
      assert SnapshotEntries(fs, ab) == SnapshotEntries(fs, a + b') + TableEntries(fs, last);
      assert SnapshotEntries(fs, b) == SnapshotEntries(fs, b') + TableEntries(fs, last);
      SnapshotEntriesAppend(fs, a, b');
    }
  }

  /** Every table entry is a FILE keyed `data/<keyspace>/<table>/<name>`
      whose local file is a regular file of the tree directly in the
      snapshot directory, with that file's size; and every such file has
      its entry. */
  lemma {:induction false} TableEntriesShape(fs: seq<FsNode>, k: KeyspaceColumnFamilySnapshot)
    ensures forall e :: e in TableEntries(fs, k) ==>
      && e.entryType == File
      && e.localFile.absolute
      && |e.localFile.names| == |k.snapshotDirectory| + 1
      && IsPrefix(k.snapshotDirectory, e.localFile.names)
      && e.objectKey == Path(false, ["data", k.keyspace, k.table, e.localFile.names[|k.snapshotDirectory|]])
    ensures forall e :: e in TableEntries(fs, k) ==>
      exists n :: n in fs && !n.isDirectory && e.localFile == Path(true, n.names) && e.size == n.size
    ensures forall n :: n in fs && !n.isDirectory && |n.names| == |k.snapshotDirectory| + 1 && IsPrefix(k.snapshotDirectory, n.names) ==>
      TableEntry(n, k) in TableEntries(fs, k)
  {
    if fs != [] {
      TableEntriesShape(fs[1..], k);
      assert forall n :: n in fs <==> n == fs[0] || n in fs[1..];
    }
  }

  /** The entry is keyed `data/<keyspace>/<table>/<name>` for the snapshot's keyspace and table. */
  predicate KeyedUnder(e: ManifestEntry, k: KeyspaceColumnFamilySnapshot)
  {
    && !e.objectKey.absolute
    && |e.objectKey.names| == 4
    && e.objectKey.names[0] == "data"
    && e.objectKey.names[1] == k.keyspace
    && e.objectKey.names[2] == k.table
  }

  /** Every snapshot entry is a FILE keyed under `data/<keyspace>/<table>`
      of one of the snapshots it was built from. */
  lemma {:induction false} SnapshotEntriesUnderTables(fs: seq<FsNode>, ks: seq<KeyspaceColumnFamilySnapshot>)
    ensures forall e :: e in SnapshotEntries(fs, ks) ==>
      e.entryType == File && exists j :: 0 <= j < |ks| && KeyedUnder(e, ks[j])
  {
    if ks != [] {
      var init := ks[..|ks| - 1];
      var k := ks[|ks| - 1];
      SnapshotEntriesUnderTables(fs, init);
      TableEntriesShape(fs, k);
      forall e | e in SnapshotEntries(fs, ks)
        ensures e.entryType == File && exists j :: 0 <= j < |ks| && KeyedUnder(e, ks[j])
      {
        if e in SnapshotEntries(fs, init) {
          var j :| 0 <= j < |init| && KeyedUnder(e, init[j]);
          assert ks[j] == init[j];
        } else {
          assert e in TableEntries(fs, k);
          assert KeyedUnder(e, ks[|ks| - 1]);
        }
      }
    }
  }

  /** The decision table for a tag with no snapshot directory: an empty
      manifest when keyspaces were named, an error for "all keyspaces". */
  lemma MissingTag(fs: seq<FsNode>, keyspaces: Option<seq<string>>, tag: string, dataDir: seq<string>)
    requires Exists(fs, dataDir)
    requires SnapshotsOf(Found(fs, dataDir)).Ok?
    requires WithTag(SnapshotsOf(Found(fs, dataDir)).value, tag) == []
    ensures keyspaces.Some? && keyspaces.value != [] ==> ManifestFor(fs, keyspaces, tag, dataDir) == Ok([])
    ensures keyspaces.None? || keyspaces.value == [] ==>
      ManifestFor(fs, keyspaces, tag, dataDir) == Err(IllegalState(NoSnapshotsMessage(tag)))
  {
    var snapshots := SnapshotsOf(Found(fs, dataDir)).value;
    var groups := GroupByTag(snapshots);
    assert tag !in groups;
    if keyspaces.Some? && keyspaces.value != [] {
      assert ManifestFor(fs, keyspaces, tag, dataDir) == Ok([]);
    } else {
      assert ManifestFor(fs, keyspaces, tag, dataDir) == Err(IllegalState(NoSnapshotsMessage(tag)));
    }
  }

  /** When the tag has snapshot directories the manifest is their entries,
      group by group in encounter order, whatever keyspaces were named; it
      is rejected when no local file name contains `-Data.db`. */
  lemma PresentTag(fs: seq<FsNode>, keyspaces: Option<seq<string>>, tag: string, dataDir: seq<string>)
    requires Exists(fs, dataDir)
    requires SnapshotsOf(Found(fs, dataDir)).Ok?
    requires WithTag(SnapshotsOf(Found(fs, dataDir)).value, tag) != []
    ensures var entries := SnapshotEntries(fs, WithTag(SnapshotsOf(Found(fs, dataDir)).value, tag));
      ManifestFor(fs, keyspaces, tag, dataDir)
        == if AnyDataFile(entries) then Ok(entries) else Err(IllegalState(NoDataFilesMessage))
  {
  }
}
