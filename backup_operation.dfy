/** One backup run of a node (`BackupOperation`): take a snapshot over JMX,
    read the node's tokens, build the manifest, stage the token list and the
    manifest file, create the bucket, upload, and always clear the snapshot
    afterwards. */
module BackupOperation {
  import opened Errors
  import opened Strings
  import opened Paths
  import opened Manifest
  import opened Snapshots
  import opened Collaborators
  import opened StorageLocation

  /** The fields of `BackupOperationRequest` that the run reads. The node's
      directories are absolute; `cassandraDirectory` is given by its names. */
  datatype BackupOperationRequest = BackupOperationRequest(
    storageLocation: StorageLocation,
    keyspaces: Option<seq<string>>,
    table: Option<string>,
    snapshotTag: string,
    offlineSnapshot: bool,
    waitForLock: bool,
    cassandraDirectory: seq<string>,
    sharedContainerPath: Path)

  // ------------------------------------------------------ taking a snapshot

  /** `TakeSnapshotOperationRequest` turns a null keyspace list into an empty one. */
  function NormalisedKeyspaces(keyspaces: Option<seq<string>>): seq<string>
  {
    if keyspaces.None? then [] else keyspaces.value
  }

  /** The one MBean call `TakeSnapshotOperation.run0` makes: with a table,
      `Iterables.getOnlyElement` demands exactly one keyspace. */
  function SnapshotCall(keyspaces: seq<string>, tag: string, table: Option<string>): (r: Result<MBeanCall>)
    ensures r.Ok? <==> table.None? || |keyspaces| == 1
    ensures r.Ok? ==> IsTake(r.value) && r.value.tag == tag
    ensures table.Some? && keyspaces == [] ==> r == Err(NoSuchElement)
    ensures table.Some? && |keyspaces| > 1 ==> r == Err(IllegalArgument)
    ensures r.Ok? && table.Some? ==> r.value == TakeTableSnapshot(keyspaces[0], table.value, tag)
    ensures r.Ok? && table.None? ==> r.value == TakeSnapshot(tag, keyspaces)
  {
    if table.Some? then
      if keyspaces == [] then Err(NoSuchElement)
      else if |keyspaces| > 1 then Err(IllegalArgument)
      else Ok(TakeTableSnapshot(keyspaces[0], table.value, tag))
    else Ok(TakeSnapshot(tag, keyspaces))
  }

  class TakeSnapshotOperation {
    const jmx: StorageServiceMBean
    const keyspaces: seq<string>
    const tag: string
    const table: Option<string>

    constructor (jmx: StorageServiceMBean, keyspaces: Option<seq<string>>, tag: string, table: Option<string>)
      ensures this.jmx == jmx && this.keyspaces == NormalisedKeyspaces(keyspaces)
      ensures this.tag == tag && this.table == table
    {
      this.jmx := jmx;
      this.keyspaces := NormalisedKeyspaces(keyspaces);
      this.tag := tag;
      this.table := table;
    }

    /** Takes the snapshot; a bad keyspace count fails before any call. */
    method Run() returns (o: Outcome)
      modifies jmx.journal
      ensures SnapshotCall(keyspaces, tag, table).Err? ==>
        jmx.journal.events == old(jmx.journal.events) && o == Fail(SnapshotCall(keyspaces, tag, table).error)
      ensures SnapshotCall(keyspaces, tag, table).Ok? ==>
        && jmx.journal.events == old(jmx.journal.events) + [MBean(SnapshotCall(keyspaces, tag, table).value)]
        && o == if jmx.takeFails then Fail(MBeanFailure) else Pass
    {
      var call := SnapshotCall(keyspaces, tag, table);
      if call.Err? {
        return Fail(call.error);
      }
      o := jmx.Invoke(call.value);
    }
  }

  // ----------------------------------------------------- clearing a snapshot

  class ClearSnapshotOperation {
    const jmx: StorageServiceMBean
    const snapshotTag: string
    var hasRun: bool

    constructor (jmx: StorageServiceMBean, snapshotTag: string)
      ensures this.jmx == jmx && this.snapshotTag == snapshotTag && !hasRun
    {
      this.jmx := jmx;
      this.snapshotTag := snapshotTag;
      hasRun := false;
    }

    /** Clears the snapshot on the first run only; a failure to clear is
        logged and swallowed, so the run never fails. */
    method Run()
      modifies this, jmx.journal
      ensures hasRun
      ensures old(hasRun) ==> jmx.journal.events == old(jmx.journal.events)
      ensures !old(hasRun) ==> jmx.journal.events == old(jmx.journal.events) + [MBean(ClearSnapshot(snapshotTag))]
    {
      if hasRun {
        return;
      }
      hasRun := true;
      var _ := jmx.Invoke(ClearSnapshot(snapshotTag));
    }
  }

  // ----------------------------------------------------------- staged files

  /** A file written under the shared container path, and its manifest entry. */
  datatype StagedFile = StagedFile(entry: ManifestEntry, text: string)

  /** `<shared>/tmp/cassandra-operator/<kind>/<name>`. */
  function StagingPath(shared: Path, kind: string, name: string): Path
  {
    Path(shared.absolute, shared.names + ["tmp", "cassandra-operator", kind, name])
  }

  function TokensFileName(tag: string): string
  {
    tag + "-tokens.yaml"
  }

  /** `saveTokenList`: the token list in `<shared>/tmp/cassandra-operator/tokens`,
      keyed `tokens/<tag>-tokens.yaml`, of type FILE. A tag that does not
      make a single file name cannot be staged. */
  function StagedTokenList(request: BackupOperationRequest, tokens: seq<string>): Result<StagedFile>
  {
    var name := TokensFileName(request.snapshotTag);
    if !IsName(name) then Err(FileFailure)
    else
      var text := TokenFileText(tokens);
      Ok(StagedFile(ManifestEntry(Path(false, ["tokens", name]), StagingPath(request.sharedContainerPath, "tokens", name), |text|, File), text))
  }

  /** A tag that names one file of its own in the manifests directory. */
  predicate ManifestFileTag(tag: string)
  {
    IsName(tag) && tag != "." && tag != ".."
  }

  /** `saveManifest`: the manifest file in `<shared>/tmp/cassandra-operator/manifests`,
      keyed `manifests/<tag>`, of type MANIFEST_FILE, listing `entries`. */
  function StagedManifest(request: BackupOperationRequest, entries: seq<ManifestEntry>): Result<StagedFile>
  {
    var tag := request.snapshotTag;
    if !ManifestFileTag(tag) then Err(FileFailure)
    else
      var text := ManifestText(entries);
      Ok(StagedFile(ManifestEntry(Path(false, ["manifests", tag]), StagingPath(request.sharedContainerPath, "manifests", tag), |text|, ManifestFile), text))
  }

  /** The staging files after `executeUpload` has built its manifest, and
      the manifest it hands to the upload (or the failure that stopped it). */
  datatype Staging = Staging(files: map<Path, string>, result: Result<seq<ManifestEntry>>)

  /** What `executeUpload` does before it reaches the storage provider:
      build the manifest, add the token list, then add the manifest file
      that lists everything before it. */
  function Stage(request: BackupOperationRequest, fs: seq<FsNode>, tokens: seq<string>, files: map<Path, string>): Staging
  {
    match ManifestFor(fs, request.keyspaces, request.snapshotTag, DataDirectory(request.cassandraDirectory))
    case Err(e) => Staging(files, Err(e))
    case Ok(entries) =>
      match StagedTokenList(request, tokens)
      case Err(e) => Staging(files, Err(e))
      case Ok(t) =>
        var files' := files[t.entry.localFile := t.text];
        var listed := entries + [t.entry];
        match StagedManifest(request, listed)
        case Err(e) => Staging(files', Err(e))
        case Ok(m) => Staging(files'[m.entry.localFile := m.text], Ok(listed + [m.entry]))
  }

  /** The storage calls of `executeUpload` once staging is over: create the
      bucket, then, if that worked, upload the whole manifest with a
      progress total equal to its size. */
  function UploadCalls(bucket: string, staged: Result<seq<ManifestEntry>>, bucketFails: bool): seq<Event>
  {
    if staged.Err? then []
    else if bucketFails then [Storage(StorageCall.CreateIfMissing(bucket))]
    else [Storage(StorageCall.CreateIfMissing(bucket)), Storage(StorageCall.UploadOrFreshenFiles(staged.value, |staged.value|))]
  }

  function UploadOutcome(staged: Result<seq<ManifestEntry>>, bucketFails: bool, uploadFails: bool): Outcome
  {
    if staged.Err? then Fail(staged.error)
    else if bucketFails || uploadFails then Fail(StorageFailure)
    else Pass
  }

  // ------------------------------------------------------------ the run

  /** The tokens the online run reads, or the failure that stopped it
      before the upload. */
  function OnlineTokens(request: BackupOperationRequest, jmx: StorageServiceMBean): Result<seq<string>>
  {
    match SnapshotCall(NormalisedKeyspaces(request.keyspaces), request.snapshotTag, request.table)
    case Err(e) => Err(e)
    case Ok(_) =>
      if jmx.takeFails || jmx.tokensFail then Err(MBeanFailure) else Ok(jmx.ringTokens)
  }

  /** The calls an online run makes before the upload: the take (unless the
      request is rejected first) and the token read (unless the take failed). */
  function TakeEvents(request: BackupOperationRequest, jmx: StorageServiceMBean): seq<Event>
  {
    match SnapshotCall(NormalisedKeyspaces(request.keyspaces), request.snapshotTag, request.table)
    case Err(_) => []
    case Ok(c) => [MBean(c)] + if jmx.takeFails then [] else [MBean(GetTokens)]
  }

  /** What `executeUpload` stages when the tokens could be read; a failure
      to read them stops the run before anything is staged. */
  function StagedWith(request: BackupOperationRequest, fs: seq<FsNode>, tokens: Result<seq<string>>,
                      files: map<Path, string>): Staging
  {
    match tokens
    case Err(e) => Staging(files, Err(e))
    case Ok(t) => Stage(request, fs, t, files)
  }

  /** The calls of an online run, across both services, given what it
      staged: the take and the token read, the calls of the upload, and
      always the clear, last (the `finally` block). */
  function OnlineEvents(request: BackupOperationRequest, jmx: StorageServiceMBean, storage: StorageBackend,
                        staged: Result<seq<ManifestEntry>>): seq<Event>
  {
    TakeEvents(request, jmx) + UploadCalls(request.storageLocation.bucket, staged, storage.bucketFails)
      + [MBean(ClearSnapshot(request.snapshotTag))]
  }

  class BackupOperation {
    const request: BackupOperationRequest
    /** The node's file tree, as `Files.find` would walk it. */
    const fs: seq<FsNode>
    const jmx: StorageServiceMBean
    const storage: StorageBackend
    /** The staging files this run writes, by path. */
    var files: map<Path, string>

    constructor (request: BackupOperationRequest, fs: seq<FsNode>, jmx: StorageServiceMBean, storage: StorageBackend, files: map<Path, string>)
      ensures this.request == request && this.fs == fs && this.jmx == jmx && this.storage == storage
      ensures this.files == files
    {
      this.request := request;
      this.fs := fs;
      this.jmx := jmx;
      this.storage := storage;
      this.files := files;
    }

    /** Writes the token list and returns its entry. */
    method SaveTokenList(tokens: seq<string>) returns (r: Result<ManifestEntry>)
      modifies this
      ensures StagedTokenList(request, tokens).Err? ==> r == Err(StagedTokenList(request, tokens).error) && files == old(files)
      ensures StagedTokenList(request, tokens).Ok? ==>
        var t := StagedTokenList(request, tokens).value;
        r == Ok(t.entry) && files == old(files)[t.entry.localFile := t.text]
    {
      var name := TokensFileName(request.snapshotTag);
      if !IsName(name) {
        return Err(FileFailure);
      }
      var path := StagingPath(request.sharedContainerPath, "tokens", name);
      var text := TokenFileText(tokens);
      files := files[path := text];
      return Ok(ManifestEntry(Path(false, ["tokens", name]), path, |text|, File));
    }

    /** Writes the manifest file one line per entry and returns its entry. */
    method SaveManifest(manifest: seq<ManifestEntry>) returns (r: Result<ManifestEntry>)
      modifies this
      ensures StagedManifest(request, manifest).Err? ==> r == Err(StagedManifest(request, manifest).error) && files == old(files)
      ensures StagedManifest(request, manifest).Ok? ==>
        var m := StagedManifest(request, manifest).value;
        r == Ok(m.entry) && files == old(files)[m.entry.localFile := m.text]
    {
      var tag := request.snapshotTag;
      if !ManifestFileTag(tag) {
        return Err(FileFailure);
      }
      var path := StagingPath(request.sharedContainerPath, "manifests", tag);
      var text := "";
      for i := 0 to |manifest|
        invariant text == ManifestText(manifest[..i])
        invariant files == old(files)
      {
        LinesSnoc(manifest, i);
        text := text + ManifestLine(manifest[i]) + "\n";
      }
      assert manifest[..|manifest|] == manifest;
      files := files[path := text];
      return Ok(ManifestEntry(Path(false, ["manifests", tag]), path, |text|, ManifestFile));
    }

    /** `executeUpload`: stage the manifest, then create the bucket and
        upload. */
    method ExecuteUpload(tokens: seq<string>) returns (o: Outcome)
      modifies this, storage.journal
      ensures files == Stage(request, fs, tokens, old(files)).files
      ensures storage.journal.events == old(storage.journal.events)
        + UploadCalls(request.storageLocation.bucket, Stage(request, fs, tokens, old(files)).result, storage.bucketFails)
      ensures o == UploadOutcome(Stage(request, fs, tokens, old(files)).result, storage.bucketFails, storage.uploadFails)
    {
      var generated := GenerateManifest(fs, request.keyspaces, request.snapshotTag, DataDirectory(request.cassandraDirectory));
      if generated.Err? {
        return Fail(generated.error);
      }
      var manifest := generated.value;
      var tokensEntry := SaveTokenList(tokens);
      if tokensEntry.Err? {
        return Fail(tokensEntry.error);
      }
      manifest := manifest + [tokensEntry.value];
      var manifestEntry := SaveManifest(manifest);
      if manifestEntry.Err? {
        return Fail(manifestEntry.error);
      }
      manifest := manifest + [manifestEntry.value];
      o := storage.CreateIfMissing(request.storageLocation.bucket);
      if o.Fail? {
        return;
      }
      o := storage.UploadOrFreshenFiles(manifest, |manifest|);
    }

    /** `run0`. The global lock is held elsewhere when `lockHeld`; without
        `waitForLock` the run then stops at once, otherwise it waits for the
        lock. An offline run uploads with no tokens and leaves JMX alone; an
        online run clears the snapshot on every path once it has started,
        after everything else it sends to either service. Both services
        record into the one journal. */
    method Run(lockHeld: bool) returns (o: Outcome)
      requires jmx.journal == storage.journal
      modifies this, jmx.journal
      ensures lockHeld && !request.waitForLock ==>
        o == Fail(LockUnavailable) && files == old(files) && jmx.journal.events == old(jmx.journal.events)
      ensures !(lockHeld && !request.waitForLock) && request.offlineSnapshot ==>
        && files == Stage(request, fs, [], old(files)).files
        && jmx.journal.events == old(jmx.journal.events) + UploadCalls(request.storageLocation.bucket, Stage(request, fs, [], old(files)).result, storage.bucketFails)
        && o == UploadOutcome(Stage(request, fs, [], old(files)).result, storage.bucketFails, storage.uploadFails)
      ensures !(lockHeld && !request.waitForLock) && !request.offlineSnapshot ==>
        && files == StagedWith(request, fs, OnlineTokens(request, jmx), old(files)).files
        && jmx.journal.events == old(jmx.journal.events) + OnlineEvents(request, jmx, storage, StagedWith(request, fs, OnlineTokens(request, jmx), old(files)).result)
        && o == UploadOutcome(StagedWith(request, fs, OnlineTokens(request, jmx), old(files)).result, storage.bucketFails, storage.uploadFails)
    {
      if lockHeld && !request.waitForLock {
        return Fail(LockUnavailable);
      }
      if request.offlineSnapshot {
        o := ExecuteUpload([]);
        return;
      }
      o := RunOnline();
    }

    /** The online part of `run0`: `try { take; getTokens; executeUpload }
        finally { clear }`. */
    method RunOnline() returns (o: Outcome)
      requires jmx.journal == storage.journal
      modifies this, jmx.journal
      ensures files == StagedWith(request, fs, OnlineTokens(request, jmx), old(files)).files
      ensures jmx.journal.events == old(jmx.journal.events) + OnlineEvents(request, jmx, storage, StagedWith(request, fs, OnlineTokens(request, jmx), old(files)).result)
      ensures o == UploadOutcome(StagedWith(request, fs, OnlineTokens(request, jmx), old(files)).result, storage.bucketFails, storage.uploadFails)
    {
      ghost var before := jmx.journal.events;
      var tokens := TakeAndReadTokens();
      o := UploadWith(tokens);
      var clear := new ClearSnapshotOperation(jmx, request.snapshotTag);
      clear.Run();
      AppendFour(before, TakeEvents(request, jmx),
                 UploadCalls(request.storageLocation.bucket, StagedWith(request, fs, tokens, old(files)).result, storage.bucketFails),
                 [MBean(ClearSnapshot(request.snapshotTag))]);
    }

    /** The rest of the `try` block: upload only once the tokens are read. */
    method UploadWith(tokens: Result<seq<string>>) returns (o: Outcome)
      modifies this, storage.journal
      ensures files == StagedWith(request, fs, tokens, old(files)).files
      ensures storage.journal.events == old(storage.journal.events)
        + UploadCalls(request.storageLocation.bucket, StagedWith(request, fs, tokens, old(files)).result, storage.bucketFails)
      ensures o == UploadOutcome(StagedWith(request, fs, tokens, old(files)).result, storage.bucketFails, storage.uploadFails)
    {
      if tokens.Err? {
        return Fail(tokens.error);
      }
      o := ExecuteUpload(tokens.value);
    }

    /** The `try` block up to the upload: take the snapshot, then read the
        ring tokens through the MBean. */
    method TakeAndReadTokens() returns (r: Result<seq<string>>)
      modifies jmx.journal
      ensures jmx.journal.events == old(jmx.journal.events) + TakeEvents(request, jmx)
      ensures r == OnlineTokens(request, jmx)
    {
      var take := new TakeSnapshotOperation(jmx, request.keyspaces, request.snapshotTag, request.table);
      var o := take.Run();
      if o.Fail? {
        return Err(o.error);
      }
      r := jmx.GetRingTokens();
    }
  }

  // ---------------------------------------------------------------- lemmas

  lemma AppendFour<T>(a: seq<T>, b: seq<T>, c: seq<T>, d: seq<T>)
    ensures a + b + c + d == a + (b + c + d)
  {
  }

  lemma LinesSnoc(manifest: seq<ManifestEntry>, i: nat)
    requires i < |manifest|
    ensures ManifestText(manifest[..i + 1]) == ManifestText(manifest[..i]) + ManifestLine(manifest[i]) + "\n"
  {
    var lines := Lines(manifest[..i + 1]);
    assert lines[..|lines| - 1] == Lines(manifest[..i]);
    assert lines[|lines| - 1] == ManifestLine(manifest[i]);
  }

  /** Whatever it staged, an online run clears the snapshot exactly once, as
      the last call to either service, after the take whenever the take was
      made. */
  lemma ClearAlwaysLast(request: BackupOperationRequest, jmx: StorageServiceMBean, storage: StorageBackend,
                        staged: Result<seq<ManifestEntry>>)
    ensures var events := OnlineEvents(request, jmx, storage, staged);
      && events != []
      && events[|events| - 1] == MBean(ClearSnapshot(request.snapshotTag))
      && (forall i :: 0 <= i < |events| - 1 ==> !(events[i].MBean? && events[i].mbeanCall.ClearSnapshot?))
      && (SnapshotCall(NormalisedKeyspaces(request.keyspaces), request.snapshotTag, request.table).Ok? ==>
            events[0] == MBean(SnapshotCall(NormalisedKeyspaces(request.keyspaces), request.snapshotTag, request.table).value))
  {
  }

  /** When the whole run goes through, the calls are, in this order: the
      take, the token read, the bucket, the upload of the staged manifest,
      and the clear. The snapshot is cleared only once the upload is over. */
  lemma OnlineUploadOrder(request: BackupOperationRequest, jmx: StorageServiceMBean, storage: StorageBackend,
                          m: seq<ManifestEntry>)
    requires OnlineTokens(request, jmx).Ok?
    requires !storage.bucketFails
    ensures OnlineEvents(request, jmx, storage, Ok(m)) ==
      [ MBean(SnapshotCall(NormalisedKeyspaces(request.keyspaces), request.snapshotTag, request.table).value),
        MBean(GetTokens),
        Storage(StorageCall.CreateIfMissing(request.storageLocation.bucket)),
        Storage(StorageCall.UploadOrFreshenFiles(m, |m|)),
        MBean(ClearSnapshot(request.snapshotTag)) ]
  {
  }

  /** An online run uploads only once the tokens are read: before that, it
      stages nothing and sends nothing to the storage provider. */
  lemma NoUploadWithoutTokens(request: BackupOperationRequest, fs: seq<FsNode>, files: map<Path, string>,
                              jmx: StorageServiceMBean, storage: StorageBackend)
    requires OnlineTokens(request, jmx).Err?
    ensures StagedWith(request, fs, OnlineTokens(request, jmx), files) == Staging(files, Err(OnlineTokens(request, jmx).error))
    ensures forall i :: 0 <= i < |OnlineEvents(request, jmx, storage, StagedWith(request, fs, OnlineTokens(request, jmx), files).result)| ==>
      OnlineEvents(request, jmx, storage, StagedWith(request, fs, OnlineTokens(request, jmx), files).result)[i].MBean?
  {
  }

  /** The run stops before the upload exactly when the snapshot request is
      rejected, the take fails or the tokens cannot be read. */
  lemma OnlineTokensFailure(request: BackupOperationRequest, jmx: StorageServiceMBean)
    ensures OnlineTokens(request, jmx).Err? <==>
      || SnapshotCall(NormalisedKeyspaces(request.keyspaces), request.snapshotTag, request.table).Err?
      || jmx.takeFails || jmx.tokensFail
    ensures OnlineTokens(request, jmx).Ok? ==> OnlineTokens(request, jmx).value == jmx.ringTokens
  {
  }

  lemma TokensFileNameIsName(tag: string)
    requires IsName(tag)
    ensures IsName(TokensFileName(tag))
  {
    var suffix := "-tokens.yaml";
    assert '/' !in suffix && '\0' !in suffix;
    assert forall c :: c in TokensFileName(tag) ==> c in tag || c in suffix;
  }

  /** Staging yields a manifest exactly when the snapshot manifest can be
      built and the tag names a manifest file. */
  lemma StageSucceeds(request: BackupOperationRequest, fs: seq<FsNode>, tokens: seq<string>, files: map<Path, string>)
    ensures Stage(request, fs, tokens, files).result.Ok? <==>
      ManifestFor(fs, request.keyspaces, request.snapshotTag, DataDirectory(request.cassandraDirectory)).Ok?
      && ManifestFileTag(request.snapshotTag)
  {
    if ManifestFileTag(request.snapshotTag) {
      TokensFileNameIsName(request.snapshotTag);
    }
  }

  lemma TwoNameText(a: string, b: string)
    ensures ToString(Path(false, [a, b])) == a + "/" + b
  {
    assert Join([a, b], '/') == a + ['/'] + Join([b], '/');
  }

  /** What a successful staging consists of, spelled out. */
  lemma StageParts(request: BackupOperationRequest, fs: seq<FsNode>, tokens: seq<string>, files: map<Path, string>)
    requires Stage(request, fs, tokens, files).result.Ok?
    ensures ManifestFor(fs, request.keyspaces, request.snapshotTag, DataDirectory(request.cassandraDirectory)).Ok?
    ensures StagedTokenList(request, tokens).Ok?
    ensures var entries := ManifestFor(fs, request.keyspaces, request.snapshotTag, DataDirectory(request.cassandraDirectory)).value;
      var t := StagedTokenList(request, tokens).value;
      && StagedManifest(request, entries + [t.entry]).Ok?
      && var m := StagedManifest(request, entries + [t.entry]).value;
         Stage(request, fs, tokens, files) == Staging(files[t.entry.localFile := t.text][m.entry.localFile := m.text], Ok(entries + [t.entry] + [m.entry]))
  {
  }

  /** The manifest handed to the upload is the snapshot entries, then the
      token list `tokens/<tag>-tokens.yaml` of type FILE, then the manifest
      file `manifests/<tag>` of type MANIFEST_FILE; the staged token list
      holds the token text, and the staged manifest file lists every entry
      before it in order. */
  lemma StagedManifestLayout(request: BackupOperationRequest, fs: seq<FsNode>, tokens: seq<string>, files: map<Path, string>)
    requires Stage(request, fs, tokens, files).result.Ok?
    ensures var s := Stage(request, fs, tokens, files);
      var m := s.result.value;
      var tag := request.snapshotTag;
      && |m| >= 2
      && m[..|m| - 2] == ManifestFor(fs, request.keyspaces, tag, DataDirectory(request.cassandraDirectory)).value
      && ToString(m[|m| - 2].objectKey) == "tokens/" + tag + "-tokens.yaml"
      && m[|m| - 2].entryType == File
      && ToString(m[|m| - 1].objectKey) == "manifests/" + tag
      && m[|m| - 1].entryType == ManifestFile
      && m[|m| - 2].localFile in s.files && s.files[m[|m| - 2].localFile] == TokenFileText(tokens)
      && m[|m| - 1].localFile in s.files && s.files[m[|m| - 1].localFile] == ManifestText(m[..|m| - 1])
  {
    StageParts(request, fs, tokens, files);
    var entries := ManifestFor(fs, request.keyspaces, request.snapshotTag, DataDirectory(request.cassandraDirectory)).value;
    var t := StagedTokenList(request, tokens).value;
    var mf := StagedManifest(request, entries + [t.entry]).value;
    StagedLayout(entries, t, mf, files, request.snapshotTag, tokens, request.sharedContainerPath);
  }

  /** StagedManifestLayout for given staged files, away from the functions
      that build them. */
  lemma StagedLayout(entries: seq<ManifestEntry>, t: StagedFile, mf: StagedFile, files: map<Path, string>, tag: string, tokens: seq<string>, shared: Path)
    requires t.text == TokenFileText(tokens)
    requires t.entry == ManifestEntry(Path(false, ["tokens", TokensFileName(tag)]), StagingPath(shared, "tokens", TokensFileName(tag)), |t.text|, File)
    requires mf.text == ManifestText(entries + [t.entry])
    requires mf.entry == ManifestEntry(Path(false, ["manifests", tag]), StagingPath(shared, "manifests", tag), |mf.text|, ManifestFile)
    ensures var m := entries + [t.entry] + [mf.entry];
      var staged := files[t.entry.localFile := t.text][mf.entry.localFile := mf.text];
      && |m| >= 2
      && m[..|m| - 2] == entries
      && ToString(m[|m| - 2].objectKey) == "tokens/" + tag + "-tokens.yaml"
      && m[|m| - 2].entryType == File
      && ToString(m[|m| - 1].objectKey) == "manifests/" + tag
      && m[|m| - 1].entryType == ManifestFile
      && m[|m| - 2].localFile in staged && staged[m[|m| - 2].localFile] == TokenFileText(tokens)
      && m[|m| - 1].localFile in staged && staged[m[|m| - 1].localFile] == ManifestText(m[..|m| - 1])
  {
    var m := entries + [t.entry] + [mf.entry];
    assert m[..|m| - 2] == entries;
    assert m[..|m| - 1] == entries + [t.entry];
    assert m[|m| - 2] == t.entry && m[|m| - 1] == mf.entry;
    TwoNameText("tokens", TokensFileName(tag));
    TwoNameText("manifests", tag);
    assert t.entry.localFile != mf.entry.localFile by {
      var n := |shared.names|;
      assert t.entry.localFile.names[n + 2] == "tokens";
      assert mf.entry.localFile.names[n + 2] == "manifests";
    }
  }

  // A node with one table `ks.tbl` whose snapshot `snap1` holds a single
  // 1000-byte data file.

  function ExampleDataDir(): seq<string>
  {
    ["var", "lib", "cassandra", "data"]
  }

  function ExampleSnapshot(): seq<string>
  {
    ExampleDataDir() + ["ks", "tbl", "snapshots", "snap1"]
  }

  function ExampleDataFile(): FsNode
  {
    FsNode(ExampleSnapshot() + ["mc-1-big-Data.db"], false, 1000)
  }

  function ExampleTree(): seq<FsNode>
  {
    var dataDir := ExampleDataDir();
    [FsNode(dataDir, true, 0), FsNode(dataDir + ["ks"], true, 0), FsNode(dataDir + ["ks", "tbl"], true, 0),
     FsNode(dataDir + ["ks", "tbl", "snapshots"], true, 0), FsNode(ExampleSnapshot(), true, 0), ExampleDataFile()]
  }

  lemma ExampleFound()
    ensures Exists(ExampleTree(), ExampleDataDir())
    ensures SnapshotsOf(Found(ExampleTree(), ExampleDataDir())) == Ok([KeyspaceColumnFamilySnapshot("ks", "tbl", ExampleSnapshot())])
  {
    var fs := ExampleTree();
    var dataDir := ExampleDataDir();
    assert fs[0].names == dataDir;
    assert fs[5..][1..] == [] && fs[4..][1..] == fs[5..] && fs[3..][1..] == fs[4..];
    assert fs[2..][1..] == fs[3..] && fs[1..][1..] == fs[2..];
    assert !Matched(fs[5], dataDir);
    assert Found(fs[5..], dataDir) == [];
    assert Matched(fs[4], dataDir);
    assert Found(fs[4..], dataDir) == [fs[4]];
    assert !Matched(fs[3], dataDir);
    assert Found(fs[3..], dataDir) == [fs[4]];
    assert !Matched(fs[2], dataDir);
    assert Found(fs[2..], dataDir) == [fs[4]];
    assert !Matched(fs[1], dataDir);
    assert Found(fs[1..], dataDir) == [fs[4]];
    assert !Matched(fs[0], dataDir);
    var found := [fs[4]];
    assert Found(fs, dataDir) == found;
    var k := KeyspaceColumnFamilySnapshot("ks", "tbl", ExampleSnapshot());
    assert found[1..] == [];
    assert SnapshotsOf(found[1..]) == Ok([]);
    assert SnapshotOf(found[0].names) == Ok(k);
    assert SnapshotsOf(found) == Ok([k] + []);
    assert [k] + [] == [k];
  }

  lemma ExampleTableEntries(k: KeyspaceColumnFamilySnapshot)
    requires k == KeyspaceColumnFamilySnapshot("ks", "tbl", ExampleSnapshot())
    ensures SnapshotEntries(ExampleTree(), [k]) == [TableEntry(ExampleDataFile(), k)]
  {
    var fs := ExampleTree();
    var file := ExampleDataFile();
    assert fs[5..][1..] == [] && fs[4..][1..] == fs[5..] && fs[3..][1..] == fs[4..];
    assert fs[2..][1..] == fs[3..] && fs[1..][1..] == fs[2..];
    assert TableEntries(fs[5..][1..], k) == [];
    assert TableEntries(fs[5..], k) == [TableEntry(file, k)];
    assert TableEntries(fs[4..], k) == [TableEntry(file, k)];
    assert TableEntries(fs[3..], k) == [TableEntry(file, k)];
    assert TableEntries(fs[2..], k) == [TableEntry(file, k)];
    assert TableEntries(fs[1..], k) == [TableEntry(file, k)];
    assert TableEntries(fs, k) == [TableEntry(file, k)];
    assert [k][..0] == [];
  }

  lemma ExampleHasDataFile(e: ManifestEntry)
    requires e.localFile == Path(true, ExampleDataFile().names)
    ensures AnyDataFile([e])
  {
    var names := ExampleDataFile().names;
    var init := names[..|names| - 1];
    assert names == init + ["mc-1-big-Data.db"];
    JoinSnoc(init, "mc-1-big-Data.db", '/');
    var x := "/" + Join(init, '/') + ['/'] + "mc-1-big";
    assert ToString(e.localFile) == x + "-Data.db";
    SuffixOccurs(x, "-Data.db");
    MatchAt(ToString(e.localFile), "-Data.db", |x|);
    assert [e][0] == e;
  }

  /** For the single-table node, the manifest is the one data file, keyed
      `data/ks/tbl/<file>`. */
  lemma ExampleManifest(keyspaces: Option<seq<string>>)
    ensures ManifestFor(ExampleTree(), keyspaces, "snap1", ExampleDataDir())
      == Ok([ManifestEntry(Path(false, ["data", "ks", "tbl", "mc-1-big-Data.db"]), Path(true, ExampleDataFile().names), 1000, File)])
  {
    ExampleFound();
    var k := KeyspaceColumnFamilySnapshot("ks", "tbl", ExampleSnapshot());
    assert TagOf(k) == "snap1";
    assert WithTag([k], "snap1") == [k] by {
      assert [k][1..] == [];
    }
    ExampleTableEntries(k);
    var e := TableEntry(ExampleDataFile(), k);
    assert e == ManifestEntry(Path(false, ["data", "ks", "tbl", "mc-1-big-Data.db"]), Path(true, ExampleDataFile().names), 1000, File);
    ExampleHasDataFile(e);
  }

  /** A manifest of one snapshot entry stages as that entry, the token list
      and the manifest file. */
  lemma StagedSingleEntry(request: BackupOperationRequest, fs: seq<FsNode>, tokens: seq<string>, files: map<Path, string>, e: ManifestEntry)
    requires ManifestFor(fs, request.keyspaces, request.snapshotTag, DataDirectory(request.cassandraDirectory)) == Ok([e])
    requires ManifestFileTag(request.snapshotTag)
    ensures var m := Stage(request, fs, tokens, files).result;
      && m.Ok? && |m.value| == 3 && m.value[0] == e
      && ToString(m.value[1].objectKey) == "tokens/" + request.snapshotTag + "-tokens.yaml" && m.value[1].entryType == File
      && ToString(m.value[2].objectKey) == "manifests/" + request.snapshotTag && m.value[2].entryType == ManifestFile
  {
    StageSucceeds(request, fs, tokens, files);
    StagedManifestLayout(request, fs, tokens, files);
    var m := Stage(request, fs, tokens, files).result.value;
    assert m[..|m| - 2] == [e];
    assert m[0] == m[..|m| - 2][0];
  }
}
