# Snapshot backup and Azure restore listing, modelled in Dafny

This project models two parts of a Cassandra backup and restore tool.

**One backup run of a node** (`BackupOperation`). The run does the following, in order:

1. It takes the global lock.
2. It takes a snapshot through the node's storage service (JMX) and reads the node's ring tokens.
3. It walks the data directory for snapshot directories, groups them by tag, and builds the manifest from the tag's directories.
4. It stages two files beside the manifest: the token list, and the manifest file that lists every entry before it.
5. It creates the bucket and uploads the manifest.
6. It always clears the snapshot afterwards, even when a step above failed.

An offline run skips the snapshot, the token read and the clear, and uploads with no tokens.

**The Azure restorer's listing** (`AzureRestorer`). It builds the listing prefix `<cluster>/<datacenter>/<node>/<key>`. It strips the anchor `/<bucket>/<cluster>/<datacenter>/<node>/` from each listed URI path, re-resolves the rest into a blob reference, and hands the references to a consumer one by one. It stops at the first item that cannot be resolved.

## Modules

| module | contents |
|---|---|
| `Errors` | the errors that stand for Java exceptions; `Option`, `Result` and `Outcome` values |
| `Strings` | Guava's `Joiner`, splitting, `String.contains`, and rendering a size as decimal |
| `Paths` | the part of `java.nio.file.Path` the code uses: `Paths.get`, `resolve`, `getParent`, `getFileName` and `toString` |
| `Manifest` | manifest entries; the manifest-file and token-list text formats, each with a reader that inverts it |
| `Snapshots` | the snapshot-directory walk, `KeyspaceColumnFamilySnapshot`, grouping by tag, and `generateManifest` |
| `Collaborators` | stand-ins for `StorageServiceMBean`, `BucketService` and `Backuper`, which record their calls in one shared journal |
| `StorageLocation` | the bucket and the cluster, datacenter and node ids |
| `BackupOperation` | `TakeSnapshotOperation`, `ClearSnapshotOperation`, staging of the two files, `executeUpload` and `run0` |
| `AzureRestorer` | the blob container, `objectKeyToRemoteReference` and `consumeFiles` |

Three behaviours of the code worth knowing:

- The token list's manifest entry has type FILE. There is no separate tokens type.
- When the tag has snapshot directories, the requested keyspaces play no part in which directories enter the manifest.
- The `-Data.db` check is a substring test on the whole local path, not on the file name alone.

The model also proves one behaviour of the code as written. With an empty restore key, the listing prefix `<cluster>/<datacenter>/<node>` has no trailing separator, so it also lists the blobs of a sibling node whose id extends this node's id (`n` and `n2`, say). Those paths do not carry this node's anchor. They reach the key parser whole, as absolute paths (`AzureRestorer.SiblingNodeListed`). With a key that has names, every listed blob lies in this node's directory and loses its anchor (`AzureRestorer.KeyedBlobCarriesAnchor`).

## Model

| member | source | states |
|---|---|---|
| Snapshots.Found | src/main/java/com/instaclustr/cassandra/backup/impl/backup/BackupOperation.java:200-202 | every node the walk yields is the data directory or lies below it, at most four levels down, and has a parent named `snapshots` |
| Snapshots.FoundExactly | src/main/java/com/instaclustr/cassandra/backup/impl/backup/BackupOperation.java:200-202 | the walk yields a node exactly when it is in the tree and the match accepts it: under the data directory, at most four levels down, with a parent named `snapshots` |
| Snapshots.FoundAppend | src/main/java/com/instaclustr/cassandra/backup/impl/backup/BackupOperation.java:200-202 | the walk keeps the tree's order: walking two concatenated node sequences gives the two walks' results, one after the other |
| Snapshots.SnapshotOf | src/main/java/com/instaclustr/cassandra/backup/impl/backup/BackupOperation.java:212-219 | a snapshot directory yields a keyspace and a table exactly when its path has at least four names; a shorter path meets a null on the way and fails |
| Snapshots.SnapshotOfIsPathCalls | src/main/java/com/instaclustr/cassandra/backup/impl/backup/BackupOperation.java:215-218 | `SnapshotOf` equals the constructor's chain of path calls, with Java's nulls: the table is the file name of `getParent().getParent()`, and the keyspace is the file name of that directory's parent |
| Snapshots.SnapshotsOf | src/main/java/com/instaclustr/cassandra/backup/impl/backup/BackupOperation.java:203 | mapping the found paths succeeds exactly when every path has at least four names; it then keeps one snapshot per path, in walk order |
| Snapshots.SnapshotLayout | src/main/java/com/instaclustr/cassandra/backup/impl/backup/BackupOperation.java:199-219 | `<data>/<ks>/<tbl>/snapshots/<tag>` is matched by the walk and reads as keyspace `ks`, table `tbl` and tag `tag` |
| Snapshots.WithTag | src/main/java/com/instaclustr/cassandra/backup/impl/backup/BackupOperation.java:204 | a tag's group consists only of well-formed snapshot directories |
| Snapshots.GroupByTag | src/main/java/com/instaclustr/cassandra/backup/impl/backup/BackupOperation.java:204 | a tag has a group exactly when some snapshot directory carries it; the group is exactly that tag's snapshots, in encounter order |
| Snapshots.SnapshotReachesGroup | src/main/java/com/instaclustr/cassandra/backup/impl/backup/BackupOperation.java:199-204 | when every found path has at least four names, a directory `<data>/<ks>/<tbl>/snapshots/<tag>` in the tree lands, as keyspace `ks` and table `tbl`, in the group of its tag |
| Snapshots.WithTagAppend | src/main/java/com/instaclustr/cassandra/backup/impl/backup/BackupOperation.java:204 | grouping keeps order: the group for a concatenated walk is the concatenation of the groups |
| Snapshots.WithTagMembers | src/main/java/com/instaclustr/cassandra/backup/impl/backup/BackupOperation.java:204 | every member of a group carries the group's tag, and every snapshot with that tag is in the group |
| Snapshots.GenerateManifest | src/main/java/com/instaclustr/cassandra/backup/impl/backup/BackupOperation.java:110-155 | the loop builds the decision table's result; an empty manifest comes only from a non-empty keyspace list; a non-empty manifest always has a `-Data.db` file |
| Snapshots.MissingTag | src/main/java/com/instaclustr/cassandra/backup/impl/backup/BackupOperation.java:129-137 | for a tag with no snapshot directory, a non-empty keyspace list gives an empty manifest, and a missing or empty list gives the "of all data." failure |
| Snapshots.PresentTag | src/main/java/com/instaclustr/cassandra/backup/impl/backup/BackupOperation.java:140-154 | for a tag with snapshot directories, whatever keyspaces were asked for, the manifest is the group's table entries, or the "No Data.db SSTables" failure when no local path contains `-Data.db` |
| Snapshots.TableEntriesShape | src/main/java/com/instaclustr/cassandra/backup/impl/backup/BackupOperation.java:144-145 | each table entry is a FILE, keyed `data/<keyspace>/<table>/<file name>`, whose local file is a regular file of the tree directly inside the snapshot directory, with that file's size; every such file has its entry |
| Snapshots.SnapshotEntriesAppend | src/main/java/com/instaclustr/cassandra/backup/impl/backup/BackupOperation.java:140-146 | entries are laid out snapshot by snapshot, in the order of the snapshots |
| Snapshots.SnapshotEntriesUnderTables | src/main/java/com/instaclustr/cassandra/backup/impl/backup/BackupOperation.java:140-146 | every manifest entry is a FILE keyed under `data/<keyspace>/<table>` of one of the snapshots it came from |
| Manifest.ManifestLine | src/main/java/com/instaclustr/cassandra/backup/impl/backup/BackupOperation.java:166 | a manifest line is the entry's size in decimal, one space, then the key text; splitting at the first space gives both back |
| Manifest.ManifestText | src/main/java/com/instaclustr/cassandra/backup/impl/backup/BackupOperation.java:165-167 | the manifest text is empty exactly when there are no entries, and otherwise ends with a line break |
| Manifest.ManifestFileLines | src/main/java/com/instaclustr/cassandra/backup/impl/backup/BackupOperation.java:164-169 | a manifest file has one line per entry, in order, and nothing after the final line break |
| Manifest.ManifestRoundTrip | src/main/java/com/instaclustr/cassandra/backup/impl/backup/BackupOperation.java:164-169 | for keys whose text holds no line break, reading the manifest file back gives each entry's size and key, in the order they were written |
| Manifest.TokenFileRoundTrip | src/main/java/com/instaclustr/cassandra/backup/impl/backup/BackupOperation.java:186-191 | for a non-empty token list whose tokens hold neither `,` nor a line break, the token list is exactly two `#` comment lines and an `initial_token: ` line, and reading it back gives the tokens in order |
| Manifest.TokenFileText | src/main/java/com/instaclustr/cassandra/backup/impl/backup/BackupOperation.java:186-189 | the token list starts with the two comment lines and `initial_token: `, ends with a line break, and is as long as its three lines, the joined tokens and three line breaks |
| Manifest.EmptyTokenFile | src/main/java/com/instaclustr/cassandra/backup/impl/backup/BackupOperation.java:188-190 | with no tokens (the offline run), the token line is `initial_token: ` with nothing after it |
| BackupOperation.SnapshotCall | src/main/java/com/instaclustr/cassandra/backup/impl/backup/BackupOperation.java:295-319 | with a table, exactly one keyspace is required: none gives `NoSuchElement` and several give `IllegalArgument`; the call made is table-level with a table and keyspace-level without one, always for the request's tag |
| BackupOperation.TakeSnapshotOperation.constructor | src/main/java/com/instaclustr/cassandra/backup/impl/backup/BackupOperation.java:328-335 | a null keyspace list is stored as an empty list |
| BackupOperation.TakeSnapshotOperation.Run | src/main/java/com/instaclustr/cassandra/backup/impl/backup/BackupOperation.java:294-320 | a rejected request fails without any MBean call; otherwise exactly the one snapshot call is made, and its failure is the outcome |
| BackupOperation.ClearSnapshotOperation.constructor | src/main/java/com/instaclustr/cassandra/backup/impl/backup/BackupOperation.java:237-243 | a new clear operation has not run |
| BackupOperation.ClearSnapshotOperation.Run | src/main/java/com/instaclustr/cassandra/backup/impl/backup/BackupOperation.java:246-266 | the first run makes one `clearSnapshot(tag)` call and a later run makes none; a failure to clear never reaches the caller |
| BackupOperation.BackupOperation.SaveTokenList | src/main/java/com/instaclustr/cassandra/backup/impl/backup/BackupOperation.java:179-196 | writes the token list at `<shared>/tmp/cassandra-operator/tokens/<tag>-tokens.yaml` and returns its FILE entry keyed `tokens/<tag>-tokens.yaml` |
| BackupOperation.BackupOperation.SaveManifest | src/main/java/com/instaclustr/cassandra/backup/impl/backup/BackupOperation.java:157-177 | the loop writes one line per entry into `<shared>/tmp/cassandra-operator/manifests/<tag>` and returns its MANIFEST_FILE entry keyed `manifests/<tag>` |
| BackupOperation.BackupOperation.ExecuteUpload | src/main/java/com/instaclustr/cassandra/backup/impl/backup/BackupOperation.java:93-108 | stages the manifest; if that worked, it creates the bucket and, if that worked, uploads the whole manifest with a progress total equal to its size |
| BackupOperation.BackupOperation.Run | src/main/java/com/instaclustr/cassandra/backup/impl/backup/BackupOperation.java:62-91 | an unavailable lock stops the run with nothing changed; an offline run makes only the upload's storage calls; an online run's calls, in one journal across both services, are the take and token read, then the upload's calls, then the clear |
| BackupOperation.BackupOperation.RunOnline | src/main/java/com/instaclustr/cassandra/backup/impl/backup/BackupOperation.java:71-90 | the `try` block's calls are followed by the `finally` clear; the files and the outcome are those of staging with the tokens read, or the failure that came first |
| BackupOperation.BackupOperation.TakeAndReadTokens | src/main/java/com/instaclustr/cassandra/backup/impl/backup/BackupOperation.java:72-83 | takes the snapshot and then reads the tokens; the tokens, or the rejection or MBean failure that stopped it, are the ones `OnlineTokens` gives |
| BackupOperation.BackupOperation.UploadWith | src/main/java/com/instaclustr/cassandra/backup/impl/backup/BackupOperation.java:77-86 | with the tokens read, it does what `executeUpload` does; a failure to read them is passed on with no file written and no storage call |
| BackupOperation.ClearAlwaysLast | src/main/java/com/instaclustr/cassandra/backup/impl/backup/BackupOperation.java:73-90 | whatever was staged, an online run's last call to either service is its one and only clear, and its first is the take whenever the request allows one |
| BackupOperation.OnlineUploadOrder | src/main/java/com/instaclustr/cassandra/backup/impl/backup/BackupOperation.java:71-90 | when the run gets through, its calls are the take, `getTokens`, `createIfMissing`, the upload of the whole manifest, and the clear, in that order |
| BackupOperation.NoUploadWithoutTokens | src/main/java/com/instaclustr/cassandra/backup/impl/backup/BackupOperation.java:72-86 | when the take or the token read fails, nothing is staged and every call of the run goes to the MBean |
| BackupOperation.OnlineTokensFailure | src/main/java/com/instaclustr/cassandra/backup/impl/backup/BackupOperation.java:73-86 | an online run stops before the upload exactly when the request is rejected, the take fails or the token read fails; otherwise it uploads with the ring tokens |
| BackupOperation.StageSucceeds | src/main/java/com/instaclustr/cassandra/backup/impl/backup/BackupOperation.java:93-99 | staging yields a manifest exactly when the snapshot manifest can be built and the tag can name the manifest file |
| BackupOperation.StagedManifestLayout | src/main/java/com/instaclustr/cassandra/backup/impl/backup/BackupOperation.java:98-99 | the uploaded manifest is the snapshot entries, then `tokens/<tag>-tokens.yaml` (FILE), then `manifests/<tag>` (MANIFEST_FILE); the staged files hold the token text and the listing of every entry before the manifest file |
| BackupOperation.ExampleManifest | src/main/java/com/instaclustr/cassandra/backup/impl/backup/BackupOperation.java:110-155 | for one table `ks.tbl` whose snapshot `snap1` holds a single 1000-byte data file, the manifest is that one file keyed `data/ks/tbl/<file>` |
| BackupOperation.StagedSingleEntry | src/main/java/com/instaclustr/cassandra/backup/impl/backup/BackupOperation.java:93-99 | when the snapshot manifest is a single entry, exactly three entries are staged: that entry, the token list `tokens/<tag>-tokens.yaml` (FILE) and the manifest `manifests/<tag>` (MANIFEST_FILE), in that order |
| AzureRestorer.AzureRestorer.constructor | src/main/java/com/instaclustr/cassandra/backup/azure/AzureRestorer.java:41-51 | the restorer's container is the one named by the bucket |
| AzureRestorer.BlobContainer.ListingOf | src/main/java/com/instaclustr/cassandra/backup/azure/AzureRestorer.java:96-100 | the listing holds the URI path `/<container>/<name>` of every name that starts with the prefix, and nothing else |
| AzureRestorer.BlobContainer.ListingOfAppend | src/main/java/com/instaclustr/cassandra/backup/azure/AzureRestorer.java:96-100 | the listing keeps the container's order: listing two concatenated name sequences gives the two listings, one after the other |
| AzureRestorer.BlobContainer.ListBlobs | src/main/java/com/instaclustr/cassandra/backup/azure/AzureRestorer.java:96-100 | one flat listing request for the prefix, returning the URI paths of the blobs whose names start with it, in container order |
| AzureRestorer.AzureRestorer.ObjectKeyToRemoteReference | src/main/java/com/instaclustr/cassandra/backup/azure/AzureRestorer.java:66-69 | the reference keeps the key unchanged, its canonical path is `resolveRemotePath(key)` and its blob is that name in the container; it fails exactly when the container rejects the name |
| AzureRestorer.BlobPrefix | src/main/java/com/instaclustr/cassandra/backup/azure/AzureRestorer.java:83-86 | building the prefix fails, with `InvalidPath`, exactly when the cluster, datacenter or node id holds a NUL |
| AzureRestorer.BlobPrefixLayout | src/main/java/com/instaclustr/cassandra/backup/azure/AzureRestorer.java:83-86 | with plain ids, the listing prefix is `<cluster>/<datacenter>/<node>/<key>`, or `<cluster>/<datacenter>/<node>` for an empty key |
| AzureRestorer.KeyedBlobCarriesAnchor | src/main/java/com/instaclustr/cassandra/backup/azure/AzureRestorer.java:83-104 | with plain ids and a key that has names, every blob listed under the prefix has a URI path starting with the anchor, and stripping leaves its name without `<cluster>/<datacenter>/<node>/` |
| AzureRestorer.StripAnchor | src/main/java/com/instaclustr/cassandra/backup/azure/AzureRestorer.java:88-94 | a path that starts with the anchor loses exactly that leading anchor; any other path is unchanged |
| AzureRestorer.StripOnce | src/main/java/com/instaclustr/cassandra/backup/azure/AzureRestorer.java:104 | the anchor followed by `k` gives `k`; a doubled anchor loses only its first copy |
| AzureRestorer.AzureRestorer.ResolveItem | src/main/java/com/instaclustr/cassandra/backup/azure/AzureRestorer.java:104 | an item whose stripped path holds a NUL fails with `InvalidPath`; otherwise it fails exactly when the container rejects the resolved name; a resolved key keeps the stripped path's absoluteness and its canonical path is `resolveRemotePath(key)` |
| AzureRestorer.SiblingNodeListed | src/main/java/com/instaclustr/cassandra/backup/azure/AzureRestorer.java:83-94 | with an empty key, a blob of a node whose id extends this node's id is listed, and its path is left unstripped |
| AzureRestorer.AzureRestorer.Consume | src/main/java/com/instaclustr/cassandra/backup/azure/AzureRestorer.java:102-110 | the consumer never receives more references than there are listed items |
| AzureRestorer.AzureRestorer.ConsumeFiles | src/main/java/com/instaclustr/cassandra/backup/azure/AzureRestorer.java:79-111 | lists once under the node's prefix; the consumer receives exactly the walk's references and the walk's outcome is returned; a prefix that cannot be built fails before the listing |
| AzureRestorer.AzureRestorer.Walk | src/main/java/com/instaclustr/cassandra/backup/azure/AzureRestorer.java:102-110 | the loop over the listing hands the consumer exactly the references `Consume` describes, in order, and ends with its outcome |
| AzureRestorer.AzureRestorer.ConsumeIsGather | src/main/java/com/instaclustr/cassandra/backup/azure/AzureRestorer.java:102-110 | resolving item by item and stopping at the first failure is the same as resolving every item up front and taking the references up to the first failure |
| AzureRestorer.AzureRestorer.ConsumeEveryItem | src/main/java/com/instaclustr/cassandra/backup/azure/AzureRestorer.java:102-104 | the walk finishes exactly when every item resolves; the consumer then gets one reference per item, in listing order |
| AzureRestorer.AzureRestorer.ConsumeFailFast | src/main/java/com/instaclustr/cassandra/backup/azure/AzureRestorer.java:105-109 | on a failure, the items before the failing one were consumed in order, the failing item's error is the outcome, and nothing after it is consumed |
| AzureRestorer.AzureRestorer.ResolveStoredBlob | src/main/java/com/instaclustr/cassandra/backup/azure/AzureRestorer.java:83-104 | a blob stored as `<cluster>/<datacenter>/<node>/<key>` resolves back to the reference of `<key>` |
| AzureRestorer.AzureRestorer.Cleanup | src/main/java/com/instaclustr/cassandra/backup/azure/AzureRestorer.java:114-116 | cleanup changes no state |

## Left out

- File system I/O is not modelled. `Files.find` is a sequence of nodes in walk order. `createDirectories`, `deleteIfExists` and `deleteOnExit` have no counterpart. The staged files are a map from path to text.
- `SSTableUtils.ssTableManifest` is not part of this model. Its stand-in keys each regular file directly inside a snapshot directory as `data/<keyspace>/<table>/<file name>`.
- The node's directories are absolute. `cassandraDirectory` is given by its names.
- Entry sizes of the two staged files are their character counts. This equals their byte counts only when the text is ASCII.
- A tag that cannot serve as a single file name fails staging with `FileFailure`. This covers a tag that is empty, is `.` or `..`, or holds `/` or NUL. Java could fail differently, or write the file somewhere else.
- `GlobalLock` is a flag passed to the run. When the run waits for the lock, the model treats the lock as acquired. The source never releases the lock, so neither does the model.
- The JMX service, the bucket service and the backuper are call-recording stand-ins. Their exceptions are the errors `MBeanFailure` and `StorageFailure`.
- The stand-ins record every call into one journal, in the order of arrival. A run is stated for a JMX service and a storage provider that share that journal.
- `println` and `%n` write the platform's line separator. The model always writes `\n`, as on Unix.
- Looking up the bucket-service and backuper factories by provider is not modelled. Neither is closing them.
- The progress tracker appears only as the total it is given.
- Logging is not modelled.
- Concurrency inside `uploadOrFreshenFiles` is not modelled.
- The Azure pattern is matched as a literal anchor. Ids holding regular-expression metacharacters behave differently in Java, and may not compile as a pattern at all.
- `listBlobs` is a flat prefix filter over the container's blob names. It yields `/<container>/<name>` URI paths. Percent-encoding is not modelled.
- `getBlockBlobReference` rejects a given set of names. Those names stand for its `StorageException` and `URISyntaxException`.
- The consumer never fails. In Java, an exception from the consumer would also end the walk.
- An `InvalidPathException` from `Paths.get` ends the walk like a resolution failure, but it is not logged first.
- `AzureRestorer.downloadFile`, the constructors' credential factory and `Restorer.resolveRemotePath` are not part of this model. `resolveRemotePath` is a function given to the restorer.
- Object keys are not proved unique within one manifest: the walk admits layouts where two snapshot directories give the same keyspace and table.
- AzureRestorer.AzureRestorer.Consume: its own contract only bounds the number of references. What it computes is stated by ConsumeEveryItem and ConsumeFailFast.
