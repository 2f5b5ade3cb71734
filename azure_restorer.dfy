/** The Azure side of a restore (`AzureRestorer`): mapping an object key to
    a block blob reference, and walking the blobs under a node's prefix,
    handing each one, resolved back to its key, to a consumer. */
module AzureRestorer {
  import opened Errors
  import opened Strings
  import opened Paths
  import opened StorageLocation

  /** A `CloudBlockBlob`: a blob of a container, by name. */
  datatype BlockBlob = BlockBlob(container: string, name: string)

  /** `AzureRemoteObjectReference`: the object key relative to the node,
      the canonical remote path, and the blob it denotes. */
  datatype RemoteObjectReference = RemoteObjectReference(objectKey: Path, canonicalPath: string, blob: BlockBlob)

  /** The blob container named by the bucket. It holds blobs by name;
      `getBlockBlobReference` rejects the names in `rejected` (with a
      `StorageException` or a `URISyntaxException`), and every listing
      request is logged in `listings`. */
  class BlobContainer {
    const name: string
    const blobs: seq<string>
    const rejected: set<string>
    var listings: seq<string>

    constructor (name: string, blobs: seq<string>, rejected: set<string>)
      ensures this.name == name && this.blobs == blobs && this.rejected == rejected && listings == []
    {
      this.name := name;
      this.blobs := blobs;
      this.rejected := rejected;
      listings := [];
    }

    /** The URI path `/<container>/<blob name>` of every blob whose name
        starts with `prefix`, in the container's order (a flat listing). */
    function Listing(prefix: string): (items: seq<string>)
    {
      ListingOf(blobs, prefix)
    }

    /** The URI paths of the names that start with `prefix`, kept in the
        order of `names` (ListingOfAppend). */
    function ListingOf(names: seq<string>, prefix: string): (items: seq<string>)
      ensures forall n :: n in names && StartsWith(n, prefix) ==> UriPath(name, n) in items
      ensures forall x :: x in items ==> exists n :: n in names && StartsWith(n, prefix) && x == UriPath(name, n)
    {
      if names == [] then []
      else
        var rest := ListingOf(names[1..], prefix);
        if StartsWith(names[0], prefix) then [UriPath(name, names[0])] + rest else rest
    }

    lemma {:induction false} ListingOfAppend(a: seq<string>, b: seq<string>, prefix: string)
      ensures ListingOf(a + b, prefix) == ListingOf(a, prefix) + ListingOf(b, prefix)
    {
      if a == [] {
        assert a + b == b;
      } else {
        assert (a + b)[1..] == a[1..] + b;
        ListingOfAppend(a[1..], b, prefix);
        var x := [UriPath(name, a[0])];
        assert x + (ListingOf(a[1..], prefix) + ListingOf(b, prefix)) == (x + ListingOf(a[1..], prefix)) + ListingOf(b, prefix);
      }
    }

    /** `listBlobs(prefix, true, ...)`. */
    method ListBlobs(prefix: string) returns (items: seq<string>)
      modifies this
      ensures listings == old(listings) + [prefix]
      ensures items == Listing(prefix)
    {
      listings := listings + [prefix];
      items := Listing(prefix);
    }
  }

  function UriPath(container: string, blobName: string): string
  {
    "/" + container + "/" + blobName
  }

  /** The consumer handed to `consumeFiles`: it keeps what it is given. */
  class Consumer {
    var accepted: seq<RemoteObjectReference>

    constructor ()
      ensures accepted == []
    {
      accepted := [];
    }

    method Accept(r: RemoteObjectReference)
      modifies this
      ensures accepted == old(accepted) + [r]
    {
      accepted := accepted + [r];
    }
  }

  /** `Paths.get(clusterId).resolve(datacenterId).resolve(nodeId).resolve(objectKey).toString()`. */
  function BlobPrefix(location: StorageLocation, objectKey: Path): (r: Result<string>)
    ensures r.Err? <==> '\0' in location.clusterId || '\0' in location.datacenterId || '\0' in location.nodeId
    ensures r.Err? ==> r.error == InvalidPath
  {
    var cluster :- Parse(location.clusterId);
    var datacenter :- Parse(location.datacenterId);
    var node :- Parse(location.nodeId);
    Ok(ToString(Resolve(Resolve(Resolve(cluster, datacenter), node), objectKey)))
  }

  /** The text the pattern `^/<bucket>/<cluster>/<datacenter>/<node>/`
      matches, taking each id literally. */
  function Anchor(location: StorageLocation): string
  {
    "/" + location.bucket + "/" + location.clusterId + "/" + location.datacenterId + "/" + location.nodeId + "/"
  }

  /** `matcher(path).replaceFirst("")` for a pattern anchored at the start:
      the anchor is removed once, and only from the front. */
  function StripAnchor(anchor: string, path: string): (r: string)
    ensures StartsWith(path, anchor) ==> path == anchor + r
    ensures !StartsWith(path, anchor) ==> r == path
  {
    if StartsWith(path, anchor) then path[|anchor|..] else path
  }

  /** The outcome of `consumeFiles` over a listing: the references the
      consumer received, and whether the walk finished. */
  datatype Consumption = Consumption(consumed: seq<RemoteObjectReference>, outcome: Outcome)

  /** Hands the references over in order until the first failure. */
  function Gather(rs: seq<Result<RemoteObjectReference>>): Consumption
  {
    if rs == [] then Consumption([], Pass)
    else match rs[0]
      case Err(e) => Consumption([], Fail(e))
      case Ok(r) =>
        var rest := Gather(rs[1..]);
        Consumption([r] + rest.consumed, rest.outcome)
  }

  // The steps of the walk, one item at a time: `done` holds what the
  // consumer has received, and the items from `i` on are still to come.

  lemma GatherStops(rs: seq<Result<RemoteObjectReference>>, i: nat, done: seq<RemoteObjectReference>)
    requires i < |rs| && rs[i].Err?
    requires Gather(rs) == Consumption(done + Gather(rs[i..]).consumed, Gather(rs[i..]).outcome)
    ensures Gather(rs) == Consumption(done, Fail(rs[i].error))
  {
    assert rs[i..][0] == rs[i];
    assert done + [] == done;
  }

  lemma GatherGoesOn(rs: seq<Result<RemoteObjectReference>>, i: nat, done: seq<RemoteObjectReference>)
    requires i < |rs| && rs[i].Ok?
    requires Gather(rs) == Consumption(done + Gather(rs[i..]).consumed, Gather(rs[i..]).outcome)
    ensures Gather(rs) == Consumption((done + [rs[i].value]) + Gather(rs[i + 1..]).consumed, Gather(rs[i + 1..]).outcome)
  {
    assert rs[i..][0] == rs[i];
    assert rs[i..][1..] == rs[i + 1..];
    var later := Gather(rs[i + 1..]).consumed;
    assert done + ([rs[i].value] + later) == (done + [rs[i].value]) + later;
  }

  lemma GatherEnds(rs: seq<Result<RemoteObjectReference>>, done: seq<RemoteObjectReference>)
    requires Gather(rs) == Consumption(done + Gather(rs[|rs|..]).consumed, Gather(rs[|rs|..]).outcome)
    ensures Gather(rs) == Consumption(done, Pass)
  {
    assert rs[|rs|..] == [];
    assert done + [] == done;
  }

  class AzureRestorer {
    const location: StorageLocation
    const container: BlobContainer
    /** `Restorer.resolveRemotePath`, whose code is not part of this model. */
    const resolveRemotePath: Path -> string

    constructor (location: StorageLocation, blobs: seq<string>, rejected: set<string>, resolveRemotePath: Path -> string)
      ensures this.location == location && this.resolveRemotePath == resolveRemotePath
      ensures fresh(container) && container.name == location.bucket
      ensures container.blobs == blobs && container.rejected == rejected && container.listings == []
    {
      this.location := location;
      this.resolveRemotePath := resolveRemotePath;
      container := new BlobContainer(location.bucket, blobs, rejected);
    }

    /** `objectKeyToRemoteReference`: the key is kept as given, the
        canonical path is `resolveRemotePath(key)`, and the blob is the one
        of that name, unless the container rejects the name. */
    function ObjectKeyToRemoteReference(objectKey: Path): (r: Result<RemoteObjectReference>)
      ensures r.Err? <==> resolveRemotePath(objectKey) in container.rejected
      ensures r.Err? ==> r.error == BlobReferenceFailure
      ensures r.Ok? ==> && r.value.objectKey == objectKey
                        && r.value.canonicalPath == resolveRemotePath(objectKey)
                        && r.value.blob == BlockBlob(container.name, r.value.canonicalPath)
    {
      var canonicalPath := resolveRemotePath(objectKey);
      if canonicalPath in container.rejected then Err(BlobReferenceFailure)
      else Ok(RemoteObjectReference(objectKey, canonicalPath, BlockBlob(container.name, canonicalPath)))
    }

    /** One listed item: strip the anchor, parse the rest as a path, and
        make a reference of it. */
    function ResolveItem(uriPath: string): (r: Result<RemoteObjectReference>)
      ensures '\0' in StripAnchor(Anchor(location), uriPath) ==> r == Err(InvalidPath)
      ensures '\0' !in StripAnchor(Anchor(location), uriPath) ==>
        (r.Err? <==> resolveRemotePath(Parse(StripAnchor(Anchor(location), uriPath)).value) in container.rejected)
      ensures r.Ok? ==> && PlainNames(r.value.objectKey.names)
                        && r.value.objectKey.absolute == StartsWith(StripAnchor(Anchor(location), uriPath), "/")
                        && r.value.canonicalPath == resolveRemotePath(r.value.objectKey)
    {
      var key :- Parse(StripAnchor(Anchor(location), uriPath));
      ObjectKeyToRemoteReference(key)
    }

    /** The walk over a listing: each item in turn reaches the consumer
        once resolved; the first item that fails to resolve ends it. */
    function Consume(items: seq<string>): (c: Consumption)
      ensures |c.consumed| <= |items|
    {
      if items == [] then Consumption([], Pass)
      else match ResolveItem(items[0])
        case Err(e) => Consumption([], Fail(e))
        case Ok(r) =>
          var rest := Consume(items[1..]);
          Consumption([r] + rest.consumed, rest.outcome)
    }

    /** Every item of a listing, resolved. */
    function ResolveAll(items: seq<string>): (rs: seq<Result<RemoteObjectReference>>)
      ensures |rs| == |items|
      ensures forall i :: 0 <= i < |items| ==> rs[i] == ResolveItem(items[i])
    {
      if items == [] then [] else [ResolveItem(items[0])] + ResolveAll(items[1..])
    }

    /** The walk reads the resolved items in order and stops at the first
        failure, exactly as Consume does. */
    lemma {:induction false} ConsumeIsGather(items: seq<string>)
      ensures Consume(items) == Gather(ResolveAll(items))
    {
      if items != [] {
        ConsumeIsGather(items[1..]);
        assert ResolveAll(items)[1..] == ResolveAll(items[1..]);
      }
    }

    /** `consumeFiles`. A prefix that cannot be built (an id holding a NUL)
        fails before the listing. */
    method ConsumeFiles(prefix: RemoteObjectReference, consumer: Consumer) returns (o: Outcome)
      modifies container, consumer
      ensures BlobPrefix(location, prefix.objectKey).Err? ==>
        && o == Fail(BlobPrefix(location, prefix.objectKey).error)
        && container.listings == old(container.listings) && consumer.accepted == old(consumer.accepted)
      ensures BlobPrefix(location, prefix.objectKey).Ok? ==>
        var items := container.Listing(BlobPrefix(location, prefix.objectKey).value);
        && container.listings == old(container.listings) + [BlobPrefix(location, prefix.objectKey).value]
        && consumer.accepted == old(consumer.accepted) + Consume(items).consumed
        && o == Consume(items).outcome
    {
      var blobPrefix := BlobPrefix(location, prefix.objectKey);
      if blobPrefix.Err? {
        return Fail(blobPrefix.error);
      }
      var items := container.ListBlobs(blobPrefix.value);
      o := Walk(items, consumer);
    }

    /** The loop of `consumeFiles`: resolve each listed item and hand it to
        the consumer, stopping at the first item that fails. */
    method Walk(items: seq<string>, consumer: Consumer) returns (o: Outcome)
      modifies consumer
      ensures consumer.accepted == old(consumer.accepted) + Consume(items).consumed
      ensures o == Consume(items).outcome
    {
      ghost var rs := ResolveAll(items);
      ConsumeIsGather(items);
      var i := 0;
      ghost var done: seq<RemoteObjectReference> := [];
      while i < |items|
        invariant 0 <= i <= |items|
        invariant consumer.accepted == old(consumer.accepted) + done
        invariant Gather(rs) == Consumption(done + Gather(rs[i..]).consumed, Gather(rs[i..]).outcome)
      {
        var r := ResolveItem(items[i]);
        if r.Err? {
          GatherStops(rs, i, done);
          return Fail(r.error);
        }
        GatherGoesOn(rs, i, done);
        consumer.Accept(r.value);
        done := done + [r.value];
        i := i + 1;
      }
      GatherEnds(rs, done);
      return Pass;
    }

    /** `cleanup`: there is nothing to release. */
    method Cleanup()
      ensures unchanged(this, container)
    {
    }

    // -------------------------------------------------------------- lemmas

    /** The walk finishes exactly when every item resolves, and then the
        consumer has received one reference per item, in listing order. */
    lemma {:induction false} ConsumeEveryItem(items: seq<string>)
      ensures Consume(items).outcome.Pass? <==> forall i :: 0 <= i < |items| ==> ResolveItem(items[i]).Ok?
      ensures Consume(items).outcome.Pass? ==>
        && |Consume(items).consumed| == |items|
        && forall i :: 0 <= i < |items| ==> Consume(items).consumed[i] == ResolveItem(items[i]).value
    {
      if items != [] {
        ConsumeEveryItem(items[1..]);
        if ResolveItem(items[0]).Ok? {
          forall i | 1 <= i < |items|
            ensures ResolveItem(items[i]) == ResolveItem(items[1..][i - 1])
          {
          }
        }
      }
    }

    /** Fail-fast: on a failure, the items before the failing one reached
        the consumer, in order, the failing item's error is the outcome, and
        nothing after it was consumed. */
    lemma {:induction false} ConsumeFailFast(items: seq<string>)
      requires Consume(items).outcome.Fail?
      ensures var k := |Consume(items).consumed|;
        && k < |items|
        && (forall j :: 0 <= j < k ==> ResolveItem(items[j]) == Ok(Consume(items).consumed[j]))
        && ResolveItem(items[k]) == Err(Consume(items).outcome.error)
    {
      if ResolveItem(items[0]).Ok? {
        ConsumeFailFast(items[1..]);
        var k := |Consume(items).consumed|;
        forall j | 1 <= j < k
          ensures ResolveItem(items[j]) == Ok(Consume(items).consumed[j])
        {
          assert items[j] == items[1..][j - 1];
        }
        assert items[k] == items[1..][k - 1];
      }
    }

    /** A blob stored under this node, `<cluster>/<datacenter>/<node>/<key>`,
        is listed as a URI path that resolves to the key's reference. */
    lemma ResolveStoredBlob(key: Path)
      requires container.name == location.bucket
      requires IsName(location.clusterId) && IsName(location.datacenterId) && IsName(location.nodeId)
      requires !key.absolute && key.names != [] && PlainNames(key.names)
      ensures var blob := location.clusterId + "/" + location.datacenterId + "/" + location.nodeId + "/" + ToString(key);
        ResolveItem(UriPath(container.name, blob)) == ObjectKeyToRemoteReference(key)
    {
      var anchor := Anchor(location);
      var blob := location.clusterId + "/" + location.datacenterId + "/" + location.nodeId + "/" + ToString(key);
      var item := UriPath(container.name, blob);
      assert item == anchor + ToString(key);
      assert StartsWith(item, anchor);
      assert StripAnchor(anchor, item) == ToString(key);
      ParseToString(key);
    }
  }

  // ---------------------------------------------------------------- lemmas

  /** The anchor is removed at most once: a path that repeats it keeps the
      second copy. */
  lemma StripOnce(anchor: string, rest: string)
    ensures StripAnchor(anchor, anchor + rest) == rest
    ensures StripAnchor(anchor, anchor + anchor + rest) == anchor + rest
  {
    assert (anchor + rest)[..|anchor|] == anchor;
    assert (anchor + anchor + rest)[..|anchor|] == anchor;
    assert (anchor + anchor + rest)[|anchor|..] == anchor + rest;
  }

  lemma ParseName(s: string)
    requires IsName(s)
    ensures Parse(s) == Ok(Path(false, [s]))
  {
    ParseToString(Path(false, [s]));
    assert ToString(Path(false, [s])) == s;
  }

  /** With plain ids the listing prefix is
      `<cluster>/<datacenter>/<node>/<key>`, and just
      `<cluster>/<datacenter>/<node>` for an empty key. */
  lemma BlobPrefixLayout(location: StorageLocation, objectKey: Path)
    requires IsName(location.clusterId) && IsName(location.datacenterId) && IsName(location.nodeId)
    requires !objectKey.absolute
    ensures BlobPrefix(location, objectKey).Ok?
    ensures var node := location.clusterId + "/" + location.datacenterId + "/" + location.nodeId;
      BlobPrefix(location, objectKey).value == if objectKey.names == [] then node else node + "/" + ToString(objectKey)
  {
    ParseName(location.clusterId);
    ParseName(location.datacenterId);
    ParseName(location.nodeId);
    var ids := [location.clusterId, location.datacenterId, location.nodeId];
    assert Join(ids, '/') == location.clusterId + "/" + location.datacenterId + "/" + location.nodeId by {
      assert Join(ids[1..], '/') == location.datacenterId + "/" + location.nodeId by {
        assert ids[1..][1..] == [location.nodeId];
      }
    }
    var resolved := Resolve(Resolve(Resolve(Path(false, [location.clusterId]), Path(false, [location.datacenterId])), Path(false, [location.nodeId])), objectKey);
    assert resolved == Path(false, ids + objectKey.names);
    assert BlobPrefix(location, objectKey).value == Join(ids + objectKey.names, '/');
    if objectKey.names == [] {
      assert ids + objectKey.names == ids;
    } else {
      JoinAppend(ids, objectKey.names, '/');
    }
  }

  /** With a key that has names, every blob listed under the prefix lies
      in this node's directory: its URI path carries the anchor, and
      stripping the anchor leaves the blob name without the node's
      `<cluster>/<datacenter>/<node>/`. */
  lemma KeyedBlobCarriesAnchor(location: StorageLocation, objectKey: Path, blob: string)
    requires IsName(location.clusterId) && IsName(location.datacenterId) && IsName(location.nodeId)
    requires !objectKey.absolute && objectKey.names != []
    requires StartsWith(blob, BlobPrefix(location, objectKey).value)
    ensures StartsWith(UriPath(location.bucket, blob), Anchor(location))
    ensures StripAnchor(Anchor(location), UriPath(location.bucket, blob))
      == blob[|location.clusterId + "/" + location.datacenterId + "/" + location.nodeId + "/"|..]
  {
    BlobPrefixLayout(location, objectKey);
    var node := location.clusterId + "/" + location.datacenterId + "/" + location.nodeId;
    var dir := node + "/";
    assert node + "/" + ToString(objectKey) == dir + ToString(objectKey);
    assert blob[..|dir|] == (dir + ToString(objectKey))[..|dir|] == dir;
    var head := "/" + location.bucket + "/";
    assert Anchor(location) == head + dir;
    assert UriPath(location.bucket, blob) == head + blob;
    assert head + blob == (head + dir) + blob[|dir|..] by {
      assert blob == dir + blob[|dir|..];
    }
    assert (head + dir + blob[|dir|..])[..|head + dir|] == head + dir;
  }

  /** Two texts that share a head and then differ at the next character
      are not prefixes of one another. */
  lemma DivergeAfter(head: string, a: string, b: string)
    requires a != [] && b != [] && a[0] != b[0]
    ensures !StartsWith(head + a, head + b)
  {
    if |head + b| <= |head + a| {
      assert (head + a)[|head|] == a[0];
      assert (head + b)[|head|] == b[0];
    }
  }

  /** With an empty key the prefix has no trailing separator, so a blob of
      a sibling node whose id extends this node's id is listed too; its
      path does not carry this node's anchor and reaches the key parser
      whole, as an absolute path. */
  lemma SiblingNodeListed(location: StorageLocation, suffix: string, rest: string)
    requires IsName(location.clusterId) && IsName(location.datacenterId) && IsName(location.nodeId)
    requires suffix != [] && suffix[0] != '/'
    ensures var blob := location.clusterId + "/" + location.datacenterId + "/" + location.nodeId + suffix + "/" + rest;
      && StartsWith(blob, BlobPrefix(location, Path(false, [])).value)
      && !StartsWith(UriPath(location.bucket, blob), Anchor(location))
      && StripAnchor(Anchor(location), UriPath(location.bucket, blob)) == UriPath(location.bucket, blob)
  {
    BlobPrefixLayout(location, Path(false, []));
    SiblingText(location.bucket, location.clusterId, location.datacenterId, location.nodeId, suffix, rest);
  }

  /** The text behind SiblingNodeListed: a node path followed by a tail that
      does not start with a separator. */
  lemma SiblingText(bucket: string, cluster: string, datacenter: string, node: string, suffix: string, rest: string)
    requires suffix != [] && suffix[0] != '/'
    ensures StartsWith(cluster + "/" + datacenter + "/" + node + suffix + "/" + rest, cluster + "/" + datacenter + "/" + node)
    ensures !StartsWith(UriPath(bucket, cluster + "/" + datacenter + "/" + node + suffix + "/" + rest),
                        "/" + bucket + "/" + cluster + "/" + datacenter + "/" + node + "/")
  {
    var ids := cluster + "/" + datacenter + "/" + node;
    var tail := suffix + "/" + rest;
    var blob := cluster + "/" + datacenter + "/" + node + suffix + "/" + rest;
    assert blob == ids + tail;
    assert blob[..|ids|] == ids;
    var head := "/" + bucket + "/" + ids;
    assert UriPath(bucket, blob) == head + tail;
    assert "/" + bucket + "/" + cluster + "/" + datacenter + "/" + node + "/" == head + "/";
    DivergeAfter(head, tail, "/");
  }
}
