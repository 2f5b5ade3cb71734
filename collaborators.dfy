/** Stand-ins for the services a backup talks to and whose code is not part
    of this model: the node's `StorageServiceMBean` (reached through
    `CassandraJMXService`), the `BucketService` and the `Backuper`. Each
    records the calls it receives in one journal shared by all of them, and
    fails the calls it is configured to fail, so that the order of the calls
    across services and the handling of their failures can be stated. */
module Collaborators {
  import opened Errors
  import opened Manifest

  /** The `StorageServiceMBean` operations a backup uses. */
  datatype MBeanCall =
    | TakeSnapshot(tag: string, keyspaces: seq<string>)           // takeSnapshot(tag, keyspaces...)
    | TakeTableSnapshot(keyspace: string, table: string, tag: string)  // takeSnapshot(keyspace, table, tag)
    | GetTokens                                                    // getTokens()
    | ClearSnapshot(tag: string)                                   // clearSnapshot(tag)

  predicate IsTake(c: MBeanCall)
  {
    c.TakeSnapshot? || c.TakeTableSnapshot?
  }

  /** `BucketService.createIfMissing(bucket)` and
      `Backuper.uploadOrFreshenFiles(manifest, tracker)`, with the size the
      progress tracker is given. */
  datatype StorageCall =
    | CreateIfMissing(bucket: string)
    | UploadOrFreshenFiles(manifest: seq<ManifestEntry>, total: nat)

  /** One call received by either service. */
  datatype Event =
    | MBean(mbeanCall: MBeanCall)
    | Storage(storageCall: StorageCall)

  /** The calls that reach the services, in the order in which they arrive,
      whichever service receives them. */
  class Journal {
    var events: seq<Event>

    constructor ()
      ensures events == []
    {
      events := [];
    }
  }

  /** The node's storage service: every call is recorded in `journal`;
      taking a snapshot, reading the tokens and clearing a snapshot each
      fail when the matching flag is set. */
  class StorageServiceMBean {
    const journal: Journal
    const takeFails: bool
    const tokensFail: bool
    const clearFails: bool
    const ringTokens: seq<string>

    constructor (journal: Journal, takeFails: bool, tokensFail: bool, clearFails: bool, ringTokens: seq<string>)
      ensures this.journal == journal
      ensures this.takeFails == takeFails && this.tokensFail == tokensFail
      ensures this.clearFails == clearFails && this.ringTokens == ringTokens
    {
      this.journal := journal;
      this.takeFails := takeFails;
      this.tokensFail := tokensFail;
      this.clearFails := clearFails;
      this.ringTokens := ringTokens;
    }

    predicate Fails(c: MBeanCall)
    {
      match c
      case TakeSnapshot(_, _) => takeFails
      case TakeTableSnapshot(_, _, _) => takeFails
      case GetTokens => tokensFail
      case ClearSnapshot(_) => clearFails
    }

    /** A call that returns nothing. */
    method Invoke(c: MBeanCall) returns (o: Outcome)
      modifies journal
      ensures journal.events == old(journal.events) + [MBean(c)]
      ensures o == if Fails(c) then Fail(MBeanFailure) else Pass
    {
      journal.events := journal.events + [MBean(c)];
      o := if Fails(c) then Fail(MBeanFailure) else Pass;
    }

    /** `getTokens()`: the node's ring tokens. */
    method GetRingTokens() returns (r: Result<seq<string>>)
      modifies journal
      ensures journal.events == old(journal.events) + [MBean(GetTokens)]
      ensures r == if tokensFail then Err(MBeanFailure) else Ok(ringTokens)
    {
      journal.events := journal.events + [MBean(GetTokens)];
      r := if tokensFail then Err(MBeanFailure) else Ok(ringTokens);
    }
  }

  /** The storage provider behind the bucket service and the backuper. */
  class StorageBackend {
    const journal: Journal
    const bucketFails: bool
    const uploadFails: bool

    constructor (journal: Journal, bucketFails: bool, uploadFails: bool)
      ensures this.journal == journal && this.bucketFails == bucketFails && this.uploadFails == uploadFails
    {
      this.journal := journal;
      this.bucketFails := bucketFails;
      this.uploadFails := uploadFails;
    }

    method CreateIfMissing(bucket: string) returns (o: Outcome)
      modifies journal
      ensures journal.events == old(journal.events) + [Storage(StorageCall.CreateIfMissing(bucket))]
      ensures o == if bucketFails then Fail(StorageFailure) else Pass
    {
      journal.events := journal.events + [Storage(StorageCall.CreateIfMissing(bucket))];
      o := if bucketFails then Fail(StorageFailure) else Pass;
    }

    method UploadOrFreshenFiles(manifest: seq<ManifestEntry>, total: nat) returns (o: Outcome)
      modifies journal
      ensures journal.events == old(journal.events) + [Storage(StorageCall.UploadOrFreshenFiles(manifest, total))]
      ensures o == if uploadFails then Fail(StorageFailure) else Pass
    {
      journal.events := journal.events + [Storage(StorageCall.UploadOrFreshenFiles(manifest, total))];
      o := if uploadFails then Fail(StorageFailure) else Pass;
    }
  }
}
