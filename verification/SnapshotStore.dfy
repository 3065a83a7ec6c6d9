/**
 The write-once snapshot store (internal/storage/objectstore/files.go).  A file
 appears under its final name in one step; encoding is a function of the records.
 */
module SnapshotStore {
  import opened Common
  import opened Populations

  /** The bytes of a file: the encoding of some records, or anything else. */
  datatype Blob = Encoded(records: seq<Record>) | Foreign(bytes: string)

  datatype ContentHash = Sha256(content: Blob)

  /** `<tenant>/<run>-<hash>.parquet`. */
  datatype Ref = Ref(tenant: string, run: nat, hash: ContentHash)

  type Files = map<Ref, Blob>

  function RefOf(tenant: string, run: nat, records: seq<Record>): Ref {
    Ref(tenant, run, Sha256(Encoded(records)))
  }

  /** `os.Link` fails on an existing name; nothing is overwritten. */
  function Link(files: Files, ref: Ref, blob: Blob): Files {
    if ref in files then files else files[ref := blob]
  }

  /** Every file is stored under the hash of its content. */
  predicate Addressed(files: Files) {
    forall ref :: ref in files ==> Sha256(files[ref]) == ref.hash
  }

  /** What a reader gets for a reference and the hash recorded with it. */
  function Read(files: Files, tenant: string, ref: Ref, hash: ContentHash): Option<Blob> {
    if ref.tenant == tenant && ref in files && Sha256(files[ref]) == hash then Some(files[ref]) else None
  }

  /**
   In a store whose names are the hashes of their contents, the reference of a
   run's snapshot reads as exactly the records it was written from, and only
   for its tenant; until the file is there it reads as nothing.
   */
  lemma {:induction false} SnapshotReads(files: Files, tenant: string, owner: string, run: nat, records: seq<Record>)
    requires Addressed(files)
    ensures var ref := RefOf(owner, run, records);
      Read(files, tenant, ref, ref.hash) == if tenant == owner && ref in files then Some(Encoded(records)) else None
  {
    var ref := RefOf(owner, run, records);
    if ref in files {
      assert Sha256(files[ref]) == ref.hash;
    }
  }

  class Store {
    var files: Files

    constructor ()
      ensures files == map[]
    {
      files := map[];
    }

    /**
     Reuses the snapshot when its name exists, else links a temporary file to
     it.  `raced` is what another writer linked under the name in between.
     */
    method WriteSnapshot(tenant: string, run: nat, records: seq<Record>, raced: Option<Blob>) returns (ref: Option<Ref>)
      modifies this
      ensures forall r :: r in old(files) ==> r in files && files[r] == old(files)[r]
      ensures forall r :: r in files && r !in old(files) ==> r == RefOf(tenant, run, records)
      ensures ref.Some? ==> ref.value == RefOf(tenant, run, records) && ref.value in files
      ensures ref.Some? ==> files[ref.value] == Encoded(records)
      ensures ref.Some? ==> Read(files, tenant, ref.value, ref.value.hash) == Some(Encoded(records))
      ensures Addressed(old(files)) && (raced == None || raced == Some(Encoded(records))) ==> ref.Some?
      ensures raced == None ==> files == Link(old(files), RefOf(tenant, run, records), Encoded(records))
    {
      var blob := Encoded(records);
      var dest := RefOf(tenant, run, records);
      if dest in files {
        return if Sha256(files[dest]) != dest.hash then None else Some(dest);
      }
      if raced.Some? {
        files := files[dest := raced.value];
      }
      if dest !in files {
        files := Link(files, dest, blob);
      } else if Sha256(files[dest]) != dest.hash {
        return None;
      }
      return Some(dest);
    }

    /**
     Reads a snapshot back.  What it gives is the content that the hash was
     taken of and nothing else; and it gives it whenever the tenant's file of
     that name still has that content.
     */
    method ReadSnapshot(tenant: string, ref: Ref, hash: ContentHash) returns (blob: Option<Blob>)
      ensures blob == Read(files, tenant, ref, hash)
      ensures blob.Some? ==> hash == Sha256(blob.value) && ref.tenant == tenant
      ensures forall run, records :: Addressed(files) && ref == RefOf(tenant, run, records) && hash == ref.hash ==>
        blob == (if ref in files then Some(Encoded(records)) else None)
    {
      forall run, records | Addressed(files) && ref == RefOf(tenant, run, records) && hash == ref.hash
        ensures Read(files, tenant, ref, hash) == if ref in files then Some(Encoded(records)) else None
      {
        SnapshotReads(files, tenant, tenant, run, records);
      }
      if ref.tenant != tenant || ref !in files || Sha256(files[ref]) != hash {
        return None;
      }
      return Some(files[ref]);
    }
  }
}
