/**
 * `move_file`: moves the blob named by the message's `file_name` attribute from the
 * bucket in SOURCE_BUCKET to the bucket in DESTINATION_BUCKET, copying first and deleting
 * the source only after the copy returned.
 */
module Mover {
  import opened Base
  import Paths

  /** Every bucket of the project and the names of the blobs in it. */
  type Buckets = map<string, set<string>>

  /** The exceptions `move_file` can end with. */
  datatype MoveFault =
    | MissingFileName                   // data['attributes']['file_name']: KeyError
    | UnsetVariable(variable: string)   // os.getenv gives None: None.split is an AttributeError
    | NoScheme(variable: string)        // split('gs://')[1]: IndexError
    | NoSuchBucket(bucket: string)      // CS.get_bucket: NotFound
    | CopyFailed                        // copy_blob raised
    | DeleteFailed                      // delete raised

  /** Failures of the storage service itself, which the model takes as given. */
  datatype ServiceFaults = ServiceFaults(copyFails: bool, deleteFails: bool)

  datatype MoveStep = MoveStep(buckets: Buckets, fault: Option<MoveFault>)

  const FileNameAttribute: string := "file_name"

  /** `CS.get_bucket(os.getenv(variable).split('gs://')[1])`. */
  function ResolveBucket(buckets: Buckets, variable: string, value: Option<string>): (r: Result<string, MoveFault>)
    ensures r.Ok? ==> r.value in buckets
    ensures r.Ok? <==> value.Some? && Paths.BucketName(value.value).Some? && Paths.BucketName(value.value).value in buckets
    ensures r.Ok? ==> r.value == Paths.BucketName(value.value).value
  {
    match value
    case None => Err(UnsetVariable(variable))
    case Some(v) =>
      match Paths.BucketName(v)
      case None => Err(NoScheme(variable))
      case Some(b) => if b in buckets then Ok(b) else Err(NoSuchBucket(b))
  }

  /**
   * The whole of `move_file` on the buckets. No bucket appears or disappears, and no blob
   * other than the named file is touched; without a file name nothing changes.
   */
  function Move(buckets: Buckets, attributes: map<string, string>, source: Option<string>,
                destination: Option<string>, faults: ServiceFaults): (s: MoveStep)
    ensures s.buckets.Keys == buckets.Keys
    ensures FileNameAttribute !in attributes ==> s == MoveStep(buckets, Some(MissingFileName))
    ensures FileNameAttribute in attributes ==>
      forall b, x :: b in buckets && x != attributes[FileNameAttribute] ==>
        (x in s.buckets[b] <==> x in buckets[b])
  {
    if FileNameAttribute !in attributes then MoveStep(buckets, Some(MissingFileName))
    else
      var name := attributes[FileNameAttribute];
      match ResolveBucket(buckets, "SOURCE_BUCKET", source)
      case Err(f) => MoveStep(buckets, Some(f))
      case Ok(src) =>
        match ResolveBucket(buckets, "DESTINATION_BUCKET", destination)
        case Err(f) => MoveStep(buckets, Some(f))
        case Ok(dst) =>
          if name !in buckets[src] || faults.copyFails then MoveStep(buckets, Some(CopyFailed))
          else
            var copied := buckets[dst := buckets[dst] + {name}];
            if faults.deleteFails then MoveStep(copied, Some(DeleteFailed))
            else MoveStep(copied[src := copied[src] - {name}], None)
  }

  /**
   * Copy before delete: whatever fails up to and including the copy leaves every bucket
   * as it was; a failed delete leaves the blob in both buckets; only a move that raised
   * nothing changes the source bucket.
   */
  lemma CopyBeforeDelete(buckets: Buckets, attributes: map<string, string>, source: Option<string>,
                         destination: Option<string>, faults: ServiceFaults)
    ensures var s := Move(buckets, attributes, source, destination, faults);
      && (s.fault.Some? && s.fault != Some(DeleteFailed) ==> s.buckets == buckets)
      && (s.fault == Some(DeleteFailed) ==>
            var name := attributes[FileNameAttribute];
            var src := Paths.BucketName(source.value).value;
            var dst := Paths.BucketName(destination.value).value;
            && s.buckets == buckets[dst := buckets[dst] + {name}]
            && name in s.buckets[src] && name in s.buckets[dst])
  {
  }

  /**
   * With the usual environment values `gs://<src>` and `gs://<dst>` for two existing
   * buckets and a blob present in the source: the move succeeds iff the service does not
   * fail, and then the blob is in the destination and (for distinct buckets) no longer in
   * the source, with every other bucket unchanged.
   */
  lemma MoveSucceeds(buckets: Buckets, name: string, src: string, dst: string, faults: ServiceFaults)
    requires forall k: nat :: !Paths.OccursAt(src, Paths.Scheme, k)
    requires forall k: nat :: !Paths.OccursAt(dst, Paths.Scheme, k)
    requires src in buckets && dst in buckets && name in buckets[src]
    ensures var s := Move(buckets, map[FileNameAttribute := name], Some(Paths.Scheme + src),
                          Some(Paths.Scheme + dst), faults);
      && (s.fault.None? <==> !faults.copyFails && !faults.deleteFails)
      && (s.fault.None? ==>
            && s.buckets.Keys == buckets.Keys
            && (src != dst ==> name in s.buckets[dst] && name !in s.buckets[src])
            && (src != dst ==> s.buckets[src] == buckets[src] - {name})
            && (src != dst ==> s.buckets[dst] == buckets[dst] + {name})
            && (forall b :: b in buckets && b != src && b != dst ==> s.buckets[b] == buckets[b]))
  {
    Paths.BucketNameOfUrl(src);
    Paths.BucketNameOfUrl(dst);
  }

  /**
   * When both variables name the same bucket, the copy is onto the blob itself and the
   * delete that follows removes it: a "successful" move loses the file.
   */
  lemma SameBucketLosesBlob(buckets: Buckets, name: string, bucket: string)
    requires forall k: nat :: !Paths.OccursAt(bucket, Paths.Scheme, k)
    requires bucket in buckets && name in buckets[bucket]
    ensures var s := Move(buckets, map[FileNameAttribute := name], Some(Paths.Scheme + bucket),
                          Some(Paths.Scheme + bucket), ServiceFaults(false, false));
      s.fault.None? && name !in s.buckets[bucket]
  {
    Paths.BucketNameOfUrl(bucket);
  }

  /** The object store the mover acts on. */
  class ObjectStore {
    var buckets: Buckets

    constructor (buckets: Buckets)
      ensures this.buckets == buckets
    {
      this.buckets := buckets;
    }

    /** `source_bucket.copy_blob(source_blob, destination_bucket, name)`. */
    method CopyBlob(src: string, dst: string, name: string, fails: bool) returns (ok: bool)
      requires src in buckets && dst in buckets
      modifies this
      ensures ok <==> name in old(buckets)[src] && !fails
      ensures buckets == if ok then old(buckets)[dst := old(buckets)[dst] + {name}] else old(buckets)
    {
      ok := name in buckets[src] && !fails;
      if ok {
        buckets := buckets[dst := buckets[dst] + {name}];
      }
    }

    /** `source_blob.delete()`: raises for an absent blob (NotFound) or a service failure. */
    method DeleteBlob(src: string, name: string, fails: bool) returns (ok: bool)
      requires src in buckets
      modifies this
      ensures ok <==> name in old(buckets)[src] && !fails
      ensures buckets == if ok then old(buckets)[src := old(buckets)[src] - {name}] else old(buckets)
    {
      ok := name in buckets[src] && !fails;
      if ok {
        buckets := buckets[src := buckets[src] - {name}];
      }
    }

    /** `move_file(data, context)`, with the environment and service failures as parameters. */
    method MoveFile(attributes: map<string, string>, source: Option<string>, destination: Option<string>,
                    faults: ServiceFaults) returns (fault: Option<MoveFault>)
      modifies this
      ensures var s := Move(old(buckets), attributes, source, destination, faults);
        buckets == s.buckets && fault == s.fault
    {
      if FileNameAttribute !in attributes {
        return Some(MissingFileName);
      }
      var name := attributes[FileNameAttribute];
      var src := ResolveBucket(buckets, "SOURCE_BUCKET", source);
      if src.Err? {
        return Some(src.error);
      }
      var dst := ResolveBucket(buckets, "DESTINATION_BUCKET", destination);
      if dst.Err? {
        return Some(dst.error);
      }
      var copied := CopyBlob(src.value, dst.value, name, faults.copyFails);
      if !copied {
        return Some(CopyFailed);
      }
      var deleted := DeleteBlob(src.value, name, faults.deleteFails);
      fault := if deleted then None else Some(DeleteFailed);
    }
  }
}
