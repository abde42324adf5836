/**
 * The snapshot cache on a blob store: one blob per document, its version in the metadata, read in two
 * calls between which other replicas may overwrite or delete it.
 */
module SnapshotCaches {
  import opened Wrappers

  const GET_ATTEMPTS := 3

  /** The version entry of a blob's metadata, as far as converting it to a number can tell. */
  datatype Metadata = Missing | Blank | NotNumeric | Numeric(value: int)

  datatype Write<Bytes> = Put(version: Metadata, bytes: Bytes) | Delete

  datatype Blob<Bytes> = Blob(version: Metadata, bytes: Bytes, etag: nat)

  datatype StorageError = StorageError(status: Option<int>, code: Option<string>, detail: Option<string>)

  function CodeOf(e: StorageError): Option<string> {
    if e.detail.Some? then e.detail else e.code
  }

  predicate IsNotFound(e: StorageError) {
    e.status == Some(404) || CodeOf(e) == Some("BlobNotFound") || CodeOf(e) == Some("ContainerNotFound")
  }

  /** A code, when there is one, decides alone; the empty string counts as none. */
  predicate IsPreconditionFailed(e: StorageError) {
    var code := CodeOf(e);
    if code.Some? && code.value != "" then code.value == "ConditionNotMet" else e.status == Some(412)
  }

  const BLOB_NOT_FOUND := StorageError(Some(404), Some("BlobNotFound"), None)
  const CONDITION_NOT_MET := StorageError(Some(412), Some("ConditionNotMet"), None)

  /** The code in the details goes before the one beside them. */
  lemma ErrorsAreTold(status: Option<int>, code: Option<string>, detail: string, other: Option<string>)
    requires detail != ""
    ensures IsNotFound(StorageError(Some(404), code, other))
    ensures status != Some(404) ==>
      && (IsNotFound(StorageError(status, code, Some(detail))) <==> detail in {"BlobNotFound", "ContainerNotFound"})
      && (IsNotFound(StorageError(status, code, None)) <==> code in {Some("BlobNotFound"), Some("ContainerNotFound")})
    ensures IsPreconditionFailed(StorageError(status, code, Some(detail))) <==> detail == "ConditionNotMet"
    ensures IsPreconditionFailed(StorageError(status, Some(detail), None)) <==> detail == "ConditionNotMet"
    ensures IsPreconditionFailed(StorageError(status, code, Some(""))) <==> status == Some(412)
    ensures IsPreconditionFailed(StorageError(status, None, None)) <==> status == Some(412)
  {
    var full, plain := StorageError(status, code, Some(detail)), StorageError(status, code, None);
    assert CodeOf(full) == Some(detail) && CodeOf(plain) == code;
  }

  /** Blank text converts to zero, so only missing and non-numeric metadata make a blob unusable. */
  function ParseVersion(raw: Metadata): Option<int> {
    match raw
    case Missing => None
    case Blank => Some(0)
    case NotNumeric => None
    case Numeric(v) => Some(v)
  }

  /** The blob after all writes so far; every write gives it a new entity tag. */
  function Current<Bytes>(writes: seq<Write<Bytes>>): Option<Blob<Bytes>> {
    if writes == [] then None
    else match writes[|writes| - 1]
      case Put(version, bytes) => Some(Blob(version, bytes, |writes|))
      case Delete => None
  }

  /** What a read of this blob at one moment would answer. */
  function Usable<Bytes>(blob: Option<Blob<Bytes>>): Option<(int, Bytes)> {
    if blob.Some? && ParseVersion(blob.value.version).Some?
    then Some((ParseVersion(blob.value.version).value, blob.value.bytes))
    else None
  }

  /** Between `from` and now the blob read as this answer at some moment. */
  ghost predicate ReadAsAtSomeMoment<Bytes>(writes: seq<Write<Bytes>>, from: nat, answer: Option<(int, Bytes)>) {
    exists n :: from <= n <= |writes| && Usable(Current(writes[..n])) == answer
  }

  /** A blob is a miss exactly when it was deleted or carries no number; blank metadata reads as version 0. */
  lemma {:induction false} BlankReadsAsVersionZero<Bytes>(writes: seq<Write<Bytes>>, w: Write<Bytes>)
    ensures var answer := Usable(Current(writes + [w]));
      && (answer.None? <==> w.Delete? || w.version.Missing? || w.version.NotNumeric?)
      && (w.Put? && w.version.Blank? ==> answer == Some((0, w.bytes)))
  {
  }

  /** A blob store with what happens to each of its next calls: writes by others before it, and perhaps a failure. */
  class BlobService<Bytes(0)> {
    var writes: seq<Write<Bytes>>
    var others: seq<seq<Write<Bytes>>>
    var faults: seq<Option<StorageError>>

    constructor (others: seq<seq<Write<Bytes>>>, faults: seq<Option<StorageError>>)
      ensures writes == [] && this.others == others && this.faults == faults
    {
      writes, this.others, this.faults := [], others, faults;
    }

    ghost predicate Reliable()
      reads this
    {
      forall k :: 0 <= k < |faults| ==> faults[k].None?
    }

    ghost predicate Quiet()
      reads this
    {
      forall k :: 0 <= k < |others| ==> others[k] == []
    }

    method Arrive() returns (fault: Option<StorageError>)
      modifies this
      ensures old(writes) <= writes
      ensures old(Reliable()) ==> Reliable() && fault.None?
      ensures old(Quiet()) ==> Quiet() && writes == old(writes)
    {
      fault := None;
      if |others| > 0 {
        writes := writes + others[0];
        others := others[1..];
      }
      if |faults| > 0 {
        fault := faults[0];
        faults := faults[1..];
      }
    }

    method GetProperties() returns (r: Result<(Metadata, nat), StorageError>)
      modifies this
      ensures old(writes) <= writes
      ensures r.Success? ==> var b := Current(writes); b.Some? && r.value == (b.value.version, b.value.etag)
      ensures old(Reliable()) ==> Reliable() && (r.Failure? ==> r.error == BLOB_NOT_FOUND && Current(writes).None?)
      ensures old(Quiet()) ==> Quiet() && writes == old(writes)
    {
      var fault := Arrive();
      if fault.Some? { return Failure(fault.value); }
      var blob := Current(writes);
      if blob.None? { return Failure(BLOB_NOT_FOUND); }
      return Success((blob.value.version, blob.value.etag));
    }

    method Download(ifMatch: nat) returns (r: Result<Bytes, StorageError>)
      modifies this
      ensures old(writes) <= writes
      ensures r.Success? ==> var b := Current(writes); b.Some? && b.value.etag == ifMatch && r.value == b.value.bytes
      ensures old(Reliable()) ==>
        && Reliable()
        && (r.Failure? ==> || (r.error == BLOB_NOT_FOUND && Current(writes).None?)
                           || (r.error == CONDITION_NOT_MET && Current(writes).Some? && Current(writes).value.etag != ifMatch))
      ensures old(Quiet()) ==> Quiet() && writes == old(writes)
    {
      var fault := Arrive();
      if fault.Some? { return Failure(fault.value); }
      var blob := Current(writes);
      if blob.None? { return Failure(BLOB_NOT_FOUND); }
      if blob.value.etag != ifMatch { return Failure(CONDITION_NOT_MET); }
      return Success(blob.value.bytes);
    }

    method Upload(version: Metadata, bytes: Bytes) returns (r: Result<(), StorageError>)
      modifies this
      ensures old(writes) <= writes
      ensures r.Success? ==> Current(writes) == Some(Blob(version, bytes, |writes|))
      ensures old(Reliable()) ==> r.Success?
    {
      var fault := Arrive();
      if fault.Some? { return Failure(fault.value); }
      writes := writes + [Put(version, bytes)];
      return Success(());
    }
  }

  class BlobSnapshotCache<Bytes(0)> {
    const service: BlobService<Bytes>

    constructor (service: BlobService<Bytes>)
      ensures this.service == service
    {
      this.service := service;
    }

    /**
     * One consistent pair: the version and the bytes of the blob as it was at one moment of the call,
     * whatever the other replicas write meanwhile, or a miss. Without faults a miss means that the blob
     * was missing or unusable at some moment, or that it was overwritten in every attempt.
     */
    method Get() returns (r: Result<Option<(int, Bytes)>, StorageError>)
      modifies service
      ensures old(service.writes) <= service.writes
      ensures r.Success? && r.value.Some? ==> ReadAsAtSomeMoment(service.writes, |old(service.writes)|, r.value)
      ensures r.Failure? ==> !IsNotFound(r.error) && !IsPreconditionFailed(r.error)
      ensures old(service.Reliable()) ==> r.Success?
      ensures old(service.Reliable()) && r.value.None? ==>
        || ReadAsAtSomeMoment(service.writes, |old(service.writes)|, None)
        || |service.writes| >= |old(service.writes)| + GET_ATTEMPTS
      ensures old(service.Reliable() && service.Quiet()) ==> r == Success(Usable(Current(old(service.writes))))
    {
      var attempt := 0;
      while attempt < GET_ATTEMPTS
        invariant 0 <= attempt <= GET_ATTEMPTS
        invariant old(service.writes) <= service.writes
        invariant old(service.Reliable()) ==> service.Reliable() && |service.writes| >= |old(service.writes)| + attempt
        invariant old(service.Reliable() && service.Quiet()) ==> attempt == 0 && service.Quiet() && service.writes == old(service.writes)
      {
        var props := service.GetProperties();
        assert service.writes[..|service.writes|] == service.writes;
        ghost var seen := service.writes;
        if props.Success? {
          var version := ParseVersion(props.value.0);
          if version.None? { return Success(None); }
          var buffer := service.Download(props.value.1);
          assert service.writes[..|service.writes|] == service.writes;
          if buffer.Success? {
            TagsTellBlobsApart(seen, service.writes);
            return Success(Some((version.value, buffer.value)));
          }
          if IsNotFound(buffer.error) { return Success(None); }
          if !IsPreconditionFailed(buffer.error) { return Failure(buffer.error); }
        } else {
          if IsNotFound(props.error) { return Success(None); }
          if !IsPreconditionFailed(props.error) { return Failure(props.error); }
        }
        attempt := attempt + 1;
      }
      return Success(None);
    }

    method Put(v: int, bytes: Bytes) returns (r: Result<(), StorageError>)
      modifies service
      ensures old(service.writes) <= service.writes
      ensures r.Success? ==> Usable(Current(service.writes)) == Some((v, bytes))
      ensures old(service.Reliable()) ==> r.Success?
    {
      r := service.Upload(Numeric(v), bytes);
    }
  }

  /** Equal tags mean that nothing was written in between. */
  lemma {:induction false} TagsTellBlobsApart<Bytes>(before: seq<Write<Bytes>>, after: seq<Write<Bytes>>)
    requires before <= after && Current(before).Some? && Current(after).Some?
    ensures Current(before).value.etag == Current(after).value.etag ==> before == after
    ensures before != after ==> |after| > |before|
  {
  }

  /**
   * If other replicas only put what they know to be the document at a version, then any pair that was
   * ever readable is such a document.
   */
  lemma {:induction false} ReadablePairsArePuts<Bytes>(writes: seq<Write<Bytes>>, from: nat, answer: (int, Bytes))
    requires ReadAsAtSomeMoment(writes, from, Some(answer))
    ensures exists k :: 0 <= k < |writes| && writes[k].Put? && ParseVersion(writes[k].version) == Some(answer.0)
                        && writes[k].bytes == answer.1 && k + 1 >= from
  {
  }
}
