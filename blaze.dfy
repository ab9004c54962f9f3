/**
 * File lifecycle of the blaze storage (blaze/storage.go).
 *
 * A file record moves Uploading -> Uploaded -> Claimed -> Released ->
 * Deleting -> removed. Every move is a write guarded on the state the file
 * is expected to be in. The blob service and the notary are opaque inputs:
 * a claim or view key is a string that the notary maps to a file id (the
 * `claims` and `views` maps), and the outcome of each blob-service call is
 * a parameter.
 */
module Blaze {
  import opened Common
  import Fire

  /** A file id; 0 stands for the zero id. */
  type FileId = nat

  datatype State = Uploading | Uploaded | Claimed | Released | Deleting

  /** A stored file record (the blob handle is left to the blob service). */
  datatype File = File(state: State, updated: int, length: int, contentType: string)

  /** A link from a model to a file. */
  datatype Link = Link(contentType: string, length: int, file: Option<FileId>, claimKey: string, viewKey: string)

  datatype StorageError =
    | ServiceFailed
    | CallbackFailed
    | InvalidKey
    | MissingClaimKey(path: string)
    | UnableToClaim(path: string)
    | UnableToRelease(path: string)
    | UnsupportedType
    | MissingFile
    | BlobDeleteFailed

  const DefaultContentType: string := "application/octet-stream"

  /** The content type Upload stores: the given one, or the default when it is empty. */
  function ContentTypeOrDefault(contentType: string): (r: string)
    ensures r != ""
    ensures contentType != "" ==> r == contentType
    ensures contentType == "" ==> r == DefaultContentType
  {
    if contentType == "" then DefaultContentType else contentType
  }

  /** The position of a state in the lifecycle. */
  function Rank(s: State): nat {
    match s
    case Uploading => 0
    case Uploaded => 1
    case Claimed => 2
    case Released => 3
    case Deleting => 4
  }

  /**
   * `after` follows `before` in the lifecycle: no file went back to an
   * earlier state, and every file that appeared is Uploading or Uploaded.
   */
  ghost predicate LifecycleRespected(before: map<FileId, File>, after: map<FileId, File>) {
    && (forall id :: id in before && id in after ==> Rank(before[id].state) <= Rank(after[id].state))
    && (forall id :: id in after && id !in before ==> Rank(after[id].state) <= Rank(Uploaded))
  }

  // ---------------------------------------------------------------------
  // Link validation

  /** How a link changed between the stored model and the request. */
  datatype Change = Unchanged | Added | UpdatedLink | Deleted

  /** The added/updated/deleted classification of validateLink. */
  function Classify(newLink: Option<Link>, oldLink: Option<Link>): (c: Change)
    ensures c == Unchanged <==>
      || (newLink.None? && oldLink.None?)
      || (newLink.Some? && oldLink.Some? && newLink.value.claimKey == "")
    ensures c == Added <==> oldLink.None? && newLink.Some?
    ensures c == Deleted <==> oldLink.Some? && newLink.None?
  {
    if oldLink.None? && newLink.Some? then Added
    else if oldLink.Some? && newLink.Some? && newLink.value.claimKey != "" then UpdatedLink
    else if oldLink.Some? && newLink.None? then Deleted
    else Unchanged
  }

  /** Claims the file named by the link's claim key and copies its details into the link. */
  function ClaimFile(files: map<FileId, File>, link: Link, claims: map<string, FileId>, now: int, path: string)
    : Result<(Link, map<FileId, File>), StorageError>
  {
    if link.claimKey == "" then Err(MissingClaimKey(path))
    else if link.claimKey !in claims then Err(InvalidKey)
    else
      var id := claims[link.claimKey];
      if id !in files || files[id].state != Uploaded then Err(UnableToClaim(path))
      else
        var f := files[id];
        Ok((link.(contentType := f.contentType, length := f.length, file := Some(id)),
            files[id := f.(state := Claimed, updated := now)]))
  }

  /** Releases the claimed file the link points to. */
  function ReleaseFile(files: map<FileId, File>, link: Link, now: int, path: string)
    : Result<map<FileId, File>, StorageError>
  {
    if link.file.None? || link.file.value !in files || files[link.file.value].state != Claimed then
      Err(UnableToRelease(path))
    else
      var id := link.file.value;
      Ok(files[id := files[id].(state := Released, updated := now)])
  }

  /**
   * validateLink: the result (the link to store, or an error) and the file
   * records afterwards. A claim that succeeded stays in effect when the
   * release that follows it fails.
   */
  function ValidateLinkSpec(files: map<FileId, File>, newLink: Option<Link>, oldLink: Option<Link>,
                            claims: map<string, FileId>, now: int, path: string)
    : (Result<Option<Link>, StorageError>, map<FileId, File>)
  {
    match Classify(newLink, oldLink)
    case Unchanged => (Ok(newLink), files)
    case Deleted =>
      (match ReleaseFile(files, oldLink.value, now, path)
       case Err(e) => (Err(e), files)
       case Ok(released) => (Ok(newLink), released))
    case Added =>
      (match ClaimFile(files, newLink.value, claims, now, path)
       case Err(e) => (Err(e), files)
       case Ok((link, claimed)) => (Ok(Some(link)), claimed))
    case UpdatedLink =>
      (match ClaimFile(files, newLink.value, claims, now, path)
       case Err(e) => (Err(e), files)
       case Ok((link, claimed)) =>
         match ReleaseFile(claimed, oldLink.value, now, path)
         case Err(e) => (Err(e), claimed)
         case Ok(released) => (Ok(Some(link)), released))
  }

  /** validateLink never removes or adds a file and only moves files forward. */
  lemma ValidateLinkRespectsLifecycle(files: map<FileId, File>, newLink: Option<Link>, oldLink: Option<Link>,
                                      claims: map<string, FileId>, now: int, path: string)
    ensures var (_, after) := ValidateLinkSpec(files, newLink, oldLink, claims, now, path);
      after.Keys == files.Keys && LifecycleRespected(files, after)
  {
  }

  /**
   * A new link is accepted only if its claim key names an Uploaded file;
   * the accepted link then points at that file, carries its type and
   * length, and the file is no longer Uploaded.
   */
  lemma ClaimedLinkNamesUploadedFile(files: map<FileId, File>, newLink: Link, oldLink: Option<Link>,
                                     claims: map<string, FileId>, now: int, path: string)
    requires oldLink.None? || newLink.claimKey != ""
    requires ValidateLinkSpec(files, Some(newLink), oldLink, claims, now, path).0.Ok?
    ensures newLink.claimKey in claims
    ensures var id := claims[newLink.claimKey];
      var (r, after) := ValidateLinkSpec(files, Some(newLink), oldLink, claims, now, path);
      && id in files && files[id].state == Uploaded
      && r.value == Some(newLink.(contentType := files[id].contentType, length := files[id].length, file := Some(id)))
      && after[id].state in {Claimed, Released}
  {
  }

  /**
   * Neither added, updated nor deleted: validateLink keeps the link as it
   * is and no file changes.
   */
  lemma UnchangedLinkIsNoOp(files: map<FileId, File>, newLink: Option<Link>, oldLink: Option<Link>,
                            claims: map<string, FileId>, now: int, path: string)
    requires || (newLink.None? && oldLink.None?)
             || (newLink.Some? && oldLink.Some? && newLink.value.claimKey == "")
    ensures ValidateLinkSpec(files, newLink, oldLink, claims, now, path) == (Ok(newLink), files)
  {
  }

  /** A claim key that was never issued is rejected as an invalid key, and no file changes. */
  lemma UnknownClaimKeyRejected(files: map<FileId, File>, newLink: Link, oldLink: Option<Link>,
                                claims: map<string, FileId>, now: int, path: string)
    requires newLink.claimKey != "" && newLink.claimKey !in claims
    ensures ValidateLinkSpec(files, Some(newLink), oldLink, claims, now, path) == (Err(InvalidKey), files)
  {
  }

  /** Without a claim key a new link is rejected and no file changes. */
  lemma MissingClaimKeyRejected(files: map<FileId, File>, newLink: Link, claims: map<string, FileId>, now: int, path: string)
    requires newLink.claimKey == ""
    ensures ValidateLinkSpec(files, Some(newLink), None, claims, now, path) == (Err(MissingClaimKey(path)), files)
  {
  }

  /** Dropping a link releases the file it claimed, and only that file changes. */
  lemma DropReleasesClaimedFile(files: map<FileId, File>, oldLink: Link, claims: map<string, FileId>, now: int, path: string)
    requires oldLink.file.Some? && oldLink.file.value in files && files[oldLink.file.value].state == Claimed
    ensures var id := oldLink.file.value;
      ValidateLinkSpec(files, None, Some(oldLink), claims, now, path)
        == (Ok(None), files[id := files[id].(state := Released, updated := now)])
  {
  }

  /**
   * Replacing a link claims the new file and releases the old one: the
   * stored link points at the new file, which is now Claimed, the old file
   * is now Released, and no other record changes.
   */
  lemma UpdateClaimsNewAndReleasesOld(files: map<FileId, File>, newLink: Link, oldLink: Link,
                                      claims: map<string, FileId>, now: int, path: string)
    requires newLink.claimKey != "" && newLink.claimKey in claims
    requires claims[newLink.claimKey] in files && files[claims[newLink.claimKey]].state == Uploaded
    requires oldLink.file.Some? && oldLink.file.value in files && files[oldLink.file.value].state == Claimed
    ensures var id := claims[newLink.claimKey];
      var prior := oldLink.file.value;
      ValidateLinkSpec(files, Some(newLink), Some(oldLink), claims, now, path)
        == (Ok(Some(newLink.(contentType := files[id].contentType, length := files[id].length, file := Some(id)))),
            files[id := files[id].(state := Claimed, updated := now)][prior := files[prior].(state := Released, updated := now)])
  {
  }

  /** A claim key naming a file that is not Uploaded is rejected, and no file changes. */
  lemma UnclaimableFileRejected(files: map<FileId, File>, newLink: Link, oldLink: Option<Link>,
                                claims: map<string, FileId>, now: int, path: string)
    requires newLink.claimKey != "" && newLink.claimKey in claims
    requires claims[newLink.claimKey] !in files || files[claims[newLink.claimKey]].state != Uploaded
    ensures ValidateLinkSpec(files, Some(newLink), oldLink, claims, now, path) == (Err(UnableToClaim(path)), files)
  {
  }

  /**
   * When the replaced link's file is not Claimed, the update fails with
   * "unable to release file", but the new file stays claimed.
   */
  lemma UnreleasableOldFileKeepsClaim(files: map<FileId, File>, newLink: Link, oldLink: Link,
                                      claims: map<string, FileId>, now: int, path: string)
    requires newLink.claimKey != "" && newLink.claimKey in claims
    requires claims[newLink.claimKey] in files && files[claims[newLink.claimKey]].state == Uploaded
    requires oldLink.file != Some(claims[newLink.claimKey])
    requires oldLink.file.None? || oldLink.file.value !in files || files[oldLink.file.value].state != Claimed
    ensures var id := claims[newLink.claimKey];
      ValidateLinkSpec(files, Some(newLink), Some(oldLink), claims, now, path)
        == (Err(UnableToRelease(path)), files[id := files[id].(state := Claimed, updated := now)])
  {
  }

  /** Dropping a link whose file is not Claimed fails with "unable to release file", and no file changes. */
  lemma DropOfUnclaimedFileFails(files: map<FileId, File>, oldLink: Link, claims: map<string, FileId>, now: int, path: string)
    requires oldLink.file.None? || oldLink.file.value !in files || files[oldLink.file.value].state != Claimed
    ensures ValidateLinkSpec(files, None, Some(oldLink), claims, now, path) == (Err(UnableToRelease(path)), files)
  {
  }

  /** The kind of a model field the Validator inspects. */
  datatype FieldKind = LinkValue | LinkPointer | OtherType

  /** A field of the model: its kind, JSON path, current value and value in the stored original. */
  datatype LinkField = LinkField(kind: FieldKind, path: string, current: Option<Link>, original: Option<Link>)

  /** The links the Validator passes to validateLink: on Delete the current link is the old one. */
  function LinksToValidate(op: Fire.Operation, field: LinkField): (pair: (Option<Link>, Option<Link>))
    ensures op == Fire.Delete ==> pair == (None, field.current)
    ensures op != Fire.Delete ==> pair == (field.current, field.original)
  {
    if op == Fire.Delete then (None, field.current) else (field.current, field.original)
  }

  /** The value the Validator writes back into the field after validateLink succeeded. */
  function StoredLink(op: Fire.Operation, field: LinkField, validated: Option<Link>): Option<Link> {
    if op == Fire.Delete then
      (if field.kind == LinkPointer then None else field.current)
    else validated
  }

  /** The Validator callback: validate every field in order and stop at the first error. */
  function ValidatorSpec(files: map<FileId, File>, op: Fire.Operation, fields: seq<LinkField>,
                         claims: map<string, FileId>, now: int)
    : (Result<seq<Option<Link>>, StorageError>, map<FileId, File>)
    decreases |fields|
  {
    if fields == [] then (Ok([]), files)
    else
      var field := fields[0];
      if field.kind == OtherType then (Err(UnsupportedType), files)
      else
        var (newLink, oldLink) := LinksToValidate(op, field);
        var (r, after) := ValidateLinkSpec(files, newLink, oldLink, claims, now, field.path);
        match r
        case Err(e) => (Err(e), after)
        case Ok(validated) =>
          var (rest, final) := ValidatorSpec(after, op, fields[1..], claims, now);
          match rest
          case Err(e) => (Err(e), final)
          case Ok(stored) => (Ok([StoredLink(op, field, validated)] + stored), final)
  }

  /** Puts the values stored for earlier fields in front of a Validator result. */
  function Prepend(stored: seq<Option<Link>>, outcome: (Result<seq<Option<Link>>, StorageError>, map<FileId, File>))
    : (Result<seq<Option<Link>>, StorageError>, map<FileId, File>)
  {
    match outcome.0
    case Ok(rest) => (Ok(stored + rest), outcome.1)
    case Err(e) => outcome
  }

  /** One successful field: its stored value goes in front of what the remaining fields give. */
  lemma ValidatorStep(files: map<FileId, File>, op: Fire.Operation, fields: seq<LinkField>,
                      claims: map<string, FileId>, now: int, validated: Option<Link>, after: map<FileId, File>)
    requires fields != [] && fields[0].kind != OtherType
    requires var (newLink, oldLink) := LinksToValidate(op, fields[0]);
      ValidateLinkSpec(files, newLink, oldLink, claims, now, fields[0].path) == (Ok(validated), after)
    ensures ValidatorSpec(files, op, fields, claims, now)
      == Prepend([StoredLink(op, fields[0], validated)], ValidatorSpec(after, op, fields[1..], claims, now))
  {
  }

  /** Prepending no values changes nothing; a helper for the Validator loop's invariant. */
  lemma PrependNothing(outcome: (Result<seq<Option<Link>>, StorageError>, map<FileId, File>))
    ensures Prepend([], outcome) == outcome
  {
    if outcome.0.Ok? {
      assert [] + outcome.0.value == outcome.0.value;
    }
  }

  /** Prepending twice is prepending the concatenation; a helper for the Validator loop's invariant. */
  lemma PrependTwice(first: seq<Option<Link>>, second: seq<Option<Link>>,
                     outcome: (Result<seq<Option<Link>>, StorageError>, map<FileId, File>))
    ensures Prepend(first, Prepend(second, outcome)) == Prepend(first + second, outcome)
  {
    if outcome.0.Ok? {
      assert first + (second + outcome.0.value) == (first + second) + outcome.0.value;
    }
  }

  /** On success the Validator returns one stored value per field and keeps every file. */
  lemma {:induction false} ValidatorRespectsLifecycle(files: map<FileId, File>, op: Fire.Operation, fields: seq<LinkField>,
                                                      claims: map<string, FileId>, now: int)
    ensures var (r, after) := ValidatorSpec(files, op, fields, claims, now);
      && after.Keys == files.Keys
      && LifecycleRespected(files, after)
      && (r.Ok? ==> |r.value| == |fields|)
    decreases |fields|
  {
    if fields != [] && fields[0].kind != OtherType {
      var field := fields[0];
      var (newLink, oldLink) := LinksToValidate(op, field);
      var (r, after) := ValidateLinkSpec(files, newLink, oldLink, claims, now, field.path);
      ValidateLinkRespectsLifecycle(files, newLink, oldLink, claims, now, field.path);
      ValidatorRespectsLifecycle(after, op, fields[1..], claims, now);
    }
  }

  /** Deleting a model releases the claimed file of its first link field and clears a pointer field. */
  lemma DeleteReleasesLinkedFile(files: map<FileId, File>, field: LinkField, claims: map<string, FileId>, now: int)
    requires field.kind == LinkPointer && field.current.Some?
    requires var f := field.current.value.file; f.Some? && f.value in files && files[f.value].state == Claimed
    ensures var id := field.current.value.file.value;
      ValidatorSpec(files, Fire.Delete, [field], claims, now)
        == (Ok([None]), files[id := files[id].(state := Released, updated := now)])
  {
    var id := field.current.value.file.value;
    var released := files[id := files[id].(state := Released, updated := now)];
    assert ReleaseFile(files, field.current.value, now, field.path) == Ok(released);
    assert ValidateLinkSpec(files, None, field.current, claims, now, field.path) == (Ok(None), released);
    assert [field][1..] == [];
    assert ValidatorSpec(released, Fire.Delete, [], claims, now) == (Ok([]), released);
    assert StoredLink(Fire.Delete, field, None) == None;
    var one: seq<Option<Link>> := [None];
    assert one + [] == one;
  }

  // ---------------------------------------------------------------------
  // Decoration and download

  /** decorateLink: a link with a non-zero file gets a view key for that file. */
  function DecorateLink(link: Option<Link>, issue: FileId -> Result<string, StorageError>)
    : (r: Result<Option<Link>, StorageError>)
    ensures (link.None? || link.value.file.None? || link.value.file.value == 0) ==> r == Ok(link)
    ensures link.Some? && link.value.file.Some? && link.value.file.value != 0 ==>
      match issue(link.value.file.value)
      case Ok(key) => r == Ok(Some(link.value.(viewKey := key)))
      case Err(e) => r == Err(e)
  {
    if link.None? || link.value.file.None? || link.value.file.value == 0 then Ok(link)
    else
      match issue(link.value.file.value)
      case Ok(key) => Ok(Some(link.value.(viewKey := key)))
      case Err(e) => Err(e)
  }

  /**
   * Download: only a valid view key for a Claimed file yields the file;
   * `begin` is the blob service's error when it fails to start the download.
   */
  function Download(files: map<FileId, File>, views: map<string, FileId>, viewKey: string, begin: Option<StorageError>)
    : (r: Result<(FileId, File), StorageError>)
    ensures r.Ok? <==> viewKey in views && views[viewKey] in files && files[views[viewKey]].state == Claimed && begin.None?
    ensures r.Ok? ==> r.value == (views[viewKey], files[views[viewKey]])
    ensures viewKey !in views ==> r == Err(InvalidKey)
    ensures viewKey in views && (views[viewKey] !in files || files[views[viewKey]].state != Claimed) ==> r == Err(MissingFile)
    ensures viewKey in views && views[viewKey] in files && files[views[viewKey]].state == Claimed && begin.Some? ==>
      r == Err(begin.value)
  {
    if viewKey !in views then Err(InvalidKey)
    else
      var id := views[viewKey];
      if id !in files || files[id].state != Claimed then Err(MissingFile)
      else if begin.Some? then Err(begin.value)
      else Ok((id, files[id]))
  }

  // ---------------------------------------------------------------------
  // Cleanup

  /** The retention Cleanup uses: one hour when none is given. */
  function EffectiveRetention(retention: int): (r: int)
    ensures retention == 0 ==> r == Hour
    ensures retention != 0 ==> r == retention
  {
    if retention == 0 then Hour else retention
  }

  /** The filter of Cleanup's query. */
  predicate Obsolete(f: File, now: int, retention: int) {
    || ((f.state == Uploading || f.state == Uploaded) && f.updated < now - EffectiveRetention(retention))
    || f.state == Released
    || f.state == Deleting
  }

  /** A record as the query's cursor decoded it. */
  datatype Found = Found(id: FileId, file: File)

  /** What the blob service reported for a file's blob. */
  datatype BlobOutcome = BlobDeleted | BlobKept | BlobFailed

  /** Whether the guarded update of Cleanup marks the found record Deleting. */
  predicate MarkGuardHolds(files: map<FileId, File>, e: Found) {
    e.id in files && files[e.id].state == e.file.state
  }

  /**
   * Cleanup's loop over the found records: flag each as Deleting with a
   * write guarded on the state it was found in (stop with no error when the
   * guard misses), delete its blob, and remove the record when the blob
   * service reports the blob gone.
   */
  function CleanupSpec(files: map<FileId, File>, found: seq<Found>, blob: FileId -> BlobOutcome, now: int)
    : (Result<(), StorageError>, map<FileId, File>)
    decreases |found|
  {
    if found == [] then (Ok(()), files)
    else
      var e := found[0];
      if e.file.state != Deleting && !MarkGuardHolds(files, e) then (Ok(()), files)
      else
        var marked := if e.file.state != Deleting then files[e.id := files[e.id].(state := Deleting, updated := now)] else files;
        match blob(e.id)
        case BlobFailed => (Err(BlobDeleteFailed), marked)
        case BlobKept => CleanupSpec(marked, found[1..], blob, now)
        case BlobDeleted => CleanupSpec(marked - {e.id}, found[1..], blob, now)
  }

  /**
   * Cleanup only marks files Deleting or removes them, touches no file it
   * did not find, and removes a record only when its blob was deleted.
   */
  lemma {:induction false} CleanupRespectsLifecycle(files: map<FileId, File>, found: seq<Found>, blob: FileId -> BlobOutcome, now: int)
    ensures var after := CleanupSpec(files, found, blob, now).1;
      && after.Keys <= files.Keys
      && (forall id :: id in after ==> after[id] == files[id] || after[id].state == Deleting)
      && (forall id :: id in files && (forall e :: e in found ==> e.id != id) ==> id in after && after[id] == files[id])
      && (forall id :: id in files && id !in after ==> blob(id) == BlobDeleted)
    decreases |found|
  {
    if found != [] {
      var e := found[0];
      if e.file.state == Deleting || MarkGuardHolds(files, e) {
        var marked := if e.file.state != Deleting then files[e.id := files[e.id].(state := Deleting, updated := now)] else files;
        match blob(e.id)
        case BlobFailed =>
        case BlobKept =>
          CleanupRespectsLifecycle(marked, found[1..], blob, now);
        case BlobDeleted =>
          CleanupRespectsLifecycle(marked - {e.id}, found[1..], blob, now);
      }
    }
  }

  /** The found records are distinct and still as stored. */
  ghost predicate FreshSnapshot(files: map<FileId, File>, found: seq<Found>) {
    && (forall i, j :: 0 <= i < j < |found| ==> found[i].id != found[j].id)
    && (forall i :: 0 <= i < |found| ==> found[i].id in files && files[found[i].id] == found[i].file)
  }

  /**
   * On a snapshot that is still current the guard never misses: unless a
   * blob deletion fails, every found file ends removed or Deleting.
   */
  lemma {:induction false} CleanupFreshSnapshot(files: map<FileId, File>, found: seq<Found>, blob: FileId -> BlobOutcome, now: int)
    requires FreshSnapshot(files, found)
    requires forall i :: 0 <= i < |found| ==> blob(found[i].id) != BlobFailed
    ensures var (r, after) := CleanupSpec(files, found, blob, now);
      && r == Ok(())
      && (forall i :: 0 <= i < |found| ==>
            if blob(found[i].id) == BlobDeleted then found[i].id !in after
            else found[i].id in after && after[found[i].id].state == Deleting)
    decreases |found|
  {
    if found != [] {
      var e := found[0];
      assert MarkGuardHolds(files, e);
      var marked := if e.file.state != Deleting then files[e.id := files[e.id].(state := Deleting, updated := now)] else files;
      var next := if blob(e.id) == BlobDeleted then marked - {e.id} else marked;
      assert FreshSnapshot(next, found[1..]) by {
        forall i | 0 <= i < |found[1..]|
          ensures found[1..][i].id in next && next[found[1..][i].id] == found[1..][i].file
        {
          assert found[1..][i] == found[i + 1];
          assert found[i + 1].id != e.id;
        }
      }
      CleanupFreshSnapshot(next, found[1..], blob, now);
      CleanupRespectsLifecycle(next, found[1..], blob, now);
      var after := CleanupSpec(next, found[1..], blob, now).1;
      assert CleanupSpec(files, found, blob, now).1 == after;
      forall i | 0 <= i < |found|
        ensures if blob(found[i].id) == BlobDeleted then found[i].id !in after
                else found[i].id in after && after[found[i].id].state == Deleting
      {
        if i > 0 {
          assert found[1..][i - 1] == found[i];
        } else {
          assert forall k :: 0 <= k < |found[1..]| ==> found[1..][k].id != e.id;
          assert forall f :: f in found[1..] ==> f.id != e.id;
        }
      }
    }
  }

  /**
   * A stale record stops the sweep. When the guard misses on the k-th found
   * record, after k records that were current, Cleanup returns no error
   * with the records as the first k left them: that record and every later
   * one not handled before stay as they were.
   */
  lemma {:induction false} CleanupStopsAtGuardMiss(files: map<FileId, File>, found: seq<Found>, blob: FileId -> BlobOutcome,
                                                   now: int, k: nat)
    requires k < |found|
    requires FreshSnapshot(files, found[..k])
    requires forall i :: 0 <= i < k ==> blob(found[i].id) != BlobFailed && found[i].id != found[k].id
    requires found[k].file.state != Deleting && !MarkGuardHolds(files, found[k])
    ensures CleanupSpec(files, found, blob, now) == (Ok(()), CleanupSpec(files, found[..k], blob, now).1)
    ensures var after := CleanupSpec(files, found, blob, now).1;
      forall j :: k <= j < |found| && found[j].id in files && (forall i :: 0 <= i < k ==> found[i].id != found[j].id) ==>
        found[j].id in after && after[found[j].id] == files[found[j].id]
    decreases k
  {
    if k > 0 {
      var e := found[0];
      assert found[..k][0] == e;
      assert MarkGuardHolds(files, e);
      var marked := if e.file.state != Deleting then files[e.id := files[e.id].(state := Deleting, updated := now)] else files;
      var next := if blob(e.id) == BlobDeleted then marked - {e.id} else marked;
      var rest := found[1..];
      assert found[..k][1..] == rest[..k - 1];
      assert CleanupSpec(files, found, blob, now) == CleanupSpec(next, rest, blob, now);
      assert CleanupSpec(files, found[..k], blob, now) == CleanupSpec(next, rest[..k - 1], blob, now);
      var handled := found[..k];
      var tail := rest[..k - 1];
      assert FreshSnapshot(next, tail) by {
        forall i | 0 <= i < k - 1
          ensures tail[i].id in next && next[tail[i].id] == tail[i].file
        {
          assert tail[i] == handled[i + 1];
        }
        forall i, j | 0 <= i < j < k - 1
          ensures tail[i].id != tail[j].id
        {
          assert tail[i] == handled[i + 1] && tail[j] == handled[j + 1];
        }
      }
      assert rest[k - 1] == found[k];
      assert forall i :: 0 <= i < k - 1 ==> rest[i] == found[i + 1];
      CleanupStopsAtGuardMiss(next, rest, blob, now, k - 1);
    }
    CleanupRespectsLifecycle(files, found[..k], blob, now);
    forall j | k <= j < |found| && found[j].id in files && (forall i :: 0 <= i < k ==> found[i].id != found[j].id)
      ensures forall e :: e in found[..k] ==> e.id != found[j].id
    {
      forall e | e in found[..k]
        ensures e.id != found[j].id
      {
        var i :| 0 <= i < k && found[..k][i] == e;
      }
    }
  }

  // ---------------------------------------------------------------------
  // The file store

  /** The collection of file records. */
  class FileStore {
    var files: map<FileId, File>

    ghost predicate Valid()
      reads this
    {
      0 !in files
    }

    constructor ()
      ensures Valid() && files == map[]
    {
      files := map[];
    }

    /**
     * Upload inserts the file as Uploading and marks it Uploaded with the
     * written length once the callback succeeded, then issues a claim key
     * for it. `id` is the fresh id of the new record; `outcome` is what the
     * blob service and the callback reported; `issue` is the notary issuing
     * a claim key for a file; `now` and `later` are the clock at insert and
     * at update.
     */
    method Upload(contentType: string, id: FileId, now: int, later: int, outcome: UploadOutcome,
                  issue: FileId -> Result<string, StorageError>)
      returns (r: Result<(string, FileId, File), StorageError>)
      requires Valid() && id != 0 && id !in files
      modifies this
      ensures Valid() && LifecycleRespected(old(files), files)
      ensures outcome == PrepareFailed ==> r == Err(ServiceFailed) && files == old(files)
      ensures outcome == BeginFailed ==>
        r == Err(ServiceFailed) && files == old(files)[id := File(Uploading, now, 0, ContentTypeOrDefault(contentType))]
      ensures outcome == CallbackError ==>
        r == Err(CallbackFailed) && files == old(files)[id := File(Uploading, now, 0, ContentTypeOrDefault(contentType))]
      ensures outcome.Written? ==>
        var f := File(Uploaded, later, outcome.length, ContentTypeOrDefault(contentType));
        && files == old(files)[id := f]
        && (issue(id).Ok? ==> r == Ok((issue(id).value, id, f)))
        && (issue(id).Err? ==> r == Err(issue(id).error))
    {
      var ct := contentType;
      if ct == "" {
        ct := DefaultContentType;
      }
      if outcome == PrepareFailed {
        return Err(ServiceFailed);
      }
      var file := File(Uploading, now, 0, ct);
      files := files[id := file];
      if outcome == BeginFailed {
        return Err(ServiceFailed);
      }
      if outcome == CallbackError {
        return Err(CallbackFailed);
      }
      file := file.(state := Uploaded, updated := later, length := outcome.length);
      files := files[id := file];
      var claimKey := issue(id);
      if claimKey.Err? {
        return Err(claimKey.error);
      }
      r := Ok((claimKey.value, id, file));
    }

    /** validateLink, as guarded writes on the file records. */
    method ValidateLink(newLink: Option<Link>, oldLink: Option<Link>, claims: map<string, FileId>, now: int, path: string)
      returns (r: Result<Option<Link>, StorageError>)
      requires Valid()
      modifies this
      ensures Valid()
      ensures (r, files) == ValidateLinkSpec(old(files), newLink, oldLink, claims, now, path)
    {
      var added := oldLink.None? && newLink.Some?;
      var updated := oldLink.Some? && newLink.Some? && newLink.value.claimKey != "";
      var deleted := oldLink.Some? && newLink.None?;
      if !added && !updated && !deleted {
        return Ok(newLink);
      }

      var result := newLink;
      if added || updated {
        var link := newLink.value;
        if link.claimKey == "" {
          return Err(MissingClaimKey(path));
        }
        if link.claimKey !in claims {
          return Err(InvalidKey);
        }
        var id := claims[link.claimKey];
        if id !in files || files[id].state != Uploaded {
          return Err(UnableToClaim(path));
        }
        var f := files[id];
        files := files[id := f.(state := Claimed, updated := now)];
        result := Some(link.(contentType := f.contentType, length := f.length, file := Some(id)));
      }

      if updated || deleted {
        var file := oldLink.value.file;
        if file.None? || file.value !in files || files[file.value].state != Claimed {
          return Err(UnableToRelease(path));
        }
        files := files[file.value := files[file.value].(state := Released, updated := now)];
      }

      r := Ok(result);
    }

    /** The Validator callback of a Create, Update or Delete: every link field in order. */
    method Validator(op: Fire.Operation, fields: seq<LinkField>, claims: map<string, FileId>, now: int)
      returns (r: Result<seq<Option<Link>>, StorageError>)
      requires Valid()
      modifies this
      ensures Valid()
      ensures (r, files) == ValidatorSpec(old(files), op, fields, claims, now)
    {
      var stored: seq<Option<Link>> := [];
      var i := 0;
      assert fields[i..] == fields;
      PrependNothing(ValidatorSpec(files, op, fields, claims, now));
      while i < |fields|
        invariant 0 <= i <= |fields|
        invariant Valid()
        invariant ValidatorSpec(old(files), op, fields, claims, now)
          == Prepend(stored, ValidatorSpec(files, op, fields[i..], claims, now))
      {
        var field := fields[i];
        assert fields[i..][0] == field && fields[i..][1..] == fields[i + 1..];
        if field.kind == OtherType {
          return Err(UnsupportedType);
        }
        var (newLink, oldLink) := LinksToValidate(op, field);
        ghost var before := files;
        var res := ValidateLink(newLink, oldLink, claims, now, field.path);
        if res.Err? {
          return Err(res.error);
        }
        ValidatorStep(before, op, fields[i..], claims, now, res.value, files);
        PrependTwice(stored, [StoredLink(op, field, res.value)], ValidatorSpec(files, op, fields[i + 1..], claims, now));
        stored := stored + [StoredLink(op, field, res.value)];
        i := i + 1;
      }
      assert fields[i..] == [];
      assert stored + [] == stored;
      r := Ok(stored);
    }

    /**
     * Cleanup over the records its query found (`found`, in cursor order,
     * possibly stale by the time each is handled); `blob` is the blob
     * service's answer per file.
     */
    method Cleanup(retention: int, now: int, found: seq<Found>, blob: FileId -> BlobOutcome)
      returns (r: Result<(), StorageError>)
      requires Valid()
      requires forall e :: e in found ==> Obsolete(e.file, now, retention)
      modifies this
      ensures Valid()
      ensures (r, files) == CleanupSpec(old(files), found, blob, now)
    {
      var i := 0;
      while i < |found|
        invariant 0 <= i <= |found|
        invariant Valid()
        invariant CleanupSpec(old(files), found, blob, now) == CleanupSpec(files, found[i..], blob, now)
      {
        var e := found[i];
        assert found[i..][0] == e && found[i..][1..] == found[i + 1..];
        if e.file.state != Deleting {
          if !(e.id in files && files[e.id].state == e.file.state) {
            return Ok(());
          }
          files := files[e.id := files[e.id].(state := Deleting, updated := now)];
        }
        var outcome := blob(e.id);
        if outcome == BlobFailed {
          return Err(BlobDeleteFailed);
        }
        if outcome == BlobDeleted {
          files := files - {e.id};
        }
        i := i + 1;
      }
      r := Ok(());
    }
  }

  /** What the blob service and the upload callback reported during Upload. */
  datatype UploadOutcome = PrepareFailed | BeginFailed | CallbackError | Written(length: int)
}
