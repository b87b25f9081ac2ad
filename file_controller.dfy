/** The file-manager handlers of the top-level server: creating a folder,
    listing one folder level of the caller's files, and uploading a file. The
    file collection is a sequence in insertion order; a document's id is its
    index. Only ownership and parent-folder rules are modelled. */
module FileController {
  import opened Api
  import Seqs
  import Strings

  /** A file or folder document. `userId` is the owner's id; `parentId` is
      `None` at the root. */
  datatype FileDoc = FileDoc(
    name: string,
    path: string,
    size: int,
    fileType: string,
    fileUrl: string,
    thumbnailUrl: Option<string>,
    userId: nat,
    parentId: Option<nat>,
    isFolder: bool,
    isStarred: bool,
    isTrash: bool)

  /** The uploaded part that `multer` puts on `req.file`. */
  datatype UploadedFile = UploadedFile(path: string, originalname: string, size: int, mimetype: string)

  /** How a handler ends: a response value, a failure, or, for `createFolder`
      without a `parentId`, no response at all. */
  datatype Outcome<T> = Responded(result: Result<T>) | NoResponse

  const Unauthorized := ApiError(401, "Unauthorized User.")
  const NameRequired := ApiError(400, "Folder name is required.")
  const FolderNotFound := ApiError(404, "Folder not found.")
  const NoFile := ApiError(400, "No file provider.")
  const ParentNotFound := ApiError(404, "Parent Folder Not Found.")
  /** Mongoose's validation failure for a document saved without its
      required `path` and `fileUrl`; the message text is approximate. */
  const RequiredPathMissing := RuntimeError("ValidationError", "File validation failed: path, fileUrl: Path is required.")
  const UploadUnbound := RuntimeError("ReferenceError", "uploadOnCloudinary is not defined")

  /** Decimal digits of an id, as `${id}` renders it. */
  function NatToString(n: nat): (r: string)
    ensures |r| >= 1
    ensures forall i :: 0 <= i < |r| ==> '0' <= r[i] <= '9'
  {
    var d := ['0' + (n % 10) as char];
    if n < 10 then d else NatToString(n / 10) + d
  }

  /** The number a string of decimal digits denotes, read left to right. */
  function DecimalValue(s: string): nat {
    if s == [] then 0
    else
      var c := s[|s| - 1];
      10 * DecimalValue(s[..|s| - 1]) + (if '0' <= c <= '9' then c as int - '0' as int else 0)
  }

  /** `NatToString` writes the decimal notation of its argument: reading the
      digits back gives the id. */
  lemma {:induction false} NatToStringRoundTrip(n: nat)
    ensures DecimalValue(NatToString(n)) == n
  {
    var s := NatToString(n);
    var d := ['0' + (n % 10) as char];
    if n < 10 {
      assert s == d && s[..0] == [];
    } else {
      NatToStringRoundTrip(n / 10);
      assert s == NatToString(n / 10) + d;
      assert s[..|s| - 1] == NatToString(n / 10);
    }
  }

  /** Distinct ids render as distinct strings. */
  lemma NatToStringInjective(a: nat, b: nat)
    ensures NatToString(a) == NatToString(b) ==> a == b
  {
    NatToStringRoundTrip(a);
    NatToStringRoundTrip(b);
  }

  /** The text before the first slash of `x + "/" + y` is `x` when `x` has
      no slash. */
  lemma BeforeSlash(x: string, y: string)
    requires '/' !in x
    ensures Strings.BeforeFirst(x + "/" + y, '/') == x
  {
    var s := x + "/" + y;
    assert s[|x|] == '/';
    assert forall i :: 0 <= i < |x| ==> s[i] == x[i];
  }

  /** A folder path names its owner and its id: two folders share a path
      only when they have the same owner and the same id. */
  lemma FolderPathInjective(u1: nat, a: nat, u2: nat, b: nat)
    requires FolderPath(u1, a) == FolderPath(u2, b)
    ensures u1 == u2 && a == b
  {
    var p1 := FolderPath(u1, a);
    var p2 := FolderPath(u2, b);
    var x1, y1 := NatToString(u1), NatToString(a);
    var x2, y2 := NatToString(u2), NatToString(b);
    assert p1[9..] == x1 + "/" + y1;
    assert p2[9..] == x2 + "/" + y2;
    assert '/' !in x1 && '/' !in x2;
    BeforeSlash(x1, y1);
    BeforeSlash(x2, y2);
    assert x1 == x2;
    assert y1 == (x1 + "/" + y1)[|x1| + 1..];
    assert y2 == (x2 + "/" + y2)[|x2| + 1..];
    NatToStringInjective(u1, u2);
    NatToStringInjective(a, b);
  }

  /** `File.findOne({ _id: id, userId: user, isFolder: true })` finds a
      document. */
  predicate IsOwnedFolder(files: seq<FileDoc>, id: nat, user: nat) {
    id < |files| && files[id].userId == user && files[id].isFolder
  }

  /** The name guard `!name || name.trim() === ""`. */
  predicate BlankName(name: Option<string>) {
    name.None? || Strings.Trim(name.value) == ""
  }

  /** The folder `createFolder` builds for `File.create`, before its path is
      set. */
  function FolderDraft(name: string, user: nat, parentId: nat): FileDoc {
    FileDoc(Strings.Trim(name), "", 0, "folder", "", None, user, Some(parentId), true, false, false)
  }

  /** The path given to a folder once its id is known. */
  function FolderPath(user: nat, id: nat): string {
    "/folders/" + NatToString(user) + "/" + NatToString(id)
  }

  /** The checks that precede creation, shared by both versions of
      `createFolder`: 401 without a user, 400 for a blank name, no response
      without a parent, 404 unless the parent is a folder the caller owns. */
  function FolderPrecheck(files: seq<FileDoc>, user: Option<nat>, name: Option<string>,
                          parentId: Option<nat>): (r: Option<Outcome<FileDoc>>)
    ensures user.None? ==> r == Some(Responded(Err(Unauthorized)))
    ensures user.Some? && BlankName(name) ==> r == Some(Responded(Err(NameRequired)))
    ensures user.Some? && !BlankName(name) && parentId.None? ==> r == Some(NoResponse)
    ensures r.None? <==> user.Some? && !BlankName(name) && parentId.Some?
                         && IsOwnedFolder(files, parentId.value, user.value)
    ensures r.Some? && r.value.Responded? && r.value.result.Err? ==>
      r.value.result.failure in {Unauthorized, NameRequired, FolderNotFound}
  {
    if user.None? then Some(Responded(Err(Unauthorized)))
    else if BlankName(name) then Some(Responded(Err(NameRequired)))
    else if parentId.None? then Some(NoResponse)
    else if !IsOwnedFolder(files, parentId.value, user.value) then Some(Responded(Err(FolderNotFound)))
    else None
  }

  /** `createFolder` as written: the draft has `path: ""` and `fileUrl: ""`,
      both required strings in the file schema, so `File.create` always
      throws a validation error and nothing is stored. */
  function CreateFolderAsWritten(files: seq<FileDoc>, user: Option<nat>, name: Option<string>,
                                 parentId: Option<nat>): (r: (seq<FileDoc>, Outcome<FileDoc>))
    ensures r.0 == files
    ensures FolderPrecheck(files, user, name, parentId).Some? ==> r.1 == FolderPrecheck(files, user, name, parentId).value
    ensures r.1 == Responded(Err(RequiredPathMissing)) <==>
      FolderPrecheck(files, user, name, parentId).None?
  {
    match FolderPrecheck(files, user, name, parentId)
    case Some(o) => (files, o)
    case None => (files, Responded(Err(RequiredPathMissing)))
  }

  /** `createFolder` as evidently intended: the folder is stored under the
      caller's parent folder with a trimmed name, size 0, type "folder",
      no URLs and all flags false except `isFolder`, and its path is then
      set to `/folders/<user>/<id>`. */
  function CreateFolder(files: seq<FileDoc>, user: Option<nat>, name: Option<string>,
                        parentId: Option<nat>): (r: (seq<FileDoc>, Outcome<FileDoc>))
    ensures FolderPrecheck(files, user, name, parentId).Some? ==>
      r == (files, FolderPrecheck(files, user, name, parentId).value)
    ensures FolderPrecheck(files, user, name, parentId).None? ==>
      |r.0| == |files| + 1 && r.0[..|files|] == files
    ensures FolderPrecheck(files, user, name, parentId).None? ==>
      var f := r.0[|files|];
      && r.1 == Responded(Ok(f))
      && f.name == Strings.Trim(name.value) && f.name != ""
      && f.size == 0 && f.fileType == "folder" && f.isFolder && !f.isStarred && !f.isTrash
      && f.userId == user.value && f.parentId == parentId
      && IsOwnedFolder(files, f.parentId.value, f.userId)
      && f.path == FolderPath(user.value, |files|)
  {
    match FolderPrecheck(files, user, name, parentId)
    case Some(o) => (files, o)
    case None =>
      var draft := FolderDraft(name.value, user.value, parentId.value);
      (files + [draft.(path := FolderPath(user.value, |files|))], Responded(Ok(draft.(path := FolderPath(user.value, |files|)))))
  }

  /** The `File.find(filter)` filter of `getFilesByUserId`. */
  predicate InListing(f: FileDoc, user: nat, parentId: Option<nat>) {
    f.userId == user && f.parentId == parentId
  }

  /** `getFilesByUserId` reads `req.user._id` before any check, so a request
      without `req.user` fails with this `TypeError`. */
  const NoRequestUser := RuntimeError("TypeError", "Cannot read properties of undefined (reading '_id')")

  /** `getFilesByUserId`. `reqUser` is `req.user`: `None` when the request
      carries no user, `Some(None)` for a user without an `_id`, and
      `Some(Some(id))` otherwise. Without `req.user` the handler throws a
      `TypeError`, without an `_id` it answers 401, and otherwise it lists
      the caller's documents whose parent is the given one (the root when
      none is given), in collection order. */
  function GetFiles(files: seq<FileDoc>, reqUser: Option<Option<nat>>, parentId: Option<nat>): (r: Result<seq<FileDoc>>)
    ensures reqUser.None? <==> r == Err(NoRequestUser)
    ensures reqUser == Some(None) <==> r == Err(Unauthorized)
    ensures r.Ok? <==> reqUser.Some? && reqUser.value.Some?
    ensures r.Ok? ==> r.value == Seqs.Filter(files, (f: FileDoc) => InListing(f, reqUser.value.value, parentId))
    ensures r.Ok? ==> forall k :: 0 <= k < |r.value| ==>
      r.value[k].userId == reqUser.value.value && r.value[k].parentId == parentId
    ensures r.Ok? ==> forall i :: 0 <= i < |files| && InListing(files[i], reqUser.value.value, parentId) ==>
      files[i] in r.value
  {
    match reqUser
    case None => Err(NoRequestUser)
    case Some(None) => Err(Unauthorized)
    case Some(Some(user)) => Ok(Seqs.Filter(files, (f: FileDoc) => InListing(f, user, parentId)))
  }

  /** A folder created under a parent is listed when the caller lists that
      parent. */
  lemma CreatedFolderIsListed(files: seq<FileDoc>, user: nat, name: string, parentId: nat)
    requires FolderPrecheck(files, Some(user), Some(name), Some(parentId)).None?
    ensures var c := CreateFolder(files, Some(user), Some(name), Some(parentId));
      var listing := GetFiles(c.0, Some(Some(user)), Some(parentId));
      listing.Ok? && c.0[|files|] in listing.value
  {
    var c := CreateFolder(files, Some(user), Some(name), Some(parentId));
    assert InListing(c.0[|files|], user, Some(parentId));
  }

  /** The defect of `createFolder`: a request the intended handler answers
      with a new folder stores nothing and fails. */
  lemma CreateFolderAsWrittenStoresNothing(files: seq<FileDoc>, user: nat, name: string, parentId: nat)
    requires FolderPrecheck(files, Some(user), Some(name), Some(parentId)).None?
    ensures CreateFolder(files, Some(user), Some(name), Some(parentId)).1.Responded?
    ensures CreateFolder(files, Some(user), Some(name), Some(parentId)).1.result.Ok?
    ensures CreateFolderAsWritten(files, Some(user), Some(name), Some(parentId)) ==
      (files, Responded(Err(RequiredPathMissing)))
  {
  }

  /** The file collection, updated in place by the handlers. */
  class FileStore {
    var files: seq<FileDoc>

    constructor ()
      ensures files == []
    {
      files := [];
    }

    /** `createFolder` (intended): the draft is created, then its path is
        set from the new id and the document saved again. */
    method CreateFolderRequest(user: Option<nat>, name: Option<string>, parentId: Option<nat>)
      returns (o: Outcome<FileDoc>)
      modifies this
      ensures (files, o) == CreateFolder(old(files), user, name, parentId)
    {
      var pre := FolderPrecheck(files, user, name, parentId);
      if pre.Some? {
        return pre.value;
      }
      var newFolder := FolderDraft(name.value, user.value, parentId.value);
      files := files + [newFolder];
      var id := |files| - 1;
      var updatedPath := FolderPath(user.value, id);
      files := files[id := files[id].(path := updatedPath)];
      o := Responded(Ok(files[id]));
      assert files == old(files) + [newFolder.(path := updatedPath)];
    }

    /** `createFolder` as written. */
    method CreateFolderRequestAsWritten(user: Option<nat>, name: Option<string>, parentId: Option<nat>)
      returns (o: Outcome<FileDoc>)
      ensures (files, o) == CreateFolderAsWritten(files, user, name, parentId)
    {
      var pre := FolderPrecheck(files, user, name, parentId);
      if pre.Some? {
        return pre.value;
      }
      o := Responded(Err(RequiredPathMissing));
    }

    /** `getFilesByUserId`: builds the filter field by field, then queries. */
    method GetFilesByUserId(reqUser: Option<Option<nat>>, parentId: Option<nat>) returns (r: Result<seq<FileDoc>>)
      ensures r == GetFiles(files, reqUser, parentId)
    {
      if reqUser.None? {
        return Err(NoRequestUser);
      }
      var authUserId := reqUser.value;
      if authUserId.None? {
        return Err(Unauthorized);
      }
      var filterUser := authUserId.value;
      var filterParent: Option<nat>;
      if parentId.Some? {
        filterParent := parentId;
      } else {
        filterParent := None;
      }
      r := Ok(Seqs.Filter(files, (f: FileDoc) => InListing(f, filterUser, filterParent)));
    }

    /** `uploadFiles`: 400 without a file, 404 unless a given parent is a
        folder the caller owns; past those checks the handler calls
        `uploadOnCloudinary`, which the file does not import, so nothing is
        ever stored. */
    method UploadFiles(userId: Option<nat>, parentId: Option<nat>, file: Option<UploadedFile>)
      returns (r: Result<FileDoc>)
      ensures file.None? <==> r == Err(NoFile)
      ensures file.Some? && parentId.Some? && (userId.None? || !IsOwnedFolder(files, parentId.value, userId.value))
              <==> r == Err(ParentNotFound)
      ensures r.Err? && r.failure != NoFile && r.failure != ParentNotFound ==> r == Err(UploadUnbound)
      ensures r.Err?
    {
      if file.None? {
        return Err(NoFile);
      }
      if parentId.Some? {
        if userId.None? || !IsOwnedFolder(files, parentId.value, userId.value) {
          return Err(ParentNotFound);
        }
      }
      r := Err(UploadUnbound);
    }
  }
}
