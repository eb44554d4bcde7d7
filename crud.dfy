/**
 * What the three management pages (src/pages/Facilities.jsx,
 * src/pages/Spaces.jsx, src/pages/Events.jsx) share: their list, search,
 * dialog and saving state, the delete-after-confirm handler and the save
 * handler. The pages differ only in the row type `R`, the payload type `P`
 * and how a payload is built from the form; those live in the page modules.
 * Backend calls are recorded as requests, and their replies are parameters.
 */
module Crud {
  import opened Common
  import opened Records

  /** A call a page makes to its entity service. */
  datatype Request<P> =
    | FetchAll
    | UploadImage(file: File)
    | Create(payload: P)
    | Update(id: int, payload: P)
    | Delete(id: int)

  /** The photo URL a save uses: the uploaded file's URL when a file was chosen, the current one otherwise. */
  function ResolvePhotoUrl(current: Option<string>, imageFile: Option<File>, upload: Lookup<string>): (photo: Lookup<Option<string>>)
    // it fails exactly when a file was chosen and its upload threw, with the upload's error
    ensures photo.Threw? <==> imageFile.Some? && upload.Threw?
    ensures photo.Threw? ==> photo.error == upload.error
    // without a file the current URL is kept, even when it is null; with one the uploaded URL replaces it
    ensures imageFile.None? ==> photo == Resolved(current)
    ensures imageFile.Some? && photo.Resolved? ==> photo.value == Some(upload.value)
  {
    match imageFile
    case None => Resolved(current)
    case Some(_) =>
      match upload
      case Resolved(url) => Resolved(Some(url))
      case Threw(e) => Threw(e)
  }

  /** The id of the record being edited, if any; `idOf` reads a row's `id` column. */
  function EditTarget<R>(editing: Option<R>, idOf: R -> int): (id: Option<int>)
    ensures id.Some? <==> editing.Some?
    ensures editing.Some? ==> id.value == idOf(editing.value)
  {
    if editing.Some? then Some(idOf(editing.value)) else None
  }

  /** Update the record being edited, or create a new one. */
  function WriteRequest<P>(editingId: Option<int>, payload: P): Request<P> {
    match editingId
    case Some(id) => Update(id, payload)
    case None => Create(payload)
  }

  /** The requests one run of a save handler issued, and how its `try` block ended. */
  datatype SaveRun<P> = SaveRun(requests: seq<Request<P>>, outcome: Lookup<()>)

  predicate IsWrite<P>(r: Request<P>) {
    r.Create? || r.Update?
  }

  /**
   * The `try` block of a save handler: upload the new file if there is one,
   * build the payload from the photo URL, then update or create. The first
   * step that throws ends the block.
   */
  function RunSave<P>(editingId: Option<int>, currentPhotoUrl: Option<string>, imageFile: Option<File>,
                      upload: Lookup<string>, build: Option<string> -> Lookup<P>, write: Lookup<()>): (run: SaveRun<P>)
    // an upload is the first request exactly when a file was chosen
    ensures imageFile.Some? <==> |run.requests| > 0 && run.requests[0].UploadImage?
    ensures imageFile.Some? ==> run.requests[0] == UploadImage(imageFile.value)
    // at most one write, always last, and only once the photo URL and the payload are both in hand
    ensures forall i :: 0 <= i < |run.requests| && IsWrite(run.requests[i]) ==> i == |run.requests| - 1
    ensures var photo := ResolvePhotoUrl(currentPhotoUrl, imageFile, upload);
      (|run.requests| > 0 && IsWrite(run.requests[|run.requests| - 1])) <==> photo.Resolved? && build(photo.value).Resolved?
    // the write targets the edited record, or creates one, with the payload built from the resolved photo URL
    ensures var photo := ResolvePhotoUrl(currentPhotoUrl, imageFile, upload);
      |run.requests| > 0 && IsWrite(run.requests[|run.requests| - 1]) ==>
        run.requests[|run.requests| - 1] == WriteRequest(editingId, build(photo.value).value)
    // the save succeeds only when the write was issued and succeeded
    ensures run.outcome.Resolved? <==> |run.requests| > 0 && IsWrite(run.requests[|run.requests| - 1]) && write.Resolved?
  {
    var uploads := if imageFile.Some? then [UploadImage(imageFile.value)] else [];
    match ResolvePhotoUrl(currentPhotoUrl, imageFile, upload)
    case Threw(e) => SaveRun(uploads, Threw(e))
    case Resolved(photoUrl) =>
      match build(photoUrl)
      case Threw(e) => SaveRun(uploads, Threw(e))
      case Resolved(payload) =>
        SaveRun(uploads + [WriteRequest(editingId, payload)], write)
  }

  /** Without a new file, the payload is built from the current photo URL and nothing is uploaded. */
  lemma KeepsCurrentPhoto<P>(editingId: Option<int>, currentPhotoUrl: Option<string>, upload: Lookup<string>,
                             build: Option<string> -> Lookup<P>, write: Lookup<()>)
    requires build(currentPhotoUrl).Resolved?
    ensures RunSave(editingId, currentPhotoUrl, None, upload, build, write).requests
      == [WriteRequest(editingId, build(currentPhotoUrl).value)]
  {
  }

  /** With a new file, the payload is built from the uploaded URL after the upload. */
  lemma UsesUploadedPhoto<P>(editingId: Option<int>, currentPhotoUrl: Option<string>, file: File, url: string,
                             build: Option<string> -> Lookup<P>, write: Lookup<()>)
    requires build(Some(url)).Resolved?
    ensures RunSave(editingId, currentPhotoUrl, Some(file), Resolved(url), build, write).requests
      == [UploadImage(file), WriteRequest(editingId, build(Some(url)).value)]
  {
  }

  /** A failed upload stops the save before any write. */
  lemma FailedUploadWritesNothing<P>(editingId: Option<int>, currentPhotoUrl: Option<string>, file: File, e: Error,
                                     build: Option<string> -> Lookup<P>, write: Lookup<()>)
    ensures RunSave(editingId, currentPhotoUrl, Some(file), Threw(e), build, write) == SaveRun([UploadImage(file)], Threw(e))
  {
  }

  /** The list, search, dialog and saving state of a management page, and the requests it has made. */
  class CrudPage<R, P> {
    var rows: seq<R>
    var loading: bool
    var searchQuery: string
    var dialogOpen: bool
    var saving: bool
    var editing: Option<R>
    var requests: seq<Request<P>>
    /** The `id` column of a row. */
    const idOf: R -> int

    /** The id of the row being edited, if any. */
    function EditingId(): Option<int>
      reads this
    {
      EditTarget(editing, idOf)
    }

    /** Mounting: the initial state, and the effect's first load has started. */
    constructor (idOf: R -> int)
      ensures this.idOf == idOf
      ensures rows == [] && loading && searchQuery == "" && !dialogOpen && !saving && editing.None?
      ensures requests == [FetchAll]
    {
      this.idOf := idOf;
      rows := [];
      loading := true;
      searchQuery := "";
      dialogOpen := false;
      saving := false;
      editing := None;
      requests := [FetchAll];
    }

    /** A load up to its `await getAll()`. */
    method BeginLoad()
      modifies this
      ensures loading && requests == old(requests) + [FetchAll]
      ensures rows == old(rows) && searchQuery == old(searchQuery) && dialogOpen == old(dialogOpen)
      ensures saving == old(saving) && editing == old(editing)
    {
      loading := true;
      requests := requests + [FetchAll];
    }

    /** A load after `getAll()`: the rows are replaced on success; `finally` stops loading. */
    method FinishLoad(fetched: Lookup<seq<R>>)
      modifies this
      ensures !loading
      ensures rows == (if fetched.Resolved? then fetched.value else old(rows))
      ensures requests == old(requests) && searchQuery == old(searchQuery) && dialogOpen == old(dialogOpen)
      ensures saving == old(saving) && editing == old(editing)
    {
      if fetched.Resolved? {
        rows := fetched.value;
      }
      loading := false;
    }

    method SetSearchQuery(query: string)
      modifies this`searchQuery
      ensures searchQuery == query
    {
      searchQuery := query;
    }

    /** "Add": the edit target is cleared before the dialog opens. */
    method AddClick()
      modifies this`editing, this`dialogOpen
      ensures editing.None? && dialogOpen
    {
      editing := None;
      dialogOpen := true;
    }

    /** "Edit" on a row. */
    method EditClick(row: R)
      modifies this`editing, this`dialogOpen
      ensures editing == Some(row) && dialogOpen
    {
      editing := Some(row);
      dialogOpen := true;
    }

    method CloseDialog()
      modifies this`dialogOpen
      ensures !dialogOpen
    {
      dialogOpen := false;
    }

    /**
     * "Delete" on a row up to its `await`: nothing is requested unless the
     * confirmation returned true. The result says whether the handler is
     * now suspended on the delete.
     */
    method DeleteClick(id: int, confirmed: bool) returns (pending: bool)
      modifies this`requests
      ensures pending == confirmed
      ensures requests == old(requests) + (if confirmed then [Delete(id)] else [])
    {
      if confirmed {
        requests := requests + [Delete(id)];
      }
      pending := confirmed;
    }

    /** The rest of a confirmed delete: a successful delete starts a reload; a failed one changes nothing here. */
    method FinishDelete(deleted: Lookup<()>)
      modifies this
      ensures requests == old(requests) + (if deleted.Resolved? then [FetchAll] else [])
      ensures loading == (if deleted.Resolved? then true else old(loading))
      ensures rows == old(rows) && searchQuery == old(searchQuery) && dialogOpen == old(dialogOpen)
      ensures saving == old(saving) && editing == old(editing)
    {
      if deleted.Resolved? {
        BeginLoad();
      }
    }

    /** A save handler up to its first `await`. */
    method BeginSave()
      modifies this`saving
      ensures saving
    {
      saving := true;
    }

    /**
     * The rest of a save handler: run the `try` block; on success close the
     * dialog and start a reload; `finally` clears `saving` either way.
     */
    method FinishSave(currentPhotoUrl: Option<string>, imageFile: Option<File>, upload: Lookup<string>,
                      build: Option<string> -> Lookup<P>, write: Lookup<()>)
      modifies this
      ensures var run := RunSave(old(EditingId()), currentPhotoUrl, imageFile, upload, build, write);
        && requests == old(requests) + run.requests + (if run.outcome.Resolved? then [FetchAll] else [])
        && dialogOpen == (if run.outcome.Resolved? then false else old(dialogOpen))
        && loading == (if run.outcome.Resolved? then true else old(loading))
      ensures !saving
      ensures rows == old(rows) && searchQuery == old(searchQuery) && editing == old(editing)
    {
      var run := RunSave(EditingId(), currentPhotoUrl, imageFile, upload, build, write);
      requests := requests + run.requests;
      if run.outcome.Resolved? {
        dialogOpen := false;
        BeginLoad();
      }
      saving := false;
    }
  }
}
