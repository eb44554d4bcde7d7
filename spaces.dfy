/**
 * The space list page, src/pages/Spaces.jsx: its search filter, the parent
 * facility column, and what its save handler writes. Its list, dialog,
 * delete and saving state is `Crud.CrudPage<Space, SpaceData>` with `idOf`
 * the `id` column.
 */
module Spaces {
  import opened Common
  import opened Records
  import opened Crud

  /** `space.facilities?.name || ''`. */
  function ParentName(space: Space): string {
    if space.facilities.Some? then OrElse(space.facilities.value.name, "") else ""
  }

  /** The search: the lower-cased space name or parent facility name contains the lower-cased query. */
  predicate Matches(space: Space, query: string, lower: string -> string) {
    Includes(lower(space.name), lower(query)) || Includes(lower(ParentName(space)), lower(query))
  }

  /** The rows shown for a search query. */
  function FilteredSpaces(spaces: seq<Space>, query: string, lower: string -> string): (r: seq<Space>)
    ensures forall s :: s in r <==>
      (s in spaces && (Includes(lower(s.name), lower(query)) || Includes(lower(ParentName(s)), lower(query))))
    ensures IsSubsequence(r, spaces)
    ensures forall s :: multiset(r)[s] == if Matches(s, query, lower) then multiset(spaces)[s] else 0
    ensures lower(query) == "" ==> r == spaces
  {
    var keep := (s: Space) => Matches(s, query, lower);
    FilterCounts(spaces, keep);
    FilterMembership(spaces, keep);
    FilterIsSubsequence(spaces, keep);
    if lower(query) == "" then
      FilterKeepsAll(spaces, keep);
      Filter(spaces, keep)
    else
      Filter(spaces, keep)
  }

  /** The parent facility column. */
  function ParentLabel(space: Space): (text: string)
    ensures ParentName(space) == "" ==> text == "Unknown"
    ensures ParentName(space) != "" ==> text == ParentName(space)
    ensures text != ""
  {
    if space.facilities.Some? then OrElse(space.facilities.value.name, "Unknown") else "Unknown"
  }

  /** The values the space dialog submits. */
  datatype SpaceForm = SpaceForm(
    name: string,
    description: Option<string>,
    floorLevel: Option<string>,
    parentFacilityId: int,
    imageFile: Option<File>,
    currentPhotoUrl: Option<string>)

  /** The row written to the `spaces` table. */
  datatype SpaceData = SpaceData(
    name: string,
    description: Option<string>,
    floorLevel: Option<string>,
    parentFacilityId: int,
    photoUrl: Option<string>)

  /** `spaceData`, built once the photo URL is known. */
  function BuildSpace(form: SpaceForm): (build: Option<string> -> Lookup<SpaceData>)
    // it never fails, and writes the URL it is given, not the form's current one
    ensures forall photoUrl :: build(photoUrl).Resolved? && build(photoUrl).value.photoUrl == photoUrl
    // every other column, the parent facility id included, is the form's field unchanged
    ensures forall photoUrl :: var data := build(photoUrl).value;
      data.name == form.name && data.description == form.description
      && data.floorLevel == form.floorLevel && data.parentFacilityId == form.parentFacilityId
  {
    photoUrl => Resolved(SpaceData(form.name, form.description, form.floorLevel, form.parentFacilityId, photoUrl))
  }

  /** `handleSaveSpace` between `setSaving(true)` and its `catch`. */
  function SaveSpace(editing: Option<Space>, form: SpaceForm, upload: Lookup<string>, write: Lookup<()>): (run: SaveRun<SpaceData>)
    ensures (|run.requests| > 0 && IsWrite(run.requests[|run.requests| - 1])) <==> form.imageFile.None? || upload.Resolved?
    // the write carries the form's parent facility id unchanged, and the resolved photo
    ensures form.imageFile.None? || upload.Resolved? ==>
      var photoUrl := if form.imageFile.Some? then Some(upload.value) else form.currentPhotoUrl;
      var data := SpaceData(form.name, form.description, form.floorLevel, form.parentFacilityId, photoUrl);
      run.requests[|run.requests| - 1] == (if editing.Some? then Update(editing.value.id, data) else Create(data))
    ensures run.outcome.Resolved? <==> (form.imageFile.None? || upload.Resolved?) && write.Resolved?
  {
    RunSave(EditTarget(editing, (s: Space) => s.id), form.currentPhotoUrl, form.imageFile, upload, BuildSpace(form), write)
  }
}
