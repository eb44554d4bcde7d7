/**
 * The facility list page, src/pages/Facilities.jsx: its search filter, the
 * location column, and what its save handler writes. Its list, dialog,
 * delete and saving state is `Crud.CrudPage<Facility, FacilityData>` with
 * `idOf` the `id` column.
 */
module Facilities {
  import opened Common
  import opened Records
  import opened Crud

  /** The search: the lower-cased name contains the lower-cased query. */
  predicate Matches(facility: Facility, query: string, lower: string -> string) {
    Includes(lower(facility.name), lower(query))
  }

  /** The rows shown for a search query. */
  function FilteredFacilities(facilities: seq<Facility>, query: string, lower: string -> string): (r: seq<Facility>)
    ensures forall f :: f in r <==> f in facilities && Includes(lower(f.name), lower(query))
    ensures IsSubsequence(r, facilities)
    // a matching row is shown as many times as it occurs, a non-matching one never
    ensures forall f :: multiset(r)[f] == if Includes(lower(f.name), lower(query)) then multiset(facilities)[f] else 0
    ensures lower(query) == "" ==> r == facilities
  {
    var keep := (f: Facility) => Matches(f, query, lower);
    FilterCounts(facilities, keep);
    FilterMembership(facilities, keep);
    FilterIsSubsequence(facilities, keep);
    if lower(query) == "" then
      FilterKeepsAll(facilities, keep);
      Filter(facilities, keep)
    else
      Filter(facilities, keep)
  }

  /** `!x` for a nullable coordinate: `null` and `0` are falsy. */
  predicate Falsy(x: Option<real>) {
    x.None? || x.value == 0.0
  }

  /** The location column; `fixed4` is `Number(x).toFixed(4)`. */
  function LocationText(facility: Facility, fixed4: real -> string): (text: string)
    // 'N/A' exactly when a coordinate is missing or zero
    ensures text == "N/A" <==> Falsy(facility.latitude) || Falsy(facility.longitude)
    ensures text != "N/A" ==> text == fixed4(facility.latitude.value) + ", " + fixed4(facility.longitude.value)
  {
    if Falsy(facility.latitude) || Falsy(facility.longitude) then "N/A"
    else
      var lat := fixed4(facility.latitude.value);
      var text := lat + ", " + fixed4(facility.longitude.value);
      assert text[|lat|] == ',';
      text
  }

  /** The values the facility dialog submits. */
  datatype FacilityForm = FacilityForm(
    name: string,
    description: Option<string>,
    latitude: Option<real>,
    longitude: Option<real>,
    imageFile: Option<File>,
    currentPhotoUrl: Option<string>)

  /** The row written to the `facilities` table. */
  datatype FacilityData = FacilityData(
    name: string,
    description: Option<string>,
    latitude: Option<real>,
    longitude: Option<real>,
    photoUrl: Option<string>)

  /** `facilityData`, built once the photo URL is known. */
  function BuildFacility(form: FacilityForm): (build: Option<string> -> Lookup<FacilityData>)
    // it never fails, and writes the URL it is given, not the form's current one
    ensures forall photoUrl :: build(photoUrl).Resolved? && build(photoUrl).value.photoUrl == photoUrl
    // every other column is the form's field unchanged
    ensures forall photoUrl :: var data := build(photoUrl).value;
      data.name == form.name && data.description == form.description
      && data.latitude == form.latitude && data.longitude == form.longitude
  {
    photoUrl => Resolved(FacilityData(form.name, form.description, form.latitude, form.longitude, photoUrl))
  }

  /** `handleSaveFacility` between `setSaving(true)` and its `catch`. */
  function SaveFacility(editing: Option<Facility>, form: FacilityForm, upload: Lookup<string>, write: Lookup<()>): (run: SaveRun<FacilityData>)
    // building the payload cannot fail, so only a failed upload prevents the write
    ensures (|run.requests| > 0 && IsWrite(run.requests[|run.requests| - 1])) <==> form.imageFile.None? || upload.Resolved?
    // the write updates the edited facility, or creates one, with the form's fields and the resolved photo
    ensures form.imageFile.None? || upload.Resolved? ==>
      var photoUrl := if form.imageFile.Some? then Some(upload.value) else form.currentPhotoUrl;
      var data := FacilityData(form.name, form.description, form.latitude, form.longitude, photoUrl);
      run.requests[|run.requests| - 1] == (if editing.Some? then Update(editing.value.id, data) else Create(data))
    ensures run.outcome.Resolved? <==> (form.imageFile.None? || upload.Resolved?) && write.Resolved?
  {
    RunSave(EditTarget(editing, (f: Facility) => f.id), form.currentPhotoUrl, form.imageFile, upload, BuildFacility(form), write)
  }
}
