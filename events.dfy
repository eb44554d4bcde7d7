/**
 * The event list page, src/pages/Events.jsx: its search filter, the location
 * and start date columns, and what its save handler writes. Its list,
 * dialog, delete and saving state is `Crud.CrudPage<Event, EventData>` with
 * `idOf` the `id` column. `toISO` is `Date.prototype.toISOString`.
 */
module Events {
  import opened Common
  import opened Records
  import opened Crud
  import opened EventFormDialog
  import opened Formatters

  /** `event.spaces?.name || ''`. */
  function SpaceName(event: Event): string {
    if event.spaces.Some? then event.spaces.value.name else ""
  }

  /** The search: the lower-cased event name or space name contains the lower-cased query. */
  predicate Matches(event: Event, query: string, lower: string -> string) {
    Includes(lower(event.name), lower(query)) || Includes(lower(SpaceName(event)), lower(query))
  }

  /** The rows shown for a search query. */
  function FilteredEvents(events: seq<Event>, query: string, lower: string -> string): (r: seq<Event>)
    ensures forall e :: e in r <==>
      (e in events && (Includes(lower(e.name), lower(query)) || Includes(lower(SpaceName(e)), lower(query))))
    ensures IsSubsequence(r, events)
    ensures forall e :: multiset(r)[e] == if Matches(e, query, lower) then multiset(events)[e] else 0
    ensures lower(query) == "" ==> r == events
  {
    var keep := (e: Event) => Matches(e, query, lower);
    FilterCounts(events, keep);
    FilterMembership(events, keep);
    FilterIsSubsequence(events, keep);
    if lower(query) == "" then
      FilterKeepsAll(events, keep);
      Filter(events, keep)
    else
      Filter(events, keep)
  }

  /** `row.spaces.facilities?.name`. */
  function FacilityNameOf(space: SpaceRef): Option<string> {
    if space.facilities.Some? then space.facilities.value.name else None
  }

  /** `s` ends with `suffix`. */
  predicate EndsWith(s: string, suffix: string) {
    |suffix| <= |s| && s[|s| - |suffix|..] == suffix
  }

  const SEPARATOR := " > "

  /** The location column. */
  function LocationText(event: Event): (text: string)
    ensures event.spaces.None? ==> text == "TBA"
    // a located event always shows its space name last
    ensures event.spaces.Some? ==> EndsWith(text, event.spaces.value.name)
    // preceded by its facility name when the facility has one
    ensures event.spaces.Some? && Truthy(FacilityNameOf(event.spaces.value)) ==>
      text == FacilityNameOf(event.spaces.value).value + SEPARATOR + event.spaces.value.name
    ensures event.spaces.Some? && !Truthy(FacilityNameOf(event.spaces.value)) ==> text == event.spaces.value.name
  {
    match event.spaces
    case None => "TBA"
    case Some(space) =>
      var facilityName := FacilityNameOf(space);
      if Truthy(facilityName) then
        var text := facilityName.value + SEPARATOR + space.name;
        assert text[|text| - |space.name|..] == space.name;
        text
      else space.name
  }

  /**
   * The `TypeError` thrown by reading `property` of `null`, with the V8
   * engine's wording (other engines word it differently).
   */
  function NullDereference(property: string): (e: Error)
    ensures IsPrefix("Cannot read properties of null", e.message)
    ensures EndsWith(e.message, "(reading '" + property + "')")
  {
    var e := Error("Cannot read properties of null (reading '" + property + "')");
    assert e.message[|e.message| - |"(reading '" + property + "')"|..] == "(reading '" + property + "')";
    e
  }

  /** What `null.toISOString()` throws for an empty date picker. */
  const NULL_DATE := NullDereference("toISOString")

  /** The row written to the `events` table. */
  datatype EventData = EventData(
    name: string,
    description: string,
    locationId: Option<int>,
    startDate: string,
    endDate: string,
    scopes: seq<string>,
    imageUrl: Option<string>)

  /** `eventData`, built once the image URL is known; an empty date picker makes `toISOString` throw. */
  function BuildEvent(values: FormValues, toISO: Date -> string): (build: Option<string> -> Lookup<EventData>)
    // it throws exactly when a date picker is empty, whatever the image URL
    ensures forall imageUrl :: build(imageUrl).Threw? <==> values.startDate.None? || values.endDate.None?
    ensures forall imageUrl :: build(imageUrl).Threw? ==> build(imageUrl).error == NULL_DATE
    // otherwise both dates are sent as ISO strings, with the URL it is given
    ensures forall imageUrl :: build(imageUrl).Resolved? ==>
      var data := build(imageUrl).value;
      data.startDate == toISO(values.startDate.value) && data.endDate == toISO(values.endDate.value)
      && data.imageUrl == imageUrl
    // and the remaining columns are the form's fields unchanged
    ensures forall imageUrl :: build(imageUrl).Resolved? ==>
      var data := build(imageUrl).value;
      data.name == values.name && data.description == values.description
      && data.locationId == values.locationId && data.scopes == values.scopes
  {
    imageUrl =>
      if values.startDate.None? || values.endDate.None? then Threw(NULL_DATE)
      else Resolved(EventData(values.name, values.description, values.locationId,
                              toISO(values.startDate.value), toISO(values.endDate.value), values.scopes, imageUrl))
  }

  /** `handleSaveEvent` between `setSaving(true)` and its `catch`. */
  function SaveEvent(editing: Option<Event>, submitted: Submission, toISO: Date -> string,
                     upload: Lookup<string>, write: Lookup<()>): (run: SaveRun<EventData>)
    // the write happens exactly when the upload (if any) succeeded and both dates are set
    ensures (|run.requests| > 0 && IsWrite(run.requests[|run.requests| - 1])) <==>
      (submitted.imageFile.None? || upload.Resolved?) && submitted.values.startDate.Some? && submitted.values.endDate.Some?
    // it updates the edited event, or creates one, with the dates as ISO strings and the resolved image
    ensures (|run.requests| > 0 && IsWrite(run.requests[|run.requests| - 1])) ==>
      var v := submitted.values;
      var imageUrl := if submitted.imageFile.Some? then Some(upload.value) else submitted.currentPhotoUrl;
      var data := EventData(v.name, v.description, v.locationId, toISO(v.startDate.value), toISO(v.endDate.value), v.scopes, imageUrl);
      run.requests[|run.requests| - 1] == (if editing.Some? then Update(editing.value.id, data) else Create(data))
    // a missing date fails the save after any upload
    ensures (submitted.imageFile.None? || upload.Resolved?) && (submitted.values.startDate.None? || submitted.values.endDate.None?) ==>
      run.outcome == Threw(NULL_DATE)
    ensures run.outcome.Resolved? <==> (|run.requests| > 0 && IsWrite(run.requests[|run.requests| - 1])) && write.Resolved?
  {
    RunSave(EditTarget(editing, (e: Event) => e.id), submitted.currentPhotoUrl, submitted.imageFile, upload, BuildEvent(submitted.values, toISO), write)
  }

  /** A chosen image is uploaded even when a missing date then fails the save. */
  lemma UploadBeforeDateCheck(editing: Option<Event>, values: FormValues, file: File, previewUrl: Option<string>,
                              toISO: Date -> string, url: string, write: Lookup<()>)
    requires values.startDate.None?
    ensures SaveEvent(editing, Submission(values, Some(file), previewUrl), toISO, Resolved(url), write)
      == SaveRun([UploadImage(file)], Threw(NULL_DATE))
  {
  }

  /**
   * Editing an event without touching its image (the preview still shows the
   * stored URL and no file was chosen) writes the stored URL back.
   */
  lemma EditKeepsStoredImage(event: Event, values: FormValues, toISO: Date -> string,
                             upload: Lookup<string>, write: Lookup<()>)
    requires values.startDate.Some? && values.endDate.Some?
    ensures var run := SaveEvent(Some(event), Submission(values, None, event.imageUrl), toISO, upload, write);
      |run.requests| == 1 && run.requests[0].Update? && run.requests[0].id == event.id
      && run.requests[0].payload.imageUrl == event.imageUrl
  {
  }

  /**
   * The Start Date column as written: the formatter receives the cell value
   * itself and passes on its `.value`, which a string does not have, so every
   * cell with a start date reads 'N/A' (and a `null` start date throws).
   */
  function StartDateCellAsWritten<D>(event: Event, parseISO: string -> D, isValid: D -> bool,
                                     format: (D, string) -> string): (cell: Lookup<string>)
    ensures event.startDate.Some? ==> cell == Resolved("N/A")
    ensures event.startDate.None? ==> cell == Threw(NullDereference("value"))
  {
    match event.startDate
    case None => Threw(NullDereference("value"))
    case Some(_) => Resolved(FormatDateTime(NoDate, parseISO, isValid, format))
  }

  /** The Start Date column as intended: the stored start date is formatted. */
  function StartDateCell<D>(event: Event, parseISO: string -> D, isValid: D -> bool,
                            format: (D, string) -> string): (cell: string)
    ensures !Truthy(event.startDate) ==> cell == "N/A"
    ensures Truthy(event.startDate) && !isValid(parseISO(event.startDate.value)) ==> cell == "Invalid Date"
    ensures Truthy(event.startDate) && isValid(parseISO(event.startDate.value)) ==>
      cell == format(parseISO(event.startDate.value), DATE_TIME_PATTERN)
  {
    FormatDateTime(if event.startDate.Some? then DateText(event.startDate.value) else NoDate, parseISO, isValid, format)
  }

  /** Any event with a valid start date is shown as 'N/A' by the column as written, but not by the intended one. */
  lemma StartDateCellLosesDate<D>(event: Event, parseISO: string -> D, isValid: D -> bool, format: (D, string) -> string)
    requires Truthy(event.startDate) && isValid(parseISO(event.startDate.value))
    requires format(parseISO(event.startDate.value), DATE_TIME_PATTERN) != "N/A"
    ensures StartDateCellAsWritten(event, parseISO, isValid, format) == Resolved("N/A")
    ensures StartDateCell(event, parseISO, isValid, format) != "N/A"
  {
  }
}
