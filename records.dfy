/**
 * The rows the pages receive from the hosted backend, with the joined
 * columns the queries select (`spaces` rows carry `facilities(name)`,
 * `events` rows carry `spaces(name, facilities(name))`). A nullable
 * column is an `Option`.
 */
module Records {
  import opened Common

  /** A moment in time, as a JavaScript `Date` holds it. */
  datatype Date = Date(epochMillis: int)

  /** The `facilities(name)` join: the parent facility's name, if any. */
  datatype FacilityRef = FacilityRef(name: Option<string>)

  /** The `spaces(name, facilities(name))` join of an event. */
  datatype SpaceRef = SpaceRef(name: string, facilities: Option<FacilityRef>)

  datatype Facility = Facility(
    id: int,
    name: string,
    description: Option<string>,
    latitude: Option<real>,
    longitude: Option<real>,
    photoUrl: Option<string>)

  datatype Space = Space(
    id: int,
    name: string,
    description: Option<string>,
    floorLevel: Option<string>,
    parentFacilityId: int,
    photoUrl: Option<string>,
    facilities: Option<FacilityRef>)

  datatype Event = Event(
    id: int,
    name: string,
    description: Option<string>,
    locationId: Option<int>,
    startDate: Option<string>,
    endDate: Option<string>,
    scopes: Option<seq<string>>,
    imageUrl: Option<string>,
    spaces: Option<SpaceRef>)

  /** A file the user picked in a file input. */
  datatype File = File(name: string)
}
