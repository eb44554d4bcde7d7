/**
 * The form schemas of src/utils/validators.js as functions from the form's
 * field values to the list of issues the schema reports, in field order.
 * A value is what the form hands the schema for that field.
 */
module Validators {

  datatype Value = Undefined | Null | Str(s: string) | Num(n: real) | Bool(b: bool)

  /** A schema issue: the field it is about and its message. */
  datatype Issue = Issue(path: string, message: string)

  /** The name the schema library uses for a value's type in its messages. */
  function TypeName(v: Value): string {
    match v
    case Undefined => "undefined"
    case Null => "null"
    case Str(_) => "string"
    case Num(_) => "number"
    case Bool(_) => "boolean"
  }

  /** The issue for a value of the wrong type; a missing value gets `requiredMessage`. */
  function TypeIssue(path: string, expected: string, v: Value, requiredMessage: string): Issue {
    if v.Undefined? then Issue(path, requiredMessage)
    else Issue(path, "Expected " + expected + ", received " + TypeName(v))
  }

  /** `.min(n, message)` on a string. */
  function MinLength(path: string, s: string, n: nat, message: string): seq<Issue> {
    if |s| < n then [Issue(path, message)] else []
  }

  /** `z.string().optional()`. */
  function OptionalString(path: string, v: Value): seq<Issue> {
    if v.Undefined? || v.Str? then [] else [TypeIssue(path, "string", v, "Required")]
  }

  /** `z.number().min(lo).max(hi, maxMessage)`. */
  function BoundedNumber(path: string, v: Value, lo: real, loMessage: string, hi: real, hiMessage: string): seq<Issue> {
    if !v.Num? then [TypeIssue(path, "number", v, "Required")]
    else (if v.n < lo then [Issue(path, loMessage)] else []) + (if v.n > hi then [Issue(path, hiMessage)] else [])
  }

  /** `loginSchema`; `isEmail` is the library's e-mail format check. */
  function LoginIssues(email: Value, password: Value, isEmail: string -> bool): seq<Issue> {
    (if email.Str? then
       MinLength("email", email.s, 1, "Email is required") +
       (if isEmail(email.s) then [] else [Issue("email", "Invalid email address")])
     else [TypeIssue("email", "string", email, "Required")])
    +
    (if password.Str? then MinLength("password", password.s, 6, "Password must be at least 6 characters")
     else [TypeIssue("password", "string", password, "Required")])
  }

  /** The login form passes exactly when the e-mail is a non-empty well-formed string and the password has at least 6 characters. */
  lemma LoginAccepts(email: Value, password: Value, isEmail: string -> bool)
    ensures LoginIssues(email, password, isEmail) == [] <==>
      email.Str? && |email.s| >= 1 && isEmail(email.s) && password.Str? && |password.s| >= 6
  {
  }

  /** An empty e-mail is reported as required (before any format issue). */
  lemma EmptyEmailRequired(password: Value, isEmail: string -> bool)
    ensures LoginIssues(Str(""), password, isEmail)[0] == Issue("email", "Email is required")
  {
  }

  /** `facilitySchema`. */
  function FacilityIssues(name: Value, description: Value, latitude: Value, longitude: Value): seq<Issue> {
    (if name.Str? then MinLength("name", name.s, 3, "Name must be at least 3 characters")
     else [TypeIssue("name", "string", name, "Required")])
    + OptionalString("description", description)
    + BoundedNumber("latitude", latitude, -90.0, "Number must be greater than or equal to -90", 90.0, "Invalid latitude")
    + BoundedNumber("longitude", longitude, -180.0, "Number must be greater than or equal to -180", 180.0, "Invalid longitude")
  }

  /** A facility passes exactly when its name has 3+ characters, a description if any is a string, and the coordinates are in range. */
  lemma FacilityAccepts(name: Value, description: Value, latitude: Value, longitude: Value)
    ensures FacilityIssues(name, description, latitude, longitude) == [] <==>
      && name.Str? && |name.s| >= 3
      && (description.Undefined? || description.Str?)
      && latitude.Num? && -90.0 <= latitude.n <= 90.0
      && longitude.Num? && -180.0 <= longitude.n <= 180.0
  {
  }

  /** `spaceSchema`. */
  function SpaceIssues(name: Value, parentFacilityId: Value, floorLevel: Value, description: Value): seq<Issue> {
    (if name.Str? then MinLength("name", name.s, 2, "Name must be at least 2 characters")
     else [TypeIssue("name", "string", name, "Required")])
    + (if parentFacilityId.Num? then []
       else [TypeIssue("parent_facility_id", "number", parentFacilityId, "Parent facility is required")])
    + OptionalString("floor_level", floorLevel)
    + OptionalString("description", description)
  }

  /** A space passes exactly when its name has 2+ characters, it names a parent facility by number, and floor and description are absent or strings. */
  lemma SpaceAccepts(name: Value, parentFacilityId: Value, floorLevel: Value, description: Value)
    ensures SpaceIssues(name, parentFacilityId, floorLevel, description) == [] <==>
      && name.Str? && |name.s| >= 2
      && parentFacilityId.Num?
      && (floorLevel.Undefined? || floorLevel.Str?)
      && (description.Undefined? || description.Str?)
  {
  }

  /** A space without a parent facility is reported with the schema's own message. */
  lemma MissingParentReported(name: Value, floorLevel: Value, description: Value)
    ensures Issue("parent_facility_id", "Parent facility is required") in SpaceIssues(name, Undefined, floorLevel, description)
  {
  }
}
