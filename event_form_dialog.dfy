/**
 * The event dialog of src/components/events/EventFormDialog.jsx: the audience
 * checkbox toggle, the ordering of the location list, the values the form is
 * reset to when it opens, and the image selection state. `localeCompare` is a
 * parameter `cmp`; parsing a stored date string is a parameter `parseDate`.
 */
module EventFormDialog {
  import opened Common
  import opened Records

  /**
   * `handleScopeToggle`: a selected scope is removed (every occurrence), an
   * unselected one is appended.
   */
  function ToggleScope(current: seq<string>, scope: string): (r: seq<string>)
    // removing keeps every other scope, as often as it occurred and in the same order
    ensures scope in current ==> scope !in r && IsSubsequence(r, current)
    ensures scope in current ==> forall x :: x != scope ==> multiset(r)[x] == multiset(current)[x]
    // adding leaves the existing items as they were
    ensures scope !in current ==> r == current + [scope]
    // membership of the toggled scope flips, every other scope's is unchanged
    ensures scope in r <==> scope !in current
    ensures forall x :: x != scope ==> (x in r <==> x in current)
  {
    if scope in current then
      var keep := (s: string) => s != scope;
      FilterMembership(current, keep);
      FilterIsSubsequence(current, keep);
      FilterCounts(current, keep);
      Filter(current, keep)
    else
      current + [scope]
  }

  /** A toggle never introduces a duplicate. */
  lemma ToggleKeepsNoDuplicates(current: seq<string>, scope: string)
    requires NoDuplicates(current)
    ensures NoDuplicates(ToggleScope(current, scope))
  {
    if scope in current {
      FilterNoDuplicates(current, (s: string) => s != scope);
    }
  }

  /** Checking an unchecked box and then unchecking it restores the selection exactly. */
  lemma ToggleTwiceRestores(current: seq<string>, scope: string)
    requires scope !in current
    ensures ToggleScope(ToggleScope(current, scope), scope) == current
  {
    var keep := (s: string) => s != scope;
    FilterAppend(current, [scope], keep);
    FilterKeepsAll(current, keep);
    assert Filter([scope], keep) == [];
  }

  /**
   * Unchecking a checked box and then checking it again gives back the same
   * selection as a multiset, with that scope moved to the end.
   */
  lemma ToggleTwiceMovesToEnd(current: seq<string>, scope: string)
    requires NoDuplicates(current) && scope in current
    ensures ToggleScope(ToggleScope(current, scope), scope) == Filter(current, (s: string) => s != scope) + [scope]
    ensures multiset(ToggleScope(ToggleScope(current, scope), scope)) == multiset(current)
  {
    var once := ToggleScope(current, scope);
    var twice := ToggleScope(once, scope);
    NoDuplicatesCount(current, scope);
    forall x ensures multiset(twice)[x] == multiset(current)[x] {
      if x == scope {
        assert multiset(once)[x] == 0;
      }
    }
    assert multiset(twice) == multiset(current);
  }

  /** Dropping a scope that occurs only at the end leaves the rest of the list. */
  lemma DropLastScope(current: seq<string>, scope: string)
    requires NoDuplicates(current) && |current| > 0 && current[|current| - 1] == scope
    ensures Filter(current, (s: string) => s != scope) + [scope] == current
  {
    var keep := (s: string) => s != scope;
    var n := |current|;
    var front := current[..n - 1];
    assert current == front + [scope];
    forall i | 0 <= i < |front| ensures keep(front[i]) {
      assert current[i] == front[i];
    }
    FilterAppend(front, [scope], keep);
    FilterKeepsAll(front, keep);
    assert Filter([scope], keep) == [];
  }

  /**
   * On a selection without duplicates, a double toggle restores the list
   * exactly when the scope was unchecked, or checked and already last.
   */
  lemma ToggleTwiceRestoresIff(current: seq<string>, scope: string)
    requires NoDuplicates(current)
    ensures ToggleScope(ToggleScope(current, scope), scope) == current <==>
      (scope !in current || current[|current| - 1] == scope)
  {
    if scope !in current {
      ToggleTwiceRestores(current, scope);
    } else {
      ToggleTwiceMovesToEnd(current, scope);
      if current[|current| - 1] == scope {
        DropLastScope(current, scope);
      } else {
        var twice := Filter(current, (s: string) => s != scope) + [scope];
        assert twice[|twice| - 1] != current[|current| - 1];
      }
    }
  }

  /** So on a selection made in another order, a double toggle does not restore the list. */
  lemma ToggleTwiceReorders()
    ensures ToggleScope(ToggleScope(["CAS", "COE"], "CAS"), "CAS") == ["COE", "CAS"]
  {
    var keep := (s: string) => s != "CAS";
    assert ToggleScope(["CAS", "COE"], "CAS") == Filter(["CAS", "COE"], keep);
    assert ["CAS", "COE"][1..] == ["COE"];
    assert Filter(["COE"], keep) == ["COE"];
  }

  /** The name a space is grouped under in the location list: its facility's, `''` when missing. */
  function FacilityKey(space: Space): string {
    if space.facilities.Some? then OrElse(space.facilities.value.name, "") else ""
  }

  /** `cmp` is a comparison in the sense of `localeCompare`: swapping the arguments negates the sign. */
  ghost predicate Antisymmetric(cmp: (string, string) -> int) {
    forall x, y :: cmp(x, y) < 0 <==> cmp(y, x) > 0
  }

  /** The comparator of the location list: facility name first, then space name (`a || b` on numbers). */
  function CompareSpaces(a: Space, b: Space, cmp: (string, string) -> int): (c: int)
    ensures c < 0 <==>
      (cmp(FacilityKey(a), FacilityKey(b)) < 0 || (cmp(FacilityKey(a), FacilityKey(b)) == 0 && cmp(a.name, b.name) < 0))
    ensures c == 0 <==> cmp(FacilityKey(a), FacilityKey(b)) == 0 && cmp(a.name, b.name) == 0
  {
    var byFacility := cmp(FacilityKey(a), FacilityKey(b));
    if byFacility != 0 then byFacility else cmp(a.name, b.name)
  }

  /** Built from an antisymmetric string comparison, the space comparator is antisymmetric too. */
  lemma CompareSpacesAntisymmetric(a: Space, b: Space, cmp: (string, string) -> int)
    requires Antisymmetric(cmp)
    ensures CompareSpaces(a, b, cmp) < 0 <==> CompareSpaces(b, a, cmp) > 0
  {
    var fa, fb := FacilityKey(a), FacilityKey(b);
    assert cmp(fa, fb) < 0 <==> cmp(fb, fa) > 0;
    assert cmp(fb, fa) < 0 <==> cmp(fa, fb) > 0;
    assert cmp(a.name, b.name) < 0 <==> cmp(b.name, a.name) > 0;
    assert cmp(b.name, a.name) < 0 <==> cmp(a.name, b.name) > 0;
  }

  /** Every neighbouring pair is in comparator order. */
  ghost predicate Ordered(spaces: seq<Space>, cmp: (string, string) -> int) {
    forall i :: 0 <= i < |spaces| - 1 ==> CompareSpaces(spaces[i], spaces[i + 1], cmp) <= 0
  }

  /** Insert one space before the first one it does not follow. */
  function Insert(x: Space, sorted: seq<Space>, cmp: (string, string) -> int): (r: seq<Space>)
    ensures multiset(r) == multiset(sorted) + multiset{x}
    ensures |r| > 0 && (r[0] == x || (|sorted| > 0 && r[0] == sorted[0]))
  {
    if sorted == [] || CompareSpaces(x, sorted[0], cmp) <= 0 then [x] + sorted
    else
      assert sorted == [sorted[0]] + sorted[1..];
      [sorted[0]] + Insert(x, sorted[1..], cmp)
  }

  /** `data.sort(comparator)`, as an insertion sort. */
  function SortSpaces(spaces: seq<Space>, cmp: (string, string) -> int): (r: seq<Space>)
    ensures multiset(r) == multiset(spaces)
    ensures |r| == |spaces|
  {
    if spaces == [] then []
    else
      assert spaces == [spaces[0]] + spaces[1..];
      Insert(spaces[0], SortSpaces(spaces[1..], cmp), cmp)
  }

  lemma {:induction false} InsertOrdered(x: Space, sorted: seq<Space>, cmp: (string, string) -> int)
    requires Antisymmetric(cmp) && Ordered(sorted, cmp)
    ensures Ordered(Insert(x, sorted, cmp), cmp)
  {
    if sorted != [] && CompareSpaces(x, sorted[0], cmp) > 0 {
      var tail := sorted[1..];
      assert Ordered(tail, cmp) by {
        forall i | 0 <= i < |tail| - 1 ensures CompareSpaces(tail[i], tail[i + 1], cmp) <= 0 {
          assert tail[i] == sorted[i + 1] && tail[i + 1] == sorted[i + 2];
        }
      }
      InsertOrdered(x, tail, cmp);
      CompareSpacesAntisymmetric(x, sorted[0], cmp);
      var rest := Insert(x, tail, cmp);
      var r := [sorted[0]] + rest;
      forall i | 0 <= i < |r| - 1 ensures CompareSpaces(r[i], r[i + 1], cmp) <= 0 {
        if i > 0 {
          assert r[i] == rest[i - 1] && r[i + 1] == rest[i];
        }
      }
    }
  }

  /** The location list is sorted: every neighbouring pair is in comparator order. */
  lemma {:induction false} SortSpacesOrdered(spaces: seq<Space>, cmp: (string, string) -> int)
    requires Antisymmetric(cmp)
    ensures Ordered(SortSpaces(spaces, cmp), cmp)
  {
    if spaces != [] {
      SortSpacesOrdered(spaces[1..], cmp);
      InsertOrdered(spaces[0], SortSpaces(spaces[1..], cmp), cmp);
    }
  }

  /**
   * In the sorted list, facility names never go down, and within one facility
   * name the space names never go down.
   */
  lemma SortedByFacilityThenName(spaces: seq<Space>, cmp: (string, string) -> int, i: int)
    requires Antisymmetric(cmp)
    requires 0 <= i < |spaces| - 1
    ensures var r := SortSpaces(spaces, cmp);
      cmp(FacilityKey(r[i]), FacilityKey(r[i + 1])) <= 0
      && (cmp(FacilityKey(r[i]), FacilityKey(r[i + 1])) == 0 ==> cmp(r[i].name, r[i + 1].name) <= 0)
  {
    SortSpacesOrdered(spaces, cmp);
  }

  /** The form's field values. `locationId` `None` stands for the empty selection `''`. */
  datatype FormValues = FormValues(
    name: string,
    description: string,
    locationId: Option<int>,
    startDate: Option<Date>,
    endDate: Option<Date>,
    scopes: seq<string>)

  const EMPTY_VALUES := FormValues("", "", None, None, None, [])

  /** The values the form is reset to on opening, for an event being edited or for a new one. */
  function ResetValues(initial: Option<Event>, parseDate: string -> Date): (v: FormValues)
    ensures initial.None? ==> v == EMPTY_VALUES
    ensures initial.Some? ==> v.name == initial.value.name
    // a missing description becomes '', a missing (or zero) location the empty selection, missing scopes []
    ensures initial.Some? ==> v.description == OrElse(initial.value.description, "")
    ensures initial.Some? ==> (v.locationId.None? <==> initial.value.locationId.None? || initial.value.locationId.value == 0)
    ensures initial.Some? && v.locationId.Some? ==> v.locationId == initial.value.locationId
    ensures initial.Some? ==> v.scopes == (if initial.value.scopes.Some? then initial.value.scopes.value else [])
    // a stored date string is parsed; an empty or missing one leaves the picker empty
    ensures initial.Some? ==> (v.startDate.Some? <==> Truthy(initial.value.startDate))
    ensures initial.Some? ==> (v.endDate.Some? <==> Truthy(initial.value.endDate))
    ensures initial.Some? && v.startDate.Some? ==> v.startDate.value == parseDate(initial.value.startDate.value)
    ensures initial.Some? && v.endDate.Some? ==> v.endDate.value == parseDate(initial.value.endDate.value)
  {
    match initial
    case None => EMPTY_VALUES
    case Some(e) =>
      FormValues(
        e.name,
        OrElse(e.description, ""),
        if e.locationId.Some? && e.locationId.value != 0 then e.locationId else None,
        if Truthy(e.startDate) then Some(parseDate(e.startDate.value)) else None,
        if Truthy(e.endDate) then Some(parseDate(e.endDate.value)) else None,
        if e.scopes.Some? then e.scopes.value else [])
  }

  /** What the dialog hands to the page's save handler: the values, the chosen file, and the preview URL. */
  datatype Submission = Submission(values: FormValues, imageFile: Option<File>, currentPhotoUrl: Option<string>)

  /** The dialog's own state: the form values, the image choice and the location list. */
  class EventDialog {
    var values: FormValues
    var imageFile: Option<File>
    var previewUrl: Option<string>
    var spaces: seq<Space>
    var loadingSpaces: bool

    constructor ()
      ensures values == EMPTY_VALUES && imageFile.None? && previewUrl.None?
      ensures spaces == [] && !loadingSpaces
    {
      values := EMPTY_VALUES;
      imageFile := None;
      previewUrl := None;
      spaces := [];
      loadingSpaces := false;
    }

    /**
     * The effects that run when `open` becomes true: the location fetch
     * starts, the form is reset, the preview shows the edited event's image
     * (none for a new event), and any chosen file is dropped.
     */
    method Open(initial: Option<Event>, parseDate: string -> Date)
      modifies this
      ensures values == ResetValues(initial, parseDate)
      ensures previewUrl == (if initial.Some? then initial.value.imageUrl else None)
      ensures imageFile.None?
      ensures loadingSpaces && spaces == old(spaces)
    {
      loadingSpaces := true;
      values := ResetValues(initial, parseDate);
      previewUrl := if initial.Some? then initial.value.imageUrl else None;
      imageFile := None;
    }

    /** The location fetch has answered: on success the list is replaced by the sorted spaces. */
    method SpacesLoaded(fetched: Lookup<seq<Space>>, cmp: (string, string) -> int)
      modifies this`spaces, this`loadingSpaces
      ensures spaces == (if fetched.Resolved? then SortSpaces(fetched.value, cmp) else old(spaces))
      ensures !loadingSpaces
    {
      if fetched.Resolved? {
        spaces := SortSpaces(fetched.value, cmp);
      }
      loadingSpaces := false;
    }

    /** `handleImageSelect`: with no file picked nothing changes; otherwise the file and its object URL are kept. */
    method SelectImage(file: Option<File>, objectUrl: string)
      modifies this`imageFile, this`previewUrl
      ensures file.None? ==> imageFile == old(imageFile) && previewUrl == old(previewUrl)
      ensures file.Some? ==> imageFile == file && previewUrl == Some(objectUrl)
    {
      if file.Some? {
        imageFile := file;
        previewUrl := Some(objectUrl);
      }
    }

    /** `handleRemoveImage`: both the file and the preview are cleared. */
    method RemoveImage()
      modifies this`imageFile, this`previewUrl
      ensures imageFile.None? && previewUrl.None?
    {
      imageFile := None;
      previewUrl := None;
    }

    /** A click on an audience checkbox. */
    method ToggleScopeBox(scope: string)
      modifies this`values
      ensures values == old(values).(scopes := ToggleScope(old(values).scopes, scope))
    {
      values := values.(scopes := ToggleScope(values.scopes, scope));
    }

    /** `handleFormSubmit`: the form values plus the chosen file and the preview URL as the current photo. */
    function Submit(): (s: Submission)
      reads this
      ensures s.values == values && s.imageFile == imageFile && s.currentPhotoUrl == previewUrl
    {
      Submission(values, imageFile, previewUrl)
    }
  }
}
