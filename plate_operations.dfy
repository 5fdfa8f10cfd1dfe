/**
  The plate screen (components/PlateOperations.tsx): search a plate, show it, and add it to a
  line or move it to another one. The screen works on the store (standing in for its plates
  and lines props) and forwards updates to the store's plate handler.
*/
module PlateOperations {
  import opened Wrappers
  import opened Types
  import opened App

  datatype ViewMode = SEARCH | DETAIL | ACTION

  /** The name shown for an id that matches no line, or a line with an empty name. */
  const UNKNOWN_LINE: string := "Bilinmeyen Hat"

  /** handleSearch's plate: the first stored plate with the number, else a placeholder on no line. */
  function LookupPlate(plates: seq<Plate>, plateNumber: string): (p: Plate)
    ensures p.plateNumber == plateNumber
    ensures PlateIndex(plates, plateNumber) >= 0 ==> p == plates[PlateIndex(plates, plateNumber)]
    ensures (forall i :: 0 <= i < |plates| ==> plates[i].plateNumber != plateNumber) ==>
      p == Plate(plateNumber, None, [])
  {
    var k := PlateIndex(plates, plateNumber);
    if k >= 0 then plates[k] else Plate(plateNumber, None, [])
  }

  /**
    getLineName: nothing for a missing or empty id; otherwise the name of the first line with
    that id, falling back to UNKNOWN_LINE when there is no such line or its name is empty.
  */
  function LineName(lines: seq<Line>, id: Option<string>): (r: Option<string>)
    ensures r.None? <==> id.None? || id.value == ""
    ensures r.Some? ==> r.value != ""
    ensures r.Some? && LineIndex(lines, id.value) >= 0 && lines[LineIndex(lines, id.value)].name != "" ==>
      r.value == lines[LineIndex(lines, id.value)].name
    ensures r.Some? && (LineIndex(lines, id.value) < 0 || lines[LineIndex(lines, id.value)].name == "") ==>
      r.value == UNKNOWN_LINE
  {
    if id.None? || id.value == "" then None
    else
      match FindLine(lines, id.value)
      case Some(l) => if l.name != "" then Some(l.name) else Some(UNKNOWN_LINE)
      case None => Some(UNKNOWN_LINE)
  }

  /** The `|| ''` the submit handler applies to a looked-up name. */
  function OrEmpty(name: Option<string>): (r: string)
    ensures name.Some? ==> r == name.value
    ensures r == "" <==> name.None? || name.value == ""
  {
    if name.Some? then name.value else ""
  }

  /** The id resolves to a line whose name is not empty. */
  predicate ResolvesToNamedLine(lines: seq<Line>, id: string)
  {
    LineIndex(lines, id) >= 0 && lines[LineIndex(lines, id)].name != ""
  }

  class PlateScreen {
    const store: AppState
    var searchQuery: string
    var selectedPlate: Option<Plate>
    var viewMode: ViewMode
    var actionType: ActionKind
    var ukomeNo: string
    var ukomeDate: string
    var selectedLineId: string

    /** DETAIL and ACTION always have a plate to show. */
    ghost predicate Valid()
      reads this
    {
      viewMode != SEARCH ==> selectedPlate.Some?
    }

    /** The plate on screen is the one a new search for its number would show. */
    ghost predicate InSync()
      reads this, store
    {
      selectedPlate.Some? ==> selectedPlate.value == LookupPlate(store.plates, selectedPlate.value.plateNumber)
    }

    constructor (store: AppState)
      ensures this.store == store
      ensures searchQuery == "" && selectedPlate == None && viewMode == SEARCH && actionType == ADD
      ensures ukomeNo == "" && ukomeDate == "" && selectedLineId == ""
      ensures Valid() && InSync()
    {
      this.store := store;
      searchQuery := "";
      selectedPlate := None;
      viewMode := SEARCH;
      actionType := ADD;
      ukomeNo := "";
      ukomeDate := "";
      selectedLineId := "";
    }

    /** The plate box stores what is typed after upper-casing it (upper stands for toUpperCase). */
    method TypeQuery(text: string, upper: string -> string)
      modifies this`searchQuery
      ensures searchQuery == upper(text)
    {
      searchQuery := upper(text);
    }

    /** handleSearch: show the stored plate or a placeholder, without storing the placeholder. */
    method HandleSearch()
      modifies this`selectedPlate, this`viewMode
      ensures selectedPlate == Some(LookupPlate(store.plates, searchQuery))
      ensures viewMode == DETAIL
      ensures Valid() && InSync()
    {
      var k := PlateIndex(store.plates, searchQuery);
      var plate := if k >= 0 then store.plates[k] else Plate(searchQuery, None, []);
      selectedPlate := Some(plate);
      viewMode := DETAIL;
    }

    /** The search button, disabled while the plate box is empty. */
    method ClickSearch()
      requires Valid() && viewMode == SEARCH
      modifies this`selectedPlate, this`viewMode
      ensures searchQuery == "" ==> selectedPlate == old(selectedPlate) && viewMode == SEARCH
      ensures searchQuery != "" ==>
        selectedPlate == Some(LookupPlate(store.plates, searchQuery)) && viewMode == DETAIL
      ensures Valid() && (old(InSync()) ==> InSync())
    {
      if searchQuery != "" {
        HandleSearch();
      }
    }

    /** openAction: choose the action, clear the action form and show it. */
    method OpenAction(kind: ActionKind)
      requires Valid() && viewMode == DETAIL
      modifies this`actionType, this`ukomeNo, this`ukomeDate, this`selectedLineId, this`viewMode
      ensures actionType == kind && ukomeNo == "" && ukomeDate == "" && selectedLineId == ""
      ensures viewMode == ACTION
      ensures Valid() && (old(InSync()) ==> InSync())
    {
      actionType := kind;
      ukomeNo := "";
      ukomeDate := "";
      selectedLineId := "";
      viewMode := ACTION;
    }

    /** Whether the shown plate is on a line, which enables the change-line button. */
    function OnALine(): (r: bool)
      reads this
      requires selectedPlate.Some?
      ensures r <==> selectedPlate.value.currentLineId.Some? && selectedPlate.value.currentLineId.value != ""
    {
      match selectedPlate.value.currentLineId
      case None => false
      case Some(id) => id != ""
    }

    /** The change-line button, disabled while the plate is on no line. */
    method ClickChangeLine()
      requires Valid() && viewMode == DETAIL
      modifies this`actionType, this`ukomeNo, this`ukomeDate, this`selectedLineId, this`viewMode
      ensures old(OnALine()) ==>
        && actionType == ActionKind.CHANGE && ukomeNo == "" && ukomeDate == "" && selectedLineId == ""
        && viewMode == ACTION
      ensures !old(OnALine()) ==>
        && actionType == old(actionType) && ukomeNo == old(ukomeNo) && ukomeDate == old(ukomeDate)
        && selectedLineId == old(selectedLineId) && viewMode == DETAIL
      ensures Valid() && (old(InSync()) ==> InSync())
    {
      if OnALine() {
        OpenAction(ActionKind.CHANGE);
      }
    }

    method SetUkomeNo(value: string)
      modifies this`ukomeNo
      ensures ukomeNo == value
    {
      ukomeNo := value;
    }

    method SetUkomeDate(value: string)
      modifies this`ukomeDate
      ensures ukomeDate == value
    {
      ukomeDate := value;
    }

    /** The line select offers the empty choice and the id of every stored line. */
    method SelectLine(id: string)
      requires id == "" || exists i :: 0 <= i < |store.lines| && store.lines[i].id == id
      modifies this`selectedLineId
      ensures selectedLineId == id
    {
      selectedLineId := id;
    }

    /**
      submitAction: without a plate, a chosen line and a decision number nothing happens (the
      date may be empty); otherwise the update goes to the store, the shown plate moves to the
      chosen line with one more history entry, and the screen returns to DETAIL.
    */
    method SubmitAction()
      requires Valid()
      modifies this`selectedPlate, this`viewMode, store`plates
      ensures Valid()
      ensures old(selectedPlate).Some? && old(selectedLineId) != "" && old(ukomeNo) != "" ==>
        && store.plates == AssignPlate(store.lines, old(store.plates), old(selectedPlate).value.plateNumber,
             actionType, ukomeNo, ukomeDate, selectedLineId)
        && selectedPlate == Some(old(selectedPlate).value.(
             currentLineId := Some(selectedLineId),
             history := old(selectedPlate).value.history
               + [PlateHistory(ukomeNo, ukomeDate, OrEmpty(LineName(store.lines, Some(selectedLineId))), AuditAction(actionType))]))
        && viewMode == DETAIL
      ensures !(old(selectedPlate).Some? && old(selectedLineId) != "" && old(ukomeNo) != "") ==>
        store.plates == old(store.plates) && selectedPlate == old(selectedPlate) && viewMode == old(viewMode)
      ensures old(InSync()) && ResolvesToNamedLine(store.lines, selectedLineId) ==> InSync()
    {
      if selectedPlate.Some? && selectedLineId != "" && ukomeNo != "" {
        var plate := selectedPlate.value;
        ghost var before := store.plates;
        store.UpdatePlate(plate.plateNumber, actionType, ukomeNo, ukomeDate, selectedLineId);
        var entry := PlateHistory(ukomeNo, ukomeDate, OrEmpty(LineName(store.lines, Some(selectedLineId))), AuditAction(actionType));
        var updatedPlate := plate.(currentLineId := Some(selectedLineId), history := plate.history + [entry]);
        selectedPlate := Some(updatedPlate);
        viewMode := DETAIL;
        if plate == LookupPlate(before, plate.plateNumber) && ResolvesToNamedLine(store.lines, selectedLineId) {
          SubmitKeepsSync(store.lines, before, plate, actionType, ukomeNo, ukomeDate, selectedLineId);
        }
      }
    }

    /** The back button of the search screen. */
    method Close()
      modifies store`currentView
      ensures store.currentView == DASHBOARD
    {
      store.BackToDashboard();
    }

    /** The cancel button of the action form. */
    method Cancel()
      requires Valid() && viewMode == ACTION
      modifies this`viewMode
      ensures viewMode == DETAIL
      ensures Valid() && (old(InSync()) ==> InSync())
    {
      viewMode := DETAIL;
    }

    /** The new-query link of the detail screen. */
    method NewQuery()
      requires Valid() && viewMode == DETAIL
      modifies this`viewMode
      ensures viewMode == SEARCH
      ensures Valid() && (old(InSync()) ==> InSync())
    {
      viewMode := SEARCH;
    }
  }

  /**
    When the shown plate agrees with the store and the chosen line has a name, the plate the
    screen shows after a submit is the one the store now holds for that number.
  */
  lemma SubmitKeepsSync(
    lines: seq<Line>, plates: seq<Plate>, plate: Plate, action: ActionKind,
    ukomeNo: string, ukomeDate: string, lineId: string)
    requires plate == LookupPlate(plates, plate.plateNumber)
    requires lineId != "" && ResolvesToNamedLine(lines, lineId)
    ensures var r := AssignPlate(lines, plates, plate.plateNumber, action, ukomeNo, ukomeDate, lineId);
      var entry := PlateHistory(ukomeNo, ukomeDate, OrEmpty(LineName(lines, Some(lineId))), AuditAction(action));
      plate.(currentLineId := Some(lineId), history := plate.history + [entry]) == LookupPlate(r, plate.plateNumber)
  {
    AssignRecordsOneEntry(lines, plates, plate.plateNumber, action, ukomeNo, ukomeDate, lineId);
    var r := AssignPlate(lines, plates, plate.plateNumber, action, ukomeNo, ukomeDate, lineId);
    var k := PlateIndex(plates, plate.plateNumber);
    assert OrEmpty(LineName(lines, Some(lineId))) == lines[LineIndex(lines, lineId)].name;
    if k >= 0 {
      AssignExistingPlate(lines, plates, plate.plateNumber, action, ukomeNo, ukomeDate, lineId);
      assert LookupPlate(r, plate.plateNumber) == r[k];
      assert r[k] == Plate(r[k].plateNumber, r[k].currentLineId, r[k].history);
    } else {
      AssignNewPlate(lines, plates, plate.plateNumber, action, ukomeNo, ukomeDate, lineId);
    }
  }
}
