/**
  The application root (App.tsx): the record store holding the lines, the plates, the
  current screen and the selected line id, and the handlers that replace them.
*/
module App {
  import opened Wrappers
  import opened Types
  import opened Seqs
  import LineForm

  /** The mock lines the store starts with. */
  const INITIAL_LINES: seq<Line> := [
    Line("1", "KARŞIYAKA - EVKA 5", AKTIF,
      [ SubRoute("101", "Karşıyaka - EVKA 6 (Cumhuriyet Mah Yolu İle)", true, None),
        SubRoute("102", "Karşıyaka - EVKA 6 (EVKA 2 Yolu İle)", true, None),
        SubRoute("103", "Karşıyaka - Balatçık - Katip Çelebi", true, None) ],
      28, 28,
      UkomeDecision("2026/670", "2026-01-15", "ALT GÜZERGAH REVİZE EDİLDİ", DecisionType.REVISE),
      [ LineHistory("2020-10-10", "2020/123", "HAT REVİZE EDİLDİ"),
        LineHistory("2022-05-04", "2022/444", "HAT REVİZE EDİLDİ") ]),
    Line("2", "KARŞIYAKA - ŞEMİKLER - MAVİŞEHİR", AKTIF, [], 23, 23,
      UkomeDecision("2023/100", "2023-01-01", "Hat Açılışı", DecisionType.NEW), []),
    Line("3", "KARŞIYAKA - ÖRNEKKÖY", AKTIF,
      [ SubRoute("301", "Normal Güzergah", true, None),
        SubRoute("302", "Pazar Yeri Güzergahı", true, None) ],
      7, 7,
      UkomeDecision("2023/102", "2023-01-05", "Hat Açılışı", DecisionType.NEW), [])
  ]

  /** The mock plates the store starts with. */
  const INITIAL_PLATES: seq<Plate> := [
    Plate("35 M 1234", Some("1"), [PlateHistory("2020/125", "2020-10-10", "XX HATTI", ADD_TO_LINE)])
  ]

  // ---------------------------------------------------------------------------------------
  // Lookups

  function HasId(id: string): Line -> bool
  {
    (l: Line) => l.id == id
  }

  function HasNumber(plateNumber: string): Plate -> bool
  {
    (p: Plate) => p.plateNumber == plateNumber
  }

  /** The index of the first line with the given id, or -1. */
  function LineIndex(lines: seq<Line>, id: string): (k: int)
    ensures -1 <= k < |lines|
    ensures 0 <= k ==> lines[k].id == id && forall j :: 0 <= j < k ==> lines[j].id != id
    ensures k < 0 ==> forall j :: 0 <= j < |lines| ==> lines[j].id != id
  {
    FirstIndex(lines, HasId(id))
  }

  /** lines.find by id: the first line with that id, if any. */
  function FindLine(lines: seq<Line>, id: string): (r: Option<Line>)
    ensures r.Some? <==> exists i :: 0 <= i < |lines| && lines[i].id == id
    ensures r.Some? ==> exists k :: (0 <= k < |lines| && lines[k] == r.value && r.value.id == id
      && forall j :: 0 <= j < k ==> lines[j].id != id)
  {
    var k := LineIndex(lines, id);
    if k < 0 then None else Some(lines[k])
  }

  /** plates.findIndex by plate number: the first plate with that number, or -1. */
  function PlateIndex(plates: seq<Plate>, plateNumber: string): (k: int)
    ensures -1 <= k < |plates|
    ensures 0 <= k ==> (plates[k].plateNumber == plateNumber
      && forall j :: 0 <= j < k ==> plates[j].plateNumber != plateNumber)
    ensures k < 0 ==> forall j :: 0 <= j < |plates| ==> plates[j].plateNumber != plateNumber
  {
    FirstIndex(plates, HasNumber(plateNumber))
  }

  // ---------------------------------------------------------------------------------------
  // The new collections computed by the handlers

  function OtherId(id: string): Line -> bool
  {
    (l: Line) => l.id != id
  }

  /** handleDeleteLine's filter: exactly the lines with another id, in their order. */
  function WithoutLine(lines: seq<Line>, lineId: string): (r: seq<Line>)
    ensures forall i :: 0 <= i < |r| ==> r[i] in lines && r[i].id != lineId
    ensures forall i :: 0 <= i < |lines| && lines[i].id != lineId ==> lines[i] in r
    ensures forall l :: multiset(r)[l] == if l.id != lineId then multiset(lines)[l] else 0
    ensures IsSubsequence(r, lines)
    ensures (forall i :: 0 <= i < |lines| ==> lines[i].id != lineId) ==> r == lines
  {
    FilterIsSubsequence(lines, OtherId(lineId));
    FilterCounts(lines, OtherId(lineId));
    if forall i :: 0 <= i < |lines| ==> lines[i].id != lineId then
      FilterKeepsAll(lines, OtherId(lineId));
      Filter(lines, OtherId(lineId))
    else
      Filter(lines, OtherId(lineId))
  }

  /** The EDIT save: every line with the saved line's id is replaced by it. */
  function Edited(lines: seq<Line>, newLine: Line): (r: seq<Line>)
    ensures |r| == |lines|
    ensures forall i :: 0 <= i < |lines| && lines[i].id == newLine.id ==> r[i] == newLine
    ensures forall i :: 0 <= i < |lines| && lines[i].id != newLine.id ==> r[i] == lines[i]
  {
    MapSeq(lines, (l: Line) => if l.id == newLine.id then newLine else l)
  }

  /**
    The history entry that archives a superseded decision: its date, number and summary,
    without its type.
  */
  function Archived(d: UkomeDecision): (h: LineHistory)
    ensures h.date == d.date && h.decisionNumber == d.number && h.summary == d.summary
  {
    LineHistory(d.date, d.number, d.summary)
  }

  /**
    The REVISE save: every line with the saved line's id becomes the saved line, except that
    its history is the stored line's history with the stored decision archived at the end.
  */
  function Revised(lines: seq<Line>, newLine: Line): (r: seq<Line>)
    ensures |r| == |lines|
    ensures forall i :: 0 <= i < |lines| && lines[i].id == newLine.id ==>
      && r[i].(history := newLine.history) == newLine
      && r[i].history == lines[i].history + [LineHistory(
           lines[i].lastDecision.date, lines[i].lastDecision.number, lines[i].lastDecision.summary)]
    ensures forall i :: 0 <= i < |lines| && lines[i].id != newLine.id ==> r[i] == lines[i]
  {
    MapSeq(lines, (l: Line) =>
      if l.id == newLine.id then newLine.(history := l.history + [Archived(l.lastDecision)]) else l)
  }

  /** The lines after handleSaveLine, by the screen the save came from. */
  function SavedLines(view: ViewState, lines: seq<Line>, newLine: Line): (r: seq<Line>)
    ensures |r| == |lines| + (if view == NEW_LINE then 1 else 0)
  {
    match view
    case NEW_LINE => lines + [newLine]
    case EDIT_LINE => Edited(lines, newLine)
    case REVISE_LINE => Revised(lines, newLine)
    case _ => lines
  }

  /**
    handleUpdatePlate's new plate list: nothing changes when the target line does not
    resolve; otherwise the first plate with the number (or a new plate at the end) moves to
    the target line and records one audit entry with the resolved line's name.
  */
  function AssignPlate(
    lines: seq<Line>, plates: seq<Plate>, plateNumber: string, action: ActionKind,
    ukomeNo: string, ukomeDate: string, newLineId: string): (r: seq<Plate>)
    ensures |r| == |plates| + (if LineIndex(lines, newLineId) >= 0 && PlateIndex(plates, plateNumber) < 0 then 1 else 0)
    ensures forall j :: 0 <= j < |plates| ==> r[j].plateNumber == plates[j].plateNumber
  {
    match FindLine(lines, newLineId)
    case None => plates
    case Some(line) =>
      var entry := PlateHistory(ukomeNo, ukomeDate, line.name, AuditAction(action));
      var k := PlateIndex(plates, plateNumber);
      if k >= 0 then plates[k := plates[k].(currentLineId := Some(newLineId), history := plates[k].history + [entry])]
      else plates + [Plate(plateNumber, Some(newLineId), [entry])]
  }

  // ---------------------------------------------------------------------------------------
  // Properties of the line handlers

  /** A NEW save appends the line and leaves every earlier line as it was. */
  lemma SaveNewAppends(lines: seq<Line>, newLine: Line)
    ensures var r := SavedLines(NEW_LINE, lines, newLine);
      |r| == |lines| + 1 && r[..|lines|] == lines && r[|lines|] == newLine
  {
  }

  /** Saving from any screen other than the three forms leaves the lines as they were. */
  lemma SaveElsewhereKeepsLines(view: ViewState, lines: seq<Line>, newLine: Line)
    requires view !in {NEW_LINE, EDIT_LINE, REVISE_LINE}
    ensures SavedLines(view, lines, newLine) == lines
  {
  }

  /** Saving the same EDIT twice is the same as saving it once. */
  lemma EditIsIdempotent(lines: seq<Line>, newLine: Line)
    ensures Edited(Edited(lines, newLine), newLine) == Edited(lines, newLine)
  {
    var once := Edited(lines, newLine);
    var twice := Edited(once, newLine);
    assert |twice| == |once|;
    forall i | 0 <= i < |once|
      ensures twice[i] == once[i]
    {
      if lines[i].id == newLine.id {
        assert once[i] == newLine;
      }
    }
  }

  /** A REVISE save never loses history: each old history is a prefix of the new one. */
  lemma ReviseHistoryOnlyGrows(lines: seq<Line>, newLine: Line)
    ensures var r := Revised(lines, newLine);
      forall i :: 0 <= i < |lines| ==>
        r[i].history[..|lines[i].history|] == lines[i].history
        && |r[i].history| == |lines[i].history| + (if lines[i].id == newLine.id then 1 else 0)
  {
  }

  /** Deleting a line that is there removes it and the list gets shorter. */
  lemma DeletePresentLineShrinks(lines: seq<Line>, k: nat)
    requires k < |lines|
    ensures |WithoutLine(lines, lines[k].id)| < |lines|
  {
    var r := WithoutLine(lines, lines[k].id);
    if |r| == |lines| {
      SubsequenceOfSameLength(r, lines);
      assert false;
    }
  }

  // ---------------------------------------------------------------------------------------
  // A form save as it reaches the store

  /**
    NEW screen: the saved line is appended with no history, a NEW decision, zero counters
    and the fresh id.
  */
  lemma NewFormSaveAppends(
    lines: seq<Line>, name: string, subRoutes: seq<SubRoute>,
    ukomeNumber: string, ukomeDate: string, ukomeSummary: string, freshId: string)
    requires name != "" && ukomeNumber != ""
    ensures var o := LineForm.BuildLine(LineForm.Mode.NEW, None, name, subRoutes, ukomeNumber, ukomeDate, ukomeSummary, freshId);
      && o.Saved?
      && SavedLines(NEW_LINE, lines, o.line) == lines + [o.line]
      && o.line.history == [] && o.line.id == freshId
      && o.line.lastDecision == UkomeDecision(ukomeNumber, ukomeDate, ukomeSummary, DecisionType.NEW)
  {
  }

  /**
    EDIT screen, opened on the first line with its id (the selected line): the stored line is
    overwritten but its history is not extended, and the decision is not tagged REVISE.
  */
  lemma EditFormSaveKeepsHistory(
    lines: seq<Line>, k: nat, name: string, subRoutes: seq<SubRoute>,
    ukomeNumber: string, ukomeDate: string, ukomeSummary: string, freshId: string)
    requires k < |lines| && LineIndex(lines, lines[k].id) == k
    requires name != "" && ukomeNumber != ""
    ensures var o := LineForm.BuildLine(LineForm.Mode.EDIT, Some(lines[k]), name, subRoutes, ukomeNumber, ukomeDate, ukomeSummary, freshId);
      var r := SavedLines(EDIT_LINE, lines, o.line);
      && |r| == |lines|
      && r[k].id == lines[k].id
      && r[k].history == lines[k].history
      && r[k].minibusCount == lines[k].minibusCount && r[k].minibusPlateCount == lines[k].minibusPlateCount
      && r[k].name == name && r[k].subRoutes == subRoutes
      && r[k].lastDecision == UkomeDecision(ukomeNumber, ukomeDate, ukomeSummary, DecisionType.NEW)
      && forall j :: 0 <= j < |lines| && lines[j].id != lines[k].id ==> r[j] == lines[j]
  {
  }

  /**
    REVISE screen, opened on the selected line: the history gains exactly the superseded
    decision, and the new decision is tagged REVISE.
  */
  lemma ReviseFormSaveArchivesOnce(
    lines: seq<Line>, k: nat, name: string, subRoutes: seq<SubRoute>,
    ukomeNumber: string, ukomeDate: string, ukomeSummary: string, freshId: string)
    requires k < |lines| && LineIndex(lines, lines[k].id) == k
    requires name != "" && ukomeNumber != ""
    ensures var o := LineForm.BuildLine(LineForm.Mode.REVISE, Some(lines[k]), name, subRoutes, ukomeNumber, ukomeDate, ukomeSummary, freshId);
      var r := SavedLines(REVISE_LINE, lines, o.line);
      && |r| == |lines|
      && r[k].id == lines[k].id
      && r[k].history == lines[k].history + [Archived(lines[k].lastDecision)]
      && r[k].minibusCount == lines[k].minibusCount && r[k].minibusPlateCount == lines[k].minibusPlateCount
      && r[k].lastDecision == UkomeDecision(ukomeNumber, ukomeDate, ukomeSummary, DecisionType.REVISE)
      && forall j :: 0 <= j < |lines| && lines[j].id != lines[k].id ==> r[j] == lines[j]
  {
  }

  /** A worked revision of the second mock line. */
  lemma ReviseScenario()
    ensures var o := LineForm.BuildLine(LineForm.Mode.REVISE, Some(INITIAL_LINES[1]), INITIAL_LINES[1].name, [],
        "2026/670", "2026-01-15", "ALT GÜZERGAH REVİZE EDİLDİ", "");
      var r := SavedLines(REVISE_LINE, INITIAL_LINES, o.line);
      && r[1].history == [LineHistory("2023-01-01", "2023/100", "Hat Açılışı")]
      && r[1].lastDecision.number == "2026/670"
  {
    ReviseFormSaveArchivesOnce(INITIAL_LINES, 1, INITIAL_LINES[1].name, [],
      "2026/670", "2026-01-15", "ALT GÜZERGAH REVİZE EDİLDİ", "");
  }

  // ---------------------------------------------------------------------------------------
  // Properties of the plate handler

  /** An unresolved target line makes the plate update a complete no-op. */
  lemma AssignUnresolvedIsNoOp(
    lines: seq<Line>, plates: seq<Plate>, plateNumber: string, action: ActionKind,
    ukomeNo: string, ukomeDate: string, newLineId: string)
    requires forall i :: 0 <= i < |lines| ==> lines[i].id != newLineId
    ensures AssignPlate(lines, plates, plateNumber, action, ukomeNo, ukomeDate, newLineId) == plates
  {
  }

  /**
    A known plate: only the first plate with the number changes; it moves to the target line
    and its history gains one entry naming the resolved line.
  */
  lemma AssignExistingPlate(
    lines: seq<Line>, plates: seq<Plate>, plateNumber: string, action: ActionKind,
    ukomeNo: string, ukomeDate: string, newLineId: string)
    requires LineIndex(lines, newLineId) >= 0 && PlateIndex(plates, plateNumber) >= 0
    ensures var r := AssignPlate(lines, plates, plateNumber, action, ukomeNo, ukomeDate, newLineId);
      var k := PlateIndex(plates, plateNumber);
      && |r| == |plates|
      && r[k].plateNumber == plateNumber
      && r[k].currentLineId == Some(newLineId)
      && r[k].history == plates[k].history
           + [PlateHistory(ukomeNo, ukomeDate, lines[LineIndex(lines, newLineId)].name, AuditAction(action))]
      && forall j :: 0 <= j < |plates| && j != k ==> r[j] == plates[j]
  {
  }

  /** An unknown plate: one new plate on the target line, with that one entry, at the end. */
  lemma AssignNewPlate(
    lines: seq<Line>, plates: seq<Plate>, plateNumber: string, action: ActionKind,
    ukomeNo: string, ukomeDate: string, newLineId: string)
    requires LineIndex(lines, newLineId) >= 0
    requires forall j :: 0 <= j < |plates| ==> plates[j].plateNumber != plateNumber
    ensures AssignPlate(lines, plates, plateNumber, action, ukomeNo, ukomeDate, newLineId)
      == plates + [Plate(plateNumber, Some(newLineId),
           [PlateHistory(ukomeNo, ukomeDate, lines[LineIndex(lines, newLineId)].name, AuditAction(action))])]
  {
  }

  /**
    Whatever the case, the plate a later lookup by number finds is on the target line and
    has exactly one more history entry than before (a plate not yet stored counts as empty).
  */
  lemma AssignRecordsOneEntry(
    lines: seq<Line>, plates: seq<Plate>, plateNumber: string, action: ActionKind,
    ukomeNo: string, ukomeDate: string, newLineId: string)
    requires LineIndex(lines, newLineId) >= 0
    ensures var r := AssignPlate(lines, plates, plateNumber, action, ukomeNo, ukomeDate, newLineId);
      var k := PlateIndex(plates, plateNumber);
      var k' := PlateIndex(r, plateNumber);
      && k' == (if k >= 0 then k else |plates|)
      && r[k'].currentLineId == Some(newLineId)
      && |r[k'].history| == (if k >= 0 then |plates[k].history| else 0) + 1
  {
    var r := AssignPlate(lines, plates, plateNumber, action, ukomeNo, ukomeDate, newLineId);
    var k := PlateIndex(plates, plateNumber);
    var k' := PlateIndex(r, plateNumber);
    if k >= 0 {
      assert r[k].plateNumber == plateNumber;
      assert forall j :: 0 <= j < k ==> r[j] == plates[j];
    } else {
      assert r[|plates|].plateNumber == plateNumber;
      assert forall j :: 0 <= j < |plates| ==> r[j] == plates[j];
    }
  }

  /** No plate loses history: every old history is a prefix of the new one. */
  lemma AssignHistoryOnlyGrows(
    lines: seq<Line>, plates: seq<Plate>, plateNumber: string, action: ActionKind,
    ukomeNo: string, ukomeDate: string, newLineId: string)
    ensures var r := AssignPlate(lines, plates, plateNumber, action, ukomeNo, ukomeDate, newLineId);
      && |plates| <= |r| <= |plates| + 1
      && forall j :: 0 <= j < |plates| ==>
           r[j].plateNumber == plates[j].plateNumber && r[j].history[..|plates[j].history|] == plates[j].history
  {
  }

  /** A worked assignment of a plate not yet stored. */
  lemma AssignScenario()
    ensures AssignPlate(INITIAL_LINES, [], "35 M 1234", ADD, "2020/125", "2020-10-10", "1")
      == [Plate("35 M 1234", Some("1"), [PlateHistory("2020/125", "2020-10-10", "KARŞIYAKA - EVKA 5", ADD_TO_LINE)])]
  {
    assert LineIndex(INITIAL_LINES, "1") == 0;
  }

  // ---------------------------------------------------------------------------------------
  // The store

  class AppState {
    var currentView: ViewState
    var selectedLineId: Option<string>
    var lines: seq<Line>
    var plates: seq<Plate>

    constructor ()
      ensures currentView == DASHBOARD && selectedLineId == None
      ensures lines == INITIAL_LINES && plates == INITIAL_PLATES
    {
      currentView := DASHBOARD;
      selectedLineId := None;
      lines := INITIAL_LINES;
      plates := INITIAL_PLATES;
    }

    /** The line the VIEW, EDIT and REVISE screens are rendered for, if it resolves. */
    function SelectedLine(): (r: Option<Line>)
      reads this
      ensures r.Some? ==> selectedLineId.Some? && r.value in lines && r.value.id == selectedLineId.value
      ensures selectedLineId.Some? && (exists i :: 0 <= i < |lines| && lines[i].id == selectedLineId.value) ==> r.Some?
      ensures r.Some? ==> exists k :: (0 <= k < |lines| && lines[k] == r.value
        && forall j :: 0 <= j < k ==> lines[j].id != selectedLineId.value)
    {
      match selectedLineId
      case None => None
      case Some(id) => FindLine(lines, id)
    }

    /** handleNavigate: the selected line id and the screen are both set. */
    method Navigate(view: ViewState, lineId: Option<string>)
      modifies this`selectedLineId, this`currentView
      ensures selectedLineId == lineId && currentView == view
    {
      selectedLineId := lineId;
      currentView := view;
    }

    /** The cancel and close callbacks of the form, view and plate screens. */
    method BackToDashboard()
      modifies this`currentView
      ensures currentView == DASHBOARD
    {
      currentView := DASHBOARD;
    }

    /** handleDeleteLine: only a confirmed delete filters the line out; plates are untouched. */
    method DeleteLine(lineId: string, confirmed: bool)
      modifies this`lines
      ensures lines == if confirmed then WithoutLine(old(lines), lineId) else old(lines)
    {
      if confirmed {
        lines := WithoutLine(lines, lineId);
      }
    }

    /** handleSaveLine: the lines change by the screen the save came from; then the dashboard. */
    method SaveLine(newLine: Line)
      modifies this`lines, this`currentView
      ensures lines == SavedLines(old(currentView), old(lines), newLine)
      ensures currentView == DASHBOARD
    {
      if currentView == NEW_LINE {
        lines := lines + [newLine];
      } else if currentView == EDIT_LINE {
        lines := Edited(lines, newLine);
      } else if currentView == REVISE_LINE {
        lines := Revised(lines, newLine);
      }
      currentView := DASHBOARD;
    }

    /** handleUpdatePlate, with its indexed write into a copy of the plate list. */
    method UpdatePlate(plateNumber: string, action: ActionKind, ukomeNo: string, ukomeDate: string, newLineId: string)
      modifies this`plates
      ensures plates == AssignPlate(lines, old(plates), plateNumber, action, ukomeNo, ukomeDate, newLineId)
    {
      var existingPlateIndex := PlateIndex(plates, plateNumber);
      var newLine := FindLine(lines, newLineId);
      if newLine.None? {
        return;
      }
      var newHistory := PlateHistory(ukomeNo, ukomeDate, newLine.value.name, AuditAction(action));
      if existingPlateIndex >= 0 {
        var updatedPlates := plates;
        var existing := updatedPlates[existingPlateIndex];
        updatedPlates := updatedPlates[existingPlateIndex :=
          existing.(currentLineId := Some(newLineId), history := existing.history + [newHistory])];
        plates := updatedPlates;
      } else {
        plates := plates + [Plate(plateNumber, Some(newLineId), [newHistory])];
      }
    }

    /**
      The line form for the current screen, as the render switch mounts it: NEW always, EDIT
      and REVISE only when the selected line resolves, and no form on other screens.
    */
    method MountLineForm(freshId: string) returns (form: LineForm.Form?)
      ensures currentView == NEW_LINE ==>
        form != null && fresh(form) && form.mode == LineForm.Mode.NEW && form.initialData == None
      ensures currentView in {EDIT_LINE, REVISE_LINE} ==>
        (form != null <==> SelectedLine().Some?)
      ensures form != null && currentView == EDIT_LINE ==>
        fresh(form) && form.mode == LineForm.Mode.EDIT && form.initialData == SelectedLine()
      ensures form != null && currentView == REVISE_LINE ==>
        fresh(form) && form.mode == LineForm.Mode.REVISE && form.initialData == SelectedLine()
      ensures currentView !in {NEW_LINE, EDIT_LINE, REVISE_LINE} ==> form == null
    {
      var selectedLine := SelectedLine();
      form := null;
      if currentView == NEW_LINE {
        form := new LineForm.Form(LineForm.Mode.NEW, None, freshId);
      } else if currentView == EDIT_LINE && selectedLine.Some? {
        form := new LineForm.Form(LineForm.Mode.EDIT, selectedLine, freshId);
      } else if currentView == REVISE_LINE && selectedLine.Some? {
        form := new LineForm.Form(LineForm.Mode.REVISE, selectedLine, freshId);
      }
    }

    /**
      The form's save button wired to handleSaveLine: a rejected save (the alert) does not
      reach the store, so the lines and the screen stay as they were.
    */
    method SubmitLineForm(form: LineForm.Form, freshId: string) returns (outcome: LineForm.SaveOutcome)
      modifies this`lines, this`currentView
      ensures outcome == LineForm.BuildLine(form.mode, form.initialData, form.name, form.subRoutes,
        form.ukomeNumber, form.ukomeDate, form.ukomeSummary, freshId)
      ensures outcome.Rejected? ==> lines == old(lines) && currentView == old(currentView)
      ensures outcome.Saved? ==>
        lines == SavedLines(old(currentView), old(lines), outcome.line) && currentView == DASHBOARD
    {
      outcome := form.HandleSave(freshId);
      if outcome.Saved? {
        SaveLine(outcome.line);
      }
    }
  }
}
