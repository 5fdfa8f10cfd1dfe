/**
  The line form (components/LineForm.tsx): the form state a NEW, EDIT or REVISE screen starts
  from, the edits of its sub-route list, and the validation and record building done on save.
*/
module LineForm {
  import opened Wrappers
  import opened Types
  import opened Seqs

  /** The screen the form is opened for. */
  datatype Mode = NEW | EDIT | REVISE

  /** What pressing save yields: the alert that rejects it, or the line handed to onSave. */
  datatype SaveOutcome = Rejected | Saved(line: Line)

  /** The row the form inserts: empty name, active, no attachment. */
  function EmptySubRoute(id: string): SubRoute
  {
    SubRoute(id, "", true, None)
  }

  /** The list after pressing "Ekle" (add): one new empty, active row at the end. */
  function SubRoutesAdded(subRoutes: seq<SubRoute>, freshId: string): (r: seq<SubRoute>)
    ensures |r| == |subRoutes| + 1
    ensures r[..|subRoutes|] == subRoutes
    ensures r[|subRoutes|] == EmptySubRoute(freshId)
    ensures r[|subRoutes|].id == freshId && r[|subRoutes|].name == "" && r[|subRoutes|].isActive
  {
    subRoutes + [EmptySubRoute(freshId)]
  }

  /** The predicate removeSubRoute filters by. */
  function OtherThan(id: string): SubRoute -> bool
  {
    (sr: SubRoute) => sr.id != id
  }

  /** The list after removing a row: exactly the rows with another id, in their order. */
  function SubRoutesRemoved(subRoutes: seq<SubRoute>, id: string): (r: seq<SubRoute>)
    ensures forall i :: 0 <= i < |r| ==> r[i] in subRoutes && r[i].id != id
    ensures forall i :: 0 <= i < |subRoutes| && subRoutes[i].id != id ==> subRoutes[i] in r
    ensures forall sr :: multiset(r)[sr] == if sr.id != id then multiset(subRoutes)[sr] else 0
    ensures IsSubsequence(r, subRoutes)
  {
    FilterIsSubsequence(subRoutes, OtherThan(id));
    FilterCounts(subRoutes, OtherThan(id));
    Filter(subRoutes, OtherThan(id))
  }

  /** True when no two rows share an id. */
  predicate DistinctIds(subRoutes: seq<SubRoute>)
  {
    forall i, j :: 0 <= i < j < |subRoutes| ==> subRoutes[i].id != subRoutes[j].id
  }

  /** Whether the rows carry the remove control: only while there is more than one row. */
  predicate RemoveOffered(subRoutes: seq<SubRoute>)
  {
    |subRoutes| > 1
  }

  /**
    The remove control is the only way to remove a row; with distinct ids, removing one of
    the rows it is offered on therefore never empties the list.
  */
  lemma RemovingOfferedRowKeepsOne(subRoutes: seq<SubRoute>, k: nat)
    requires RemoveOffered(subRoutes) && k < |subRoutes| && DistinctIds(subRoutes)
    ensures |SubRoutesRemoved(subRoutes, subRoutes[k].id)| == |subRoutes| - 1 >= 1
  {
    FilterDropsOne(subRoutes, OtherThan(subRoutes[k].id), k);
  }

  /** The two fields the form changes on a row: the name box and the active/passive select. */
  datatype SubRouteEdit = SetName(name: string) | SetActive(isActive: bool)

  function ApplyEdit(sr: SubRoute, edit: SubRouteEdit): SubRoute
  {
    match edit
    case SetName(n) => sr.(name := n)
    case SetActive(b) => sr.(isActive := b)
  }

  /** The list after editing one field of the rows with the given id. */
  function SubRoutesUpdated(subRoutes: seq<SubRoute>, id: string, edit: SubRouteEdit): (r: seq<SubRoute>)
    ensures |r| == |subRoutes|
    ensures forall i :: 0 <= i < |subRoutes| && subRoutes[i].id != id ==> r[i] == subRoutes[i]
    ensures forall i :: 0 <= i < |subRoutes| && subRoutes[i].id == id ==>
      && r[i].id == id
      && r[i].kmzFileName == subRoutes[i].kmzFileName
      && (edit.SetName? ==> r[i].name == edit.name && r[i].isActive == subRoutes[i].isActive)
      && (edit.SetActive? ==> r[i].isActive == edit.isActive && r[i].name == subRoutes[i].name)
  {
    MapSeq(subRoutes, (sr: SubRoute) => if sr.id == id then ApplyEdit(sr, edit) else sr)
  }

  /**
    handleSave: rejected when the name or the decision number is empty; otherwise the line
    built from the form, keeping the identity, counters and history of the line being edited.
  */
  function BuildLine(
    mode: Mode, initialData: Option<Line>, name: string, subRoutes: seq<SubRoute>,
    ukomeNumber: string, ukomeDate: string, ukomeSummary: string, freshId: string): (r: SaveOutcome)
    ensures r.Rejected? <==> name == "" || ukomeNumber == ""
    ensures r.Saved? ==>
      && r.line.name == name
      && r.line.subRoutes == subRoutes
      && r.line.status == AKTIF
      && r.line.lastDecision.number == ukomeNumber
      && r.line.lastDecision.date == ukomeDate
      && r.line.lastDecision.summary == ukomeSummary
    ensures r.Saved? ==> (r.line.lastDecision.decisionType == DecisionType.REVISE <==> mode == Mode.REVISE)
    ensures r.Saved? && mode != Mode.REVISE ==> r.line.lastDecision.decisionType == DecisionType.NEW
    ensures r.Saved? && initialData.Some? ==>
      && r.line.id == initialData.value.id
      && r.line.minibusCount == initialData.value.minibusCount
      && r.line.minibusPlateCount == initialData.value.minibusPlateCount
      && r.line.history == initialData.value.history
    ensures r.Saved? && initialData.None? ==>
      r.line.id == freshId && r.line.minibusCount == 0 && r.line.minibusPlateCount == 0 && r.line.history == []
  {
    if name == "" || ukomeNumber == "" then Rejected
    else
      var decisionType := if mode == Mode.REVISE then DecisionType.REVISE else DecisionType.NEW;
      var decision := UkomeDecision(ukomeNumber, ukomeDate, ukomeSummary, decisionType);
      match initialData
      case Some(l) => Saved(Line(l.id, name, AKTIF, subRoutes, l.minibusCount, l.minibusPlateCount, decision, l.history))
      case None => Saved(Line(freshId, name, AKTIF, subRoutes, 0, 0, decision, []))
  }

  /** The mounted form and its input state. */
  class Form {
    const mode: Mode
    const initialData: Option<Line>
    var name: string
    var subRoutes: seq<SubRoute>
    var ukomeNumber: string
    var ukomeDate: string
    var ukomeSummary: string

    /**
      Mounting: the empty initial state, then the effect that copies the name and rows of
      the line being edited or revised, and its current decision only when editing.
    */
    constructor (mode: Mode, initialData: Option<Line>, freshId: string)
      ensures this.mode == mode && this.initialData == initialData
      ensures initialData.Some? ==>
        name == initialData.value.name && subRoutes == initialData.value.subRoutes
      ensures initialData.Some? && mode == Mode.EDIT ==>
        && ukomeNumber == initialData.value.lastDecision.number
        && ukomeDate == initialData.value.lastDecision.date
        && ukomeSummary == initialData.value.lastDecision.summary
      ensures initialData.Some? && mode != Mode.EDIT ==>
        ukomeNumber == "" && ukomeDate == "" && ukomeSummary == ""
      ensures initialData.None? ==>
        && name == "" && subRoutes == [EmptySubRoute(freshId)]
        && ukomeNumber == "" && ukomeDate == "" && ukomeSummary == ""
    {
      this.mode := mode;
      this.initialData := initialData;
      name := "";
      subRoutes := [];
      ukomeNumber := "";
      ukomeDate := "";
      ukomeSummary := "";
      new;
      if initialData.Some? {
        name := initialData.value.name;
        subRoutes := initialData.value.subRoutes;
        if mode == Mode.EDIT {
          ukomeNumber := initialData.value.lastDecision.number;
          ukomeDate := initialData.value.lastDecision.date;
          ukomeSummary := initialData.value.lastDecision.summary;
        }
      } else {
        subRoutes := [EmptySubRoute(freshId)];
      }
    }

    method SetName(value: string)
      modifies this`name
      ensures name == value
    {
      name := value;
    }

    method SetUkomeNumber(value: string)
      modifies this`ukomeNumber
      ensures ukomeNumber == value
    {
      ukomeNumber := value;
    }

    method SetUkomeDate(value: string)
      modifies this`ukomeDate
      ensures ukomeDate == value
    {
      ukomeDate := value;
    }

    method SetUkomeSummary(value: string)
      modifies this`ukomeSummary
      ensures ukomeSummary == value
    {
      ukomeSummary := value;
    }

    method AddSubRoute(freshId: string)
      modifies this`subRoutes
      ensures subRoutes == SubRoutesAdded(old(subRoutes), freshId)
    {
      subRoutes := SubRoutesAdded(subRoutes, freshId);
    }

    method RemoveSubRoute(id: string)
      modifies this`subRoutes
      ensures subRoutes == SubRoutesRemoved(old(subRoutes), id)
    {
      subRoutes := SubRoutesRemoved(subRoutes, id);
    }

    method UpdateSubRoute(id: string, edit: SubRouteEdit)
      modifies this`subRoutes
      ensures subRoutes == SubRoutesUpdated(old(subRoutes), id, edit)
    {
      subRoutes := SubRoutesUpdated(subRoutes, id, edit);
    }

    /** Pressing save: the form state is read, validated and built into a line, and not changed. */
    method HandleSave(freshId: string) returns (outcome: SaveOutcome)
      ensures outcome == BuildLine(mode, initialData, name, subRoutes, ukomeNumber, ukomeDate, ukomeSummary, freshId)
    {
      outcome := BuildLine(mode, initialData, name, subRoutes, ukomeNumber, ukomeDate, ukomeSummary, freshId);
    }
  }
}
