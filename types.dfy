/**
  The records of types.ts: lines with their sub-routes, decisions and decision history,
  plates with their assignment history, and the screens of the application.
*/
module Types {
  import opened Wrappers

  datatype SubRoute = SubRoute(id: string, name: string, isActive: bool, kmzFileName: Option<string>)

  /** The kind of a UKOME (transport coordination board) decision. */
  datatype DecisionType = NEW | REVISE | CANCEL | CHANGE

  datatype UkomeDecision = UkomeDecision(number: string, date: string, summary: string, decisionType: DecisionType)

  /** A superseded decision, archived when a line is revised. */
  datatype LineHistory = LineHistory(date: string, decisionNumber: string, summary: string)

  datatype LineStatus = AKTIF | PASIF

  /** The text the status is stored and compared as ('AKTİF' | 'PASİF'). */
  function StatusLabel(s: LineStatus): string
  {
    match s
    case AKTIF => "AKTİF"
    case PASIF => "PASİF"
  }

  /** A transit line. The two counters are entered by hand and never negative. */
  datatype Line = Line(
    id: string,
    name: string,
    status: LineStatus,
    subRoutes: seq<SubRoute>,
    minibusCount: nat,
    minibusPlateCount: nat,
    lastDecision: UkomeDecision,
    history: seq<LineHistory>)

  datatype PlateAction = ADD_TO_LINE | CHANGE_LINE

  /** One audit entry of a plate; lineName is a snapshot of the line's name. */
  datatype PlateHistory = PlateHistory(ukomeNumber: string, ukomeDate: string, lineName: string, action: PlateAction)

  /** A vehicle plate; currentLineId is None while the plate is on no line. */
  datatype Plate = Plate(plateNumber: string, currentLineId: Option<string>, history: seq<PlateHistory>)

  datatype ViewState = DASHBOARD | NEW_LINE | EDIT_LINE | REVISE_LINE | VIEW_LINE | PLATE_OPERATIONS

  /** The action requested on a plate. */
  datatype ActionKind = ADD | CHANGE

  /** The audit label recorded for a requested action. */
  function AuditAction(a: ActionKind): (r: PlateAction)
    ensures r == ADD_TO_LINE <==> a == ADD
  {
    if a == ADD then ADD_TO_LINE else CHANGE_LINE
  }
}
