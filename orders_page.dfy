/** The status presentation of the customer's order list
    (frontend/src/pages/Orders.jsx): the status read from one of four fields, its
    progress percentage, label and colour, the expanded-row toggle and the price
    text. */
module OrdersPage {
  import opened Wrappers
  import Strings

  /** The four fields an order's status may come in. */
  datatype StatusFields = StatusFields(status: Option<string>, state: Option<string>,
    orderStatus: Option<string>, currentStatus: Option<string>)

  /** `order?.status || order?.state || order?.order_status || order?.current_status`,
      lower-cased and trimmed; `None` when the chosen value is missing. */
  function NormalizedStatus(o: StatusFields): (r: Option<string>)
    ensures TruthyStr(o.status) ==> r == Some(Strings.Trim(Strings.Lower(o.status.value)))
    ensures !TruthyStr(o.status) && TruthyStr(o.state) ==> r == Some(Strings.Trim(Strings.Lower(o.state.value)))
    ensures !TruthyStr(o.status) && !TruthyStr(o.state) && TruthyStr(o.orderStatus) ==>
      r == Some(Strings.Trim(Strings.Lower(o.orderStatus.value)))
    ensures !TruthyStr(o.status) && !TruthyStr(o.state) && !TruthyStr(o.orderStatus) && o.currentStatus.Some? ==>
      r == Some(Strings.Trim(Strings.Lower(o.currentStatus.value)))
    ensures !TruthyStr(o.status) && !TruthyStr(o.state) && !TruthyStr(o.orderStatus) && o.currentStatus.None? ==> r.None?
  {
    var s := if TruthyStr(o.status) then o.status
      else if TruthyStr(o.state) then o.state
      else if TruthyStr(o.orderStatus) then o.orderStatus
      else o.currentStatus;
    if s.Some? then Some(Strings.Trim(Strings.Lower(s.value))) else None
  }

  /** `getProgressPercentage`. */
  function ProgressPercentage(o: StatusFields): int {
    ProgressFor(NormalizedStatus(o))
  }

  /** The `switch` of `getProgressPercentage` on the normalised status. */
  function ProgressFor(n: Option<string>): int {
    match n
    case None => 25
    case Some(s) =>
      match s
      case "pending" => 25
      case "estimated" => 50
      case "confirmed" => 60
      case "in_progress" => 75
      case "completed" => 100
      case "canceled" => 0
      case "pendiente" => 25
      case "first_estimate" => 25
      case "primera estimación" => 25
      case "primera_estimacion" => 25
      case "cotizado" => 50
      case "final_price_sent" => 50
      case "cotización final" => 50
      case "cotizacion_final" => 50
      case "estimado" => 50
      case "confirmado" => 75
      case "en_proceso" => 75
      case "en proceso" => 75
      case "enproceso" => 75
      case "completado" => 100
      case "terminado" => 100
      case "cancelado" => 0
      case "cancelled" => 0
      case _ => 25
  }

  /** `getStatusText`. */
  function StatusText(o: StatusFields): string {
    TextFor(NormalizedStatus(o))
  }

  /** The `switch` of `getStatusText` on the normalised status. */
  function TextFor(n: Option<string>): string {
    match n
    case None => "First Estimate"
    case Some(s) =>
      match s
      case "pending" => "First Estimate"
      case "estimated" => "Estimated"
      case "confirmed" => "Confirmed"
      case "in_progress" => "In Progress"
      case "completed" => "Completed"
      case "canceled" => "Canceled"
      case "pendiente" => "First Estimate"
      case "first_estimate" => "First Estimate"
      case "primera estimación" => "First Estimate"
      case "primera_estimacion" => "First Estimate"
      case "cotizado" => "Estimated"
      case "final_price_sent" => "Estimated"
      case "cotización final" => "Estimated"
      case "cotizacion_final" => "Estimated"
      case "estimado" => "Estimated"
      case "confirmado" => "In Progress"
      case "en_proceso" => "In Progress"
      case "en proceso" => "In Progress"
      case "enproceso" => "In Progress"
      case "completado" => "Completed"
      case "terminado" => "Completed"
      case "cancelado" => "Canceled"
      case "cancelled" => "Canceled"
      case _ => "First Estimate"
  }

  /** `getStatusColor`. */
  function StatusColor(o: StatusFields): string {
    ColorFor(NormalizedStatus(o))
  }

  /** The `switch` of `getStatusColor` on the normalised status. */
  function ColorFor(n: Option<string>): string {
    match n
    case None => "#F59E0B"
    case Some(s) =>
      match s
      case "pending" => "#F59E0B"
      case "estimated" => "#3B82F6"
      case "confirmed" => "#8B5CF6"
      case "in_progress" => "#78B7D0"
      case "completed" => "#10B981"
      case "canceled" => "#EF4444"
      case "pendiente" => "#F59E0B"
      case "first_estimate" => "#F59E0B"
      case "primera estimación" => "#F59E0B"
      case "primera_estimacion" => "#F59E0B"
      case "cotizado" => "#3B82F6"
      case "final_price_sent" => "#3B82F6"
      case "cotización final" => "#3B82F6"
      case "cotizacion_final" => "#3B82F6"
      case "estimado" => "#3B82F6"
      case "confirmado" => "#78B7D0"
      case "en_proceso" => "#78B7D0"
      case "en proceso" => "#78B7D0"
      case "enproceso" => "#78B7D0"
      case "completado" => "#10B981"
      case "terminado" => "#10B981"
      case "cancelado" => "#EF4444"
      case "cancelled" => "#EF4444"
      case _ => "#F59E0B"
  }

  /** The six stages the three mappings distinguish. */
  datatype Stage = FirstEstimate | Estimated | Confirmed | InProgress | Completed | Canceled

  /** The stage a normalised status names; anything unknown is the first estimate. */
  function StageOf(o: StatusFields): Stage {
    StageFor(NormalizedStatus(o))
  }

  function StageFor(n: Option<string>): Stage {
    match n
    case None => FirstEstimate
    case Some(s) =>
      if s in {"estimated", "cotizado", "final_price_sent", "cotización final", "cotizacion_final", "estimado"} then Estimated
      else if s == "confirmed" then Confirmed
      else if s in {"in_progress", "confirmado", "en_proceso", "en proceso", "enproceso"} then InProgress
      else if s in {"completed", "completado", "terminado"} then Completed
      else if s in {"canceled", "cancelado", "cancelled"} then Canceled
      else FirstEstimate
  }

  function StagePercent(t: Stage): int {
    match t
    case FirstEstimate => 25
    case Estimated => 50
    case Confirmed => 60
    case InProgress => 75
    case Completed => 100
    case Canceled => 0
  }

  function StageText(t: Stage): string {
    match t
    case FirstEstimate => "First Estimate"
    case Estimated => "Estimated"
    case Confirmed => "Confirmed"
    case InProgress => "In Progress"
    case Completed => "Completed"
    case Canceled => "Canceled"
  }

  function StageColor(t: Stage): string {
    match t
    case FirstEstimate => "#F59E0B"
    case Estimated => "#3B82F6"
    case Confirmed => "#8B5CF6"
    case InProgress => "#78B7D0"
    case Completed => "#10B981"
    case Canceled => "#EF4444"
  }

  /** The three switch statements agree: every status names one stage, and the
      percentage, label and colour are those of that stage. */
  lemma MappingsAgree(o: StatusFields)
    ensures ProgressPercentage(o) == StagePercent(StageOf(o))
    ensures StatusText(o) == StageText(StageOf(o))
    ensures StatusColor(o) == StageColor(StageOf(o))
  {
    ProgressByStage(NormalizedStatus(o));
    TextByStage(NormalizedStatus(o));
    ColorByStage(NormalizedStatus(o));
  }

  lemma ProgressByStage(n: Option<string>)
    ensures ProgressFor(n) == StagePercent(StageFor(n))
  {
  }

  lemma TextByStage(n: Option<string>)
    ensures TextFor(n) == StageText(StageFor(n))
  {
  }

  lemma ColorByStage(n: Option<string>)
    ensures ColorFor(n) == StageColor(StageFor(n))
  {
  }

  /** The percentage is one of six values, and rises strictly from the first
      estimate to completion. */
  lemma ProgressValues(o: StatusFields)
    ensures ProgressPercentage(o) in {0, 25, 50, 60, 75, 100}
    ensures StagePercent(FirstEstimate) < StagePercent(Estimated) < StagePercent(Confirmed)
      < StagePercent(InProgress) < StagePercent(Completed)
  {
    MappingsAgree(o);
  }

  /** A missing or unknown status shows 25%, "First Estimate" and yellow. */
  lemma UnknownStatusDefaults(o: StatusFields)
    requires NormalizedStatus(o).None? || NormalizedStatus(o).value !in
      {"pending", "estimated", "confirmed", "in_progress", "completed", "canceled",
       "pendiente", "first_estimate", "primera estimación", "primera_estimacion",
       "cotizado", "final_price_sent", "cotización final", "cotizacion_final", "estimado",
       "confirmado", "en_proceso", "en proceso", "enproceso", "completado", "terminado",
       "cancelado", "cancelled"}
    ensures ProgressPercentage(o) == 25 && StatusText(o) == "First Estimate" && StatusColor(o) == "#F59E0B"
  {
    MappingsAgree(o);
  }

  /** The Spanish 'confirmado' shows as in progress (75%), while 'confirmed' has a
      stage of its own (60%). */
  lemma ConfirmadoShowsInProgress(es: StatusFields)
    requires NormalizedStatus(es) == Some("confirmado")
    ensures ProgressPercentage(es) == 75 && StatusText(es) == "In Progress"
  {
    ConfirmadoTable();
  }

  lemma ConfirmadoTable()
    ensures ProgressFor(Some("confirmado")) == 75 && TextFor(Some("confirmado")) == "In Progress"
  {
  }

  lemma ConfirmedShowsConfirmed(en: StatusFields)
    requires NormalizedStatus(en) == Some("confirmed")
    ensures ProgressPercentage(en) == 60 && StatusText(en) == "Confirmed"
  {
    ConfirmedTable();
  }

  lemma ConfirmedTable()
    ensures ProgressFor(Some("confirmed")) == 60 && TextFor(Some("confirmed")) == "Confirmed"
  {
  }

  /** The status fields holding just 'confirmado' normalise to it. */
  lemma ConfirmadoNormalizes()
    ensures NormalizedStatus(StatusFields(Some("confirmado"), None, None, None)) == Some("confirmado")
  {
    PlainStatusNormalizes("confirmado");
  }

  /** A status of lower-case ASCII letters and underscores is used as it is. */
  lemma PlainStatusNormalizes(s: string)
    requires s != [] && forall i :: 0 <= i < |s| ==> 'a' <= s[i] <= 'z' || s[i] == '_'
    ensures NormalizedStatus(StatusFields(Some(s), None, None, None)) == Some(s)
  {
    var lower := Strings.Lower(s);
    assert lower == s;
    Strings.TrimNoEdgeWhitespace(s);
  }

  /** `toggleOrderExpansion`: expanding the open row closes it, any other id opens. */
  function Toggle(expanded: Option<int>, id: int): (r: Option<int>)
    ensures r == None <==> expanded == Some(id)
    ensures r != None ==> r == Some(id)
  {
    if expanded == Some(id) then None else Some(id)
  }

  /** Toggling the same id twice restores the closed state, or the open row if it
      was that one. */
  lemma ToggleTwice(expanded: Option<int>, id: int)
    ensures Toggle(Toggle(expanded, id), id) == (if expanded == Some(id) then Some(id) else None)
  {
  }

  /** `formatCurrency`; the locale formatting of the number is passed in. */
  function FormatCurrency(amount: Option<real>, localeText: real -> string): (r: string)
    ensures !Truthy(amount) ==> r == "To be quoted"
    ensures Truthy(amount) ==> r == "$" + localeText(amount.value) + " MXN"
  {
    if !Truthy(amount) then "To be quoted" else "$" + localeText(amount.value) + " MXN"
  }
}
