/**
 * The decisions the dashboard's presentation layer takes: readable column
 * labels, which outputs the predict/reset callback echoes, resets or
 * replaces (and when the cancellation overlay appears), and the "most
 * problematic segments" list. Dash components are reduced to tags; their
 * ids, styles and the plotly figures are not modelled.
 */
module Graphics {
  import opened Wrappers
  import opened Frames
  import Model
  import Etl

  // ---------------------------------------------------------------------
  // pretty_label
  // ---------------------------------------------------------------------

  /** `COLUMN_LABELS`: technical column names and their Spanish display names. */
  const ColumnLabels: map<string, string> := map[
    "is_canceled" := "Reserva cancelada",
    "lead_time" := "Antelación de la reserva (días)",
    "arrival_date_year" := "Año de llegada",
    "arrival_date_week_number" := "Semana del año de llegada",
    "arrival_date_day_of_month" := "Día de llegada",
    "stays_in_weekend_nights" := "Noches en fin de semana",
    "stays_in_week_nights" := "Noches entre semana",
    "total_nights" := "Noches totales",
    "adr" := "Precio medio diario (ADR)",
    "adults" := "Número de adultos",
    "children" := "Número de niños",
    "babies" := "Número de bebés",
    "previous_cancellations" := "Cancelaciones previas",
    "previous_bookings_not_canceled" := "Reservas previas no canceladas",
    "required_car_parking_spaces" := "Plazas de parking requeridas",
    "total_of_special_requests" := "Peticiones especiales",
    "market_segment" := "Segmento de mercado",
    "customer_type" := "Tipo de cliente",
    "deposit_type" := "Tipo de depósito",
    "hotel" := "Tipo de hotel",
    "arrival_date_month" := "Mes de llegada"
  ]

  predicate IsLowerAscii(c: char) { 'a' <= c <= 'z' }
  predicate IsUpperAscii(c: char) { 'A' <= c <= 'Z' }

  function UpperAscii(c: char): (u: char)
    ensures !IsLowerAscii(u)
  {
    if IsLowerAscii(c) then (c as int - 32) as char else c
  }

  function LowerAscii(c: char): (l: char)
    ensures !IsUpperAscii(l)
  {
    if IsUpperAscii(c) then (c as int + 32) as char else c
  }

  /** `s.replace("_", " ")` */
  function ReplaceUnderscores(s: string): (r: string)
    ensures |r| == |s| && '_' !in r
    ensures forall i :: 0 <= i < |s| && s[i] != '_' ==> r[i] == s[i]
  {
    seq(|s|, i requires 0 <= i < |s| => if s[i] == '_' then ' ' else s[i])
  }

  /** `s.capitalize()` on ASCII letters: first character upper case, the rest lower case. */
  function Capitalize(s: string): (r: string)
    ensures |r| == |s|
  {
    seq(|s|, i requires 0 <= i < |s| => if i == 0 then UpperAscii(s[i]) else LowerAscii(s[i]))
  }

  /** `pretty_label(colname)`: the mapped label, or the name with spaces for `_`, capitalized. */
  function PrettyLabel(colname: string): (r: string)
    ensures colname in ColumnLabels ==> r == ColumnLabels[colname]
    ensures colname !in ColumnLabels ==> |r| == |colname| && '_' !in r
    ensures colname !in ColumnLabels && |r| > 0 ==> !IsLowerAscii(r[0])
    ensures colname !in ColumnLabels ==> forall i :: 0 < i < |r| ==> !IsUpperAscii(r[i])
    ensures colname !in ColumnLabels ==> forall i :: 0 <= i < |r| ==>
      LowerAscii(r[i]) == LowerAscii(if colname[i] == '_' then ' ' else colname[i])
  {
    if colname in ColumnLabels then ColumnLabels[colname]
    else
      var spaced := ReplaceUnderscores(colname);
      var r := Capitalize(spaced);
      assert forall i :: 0 <= i < |r| ==> r[i] == UpperAscii(spaced[i]) || r[i] == LowerAscii(spaced[i]);
      r
  }

  // ---------------------------------------------------------------------
  // predict_or_reset
  // ---------------------------------------------------------------------

  /** Which button fired the callback, as `dash.callback_context` reports it. */
  datatype Trigger = NotTriggered | PredictClick | ResetClick

  /** The nine form inputs, in the callback's output order. */
  datatype FormValues = FormValues(
    leadTime: Model.PyValue,
    totalNights: Model.PyValue,
    adr: Model.PyValue,
    specialRequests: Model.PyValue,
    hotel: Model.PyValue,
    depositType: Model.PyValue,
    customerType: Model.PyValue,
    marketSegment: Model.PyValue,
    arrivalMonth: Model.PyValue)

  datatype Color = Red | Green

  /** The pieces of the prediction card. */
  datatype Block =
    | Headline(verdict: string, color: Color)
    | ProbabilityLine(percent: real)
    | WarningBox

  /** The `prediction-output` children: the error paragraph, or the card's blocks. */
  datatype Message = ErrorLine(text: string, color: Color) | Card(blocks: seq<Block>)

  /** The full-screen "high cancellation probability" overlay. */
  datatype Overlay = CancelOverlay

  /** One callback output: `dash.no_update`, or a new value (None clears it). */
  datatype Update<T> = NoUpdate | Replace(value: Option<T>)

  datatype CallbackOutputs = CallbackOutputs(form: FormValues, message: Update<Message>, overlay: Update<Overlay>)

  /** The three column means the reset restores (`int(mean)`, `int(mean)`, `round(mean, 2)`). */
  datatype ColumnMeans = ColumnMeans(leadTime: int, totalNights: int, adr: real)

  const ErrorText := "Error al generar la predicción."
  const CancelVerdict := "SE CANCELA"
  const KeepVerdict := "NO SE CANCELA"

  const Hotel := "hotel"
  const DepositType := "deposit_type"
  const CustomerType := "customer_type"
  const MarketSegment := "market_segment"
  const ArrivalMonth := "arrival_date_month"

  /** The dictionary the callback hands to `predict_cancellation`. */
  function RequestData(form: FormValues): (data: map<string, Model.PyValue>)
    ensures Model.Lookup(data, Model.LeadTime) == form.leadTime
    ensures Model.Lookup(data, Etl.TotalNights) == form.totalNights
    ensures Model.Lookup(data, Model.Adr) == form.adr
    ensures Model.Lookup(data, Model.SpecialRequests) == form.specialRequests
  {
    map[
      Model.LeadTime := form.leadTime,
      Etl.TotalNights := form.totalNights,
      Model.Adr := form.adr,
      Model.SpecialRequests := form.specialRequests,
      Hotel := form.hotel,
      DepositType := form.depositType,
      CustomerType := form.customerType,
      MarketSegment := form.marketSegment,
      ArrivalMonth := form.arrivalMonth
    ]
  }

  /** The Python value a table cell holds. */
  function CellValue(c: Cell): (v: Model.PyValue) {
    match c
    case Null => Model.PyNone
    case Num(x) => Model.PyNum(x)
    case Text(s) => Model.PyStr(s)
  }

  /** `df[column].dropna().unique()[0]`: the first present cell of a column, None where that raises. */
  function FirstPresent(columns: seq<string>, rows: seq<Row>, column: string): (r: Option<Cell>)
    ensures r.None? <==> column !in columns || forall i :: 0 <= i < |rows| ==> CellAt(rows[i], column) == Null
    ensures r.Some? ==> exists i :: 0 <= i < |rows| && CellAt(rows[i], column) == r.value && r.value != Null
                                    && forall j :: 0 <= j < i ==> CellAt(rows[j], column) == Null
  {
    if column !in columns then None else FirstPresentIn(rows, column)
  }

  function FirstPresentIn(rows: seq<Row>, column: string): (r: Option<Cell>)
    ensures r.None? <==> forall i :: 0 <= i < |rows| ==> CellAt(rows[i], column) == Null
    ensures r.Some? ==> exists i :: 0 <= i < |rows| && CellAt(rows[i], column) == r.value && r.value != Null
                                    && forall j :: 0 <= j < i ==> CellAt(rows[j], column) == Null
  {
    if rows == [] then None
    else if CellAt(rows[0], column) != Null then Some(CellAt(rows[0], column))
    else
      var r := FirstPresentIn(rows[1..], column);
      if r.Some? then
        var i :| 0 <= i < |rows| - 1 && CellAt(rows[1..][i], column) == r.value && r.value != Null
                 && forall j :: 0 <= j < i ==> CellAt(rows[1..][j], column) == Null;
        assert CellAt(rows[i + 1], column) == r.value;
        assert forall j :: 0 <= j < i + 1 ==> CellAt(rows[j], column) == Null by {
          forall j | 0 <= j < i + 1 ensures CellAt(rows[j], column) == Null {
            if j > 0 { assert rows[j] == rows[1..][j - 1]; }
          }
        }
        r
      else
        assert forall i :: 0 <= i < |rows| ==> CellAt(rows[i], column) == Null by {
          forall i | 0 <= i < |rows| ensures CellAt(rows[i], column) == Null {
            if i > 0 { assert rows[i] == rows[1..][i - 1]; }
          }
        }
        r
  }

  /** The form after a reset click, None where reading the table raises. */
  function ResetForm(columns: seq<string>, rows: seq<Row>, means: Option<ColumnMeans>): (r: Option<FormValues>)
    ensures r.Some? <==> (means.Some? &&
      forall c :: c in [Hotel, DepositType, CustomerType, MarketSegment, ArrivalMonth] ==> FirstPresent(columns, rows, c).Some?)
    ensures r.Some? ==> r.value.specialRequests == Model.PyNum(0.0)
    ensures r.Some? ==> (r.value.leadTime == Model.PyNum(means.value.leadTime as real)
      && r.value.totalNights == Model.PyNum(means.value.totalNights as real)
      && r.value.adr == Model.PyNum(means.value.adr))
    ensures r.Some? ==> (r.value.hotel == CellValue(FirstPresent(columns, rows, Hotel).value)
      && r.value.depositType == CellValue(FirstPresent(columns, rows, DepositType).value)
      && r.value.customerType == CellValue(FirstPresent(columns, rows, CustomerType).value)
      && r.value.marketSegment == CellValue(FirstPresent(columns, rows, MarketSegment).value)
      && r.value.arrivalMonth == CellValue(FirstPresent(columns, rows, ArrivalMonth).value))
  {
    match (means, FirstPresent(columns, rows, Hotel), FirstPresent(columns, rows, DepositType),
           FirstPresent(columns, rows, CustomerType), FirstPresent(columns, rows, MarketSegment),
           FirstPresent(columns, rows, ArrivalMonth))
    case (Some(m), Some(h), Some(d), Some(c), Some(s), Some(a)) =>
      Some(FormValues(Model.PyNum(m.leadTime as real), Model.PyNum(m.totalNights as real), Model.PyNum(m.adr),
                      Model.PyNum(0.0), CellValue(h), CellValue(d), CellValue(c), CellValue(s), CellValue(a)))
    case _ => None
  }

  /**
   * The `predict_or_reset` callback. `out` is None where the callback raises
   * (Dash then leaves every output as it was).
   */
  method PredictOrReset(trigger: Trigger, form: FormValues, df: DataFrame, means: Option<ColumnMeans>,
                        model: Model.ModelArg, parse: Model.StringToFloat)
    returns (out: Option<CallbackOutputs>)
    ensures trigger == NotTriggered ==> out == Some(CallbackOutputs(form, NoUpdate, NoUpdate))
    ensures trigger == ResetClick ==> match ResetForm(df.columns, df.rows, means)
      case None => out == None
      case Some(reset) => out == Some(CallbackOutputs(reset, Replace(None), Replace(None)))
    ensures trigger == PredictClick ==> out.Some? && out.value.form == form
    ensures trigger == PredictClick ==> match Model.PredictCancellation(model, RequestData(form), parse)
      case Failure(_) =>
        out.value.message == Replace(Some(ErrorLine(ErrorText, Red))) && out.value.overlay == Replace(None)
      case Success(p) =>
        && out.value.message.Replace? && out.value.message.value.Some?
        && out.value.message.value.value.Card?
        && var blocks := out.value.message.value.value.blocks;
        && blocks == [if p.pred == 1 then Headline(CancelVerdict, Red) else Headline(KeepVerdict, Green),
                      ProbabilityLine(p.prob * 100.0)] + (if p.pred == 1 then [WarningBox] else [])
        && (WarningBox in blocks <==> p.pred == 1)
        && out.value.overlay.Replace?
        && (out.value.overlay.value.Some? <==> p.pred == 1)
  {
    if trigger == NotTriggered {
      return Some(CallbackOutputs(form, NoUpdate, NoUpdate));
    }
    if trigger == ResetClick {
      var reset := ResetForm(df.columns, df.rows, means);
      if reset.None? {
        return None;
      }
      return Some(CallbackOutputs(reset.value, Replace(None), Replace(None)));
    }
    var result := Model.PredictCancellation(model, RequestData(form), parse);
    if result.Failure? {
      return Some(CallbackOutputs(form, Replace(Some(ErrorLine(ErrorText, Red))), Replace(None)));
    }
    var pred, prob := result.value.pred, result.value.prob;
    var verdict := if pred == 1 then CancelVerdict else KeepVerdict;
    var color := if pred == 1 then Red else Green;
    var blocks := [Headline(verdict, color), ProbabilityLine(prob * 100.0)];
    var overlay: Option<Overlay> := None;
    if pred == 1 {
      blocks := blocks + [WarningBox];
      overlay := Some(CancelOverlay);
    }
    out := Some(CallbackOutputs(form, Replace(Some(Card(blocks))), Replace(overlay)));
  }

  // ---------------------------------------------------------------------
  // layout_recommendations: the most problematic segments
  // ---------------------------------------------------------------------

  /** One row of `df.groupby("market_segment")["is_canceled"].mean()`. */
  datatype SegmentRate = SegmentRate(segment: Cell, rate: real)

  /** A bullet of the list: a segment with its cancellation percentage, or the no-data fallback. */
  datatype Bullet = SegmentBullet(segment: Cell, percent: real) | NoDataBullet

  predicate NonIncreasing(s: seq<SegmentRate>) {
    forall i, j :: 0 <= i < j < |s| ==> s[i].rate >= s[j].rate
  }

  function InsertByRate(x: SegmentRate, s: seq<SegmentRate>): (r: seq<SegmentRate>)
    requires NonIncreasing(s)
    ensures NonIncreasing(r)
    ensures multiset(r) == multiset(s) + multiset{x}
    ensures |r| == |s| + 1
    ensures r[0] == x || (s != [] && r[0] == s[0])
  {
    if s == [] || x.rate >= s[0].rate then [x] + s
    else
      var rest := InsertByRate(x, s[1..]);
      assert s == [s[0]] + s[1..];
      [s[0]] + rest
  }

  /** `sort_values("is_canceled", ascending=False)` */
  function SortByRate(s: seq<SegmentRate>): (r: seq<SegmentRate>)
    ensures |r| == |s|
    ensures NonIncreasing(r)
    ensures multiset(r) == multiset(s)
  {
    if s == [] then []
    else
      assert s == [s[0]] + s[1..];
      InsertByRate(s[0], SortByRate(s[1..]))
  }

  /**
   * A prefix of a non-increasing sequence is non-increasing, and every element
   * left out of it has a rate no greater than any element kept.
   */
  lemma PrefixDominates(sorted: seq<SegmentRate>, k: nat)
    requires NonIncreasing(sorted) && k <= |sorted|
    ensures NonIncreasing(sorted[..k])
    ensures multiset(sorted[..k]) <= multiset(sorted)
    ensures multiset(sorted) - multiset(sorted[..k]) == multiset(sorted[k..])
    ensures forall x, t :: x in multiset(sorted[k..]) && t in sorted[..k] ==> x.rate <= t.rate
  {
    assert sorted == sorted[..k] + sorted[k..];
    forall x, t | x in multiset(sorted[k..]) && t in sorted[..k] ensures x.rate <= t.rate {
      assert x in sorted[k..];
      var a :| 0 <= a < k && sorted[..k][a] == t;
      var b :| 0 <= b < |sorted| - k && sorted[k..][b] == x;
      assert sorted[a] == t && sorted[k + b] == x;
    }
  }

  /** `.head(3)` of the sorted groups. */
  function TopSegments(grouped: seq<SegmentRate>): (top: seq<SegmentRate>)
    ensures |top| == if |grouped| < 3 then |grouped| else 3
    ensures NonIncreasing(top)
    ensures multiset(top) <= multiset(grouped)
    ensures forall x, t :: x in multiset(grouped) - multiset(top) && t in top ==> x.rate <= t.rate
  {
    var sorted := SortByRate(grouped);
    var k := if |grouped| < 3 then |grouped| else 3;
    PrefixDominates(sorted, k);
    sorted[..k]
  }

  /** The bullets under "Segmentos más problemáticos". */
  function Recommendations(columns: seq<string>, grouped: seq<SegmentRate>): (bullets: seq<Bullet>)
    ensures !(MarketSegment in columns && Model.IsCanceled in columns) ==> bullets == [NoDataBullet]
    ensures |bullets| <= 3
    ensures MarketSegment in columns && Model.IsCanceled in columns ==>
      |bullets| == |TopSegments(grouped)| &&
      forall i :: 0 <= i < |bullets| ==>
        && bullets[i].SegmentBullet?
        && bullets[i].segment == TopSegments(grouped)[i].segment
        && bullets[i].percent == TopSegments(grouped)[i].rate * 100.0
    ensures forall i, j :: 0 <= i < j < |bullets| && bullets[i].SegmentBullet? && bullets[j].SegmentBullet? ==>
      bullets[i].percent >= bullets[j].percent
  {
    if MarketSegment in columns && Model.IsCanceled in columns then
      var top := TopSegments(grouped);
      seq(|top|, i requires 0 <= i < |top| => SegmentBullet(top[i].segment, top[i].rate * 100.0))
    else
      [NoDataBullet]
  }
}
