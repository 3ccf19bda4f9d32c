/**
 * src/pages/Analytics.tsx: the selected time range picks a dataset and a
 * label (both defaulting to the 7-day view), each department's total is the
 * sum of its column, and the unit word names the row period.
 */
module Analytics {

  datatype Department = Cardiology | Neurology | Orthopedics | Pediatrics | GeneralMedicine

  /** The summary cards, in display order. */
  const Departments: seq<Department> := [Cardiology, Neurology, Orthopedics, Pediatrics, GeneralMedicine]

  function DepartmentName(d: Department): string {
    match d
    case Cardiology => "Cardiology"
    case Neurology => "Neurology"
    case Orthopedics => "Orthopedics"
    case Pediatrics => "Pediatrics"
    case GeneralMedicine => "General Medicine"
  }

  /** One bar group: a period label and a patient count per department. */
  datatype Row = Row(date: string, cardiology: nat, neurology: nat, orthopedics: nat, pediatrics: nat, generalMedicine: nat)

  /** `day[dept]`. */
  function Count(row: Row, d: Department): nat {
    match d
    case Cardiology => row.cardiology
    case Neurology => row.neurology
    case Orthopedics => row.orthopedics
    case Pediatrics => row.pediatrics
    case GeneralMedicine => row.generalMedicine
  }

  const Last7Days: seq<Row> := [
    Row("Mon", 45, 32, 28, 38, 52),
    Row("Tue", 52, 38, 31, 42, 58),
    Row("Wed", 48, 35, 29, 40, 55),
    Row("Thu", 55, 41, 34, 45, 62),
    Row("Fri", 58, 44, 37, 48, 65),
    Row("Sat", 42, 30, 25, 36, 48),
    Row("Sun", 38, 28, 22, 32, 44)
  ]

  const Last3Months: seq<Row> := [
    Row("Week 1", 315, 225, 195, 270, 385),
    Row("Week 2", 328, 238, 205, 282, 398),
    Row("Week 3", 342, 248, 215, 295, 412),
    Row("Week 4", 335, 242, 208, 288, 405),
    Row("Week 5", 348, 255, 218, 298, 418),
    Row("Week 6", 355, 262, 225, 305, 425),
    Row("Week 7", 362, 268, 232, 312, 432),
    Row("Week 8", 368, 275, 238, 318, 438),
    Row("Week 9", 375, 282, 245, 325, 445),
    Row("Week 10", 382, 288, 252, 332, 452),
    Row("Week 11", 388, 295, 258, 338, 458),
    Row("Week 12", 395, 302, 265, 345, 465)
  ]

  const Last6Months: seq<Row> := [
    Row("Jan", 1420, 1015, 875, 1225, 1740),
    Row("Feb", 1385, 990, 855, 1195, 1695),
    Row("Mar", 1465, 1045, 905, 1265, 1795),
    Row("Apr", 1520, 1085, 940, 1315, 1865),
    Row("May", 1575, 1125, 975, 1365, 1935),
    Row("Jun", 1630, 1165, 1010, 1415, 2005)
  ]

  /** The range the page starts with. */
  const InitialRange: string := "7days"

  /** `getDataForTimeRange`: three known ranges, anything else falls back to the 7-day data. */
  function DataForRange(range: string): (rows: seq<Row>)
    ensures range == "3months" ==> rows == Last3Months && |rows| == 12
    ensures range == "6months" ==> rows == Last6Months && |rows| == 6
    ensures range != "3months" && range != "6months" ==> rows == Last7Days && |rows| == 7
  {
    match range
    case "7days" => Last7Days
    case "3months" => Last3Months
    case "6months" => Last6Months
    case _ => Last7Days
  }

  /** `getTimeRangeLabel`: the same three cases and the same default. */
  function RangeLabel(range: string): string {
    match range
    case "7days" => "Last 7 Days"
    case "3months" => "Last 3 Months (Weekly)"
    case "6months" => "Last 6 Months (Monthly)"
    case _ => "Last 7 Days"
  }

  /** The unit word under each card's average: a day, a week or, for anything else, a month. */
  function UnitWord(range: string): (w: string)
    ensures range == "7days" <==> w == "day"
    ensures range == "3months" <==> w == "week"
    ensures range != "7days" && range != "3months" <==> w == "month"
  {
    if range == "7days" then "day" else if range == "3months" then "week" else "month"
  }

  /** The range the data and label switches actually select: unknown ranges become `"7days"`. */
  function Effective(range: string): (r: string)
    ensures r in {"7days", "3months", "6months"}
  {
    if range == "3months" || range == "6months" then range else "7days"
  }

  /** The data and label switches agree: each behaves as on the effective range. */
  lemma LabelFollowsData(range: string)
    ensures DataForRange(range) == DataForRange(Effective(range))
    ensures RangeLabel(range) == RangeLabel(Effective(range))
    ensures DataForRange(range) == Last7Days <==> RangeLabel(range) == "Last 7 Days"
  {
  }

  /** The initial view is the 7-day data, labelled and measured in days. */
  lemma InitialView()
    ensures DataForRange(InitialRange) == Last7Days
    ensures RangeLabel(InitialRange) == "Last 7 Days"
    ensures UnitWord(InitialRange) == "day"
  {
  }

  /**
   * The unit word follows the data exactly on the three offered ranges, and on
   * no other range: there its own default (`month`) departs from the data's (`7days`).
   */
  lemma UnitWordFollowsDataOnlyWhenOffered(range: string)
    ensures UnitWord(range) == UnitWord(Effective(range)) <==> range in {"7days", "3months", "6months"}
  {
  }

  /**
   * The unit word has no default of its own: a range the select does not offer
   * shows the daily data but calls its period a month.
   */
  lemma UnitWordDefaultDisagrees()
    ensures DataForRange("30days") == Last7Days
    ensures UnitWord("30days") == "month"
  {
  }

  /** `data.reduce((sum, day) => sum + day[dept], 0)`: a left fold over the rows. */
  function Total(rows: seq<Row>, d: Department): int
    decreases |rows|
  {
    if rows == [] then 0 else Total(rows[..|rows| - 1], d) + Count(rows[|rows| - 1], d)
  }

  /** The column sum, defined independently from the first row on. */
  function ColumnSum(rows: seq<Row>, d: Department): (n: nat)
    ensures rows != [] ==> n >= Count(rows[0], d)
    decreases |rows|
  {
    if rows == [] then 0 else Count(rows[0], d) + ColumnSum(rows[1..], d)
  }

  lemma {:induction false} ColumnSumAppend(a: seq<Row>, b: seq<Row>, d: Department)
    ensures ColumnSum(a + b, d) == ColumnSum(a, d) + ColumnSum(b, d)
    decreases |a|
  {
    if a != [] {
      assert (a + b)[1..] == a[1..] + b;
      ColumnSumAppend(a[1..], b, d);
    } else {
      assert a + b == b;
    }
  }

  /** The reduce computes the column sum, so every total is a non-negative integer. */
  lemma {:induction false} TotalIsColumnSum(rows: seq<Row>, d: Department)
    ensures Total(rows, d) == ColumnSum(rows, d)
    ensures Total(rows, d) >= 0
    decreases |rows|
  {
    if rows != [] {
      var init, last := rows[..|rows| - 1], rows[|rows| - 1];
      TotalIsColumnSum(init, d);
      assert init + [last] == rows;
      ColumnSumAppend(init, [last], d);
    }
  }

  /** The 7-day Cardiology card shows 338. */
  lemma SevenDayCardiology()
    ensures Total(Last7Days, Cardiology) == 338
  {
    TotalIsColumnSum(Last7Days, Cardiology);
    assert ColumnSum(Last7Days[6..], Cardiology) == 38;
    assert ColumnSum(Last7Days[5..], Cardiology) == 80;
    assert ColumnSum(Last7Days[4..], Cardiology) == 138;
    assert ColumnSum(Last7Days[3..], Cardiology) == 193;
    assert ColumnSum(Last7Days[2..], Cardiology) == 241;
    assert ColumnSum(Last7Days[1..], Cardiology) == 293;
  }
}
