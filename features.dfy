/** The feature record the classifier receives: twenty named columns, ten taken
    from the normalised form and ten set to fixed values. */
module Features {
  import opened BookingForm

  /** The columns of the classifier's input table. */
  datatype Column =
    | LeadTime | Adults | Children | Babies | Meal | MarketSegment
    | DepositType | CustomerType | ArrivalDateMonth | Country
    | BookingChanges | StaysInWeekendNights | StaysInWeekNights
    | RequiredCarParkingSpaces | Adr | DaysInWaitingList
    | PreviousBookingsNotCanceled | PreviousCancellations
    | IsRepeatedGuest | TotalOfSpecialRequests

  /** The column's name in the table handed to the classifier: a non-empty
      identifier that starts with a lower-case letter. */
  function ColumnName(c: Column): (name: string)
    ensures name != [] && 'a' <= name[0] <= 'z'
  {
    match c
    case LeadTime => "lead_time"
    case Adults => "adults"
    case Children => "children"
    case Babies => "babies"
    case Meal => "meal"
    case MarketSegment => "market_segment"
    case DepositType => "deposit_type"
    case CustomerType => "customer_type"
    case ArrivalDateMonth => "arrival_date_month"
    case Country => "country"
    case BookingChanges => "booking_changes"
    case StaysInWeekendNights => "stays_in_weekend_nights"
    case StaysInWeekNights => "stays_in_week_nights"
    case RequiredCarParkingSpaces => "required_car_parking_spaces"
    case Adr => "adr"
    case DaysInWaitingList => "days_in_waiting_list"
    case PreviousBookingsNotCanceled => "previous_bookings_not_canceled"
    case PreviousCancellations => "previous_cancellations"
    case IsRepeatedGuest => "is_repeated_guest"
    case TotalOfSpecialRequests => "total_of_special_requests"
  }

  /** The columns in the order the table lists them: first the ten filled from
      the form, then the ten fixed ones. */
  const FormColumns: seq<Column> := [
    LeadTime, Adults, Children, Babies, Meal, MarketSegment,
    DepositType, CustomerType, ArrivalDateMonth, Country
  ]
  const FixedColumns: seq<Column> := [
    BookingChanges, StaysInWeekendNights, StaysInWeekNights,
    RequiredCarParkingSpaces, Adr, DaysInWaitingList,
    PreviousBookingsNotCanceled, PreviousCancellations,
    IsRepeatedGuest, TotalOfSpecialRequests
  ]
  const Columns: seq<Column> := FormColumns + FixedColumns

  /** One cell of the table: an integer, the one floating-point value, or a string. */
  datatype Value = Int(i: int) | Float(x: real) | Str(s: string)

  /** The documented fixed values of the ten columns the form does not ask for. */
  const Defaults: map<Column, Value> := map[
    BookingChanges := Int(0),
    StaysInWeekendNights := Int(0),
    StaysInWeekNights := Int(1),
    RequiredCarParkingSpaces := Int(0),
    Adr := Float(100.0),
    DaysInWaitingList := Int(0),
    PreviousBookingsNotCanceled := Int(0),
    PreviousCancellations := Int(0),
    IsRepeatedGuest := Int(0),
    TotalOfSpecialRequests := Int(0)
  ]

  /** A sequence without repetitions has as many distinct elements as entries. */
  lemma {:induction false} DistinctCount<T>(s: seq<T>)
    requires forall i, j :: 0 <= i < j < |s| ==> s[i] != s[j]
    ensures |set x | x in s| == |s|
  {
    if s != [] {
      DistinctCount(s[1..]);
      assert (set x | x in s) == (set x | x in s[1..]) + {s[0]};
    }
  }

  /** The column's place in the table. */
  function Position(c: Column): nat {
    match c
    case LeadTime => 0
    case Adults => 1
    case Children => 2
    case Babies => 3
    case Meal => 4
    case MarketSegment => 5
    case DepositType => 6
    case CustomerType => 7
    case ArrivalDateMonth => 8
    case Country => 9
    case BookingChanges => 10
    case StaysInWeekendNights => 11
    case StaysInWeekNights => 12
    case RequiredCarParkingSpaces => 13
    case Adr => 14
    case DaysInWaitingList => 15
    case PreviousBookingsNotCanceled => 16
    case PreviousCancellations => 17
    case IsRepeatedGuest => 18
    case TotalOfSpecialRequests => 19
  }

  /** The column list names every column, each at its place. */
  lemma ColumnsComplete()
    ensures forall c: Column :: Position(c) < |Columns| && Columns[Position(c)] == c
    ensures forall c: Column :: c in Columns
  {
    forall c: Column
      ensures Position(c) < |Columns| && Columns[Position(c)] == c && c in Columns
    {
    }
  }

  /** The twenty column names are pairwise different. */
  lemma ColumnNamesDistinct()
    ensures forall c: Column, d: Column :: c != d ==> ColumnName(c) != ColumnName(d)
  {
  }

  /** No column is both a form column and a fixed column. */
  lemma HalvesDisjoint()
    ensures forall i, j :: 0 <= i < |FormColumns| && 0 <= j < |FixedColumns| ==> FormColumns[i] != FixedColumns[j]
  {
  }

  /** The fixed columns are exactly those with a documented default. */
  lemma DefaultsCoverFixedColumns()
    ensures Defaults.Keys == set c | c in FixedColumns
  {
  }

  /** Every column is either a form column or a fixed column, never both,
      and it has a documented default exactly when it is fixed. */
  lemma ColumnsPartitioned(c: Column)
    ensures c in FormColumns <==> c !in FixedColumns
    ensures c in FixedColumns <==> c in Defaults
  {
    ColumnsComplete();
    HalvesDisjoint();
    DefaultsCoverFixedColumns();
    assert c in FormColumns || c in FixedColumns;
  }

  /** No column is listed twice in either half. */
  lemma ColumnsDistinct()
    ensures forall i, j :: 0 <= i < j < |FormColumns| ==> FormColumns[i] != FormColumns[j]
    ensures forall i, j :: 0 <= i < j < |FixedColumns| ==> FixedColumns[i] != FixedColumns[j]
  {
  }

  /** The column list names every column exactly once, so the table has twenty
      distinct columns, ten from the form and ten fixed. */
  lemma ColumnCount()
    ensures forall c: Column :: c in Columns
    ensures |set c | c in Columns| == 20
    ensures |set c | c in FormColumns| == 10 && |set c | c in FixedColumns| == 10
  {
    forall c: Column
      ensures c in Columns
    {
      ColumnsPartitioned(c);
    }
    ColumnsDistinct();
    DistinctCount(FormColumns);
    DistinctCount(FixedColumns);
    forall i, j | 0 <= i < j < |Columns|
      ensures Columns[i] != Columns[j]
    {
      if i < 10 <= j {
        ColumnsPartitioned(Columns[i]);
      }
    }
    DistinctCount(Columns);
  }

  /** The one-row table handed to the classifier: one named field per column,
      so no column can be missing. */
  datatype FeatureRecord = FeatureRecord(
    leadTime: int,
    adults: int,
    children: int,
    babies: int,
    meal: string,
    marketSegment: string,
    depositType: string,
    customerType: string,
    arrivalDateMonth: string,
    country: string,
    bookingChanges: int,
    staysInWeekendNights: int,
    staysInWeekNights: int,
    requiredCarParkingSpaces: int,
    adr: real,
    daysInWaitingList: int,
    previousBookingsNotCanceled: int,
    previousCancellations: int,
    isRepeatedGuest: int,
    totalOfSpecialRequests: int)

  /** The record as a table: the value in column c. */
  function Get(r: FeatureRecord, c: Column): Value {
    match c
    case LeadTime => Int(r.leadTime)
    case Adults => Int(r.adults)
    case Children => Int(r.children)
    case Babies => Int(r.babies)
    case Meal => Str(r.meal)
    case MarketSegment => Str(r.marketSegment)
    case DepositType => Str(r.depositType)
    case CustomerType => Str(r.customerType)
    case ArrivalDateMonth => Str(r.arrivalDateMonth)
    case Country => Str(r.country)
    case BookingChanges => Int(r.bookingChanges)
    case StaysInWeekendNights => Int(r.staysInWeekendNights)
    case StaysInWeekNights => Int(r.staysInWeekNights)
    case RequiredCarParkingSpaces => Int(r.requiredCarParkingSpaces)
    case Adr => Float(r.adr)
    case DaysInWaitingList => Int(r.daysInWaitingList)
    case PreviousBookingsNotCanceled => Int(r.previousBookingsNotCanceled)
    case PreviousCancellations => Int(r.previousCancellations)
    case IsRepeatedGuest => Int(r.isRepeatedGuest)
    case TotalOfSpecialRequests => Int(r.totalOfSpecialRequests)
  }

  /** The ten user-derived columns read back out of a record. */
  function UserFieldsOf(r: FeatureRecord): UserFields {
    UserFields(
      r.leadTime, r.adults, r.children, r.babies,
      r.meal, r.marketSegment, r.depositType, r.customerType,
      r.arrivalDateMonth, r.country)
  }

  /** Builds the table from the normalised form: the ten user columns carry the
      form's values unchanged, and every other column holds its documented default. */
  function Assemble(u: UserFields): (r: FeatureRecord)
    ensures UserFieldsOf(r) == u
    ensures forall c :: c in Defaults ==> Get(r, c) == Defaults[c]
  {
    FeatureRecord(
      u.leadTime, u.adults, u.children, u.babies,
      u.meal, u.marketSegment, u.depositType, u.customerType,
      u.arrivalMonth, u.country,
      0, 0, 1, 0, 100.0, 0, 0, 0, 0, 0)
  }

  /** The fixed columns are the same whatever the form says: two records differ
      at most in their user columns. */
  lemma DefaultsIndependentOfInput(u: UserFields, v: UserFields)
    ensures forall c :: c in FixedColumns ==> Get(Assemble(u), c) == Get(Assemble(v), c)
  {
    forall c | c in FixedColumns
      ensures Get(Assemble(u), c) == Get(Assemble(v), c)
    {
      ColumnsPartitioned(c);
    }
  }

  /** Two records agree exactly when their user columns agree. */
  lemma AssembleInjective(u: UserFields, v: UserFields)
    ensures Assemble(u) == Assemble(v) <==> u == v
  {
    if Assemble(u) == Assemble(v) {
      assert UserFieldsOf(Assemble(u)) == UserFieldsOf(Assemble(v));
    }
  }

  /** The record built from a form submission. */
  function RecordOf(b: BookingInput): (r: FeatureRecord)
    ensures UserFieldsOf(r) == Normalise(b)
    ensures r.leadTime == b.leadTime && r.adults == b.adults
    ensures r.children == b.children && r.babies == b.babies
    ensures r.arrivalDateMonth == b.arrivalMonth && r.country == b.country
  {
    Assemble(Normalise(b))
  }

  /** For any submission the form allows, the numbers reach the record within
      their widget bounds and every code is one of the listed ones. */
  lemma RecordOfFormInput(b: BookingInput)
    requires IsFormInput(b)
    ensures 0 <= RecordOf(b).leadTime <= 500 && 1 <= RecordOf(b).adults <= 5
    ensures 0 <= RecordOf(b).children <= 5 && 0 <= RecordOf(b).babies <= 2
    ensures RecordOf(b).meal in MealCodes && RecordOf(b).marketSegment in SegmentCodes
    ensures RecordOf(b).depositType in DepositCodes && RecordOf(b).customerType in CustomerCodes
    ensures RecordOf(b).arrivalDateMonth in MonthOptions
  {
    NormaliseFormInput(b, Normalise(b));
  }

  /** Largest numbers pass through unchanged. */
  lemma UpperBoundaryScenario(b: BookingInput)
    requires b.leadTime == 500 && b.adults == 5 && b.children == 5 && b.babies == 2
    ensures Accepts(LeadTimeWidget, b.leadTime) && Accepts(AdultsWidget, b.adults)
    ensures Accepts(ChildrenWidget, b.children) && Accepts(BabiesWidget, b.babies)
    ensures Get(RecordOf(b), LeadTime) == Int(500) && Get(RecordOf(b), Adults) == Int(5)
    ensures Get(RecordOf(b), Children) == Int(5) && Get(RecordOf(b), Babies) == Int(2)
  {
  }
}
