/** The one-row feature table the classifier receives: the ten intake fields
    as submitted, plus the four columns the handlers add one at a time
    (`systolic`, `diastolic`, `age_group`, `bmi_cat`), fourteen columns in all. */
module FeatureAssembly {
  import opened Wrappers
  import opened BloodPressure
  import opened AgeGroup
  import opened Bmi

  /** The intake record of the JSON endpoint, and the form fields of the
      dashboard. */
  datatype PatientData = PatientData(
    age: int,
    gender: string,
    bloodPressure: string,
    cholesterol: int,
    bmi: Float,
    diabetes: string,
    hypertension: string,
    medicationCount: int,
    lengthOfStay: int,
    dischargeDestination: string)

  /** One cell of the table: an int, a str, a float, or None or NaN. */
  datatype Value = Int(i: int) | Text(s: string) | Num(f: Float) | Missing

  /** The columns of the table, in the order they are created. */
  datatype Column =
    | Age | Gender | BloodPressureText | Cholesterol | BmiValue | Diabetes
    | Hypertension | MedicationCount | LengthOfStay | DischargeDestination
    | Systolic | Diastolic | AgeGroupColumn | BmiCatColumn

  /** The column name the classifier was trained on. */
  function Name(c: Column): string {
    match c
    case Age => "age"
    case Gender => "gender"
    case BloodPressureText => "blood_pressure"
    case Cholesterol => "cholesterol"
    case BmiValue => "bmi"
    case Diabetes => "diabetes"
    case Hypertension => "hypertension"
    case MedicationCount => "medication_count"
    case LengthOfStay => "length_of_stay"
    case DischargeDestination => "discharge_destination"
    case Systolic => "systolic"
    case Diastolic => "diastolic"
    case AgeGroupColumn => "age_group"
    case BmiCatColumn => "bmi_cat"
  }

  type FeatureRow = map<Column, Value>

  const IntakeColumns: set<Column> := {
    Age, Gender, BloodPressureText, Cholesterol, BmiValue, Diabetes,
    Hypertension, MedicationCount, LengthOfStay, DischargeDestination
  }

  const DerivedColumns: set<Column> := {Systolic, Diastolic, AgeGroupColumn, BmiCatColumn}

  const FeatureColumns: set<Column> := IntakeColumns + DerivedColumns

  /** The fourteen names the classifier expects. */
  const FeatureNames: set<string> := {
    "age", "gender", "blood_pressure", "cholesterol", "bmi", "diabetes",
    "hypertension", "medication_count", "length_of_stay", "discharge_destination",
    "systolic", "diastolic", "age_group", "bmi_cat"
  }

  /** The ten intake columns, each under its field name. */
  function IntakeRow(d: PatientData): (row: FeatureRow)
    ensures row.Keys == IntakeColumns
  {
    map[
      Age := Int(d.age),
      Gender := Text(d.gender),
      BloodPressureText := Text(d.bloodPressure),
      Cholesterol := Int(d.cholesterol),
      BmiValue := Num(d.bmi),
      Diabetes := Text(d.diabetes),
      Hypertension := Text(d.hypertension),
      MedicationCount := Int(d.medicationCount),
      LengthOfStay := Int(d.lengthOfStay),
      DischargeDestination := Text(d.dischargeDestination)
    ]
  }

  /** A parsed pressure component: the int, or None. */
  function PressureCell(o: Option<int>): Value {
    match o
    case Some(n) => Int(n)
    case None => Missing
  }

  /** An age-group cell: the label `pd.cut(...)[0]` gives, or NaN. */
  function AgeGroupCell(o: Option<AgeGroup>): Value {
    match o
    case Some(g) => Text(GroupLabel(g))
    case None => Missing
  }

  /** The values the handlers derive from the intake, before they become
      cells: the pressure reading, the age bracket and the BMI category. */
  datatype Derived = Derived(pressure: Reading, ageGroup: Option<AgeGroup>, bmiCat: BmiCategory)

  /** The derived values: both pressure components or neither, and an age
      group only for an age inside its bin. */
  function Derive(d: PatientData): (v: Derived)
    ensures v.pressure.systolic.Some? <==> v.pressure.diastolic.Some?
    ensures v.ageGroup.Some? ==> Youngest(v.ageGroup.value) <= d.age <= Oldest(v.ageGroup.value)
  {
    Derived(ParseBloodPressure(d.bloodPressure), AgeGroupOf(d.age), BmiCat(d.bmi))
  }

  /** The four derived columns. */
  function DerivedRow(v: Derived): (row: FeatureRow)
    ensures row.Keys == DerivedColumns
  {
    map[
      Systolic := PressureCell(v.pressure.systolic),
      Diastolic := PressureCell(v.pressure.diastolic),
      AgeGroupColumn := AgeGroupCell(v.ageGroup),
      BmiCatColumn := Text(CategoryLabel(v.bmiCat))
    ]
  }

  /** The feature assembler: the intake row with the four derived columns
      assigned one at a time, in the handlers' order. The result has fourteen
      columns, the intake fields unchanged beside the derived values. */
  function Assemble(d: PatientData, v: Derived): (row: FeatureRow)
    ensures row.Keys == FeatureColumns
    ensures forall c :: c in IntakeColumns ==> row[c] == IntakeRow(d)[c]
    ensures forall c :: c in DerivedColumns ==> row[c] == DerivedRow(v)[c]
  {
    AssignDerived(IntakeRow(d), v);
    IntakeRow(d)
      [Systolic := PressureCell(v.pressure.systolic)]
      [Diastolic := PressureCell(v.pressure.diastolic)]
      [AgeGroupColumn := AgeGroupCell(v.ageGroup)]
      [BmiCatColumn := Text(CategoryLabel(v.bmiCat))]
  }

  /** Assigning the four derived columns to a row of the ten intake columns
      adds exactly those four and leaves the intake cells alone. */
  lemma AssignDerived(intake: FeatureRow, v: Derived)
    requires intake.Keys == IntakeColumns
    ensures var row := intake
      [Systolic := PressureCell(v.pressure.systolic)]
      [Diastolic := PressureCell(v.pressure.diastolic)]
      [AgeGroupColumn := AgeGroupCell(v.ageGroup)]
      [BmiCatColumn := Text(CategoryLabel(v.bmiCat))];
      && row.Keys == FeatureColumns
      && (forall c :: c in IntakeColumns ==> row[c] == intake[c])
      && (forall c :: c in DerivedColumns ==> row[c] == DerivedRow(v)[c])
  {
    var row := intake
      [Systolic := PressureCell(v.pressure.systolic)]
      [Diastolic := PressureCell(v.pressure.diastolic)]
      [AgeGroupColumn := AgeGroupCell(v.ageGroup)]
      [BmiCatColumn := Text(CategoryLabel(v.bmiCat))];
    assert row.Keys == intake.Keys + DerivedColumns;
    forall c | c in IntakeColumns ensures row[c] == intake[c] {
      assert c != Systolic && c != Diastolic && c != AgeGroupColumn && c != BmiCatColumn;
    }
  }

  /** The row the classifier receives for a patient: the fourteen columns,
      the submitted fields unchanged and the values derived from them. */
  function Features(d: PatientData): (row: FeatureRow)
    ensures row.Keys == FeatureColumns
    ensures forall c :: c in IntakeColumns ==> row[c] == IntakeRow(d)[c]
    ensures forall c :: c in DerivedColumns ==> row[c] == DerivedRow(Derive(d))[c]
  {
    Assemble(d, Derive(d))
  }

  /** The derived cells of an assembled row. */
  lemma DerivedCells(d: PatientData, v: Derived)
    ensures Assemble(d, v)[Systolic] == PressureCell(v.pressure.systolic)
    ensures Assemble(d, v)[Diastolic] == PressureCell(v.pressure.diastolic)
    ensures Assemble(d, v)[AgeGroupColumn] == AgeGroupCell(v.ageGroup)
    ensures Assemble(d, v)[BmiCatColumn] == Text(CategoryLabel(v.bmiCat))
  {
    assert DerivedRow(v)[Systolic] == PressureCell(v.pressure.systolic);
  }

  /** The column a name denotes, if it is one of the fourteen. */
  function ColumnNamed(n: string): Option<Column> {
    if n == "age" then Some(Age)
    else if n == "gender" then Some(Gender)
    else if n == "blood_pressure" then Some(BloodPressureText)
    else if n == "cholesterol" then Some(Cholesterol)
    else if n == "bmi" then Some(BmiValue)
    else if n == "diabetes" then Some(Diabetes)
    else if n == "hypertension" then Some(Hypertension)
    else if n == "medication_count" then Some(MedicationCount)
    else if n == "length_of_stay" then Some(LengthOfStay)
    else if n == "discharge_destination" then Some(DischargeDestination)
    else if n == "systolic" then Some(Systolic)
    else if n == "diastolic" then Some(Diastolic)
    else if n == "age_group" then Some(AgeGroupColumn)
    else if n == "bmi_cat" then Some(BmiCatColumn)
    else None
  }

  /** Reading a column's name gives the column back. */
  lemma NameRoundTrip(c: Column)
    ensures ColumnNamed(Name(c)) == Some(c)
    ensures Name(c) in FeatureNames
  {
  }

  /** A name denotes a column exactly when it is one of the fourteen, and
      then it is that column's name. */
  lemma NamedColumn(n: string)
    ensures n in FeatureNames <==> ColumnNamed(n).Some?
    ensures ColumnNamed(n).Some? ==> Name(ColumnNamed(n).value) == n
  {
  }

  /** Ten intake columns and four derived ones, fourteen in all. */
  lemma ColumnCounts()
    ensures IntakeColumns !! DerivedColumns
    ensures |IntakeColumns| == 10 && |DerivedColumns| == 4 && |FeatureColumns| == 14
  {
  }

  /** No two columns share a name. */
  lemma NamesDistinct(a: Column, b: Column)
    requires Name(a) == Name(b)
    ensures a == b
  {
    NameRoundTrip(a);
    NameRoundTrip(b);
  }

  /** The two pressure columns are both ints or both None. */
  lemma PressureCellsAgree(d: PatientData)
    ensures Features(d)[Systolic].Missing? <==> Features(d)[Diastolic].Missing?
    ensures !Features(d)[Systolic].Missing? ==> Features(d)[Systolic].Int? && Features(d)[Diastolic].Int?
  {
    DerivedCells(d, Derive(d));
  }

  /** The age_group cell is missing exactly for ages outside 1..120, and
      otherwise holds the label of the age's bin. */
  lemma AgeGroupCellMissing(d: PatientData)
    ensures Features(d)[AgeGroupColumn].Missing? <==> d.age <= 0 || 120 < d.age
    ensures 1 <= d.age <= 120 ==>
      AgeGroupOf(d.age).Some? && Features(d)[AgeGroupColumn] == Text(GroupLabel(AgeGroupOf(d.age).value))
  {
    DerivedCells(d, Derive(d));
    AgeGroupDefined(d.age);
  }

  /** The pressure derived from "120/80". */
  lemma TypicalPressure(d: PatientData)
    requires d.bloodPressure == "120/80"
    ensures Derive(d).pressure == Reading(Some(120), Some(80))
  {
    OneTwentyOverEighty();
  }

  /** The age group derived from age 45. */
  lemma TypicalAgeGroup(d: PatientData)
    requires d.age == 45
    ensures Derive(d).ageGroup == Some(From36To50)
  {
    AgeGroupInterval(45, From36To50);
  }

  /** The derived values of a typical patient: age 45, blood pressure
      "120/80", BMI 22. */
  lemma TypicalDerived(d: PatientData)
    requires d.age == 45 && d.bloodPressure == "120/80" && d.bmi == Finite(22.0)
    ensures Derive(d) == Derived(Reading(Some(120), Some(80)), Some(From36To50), Normal)
  {
    TypicalPressure(d);
    TypicalAgeGroup(d);
  }

  /** The cells those derived values give. */
  lemma TypicalCells(d: PatientData)
    requires Derive(d) == Derived(Reading(Some(120), Some(80)), Some(From36To50), Normal)
    ensures Features(d)[Systolic] == Int(120) && Features(d)[Diastolic] == Int(80)
    ensures Features(d)[AgeGroupColumn] == Text(GroupLabel(From36To50))
    ensures Features(d)[BmiCatColumn] == Text(CategoryLabel(Normal))
  {
    DerivedCells(d, Derive(d));
  }

  /** The derived cells of the typical patient's row. */
  lemma TypicalPatient(d: PatientData)
    requires d.age == 45 && d.bloodPressure == "120/80" && d.bmi == Finite(22.0)
    ensures Features(d)[Systolic] == Int(120) && Features(d)[Diastolic] == Int(80)
    ensures Features(d)[AgeGroupColumn] == Text(GroupLabel(From36To50))
    ensures Features(d)[BmiCatColumn] == Text(CategoryLabel(Normal))
  {
    TypicalDerived(d);
    TypicalCells(d);
  }

  /** A blood pressure that is not a number leaves both pressure cells None. */
  lemma UnreadablePressure(d: PatientData)
    requires d.bloodPressure == "not-a-number"
    ensures Features(d)[Systolic] == Missing && Features(d)[Diastolic] == Missing
  {
    DerivedCells(d, Derive(d));
    NotANumber();
  }
}
