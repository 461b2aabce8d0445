/** The two prediction endpoints: the dashboard form handler and the JSON
    handler. Each builds the one-row table, adds the derived columns one at a
    time, asks the classifier for the positive-class probability and applies
    the threshold. Both are proved to compute the same `Predict`. */
module Handlers {
  import opened Wrappers
  import opened BloodPressure
  import opened AgeGroup
  import opened Bmi
  import opened Risk
  import opened FeatureAssembly

  /** Why the classifier call raised: an unexpected column, a value of the
      wrong type, or a model that did not load. Never caught by the handlers. */
  datatype ClassifierError = ClassifierError(reason: string)

  /** `clf.predict_proba(df)[0][1]` of the trained model, which is opaque: the
      probability of readmission for the row, or the error it raises. */
  type Classifier = FeatureRow -> Result<real, ClassifierError>

  /** The `prediction` label and the rounded probability of the response. */
  datatype PredictionResult = PredictionResult(prediction: string, probability: real)

  /** The whole pipeline for one patient. It fails only when, and exactly
      as, the classifier fails; an unreadable blood pressure never fails it. */
  function Predict(clf: Classifier, d: PatientData): (r: Result<PredictionResult, ClassifierError>)
    ensures r.Failure? <==> clf(Features(d)).Failure?
    ensures r.Failure? ==> r.error == clf(Features(d)).error
    ensures r.Success? ==> r.value.prediction in {"High risk", "Low risk"}
    ensures r.Success? ==> (r.value.prediction == "High risk" <==> clf(Features(d)).value >= 0.5)
    ensures r.Success? ==> -0.0005 <= r.value.probability - clf(Features(d)).value <= 0.0005
    ensures r.Success? && 0.0 <= clf(Features(d)).value <= 1.0 ==> 0.0 <= r.value.probability <= 1.0
    ensures r.Success? ==> ThreeDecimals(r.value.probability)
  {
    match clf(Features(d))
    case Failure(e) => Failure(e)
    case Success(p) =>
      Success(PredictionResult(RiskLabel(Decide(p)), Round3(p)))
  }

  /** `predict_dashboard`: the ten form fields go into a dict, the derived
      columns are assigned one by one, and the result is what `Predict` gives. */
  method PredictDashboard(
    age: int, gender: string, bloodPressure: string, cholesterol: int, bmi: Float,
    diabetes: string, hypertension: string, medicationCount: int, lengthOfStay: int,
    dischargeDestination: string, clf: Classifier)
    returns (result: Result<PredictionResult, ClassifierError>)
    ensures result == Predict(clf, PatientData(age, gender, bloodPressure, cholesterol, bmi,
      diabetes, hypertension, medicationCount, lengthOfStay, dischargeDestination))
  {
    // The dict literal of the ten form fields.
    var d := PatientData(age, gender, bloodPressure, cholesterol, bmi,
      diabetes, hypertension, medicationCount, lengthOfStay, dischargeDestination);
    var df := IntakeRow(d);
    assert df[BmiValue] == Num(bmi);
    var bp := ParseBloodPressure(bloodPressure);
    df := df[Systolic := PressureCell(bp.systolic)];
    df := df[Diastolic := PressureCell(bp.diastolic)];
    df := df[AgeGroupColumn := AgeGroupCell(AgeGroupOf(age))];
    df := df[BmiCatColumn := Text(CategoryLabel(BmiCat(df[BmiValue].f)))];
    var out := clf(df);
    match out
    case Failure(e) =>
      result := Failure(e);
    case Success(prob) =>
      var prediction := RiskLabel(Decide(prob));
      result := Success(PredictionResult(prediction, Round3(prob)));
  }

  /** `predict_readmission`: the table starts from the record's fields, and
      the age for binning is read back out of the table's `age` column. */
  method PredictReadmission(data: PatientData, clf: Classifier)
    returns (result: Result<PredictionResult, ClassifierError>)
    ensures result == Predict(clf, data)
  {
    var df := IntakeRow(data);
    assert df[Age] == Int(data.age) && df[BmiValue] == Num(data.bmi);
    var bp := ParseBloodPressure(data.bloodPressure);
    df := df[Systolic := PressureCell(bp.systolic)];
    df := df[Diastolic := PressureCell(bp.diastolic)];
    var age := df[Age].i;
    df := df[AgeGroupColumn := AgeGroupCell(AgeGroupOf(age))];
    df := df[BmiCatColumn := Text(CategoryLabel(BmiCat(df[BmiValue].f)))];
    var out := clf(df);
    match out
    case Failure(e) =>
      result := Failure(e);
    case Success(prob) =>
      var prediction := RiskLabel(Decide(prob));
      result := Success(PredictionResult(prediction, Round3(prob)));
  }

  /** A classifier that accepts every row of the trained schema always yields
      a result, whatever the blood-pressure text: the swallowed parse failure
      and the fatal classifier failure are different channels. */
  lemma BloodPressureNeverFatal(clf: Classifier, d: PatientData)
    requires forall row: FeatureRow :: row.Keys == FeatureColumns ==> clf(row).Success?
    ensures Predict(clf, d).Success?
  {
    assert Features(d).Keys == FeatureColumns;
  }

  /** The typical patient: the prediction follows the threshold on whatever
      probability the classifier gives for the derived row. */
  lemma TypicalPatientPrediction(clf: Classifier, d: PatientData)
    requires d.age == 45 && d.bloodPressure == "120/80" && d.bmi == Finite(22.0)
    requires clf(Features(d)).Success?
    ensures Features(d)[Systolic] == Int(120) && Features(d)[Diastolic] == Int(80)
    ensures Features(d)[AgeGroupColumn] == Text(GroupLabel(From36To50))
    ensures Features(d)[BmiCatColumn] == Text(CategoryLabel(Normal))
    ensures Predict(clf, d).Success?
    ensures Predict(clf, d).value.prediction == "High risk" <==> clf(Features(d)).value >= 0.5
  {
    TypicalPatient(d);
  }
}
