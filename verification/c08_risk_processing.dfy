/** c-08/task.py: `process(patient)` completes a patient dictionary in place (a default risk, then
    an age override), prints an alert for a high-risk patient and appends the dictionary to the
    module-level `patients` list. A dictionary's optional keys are `Option` fields; the list
    holds references to the very dictionaries passed in. */
module RiskProcessing {
  import opened Results

  /** A patient dictionary with its "name", "age" and "risk" keys, each possibly absent. */
  class PatientDict {
    var name: Option<string>
    var age: Option<int>
    var risk: Option<string>

    constructor (name: Option<string>, age: Option<int>, risk: Option<string>)
      ensures this.name == name && this.age == age && this.risk == risk
    {
      this.name := name;
      this.age := age;
      this.risk := risk;
    }
  }

  /** `patient.get("age", 0)`. */
  function AgeOrZero(age: Option<int>): (r: int)
    ensures age.Some? ==> r == age.value
    ensures age.None? ==> r == 0
  {
    match age
    case Some(a) => a
    case None => 0
  }

  /** The risk `process` leaves in the dictionary: "high" above 65, otherwise the given risk, or
      "low" when there is none. It is "high" exactly when the patient is over 65 or was already
      given "high". */
  function FinalRisk(risk: Option<string>, age: Option<int>): (r: string)
    ensures AgeOrZero(age) > 65 ==> r == "high"
    ensures AgeOrZero(age) <= 65 ==> r == (if risk.Some? then risk.value else "low")
    ensures r == "high" <==> AgeOrZero(age) > 65 || risk == Some("high")
  {
    var defaulted := if risk.None? then "low" else risk.value;
    if AgeOrZero(age) > 65 then "high" else defaulted
  }

  /** Age 65 itself does not force "high"; a missing age counts as 0. */
  lemma AgeBoundary(risk: Option<string>)
    ensures FinalRisk(None, Some(65)) == "low"
    ensures FinalRisk(Some("medium"), Some(65)) == "medium"
    ensures FinalRisk(risk, Some(66)) == "high"
    ensures FinalRisk(risk, None) == FinalRisk(risk, Some(0))
  {
    assert "low" != "high" by { assert "low"[0] != "high"[0]; }
    assert "medium" != "high" by { assert "medium"[0] != "high"[0]; }
  }

  /** Processing an already processed dictionary again leaves its risk as it is. */
  lemma FinalRiskIdempotent(risk: Option<string>, age: Option<int>)
    ensures FinalRisk(Some(FinalRisk(risk, age)), age) == FinalRisk(risk, age)
  {
  }

  /** `print(f"ALERT! {patient['name']} is high risk")`. */
  function AlertLine(name: string): (line: string)
    ensures |line| == |name| + 20
    ensures line[..7] == "ALERT! " && line[7..7 + |name|] == name && line[7 + |name|..] == " is high risk"
  {
    "ALERT! " + name + " is high risk"
  }

  /** `patient['name']` on a dictionary without "name" raises KeyError. */
  datatype ProcessError = MissingName

  /** The module globals: the `patients` list and the alerts printed so far. */
  class PatientRegistry {
    var patients: seq<PatientDict>
    var alerts: seq<string>

    constructor ()
      ensures patients == [] && alerts == []
    {
      patients := [];
      alerts := [];
    }

    /** `process`: the dictionary gets its final risk (also when the alert then raises); a
        high-risk patient without a name raises before the alert and the append; otherwise one
        alert exactly when the final risk is "high", and the same dictionary appended once at
        the end. Name and age are never changed. */
    method Process(p: PatientDict) returns (outcome: Outcome<ProcessError>)
      modifies this, p`risk
      ensures p.risk == Some(FinalRisk(old(p.risk), old(p.age)))
      ensures p.name == old(p.name) && p.age == old(p.age)
      ensures FinalRisk(old(p.risk), old(p.age)) == "high" && p.name.None? ==>
        && outcome == Fail(MissingName)
        && patients == old(patients) && alerts == old(alerts)
      ensures FinalRisk(old(p.risk), old(p.age)) != "high" || p.name.Some? ==>
        && outcome == Pass
        && patients == old(patients) + [p]
        && alerts == old(alerts) + (if FinalRisk(old(p.risk), old(p.age)) == "high" then [AlertLine(p.name.value)] else [])
    {
      if p.risk.None? {
        p.risk := Some("low");
      }
      if AgeOrZero(p.age) > 65 {
        p.risk := Some("high");
      }
      if p.risk.value == "high" {
        if p.name.None? {
          return Fail(MissingName);
        }
        alerts := alerts + [AlertLine(p.name.value)];
      }
      patients := patients + [p];
      outcome := Pass;
    }

    /** One round of the input loop after `int(age)` succeeded: a dictionary with a name and an age
        but no risk never raises; it is "high", and alerted, exactly when the age is over 65. */
    method ProcessEntered(name: string, age: int) returns (p: PatientDict)
      modifies this
      ensures fresh(p) && p.name == Some(name) && p.age == Some(age)
      ensures p.risk == Some(if age > 65 then "high" else "low")
      ensures patients == old(patients) + [p]
      ensures alerts == old(alerts) + (if age > 65 then [AlertLine(name)] else [])
    {
      p := new PatientDict(Some(name), Some(age), None);
      assert "low" != "high" by { assert "low"[0] != "high"[0]; }
      var outcome := Process(p);
    }
  }
}
