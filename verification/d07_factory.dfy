/** d-07/task.py: `create_patient` maps three type tags to a treatment priority and a billing
    model and raises on any other tag; `Patient.__str__` renders name, priority and billing. */
module PatientFactory {
  import opened Results

  datatype Patient = Patient(pid: string, name: string, priority: string, billing: string)

  /** ValueError("Unbekannter Patiententyp"). */
  datatype FactoryError = UnknownPatientType

  /** The three tags `create_patient` accepts. */
  const PATIENT_TYPES: seq<string> := ["standard", "emergency", "outpatient"]

  /** `create_patient`: pid and name copied unchanged; (priority, billing) fixed by the tag. */
  function CreatePatient(ptype: string, pid: string, name: string): (r: Result<Patient, FactoryError>)
    ensures r.Ok? <==> ptype in PATIENT_TYPES
    ensures r.Err? ==> r.error == UnknownPatientType
    ensures r.Ok? ==> r.value.pid == pid && r.value.name == name
    ensures ptype == "standard" ==> r == Ok(Patient(pid, name, "normal", "basic"))
    ensures ptype == "emergency" ==> r == Ok(Patient(pid, name, "high", "insurance-covered"))
    ensures ptype == "outpatient" ==> r == Ok(Patient(pid, name, "low", "per-visit"))
  {
    if ptype == "standard" then Ok(Patient(pid, name, "normal", "basic"))
    else if ptype == "emergency" then Ok(Patient(pid, name, "high", "insurance-covered"))
    else if ptype == "outpatient" then Ok(Patient(pid, name, "low", "per-visit"))
    else Err(UnknownPatientType)
  }

  /** The tag a created patient's priority comes from: priority alone identifies the type. */
  function TypeOf(p: Patient): string
  {
    if p.priority == "normal" then "standard"
    else if p.priority == "high" then "emergency"
    else "outpatient"
  }

  /** Creation loses nothing about the type: the tag can be read back from the patient. */
  lemma TypeRecovered(ptype: string, pid: string, name: string)
    requires ptype in PATIENT_TYPES
    ensures CreatePatient(ptype, pid, name).Ok?
    ensures TypeOf(CreatePatient(ptype, pid, name).value) == ptype
  {
    assert "normal" != "high" by { assert "normal"[0] != "high"[0]; }
    assert "low" != "high" && "low" != "normal" by { assert "low"[0] != "high"[0] && "low"[0] != "normal"[0]; }
  }

  /** Different tags give different (priority, billing) pairs, so the factory is one-to-one. */
  lemma TypesDistinguished(t1: string, t2: string, pid: string, name: string)
    requires CreatePatient(t1, pid, name).Ok? && CreatePatient(t2, pid, name).Ok?
    requires CreatePatient(t1, pid, name) == CreatePatient(t2, pid, name)
    ensures t1 == t2
  {
    TypeRecovered(t1, pid, name);
    TypeRecovered(t2, pid, name);
  }

  /** `__str__`: "name (priority, billing)"; the name, then " (", the priority, ", ", the billing
      model and ")". */
  function Describe(p: Patient): (s: string)
    ensures |s| == |p.name| + |p.priority| + |p.billing| + 5
    ensures s[..|p.name|] == p.name && s[|s| - 1] == ')'
    ensures s[|p.name|..|p.name| + 2] == " ("
    ensures s[|p.name| + 2..|p.name| + 2 + |p.priority|] == p.priority
    ensures s[|p.name| + 2 + |p.priority|..|p.name| + 4 + |p.priority|] == ", "
    ensures s[|s| - 1 - |p.billing|..|s| - 1] == p.billing
  {
    p.name + " (" + p.priority + ", " + p.billing + ")"
  }

  /** The printed line tells the types apart: for one name, two different tags never print alike. */
  lemma DescriptionsDiffer(t1: string, t2: string, pid: string, name: string)
    requires CreatePatient(t1, pid, name).Ok? && CreatePatient(t2, pid, name).Ok?
    requires t1 != t2
    ensures Describe(CreatePatient(t1, pid, name).value) != Describe(CreatePatient(t2, pid, name).value)
  {
    var p1, p2 := CreatePatient(t1, pid, name).value, CreatePatient(t2, pid, name).value;
    var k := |name| + 2;
    assert Describe(p1)[k] == p1.priority[0];
    assert Describe(p2)[k] == p2.priority[0];
  }

  /** The three patients of the main block, one per type, in the order they are printed. */
  function MainPatients(): (r: seq<Result<Patient, FactoryError>>)
    ensures |r| == 3 && forall i :: 0 <= i < 3 ==> r[i].Ok?
  {
    [CreatePatient("standard", "p001", "Max Mustermann"),
     CreatePatient("emergency", "p002", "Erika Musterfrau"),
     CreatePatient("outpatient", "p003", "Anna Schmidt")]
  }
}
