/** d-08/solution.py: `PatientRecordBuilder` sets a diagnosis and appends medications and
    appointments step by step, each step returning the builder itself; `build` makes a
    `PatientRecord` that shares the builder's two lists rather than copying them; the record's
    `__str__` renders four lines with defaults for the empty fields. Python lists are objects
    here (`StringList`), so that sharing is part of the model. */
module RecordBuilder {
  import opened Results
  import opened Strings

  /** A mutable Python `List[str]`. */
  class StringList {
    var items: seq<string>

    constructor ()
      ensures items == []
    {
      items := [];
    }

    /** `list.append`. */
    method Append(x: string)
      modifies this
      ensures items == old(items) + [x]
    {
      items := items + [x];
    }
  }

  /** `", ".join(medications) if medications else "Keine"`. */
  function MedicationsShown(meds: seq<string>): (r: string)
    ensures meds == [] ==> r == "Keine"
    ensures |meds| == 1 ==> r == meds[0]
    ensures |meds| > 1 ==> r == meds[0] + ", " + MedicationsShown(meds[1..])
  {
    if meds == [] then "Keine" else Join(meds, ", ")
  }

  /** `diagnosis or 'n/a'`. */
  function DiagnosisShown(diagnosis: string): (r: string)
    ensures diagnosis == [] ==> r == "n/a"
    ensures diagnosis != [] ==> r == diagnosis
  {
    if diagnosis == [] then "n/a" else diagnosis
  }

  /** The four lines of `PatientRecord.__str__`: heading, diagnosis, medications, and the number
      of appointments (their texts are not shown). */
  function RecordLines(pid: string, name: string, diagnosis: string, meds: seq<string>, appointments: nat)
    : (lines: seq<string>)
    ensures |lines| == 4
    ensures lines[0] == "Patient " + name + " (" + pid + ")"
    ensures lines[1] == "- Diagnose: " + DiagnosisShown(diagnosis)
    ensures lines[2] == "- Medikamente: " + MedicationsShown(meds)
    ensures lines[3] == "- Termine: " + ShowNat(appointments) + " geplant"
  {
    ["Patient " + name + " (" + pid + ")",
     "- Diagnose: " + DiagnosisShown(diagnosis),
     "- Medikamente: " + MedicationsShown(meds),
     "- Termine: " + ShowNat(appointments) + " geplant"]
  }

  /** The text of `__str__`: its four f-strings, each but the last ended by a line break. */
  function RecordText(pid: string, name: string, diagnosis: string, meds: seq<string>, appointments: nat): (r: string)
    ensures var lines := RecordLines(pid, name, diagnosis, meds, appointments);
      r == lines[0] + "\n" + lines[1] + "\n" + lines[2] + "\n" + lines[3]
  {
    var lines := RecordLines(pid, name, diagnosis, meds, appointments);
    JoinFour(lines[0], lines[1], lines[2], lines[3], "\n");
    assert lines == [lines[0], lines[1], lines[2], lines[3]];
    Join(lines, "\n")
  }

  /** When no field holds a line break, no line of the record holds one either. */
  lemma RecordLinesUnbroken(pid: string, name: string, diagnosis: string, meds: seq<string>, appointments: nat)
    requires NoLineBreaks(pid, name, diagnosis, meds)
    ensures var lines := RecordLines(pid, name, diagnosis, meds, appointments);
      forall i :: 0 <= i < |lines| ==> '\n' !in lines[i]
  {
    var lines := RecordLines(pid, name, diagnosis, meds, appointments);
    JoinAvoids(meds, ", ", '\n');
    assert '\n' !in MedicationsShown(meds);
    assert '\n' !in DiagnosisShown(diagnosis);
    assert '\n' !in ShowNat(appointments) by {
      assert AllDigits(ShowNat(appointments));
    }
    assert '\n' !in lines[0] && '\n' !in lines[1] && '\n' !in lines[2] && '\n' !in lines[3];
  }

  /** When no field holds a line break, the rendered text splits back into exactly its four lines. */
  lemma RecordTextLines(pid: string, name: string, diagnosis: string, meds: seq<string>, appointments: nat)
    requires NoLineBreaks(pid, name, diagnosis, meds)
    ensures Split(RecordText(pid, name, diagnosis, meds, appointments), '\n')
         == RecordLines(pid, name, diagnosis, meds, appointments)
  {
    var lines := RecordLines(pid, name, diagnosis, meds, appointments);
    RecordLinesUnbroken(pid, name, diagnosis, meds, appointments);
    assert RecordText(pid, name, diagnosis, meds, appointments) == Join(lines, ['\n']);
    SplitJoin(lines, '\n');
  }

  /** The last line states the number of appointments in a form `int()` reads back. */
  lemma AppointmentCountReadable(pid: string, name: string, diagnosis: string, meds: seq<string>, appointments: nat)
    requires |ShowNat(appointments)| <= MaxStrDigits
    ensures var line, n := RecordLines(pid, name, diagnosis, meds, appointments)[3], |ShowNat(appointments)|;
      ParseInt(line[11..11 + n]) == Some(appointments)
  {
    var digits := ShowNat(appointments);
    assert RecordLines(pid, name, diagnosis, meds, appointments)[3][11..11 + |digits|] == digits;
    ParseDigits(digits);
  }

  predicate NoLineBreaks(pid: string, name: string, diagnosis: string, meds: seq<string>)
  {
    && '\n' !in pid && '\n' !in name && '\n' !in diagnosis
    && forall i :: 0 <= i < |meds| ==> '\n' !in meds[i]
  }

  /** The dataclass `PatientRecord`. Its list fields are the very list objects it was built with. */
  class PatientRecord {
    const pid: string
    const name: string
    const diagnosis: string
    const medications: StringList
    const appointments: StringList

    constructor (pid: string, name: string, diagnosis: string, medications: StringList, appointments: StringList)
      ensures this.pid == pid && this.name == name && this.diagnosis == diagnosis
      ensures this.medications == medications && this.appointments == appointments
    {
      this.pid := pid;
      this.name := name;
      this.diagnosis := diagnosis;
      this.medications := medications;
      this.appointments := appointments;
    }

    /** `__str__`, read from the lists' current contents: the four lines of `RecordLines`. */
    function ToString(): (s: string)
      reads medications, appointments
      ensures NoLineBreaks(pid, name, diagnosis, medications.items) ==>
        Split(s, '\n') == RecordLines(pid, name, diagnosis, medications.items, |appointments.items|)
    {
      var meds, count := medications.items, |appointments.items|;
      if NoLineBreaks(pid, name, diagnosis, meds) then
        RecordTextLines(pid, name, diagnosis, meds, count);
        RecordText(pid, name, diagnosis, meds, count)
      else
        RecordText(pid, name, diagnosis, meds, count)
    }
  }

  /** `PatientRecordBuilder`. The two list attributes are never rebound, only appended to, so
      they are constant references to two distinct list objects. */
  class PatientRecordBuilder {
    const pid: string
    const name: string
    var diagnosis: string
    const medications: StringList
    const appointments: StringList

    predicate Valid()
    {
      medications != appointments
    }

    /** A fresh builder: empty diagnosis and two new, empty lists. */
    constructor (pid: string, name: string)
      ensures Valid()
      ensures this.pid == pid && this.name == name && diagnosis == ""
      ensures fresh(medications) && fresh(appointments)
      ensures medications.items == [] && appointments.items == []
    {
      this.pid := pid;
      this.name := name;
      diagnosis := "";
      medications := new StringList();
      appointments := new StringList();
    }

    /** `with_diagnosis`: replaces the diagnosis (the last call wins) and returns the builder. */
    method WithDiagnosis(diagnosis: string) returns (b: PatientRecordBuilder)
      modifies this`diagnosis
      ensures b == this && this.diagnosis == diagnosis
    {
      this.diagnosis := diagnosis;
      b := this;
    }

    /** `add_medication`: appends at the end, keeps every earlier entry, leaves the appointments
        alone, and returns the builder. */
    method AddMedication(med: string) returns (b: PatientRecordBuilder)
      requires Valid()
      modifies medications
      ensures b == this
      ensures medications.items == old(medications.items) + [med]
      ensures appointments.items == old(appointments.items)
    {
      medications.Append(med);
      b := this;
    }

    /** `add_appointment`: appends at the end, keeps every earlier entry, leaves the medications
        alone, and returns the builder. */
    method AddAppointment(appt: string) returns (b: PatientRecordBuilder)
      requires Valid()
      modifies appointments
      ensures b == this
      ensures appointments.items == old(appointments.items) + [appt]
      ensures medications.items == old(medications.items)
    {
      appointments.Append(appt);
      b := this;
    }

    /** `build`: a new record with the builder's pid, name and diagnosis and the builder's own
        list objects, so whatever is added to the builder later shows in the record too. */
    method Build() returns (r: PatientRecord)
      ensures fresh(r)
      ensures r.pid == pid && r.name == name && r.diagnosis == diagnosis
      ensures r.medications == medications && r.appointments == appointments
    {
      r := new PatientRecord(pid, name, diagnosis, medications, appointments);
    }
  }

  /** Sharing made visible: a medication added after `build` appears in the built record, while a
      diagnosis set after `build` does not. */
  method AddAfterBuild() returns (record: PatientRecord)
    ensures record.medications.items == ["Sertralin 50mg", "Vitamin D"]
    ensures record.diagnosis == ""
  {
    var builder := new PatientRecordBuilder("p001", "Max Mustermann");
    var b := builder.AddMedication("Sertralin 50mg");
    record := builder.Build();
    b := builder.AddMedication("Vitamin D");
    b := builder.WithDiagnosis("Depression, F32.1");
  }

  /** The demo's fluent chain: one diagnosis, two medications and two appointments, in call order. */
  method DemoRecord() returns (patient: PatientRecord)
    ensures patient.pid == "p001" && patient.name == "Max Mustermann"
    ensures patient.diagnosis == "Depression, F32.1"
    ensures patient.medications.items == ["Sertralin 50mg", "Vitamin D"]
    ensures patient.appointments.items == ["2025-11-01: Intake", "2025-11-15: Kontrolle"]
  {
    var builder := new PatientRecordBuilder("p001", "Max Mustermann");
    var b := builder.WithDiagnosis("Depression, F32.1");
    b := b.AddMedication("Sertralin 50mg");
    b := b.AddMedication("Vitamin D");
    assert builder.medications.items == ["Sertralin 50mg", "Vitamin D"];
    b := b.AddAppointment("2025-11-01: Intake");
    b := b.AddAppointment("2025-11-15: Kontrolle");
    patient := b.Build();
  }

  /** The demo's `print(patient)`. */
  method DemoRun() returns (text: string)
    ensures text == RecordText("p001", "Max Mustermann", "Depression, F32.1",
                               ["Sertralin 50mg", "Vitamin D"], 2)
  {
    var patient := DemoRecord();
    text := patient.ToString();
  }
}
