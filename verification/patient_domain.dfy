/** The patient record and the risk rules shared by the reporting exercises
    (c-01/solution.py, c-02/solution.py, c-04/solution.py): a frozen patient value,
    the high-risk test and the per-level statistics over a sequence of patients. */
module PatientDomain {
  import opened Strings

  /** A calendar date as Python's `datetime.date` accepts it. */
  datatype Date = Date(year: int, month: int, day: int)

  predicate IsLeapYear(y: int)
  {
    y % 4 == 0 && (y % 100 != 0 || y % 400 == 0)
  }

  function DaysInMonth(y: int, m: int): int
    requires 1 <= m <= 12
  {
    if m == 2 then (if IsLeapYear(y) then 29 else 28)
    else if m == 4 || m == 6 || m == 9 || m == 11 then 30
    else 31
  }

  /** The dates `date(y, m, d)` constructs without raising: years 1 to 9999, real months and days. */
  predicate ValidDate(d: Date)
    ensures ValidDate(d) ==> 1 <= d.year <= 9999 && 1 <= d.month <= 12 && 1 <= d.day <= 31
  {
    1 <= d.year <= 9999 && 1 <= d.month <= 12 && 1 <= d.day <= DaysInMonth(d.year, d.month)
  }

  /** February 29 exists exactly in leap years: every fourth year, except centuries not
      divisible by 400. */
  lemma LeapDay(y: int)
    requires 1 <= y <= 9999
    ensures ValidDate(Date(y, 2, 29)) <==> IsLeapYear(y)
    ensures ValidDate(Date(2000, 2, 29)) && !ValidDate(Date(1900, 2, 29))
  {
  }

  /** Risk is free text; "low", "medium" and "high" are the intended values. */
  datatype Patient = Patient(pid: string, name: string, birthdate: Date, risk: string)

  /** `is_high_risk`: the lower-cased risk equals "high". */
  predicate IsHighRisk(p: Patient)
    ensures IsHighRisk(p) ==> |p.risk| == 4
  {
    Lower(p.risk) == "high"
  }

  /** The high-risk test accepts exactly the sixteen upper/lower-case spellings of "high". */
  lemma HighRiskSpellings(p: Patient)
    ensures IsHighRisk(p) <==>
      |p.risk| == 4 && p.risk[0] in "hH" && p.risk[1] in "iI" && p.risk[2] in "gG" && p.risk[3] in "hH"
  {
    var l := Lower(p.risk);
    if |p.risk| == 4 {
      assert l == "high" <==> l[0] == 'h' && l[1] == 'i' && l[2] == 'g' && l[3] == 'h';
    } else {
      assert |l| != |"high"|;
    }
  }

  /** The report dictionary `{"count", "high", "medium", "low"}`. */
  datatype Stats = Stats(count: nat, high: nat, medium: nat, low: nat)

  /** Number of patients the high-risk test accepts (case-insensitive). */
  function CountHigh(ps: seq<Patient>): (n: nat)
    ensures n <= |ps|
  {
    if ps == [] then 0 else (if IsHighRisk(ps[0]) then 1 else 0) + CountHigh(ps[1..])
  }

  /** Number of patients whose risk is exactly `level` (case-sensitive). */
  function CountExact(ps: seq<Patient>, level: string): (n: nat)
    ensures n <= |ps|
  {
    if ps == [] then 0 else (if ps[0].risk == level then 1 else 0) + CountExact(ps[1..], level)
  }

  /** `stats_for`: every counter is bounded by the number of patients, which is the count. */
  function StatsFor(ps: seq<Patient>): (s: Stats)
    ensures s.count == |ps|
    ensures s.high <= s.count && s.medium <= s.count && s.low <= s.count
    ensures ps == [] ==> s == Stats(0, 0, 0, 0)
  {
    Stats(|ps|, CountHigh(ps), CountExact(ps, "medium"), CountExact(ps, "low"))
  }

  /** A patient falls into at most one of the three buckets, so the buckets never exceed the count. */
  lemma {:induction false} LevelsWithinCount(ps: seq<Patient>)
    ensures StatsFor(ps).high + StatsFor(ps).medium + StatsFor(ps).low <= StatsFor(ps).count
    decreases |ps|
  {
    if ps != [] {
      LevelsWithinCount(ps[1..]);
      HighRiskSpellings(ps[0]);
    }
  }

  /** "medium" and "low" are matched exactly: a capitalised level is counted nowhere,
      so the buckets can add up to less than the count. */
  lemma CapitalisedLevelUncounted(p: Patient)
    requires p.risk == "Medium" || p.risk == "Low"
    ensures StatsFor([p]) == Stats(1, 0, 0, 0)
  {
    HighRiskSpellings(p);
    assert [p][1..] == [];
  }

  lemma {:induction false} CountHighAppend(ps: seq<Patient>, p: Patient)
    ensures CountHigh(ps + [p]) == CountHigh(ps) + (if IsHighRisk(p) then 1 else 0)
    decreases |ps|
  {
    if ps == [] {
      assert ([] + [p])[1..] == [];
    } else {
      assert (ps + [p])[1..] == ps[1..] + [p];
      CountHighAppend(ps[1..], p);
    }
  }

  lemma {:induction false} CountExactAppend(ps: seq<Patient>, p: Patient, level: string)
    ensures CountExact(ps + [p], level) == CountExact(ps, level) + (if p.risk == level then 1 else 0)
    decreases |ps|
  {
    if ps == [] {
      assert ([] + [p])[1..] == [];
    } else {
      assert (ps + [p])[1..] == ps[1..] + [p];
      CountExactAppend(ps[1..], p, level);
    }
  }

  /** Saving one more patient moves the statistics by exactly that patient's contribution. */
  lemma StatsAfterSave(ps: seq<Patient>, p: Patient)
    ensures var before, after := StatsFor(ps), StatsFor(ps + [p]);
      && after.count == before.count + 1
      && after.high == before.high + (if IsHighRisk(p) then 1 else 0)
      && after.medium == before.medium + (if p.risk == "medium" then 1 else 0)
      && after.low == before.low + (if p.risk == "low" then 1 else 0)
  {
    CountHighAppend(ps, p);
    CountExactAppend(ps, p, "medium");
    CountExactAppend(ps, p, "low");
  }

  /** An exact "high" is also high-risk, so the case-sensitive count never exceeds the case-insensitive one. */
  lemma {:induction false} ExactHighWithinHigh(ps: seq<Patient>)
    ensures CountExact(ps, "high") <= CountHigh(ps)
    decreases |ps|
  {
    if ps != [] {
      HighRiskSpellings(ps[0]);
      ExactHighWithinHigh(ps[1..]);
    }
  }
}

/** The ports of c-01/solution.py and c-02/solution.py as recording fakes: a repository that
    keeps what it saves, an alert sink and a report writer. All three append the call they
    receive to one shared trace, so the order of effects is observable. */
module PatientPorts {
  import opened PatientDomain
  import opened Tracing

  datatype Call =
    | Notify(subject: string, message: string)
    | Save(patient: Patient)
    | Write(stats: Stats)

  /** The alert sent for a high-risk patient: the subject names the pid after "High Risk: ", the
      message names the patient. */
  function HighRiskAlert(p: Patient): (c: Call)
    ensures c.Notify? && |c.subject| == 11 + |p.pid| && c.subject[11..] == p.pid
    ensures c.subject[..11] == "High Risk: "
    ensures c.message == "Patient " + p.name + " is HIGH risk"
  {
    Notify("High Risk: " + p.pid, "Patient " + p.name + " is HIGH risk")
  }

  /** The port calls of one registration: an alert exactly when the patient is high-risk,
      always before the single save, which comes last. */
  function RegistrationCalls(p: Patient): (calls: seq<Call>)
    ensures |calls| == if IsHighRisk(p) then 2 else 1
    ensures calls[|calls| - 1] == Save(p)
    ensures forall i :: 0 <= i < |calls| - 1 ==> calls[i] == HighRiskAlert(p)
  {
    (if IsHighRisk(p) then [HighRiskAlert(p)] else []) + [Save(p)]
  }

  class MemoryPatientRepository {
    var stored: seq<Patient>
    const trace: Trace<Call>

    constructor (trace: Trace<Call>)
      ensures stored == [] && this.trace == trace
    {
      this.trace := trace;
      stored := [];
    }

    /** A repository over a file that already holds `rows`, in file order. */
    constructor Holding(trace: Trace<Call>, rows: seq<Patient>)
      ensures stored == rows && this.trace == trace
    {
      this.trace := trace;
      stored := rows;
    }

    /** Appends, like the CSV file it stands for. */
    method Save(p: Patient)
      modifies this, trace
      ensures stored == old(stored) + [p]
      ensures trace.events == old(trace.events) + [Call.Save(p)]
    {
      stored := stored + [p];
      trace.Record(Call.Save(p));
    }

    /** Everything saved so far, in saving order. */
    method All() returns (ps: seq<Patient>)
      ensures ps == stored
    {
      ps := stored;
    }
  }

  class RecordingAlertSink {
    const trace: Trace<Call>

    constructor (trace: Trace<Call>)
      ensures this.trace == trace
    {
      this.trace := trace;
    }

    method Notify(subject: string, message: string)
      modifies trace
      ensures trace.events == old(trace.events) + [Call.Notify(subject, message)]
    {
      trace.Record(Call.Notify(subject, message));
    }
  }

  class RecordingReportWriter {
    const trace: Trace<Call>

    constructor (trace: Trace<Call>)
      ensures this.trace == trace
    {
      this.trace := trace;
    }

    method Write(stats: Stats)
      modifies trace
      ensures trace.events == old(trace.events) + [Call.Write(stats)]
    {
      trace.Record(Call.Write(stats));
    }
  }
}
