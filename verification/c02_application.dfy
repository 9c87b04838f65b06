/** c-02/solution.py: the same two use cases refactored after SOLID. Registration receives a
    finished patient (no text parsing), and the report counts the repository's patients inline. */
module SolidApplication {
  import opened PatientDomain
  import opened PatientPorts
  import opened Tracing

  /** `PatientApplication`: the repository, alert sink and reporter record into one trace. */
  class PatientApplication {
    const repo: MemoryPatientRepository
    const alert: RecordingAlertSink
    const reporter: RecordingReportWriter

    predicate Valid()
    {
      alert.trace == repo.trace && reporter.trace == repo.trace
    }

    constructor (repo: MemoryPatientRepository, alert: RecordingAlertSink, reporter: RecordingReportWriter)
      requires alert.trace == repo.trace && reporter.trace == repo.trace
      ensures Valid() && this.repo == repo && this.alert == alert && this.reporter == reporter
    {
      this.repo := repo;
      this.alert := alert;
      this.reporter := reporter;
    }

    /** `register_patient`: the given patient is saved exactly once, after one alert if and only if
        it is high-risk. */
    method RegisterPatient(p: Patient)
      requires Valid()
      modifies repo, repo.trace
      ensures repo.stored == old(repo.stored) + [p]
      ensures repo.trace.events == old(repo.trace.events) + RegistrationCalls(p)
    {
      if IsHighRisk(p) {
        alert.Notify("High Risk: " + p.pid, "Patient " + p.name + " is HIGH risk");
      }
      repo.Save(p);
    }

    /** `produce_report`: the statistics of the stored patients; the reporter receives exactly the
        dictionary that is returned. */
    method ProduceReport() returns (stats: Stats)
      requires Valid()
      modifies repo.trace
      ensures stats == StatsFor(repo.stored)
      ensures repo.trace.events == old(repo.trace.events) + [Write(stats)]
      ensures repo.stored == old(repo.stored)
    {
      var patients := repo.All();
      stats := Stats(|patients|, CountHigh(patients), CountExact(patients, "medium"), CountExact(patients, "low"));
      reporter.Write(stats);
    }
  }

  /** A "high" and a "low" patient: one alert for the first only, and one patient in each of the
      "high" and "low" buckets. */
  lemma HighThenLow(high: Patient, low: Patient)
    requires high.risk == "high" && low.risk == "low"
    ensures IsHighRisk(high) && !IsHighRisk(low)
    ensures StatsFor([high, low]) == Stats(2, 1, 0, 1)
  {
    HighRiskSpellings(high);
    HighRiskSpellings(low);
    assert "high" != "medium" && "high" != "low" && "low" != "medium" by {
      assert "high"[0] != "medium"[0] && "high"[0] != "low"[0] && "low"[0] != "medium"[0];
    }
    StatsAfterSave([], high);
    assert [] + [high] == [high];
    StatsAfterSave([high], low);
    assert [high] + [low] == [high, low];
  }

  /** Registering a "high" and then a "low" patient on top of earlier rows adds two to the count
      and one each to the "high" and "low" buckets. */
  lemma HighThenLowAfter(existing: seq<Patient>, high: Patient, low: Patient)
    requires high.risk == "high" && low.risk == "low"
    ensures var before, after := StatsFor(existing), StatsFor(existing + [high, low]);
      after == Stats(before.count + 2, before.high + 1, before.medium, before.low + 1)
  {
    HighThenLow(high, low);
    StatsAfterSave(existing, high);
    StatsAfterSave(existing + [high], low);
    assert existing + [high] + [low] == existing + [high, low];
  }

  /** The composition root's script over a patient file that already holds `existing` (empty on
      the first run, since `save` appends to the same file every run): a high-risk and a low-risk
      patient are registered, then a report is produced over the whole file. The trace is alert,
      save, save, write, and the report counts the earlier rows plus one "high" and one "low". */
  method ScriptedRun(existing: seq<Patient>) returns (calls: seq<Call>, stats: Stats)
    ensures |calls| == 4 && calls[0].Notify? && calls[1].Save? && calls[2].Save? && calls[3] == Write(stats)
    ensures var before := StatsFor(existing);
      stats == Stats(before.count + 2, before.high + 1, before.medium, before.low + 1)
    ensures existing == [] ==> stats == Stats(2, 1, 0, 1)
  {
    var trace := new Trace<Call>();
    var repo := new MemoryPatientRepository.Holding(trace, existing);
    var alert := new RecordingAlertSink(trace);
    var reporter := new RecordingReportWriter(trace);
    var app := new PatientApplication(repo, alert, reporter);
    var max := Patient("p001", "Max Mustermann", Date(1980, 1, 12), "high");
    var erika := Patient("p002", "Erika Musterfrau", Date(1972, 5, 3), "low");
    HighThenLow(max, erika);
    HighThenLowAfter(existing, max, erika);
    app.RegisterPatient(max);
    app.RegisterPatient(erika);
    assert repo.stored == existing + [max, erika];
    stats := app.ProduceReport();
    calls := trace.events;
  }
}
