/** c-04/solution.py: a report service that depends only on a read-only patient source and a
    mailer. It counts all patients and the ones whose risk is exactly "high" (case-sensitive,
    unlike c-01 and c-02) and mails the configured address when that count is positive. */
module InjectedReporting {
  import opened Results
  import opened Strings
  import opened PatientDomain
  import opened Tracing

  /** The returned dictionary `{"total", "high"}`. */
  datatype Report = Report(total: nat, high: nat)

  /** One `mailer.send(to, subject, body)` call. */
  datatype Mail = Mail(to: string, subject: string, body: string)

  /** The counts of `create_report_and_alert`: the total is the number of patients and the high
      count, never larger, counts exact "high" only. */
  function ReportFor(ps: seq<Patient>): (r: Report)
    ensures r.total == |ps| && r.high <= r.total
    ensures r.high == CountExact(ps, "high")
  {
    Report(|ps|, CountExact(ps, "high"))
  }

  /** The alert mail: addressed to `to`, and its body states the count in decimal between
      "There are " and " high-risk patients.". */
  function AlertMail(to: string, high: nat): (m: Mail)
    ensures m.to == to && m.subject == "High-risk patients"
    ensures var shown := ShowNat(high); |m.body| > 10 + |shown| && m.body[10..10 + |shown|] == shown
    ensures m.body[..10] == "There are " && m.body[10 + |ShowNat(high)|..] == " high-risk patients."
  {
    Mail(to, "High-risk patients", "There are " + ShowNat(high) + " high-risk patients.")
  }

  /** The mail's body can be read back to the count it reports. */
  lemma AlertMailStatesCount(to: string, high: nat)
    requires |ShowNat(high)| <= MaxStrDigits
    ensures var body, n := AlertMail(to, high).body, |ShowNat(high)|; ParseInt(body[10..10 + n]) == Some(high)
  {
    var digits := ShowNat(high);
    assert AlertMail(to, high).body[10..10 + |digits|] == digits;
    ParseDigits(digits);
  }

  /** Case-sensitive matching never finds more high-risk patients than the c-01/c-02 rule. */
  lemma HighWithinCaseInsensitiveHigh(ps: seq<Patient>)
    ensures ReportFor(ps).high <= StatsFor(ps).high
  {
    ExactHighWithinHigh(ps);
  }

  /** "HIGH" is high-risk for c-01/c-02 but not for this service, which then sends no mail. */
  lemma UpperCaseHighNotCounted(p: Patient)
    requires p.risk == "HIGH"
    ensures ReportFor([p]).high == 0 && StatsFor([p]).high == 1
  {
    HighRiskSpellings(p);
    assert [p][1..] == [];
  }

  /** The read-only repository port (`all()` only). */
  class PatientSource {
    const patients: seq<Patient>

    constructor (patients: seq<Patient>)
      ensures this.patients == patients
    {
      this.patients := patients;
    }

    method All() returns (ps: seq<Patient>)
      ensures ps == patients
    {
      ps := patients;
    }
  }

  class RecordingMailer {
    const trace: Trace<Mail>

    constructor (trace: Trace<Mail>)
      ensures this.trace == trace
    {
      this.trace := trace;
    }

    method Send(to: string, subject: string, body: string)
      modifies trace
      ensures trace.events == old(trace.events) + [Mail(to, subject, body)]
    {
      trace.Record(Mail(to, subject, body));
    }
  }

  /** `ReportService` with its injected source, mailer and alert address. */
  class ReportService {
    const repo: PatientSource
    const mailer: RecordingMailer
    const alertTo: string

    constructor (repo: PatientSource, mailer: RecordingMailer, alertTo: string)
      ensures this.repo == repo && this.mailer == mailer && this.alertTo == alertTo
    {
      this.repo := repo;
      this.mailer := mailer;
      this.alertTo := alertTo;
    }

    /** `create_report_and_alert`: exactly one mail to `alertTo` when some patient is exactly
        "high", none otherwise. */
    method CreateReportAndAlert() returns (r: Report)
      modifies mailer.trace
      ensures r == ReportFor(repo.patients)
      ensures mailer.trace.events == old(mailer.trace.events) + (if r.high > 0 then [AlertMail(alertTo, r.high)] else [])
    {
      var patients := repo.All();
      var high := CountExact(patients, "high");
      if high > 0 {
        mailer.Send(alertTo, "High-risk patients", "There are " + ShowNat(high) + " high-risk patients.");
      }
      r := Report(|patients|, high);
    }
  }
}
