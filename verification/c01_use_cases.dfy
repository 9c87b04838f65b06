/** c-01/solution.py: the registration and monthly-report use cases behind three ports.
    Registration parses the birthdate text itself, alerts for a high-risk patient and saves;
    the report computes `stats_for` over everything saved and hands it to the writer. */
module SeparatedConcerns {
  import opened Results
  import opened Strings
  import opened PatientDomain
  import opened PatientPorts

  /** Every way the birthdate text can fail (`int()`, the three-way unpacking or `date()`)
      raises Python's ValueError, or OverflowError for a year beyond a C `int`. */
  datatype RegistrationError = MalformedBirthdate

  /** `y, m, d = map(int, text.split("-"))` followed by `date(y, m, d)`. */
  function ParseBirthdate(text: string): (r: Result<Date, RegistrationError>)
    ensures r.Ok? ==> ValidDate(r.value)
    ensures r.Ok? ==> Occurrences(text, '-') == 2
    ensures r.Ok? ==> var parts := Split(text, '-');
      && |parts| == 3
      && ParseInt(parts[0]) == Some(r.value.year)
      && ParseInt(parts[1]) == Some(r.value.month)
      && ParseInt(parts[2]) == Some(r.value.day)
  {
    var parts := Split(text, '-');
    if |parts| != 3 then Err(MalformedBirthdate)
    else
      match (ParseInt(parts[0]), ParseInt(parts[1]), ParseInt(parts[2]))
      case (Some(y), Some(m), Some(d)) =>
        if ValidDate(Date(y, m, d)) then Ok(Date(y, m, d)) else Err(MalformedBirthdate)
      case _ => Err(MalformedBirthdate)
  }

  /** `date.isoformat()`: "YYYY-MM-DD" with zero-padded fields, the form the CSV adapter writes. */
  function IsoFormat(d: Date): string
    requires ValidDate(d)
  {
    PadZeros(ShowNat(d.year), 4) + "-" + PadZeros(ShowNat(d.month), 2) + "-" + PadZeros(ShowNat(d.day), 2)
  }

  /** One zero-padded numeric field of an ISO date (at most four digits): no separator inside,
      and `int()` reads its number. */
  lemma PaddedField(n: nat, width: nat)
    requires n < 10000 && width <= 4
    ensures var s := PadZeros(ShowNat(n), width); '-' !in s && ParseInt(s) == Some(n)
  {
    var s := PadZeros(ShowNat(n), width);
    assert Pow10(4) == 10000;
    ShowNatWithin(n, 4);
    PaddedDigits(n, width);
    ParseDigits(s);
    assert forall i :: 0 <= i < |s| ==> s[i] != '-' by {
      forall i | 0 <= i < |s| ensures s[i] != '-' {
        assert IsDigit(s[i]);
      }
    }
  }

  /** Three fields that `int()` reads as a valid date make a birthdate that parses to it. */
  lemma ParseFields(text: string, d: Date)
    requires ValidDate(d)
    requires |Split(text, '-')| == 3
    requires ParseInt(Split(text, '-')[0]) == Some(d.year)
    requires ParseInt(Split(text, '-')[1]) == Some(d.month)
    requires ParseInt(Split(text, '-')[2]) == Some(d.day)
    ensures ParseBirthdate(text) == Ok(d)
  {
  }

  /** Three separator-free fields joined by "-" split back into those three fields. */
  lemma SplitThreeFields(y: string, m: string, dd: string)
    requires '-' !in y && '-' !in m && '-' !in dd
    ensures Split(y + "-" + m + "-" + dd, '-') == [y, m, dd]
  {
    var parts := [y, m, dd];
    JoinThree(y, m, dd, "-");
    forall i | 0 <= i < |parts|
      ensures '-' !in parts[i]
    {
    }
    SplitJoin(parts, '-');
  }

  /** Every valid date written in ISO form is read back as that same date. */
  lemma ParseIsoFormat(d: Date)
    requires ValidDate(d)
    ensures ParseBirthdate(IsoFormat(d)) == Ok(d)
  {
    var y, m, dd := PadZeros(ShowNat(d.year), 4), PadZeros(ShowNat(d.month), 2), PadZeros(ShowNat(d.day), 2);
    PaddedField(d.year, 4);
    PaddedField(d.month, 2);
    PaddedField(d.day, 2);
    SplitThreeFields(y, m, dd);
    ParseFields(IsoFormat(d), d);
  }

  /** A birthdate without exactly two '-' separators is always rejected. */
  lemma BirthdateNeedsThreeFields(text: string)
    requires Occurrences(text, '-') != 2
    ensures ParseBirthdate(text) == Err(MalformedBirthdate)
  {
  }

  /** A year field that starts with one of the separators U+001C to U+001F is rejected, although
      `strip()` would treat that character as whitespace. */
  lemma SeparatorInYearRejected(text: string, year: string, sep: char)
    requires year != [] && AllDigits(year) && IsSeparator(sep)
    requires |Split(text, '-')| == 3 && Split(text, '-')[0] == [sep] + year
    ensures ParseBirthdate(text) == Err(MalformedBirthdate)
  {
    SeparatorBefore(year, sep);
  }

  /** `PatientUseCases`: the three ports must record into one trace. */
  class PatientUseCases {
    const repo: MemoryPatientRepository
    const alerts: RecordingAlertSink
    const reporter: RecordingReportWriter

    predicate Valid()
    {
      alerts.trace == repo.trace && reporter.trace == repo.trace
    }

    constructor (repo: MemoryPatientRepository, alerts: RecordingAlertSink, reporter: RecordingReportWriter)
      requires alerts.trace == repo.trace && reporter.trace == repo.trace
      ensures Valid() && this.repo == repo && this.alerts == alerts && this.reporter == reporter
    {
      this.repo := repo;
      this.alerts := alerts;
      this.reporter := reporter;
    }

    /** `register_patient`: a malformed birthdate raises before any port is called; otherwise the
        patient is saved once, preceded by an alert exactly when high-risk. */
    method RegisterPatient(pid: string, name: string, birthdate: string, risk: string)
      returns (outcome: Outcome<RegistrationError>)
      requires Valid()
      modifies repo, repo.trace
      ensures ParseBirthdate(birthdate).Err? ==>
        && outcome == Fail(ParseBirthdate(birthdate).error)
        && repo.stored == old(repo.stored)
        && repo.trace.events == old(repo.trace.events)
      ensures ParseBirthdate(birthdate).Ok? ==>
        var p := Patient(pid, name, ParseBirthdate(birthdate).value, risk);
        && outcome == Pass
        && repo.stored == old(repo.stored) + [p]
        && repo.trace.events == old(repo.trace.events) + RegistrationCalls(p)
    {
      var parsed := ParseBirthdate(birthdate);
      if parsed.Err? {
        return Fail(parsed.error);
      }
      var p := Patient(pid, name, parsed.value, risk);
      ghost var before := repo.trace.events;
      if IsHighRisk(p) {
        alerts.Notify("High Risk: " + p.pid, "Patient " + p.name + " is HIGH risk");
      }
      assert repo.trace.events == before + (if IsHighRisk(p) then [HighRiskAlert(p)] else []);
      repo.Save(p);
      assert repo.trace.events == before + RegistrationCalls(p);
      outcome := Pass;
    }

    /** `build_and_write_report`: the stats of everything saved, written once and returned unchanged. */
    method BuildAndWriteReport() returns (stats: Stats)
      requires Valid()
      modifies repo.trace
      ensures stats == StatsFor(repo.stored)
      ensures repo.trace.events == old(repo.trace.events) + [Write(stats)]
      ensures repo.stored == old(repo.stored)
    {
      var all := repo.All();
      stats := StatsFor(all);
      reporter.Write(stats);
    }
  }
}
