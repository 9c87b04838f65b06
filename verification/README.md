# Mentcare training exercises — a Dafny model

This project models the behaviour of the patient-care ("Mentcare") exercises of the cc-training
course. Each exercise is a small Python program about registering patients, reporting on their
risk levels, reminding them of appointments, or one design pattern applied to them. The modelled
programs are:

- the separated-concerns use cases of `c-01/solution.py`;
- the SOLID application of `c-02/solution.py`;
- the injected report service of `c-04/solution.py`;
- the appointment service of `c-09/solution.py`;
- the registration facade of `d-03/solution.py` and the hand-wired sequence of `d-03/task.py`;
- the authenticating, caching patient lookup of `d-04/task.py`;
- the risk-change reactions of `d-05/task.py`;
- the appointment command handler of `d-06/task.py`;
- the patient factory of `d-07/task.py`;
- the record builder of `d-08/solution.py`;
- the risk-processing service of `c-08/task.py`.

How the programs are modelled:

- Values stay values. Frozen dataclasses, plain value classes and report dictionaries become datatypes.
- Mutated state becomes classes:
  - objects whose fields are assigned in place, such as the d-05 patient, the d-08 builder and the c-08 dictionaries;
  - the module-level globals `_CACHE`, `APPTS` and `patients`;
  - in-memory repositories;
  - Python lists that two objects share, as in d-08 `build`.
- Every effect the programs print or send is appended to a trace, in order. This covers
  notifications, log lines, mails, alerts and reminders.
- The fake ports of the use-case exercises all append to one shared `Tracing.Trace`, so the order
  of calls across ports is part of each contract.
- Python's own string operations that the programs rely on are modelled in `Strings`:
  `str.lower`, `str.strip`, `str.split`, `str.join`, `int()` and the decimal rendering of a number.
- Exceptions become `Result`/`Outcome` values:
  - `ValueError` from `int()` or `date()`, or `OverflowError` from `date()` for a year beyond a C `int`;
  - `ValueError` from the validator and the factory;
  - `ValueError`/`TypeError` from `fromisoformat`;
  - `KeyError` for a nameless high-risk patient in c-08.

  Each of these exceptions is placed at the point where Python would raise it, and the state
  reached before it is kept. Exceptions that come from representing time (mixing offset-aware and
  naive datetimes) are outside the model; "## Left out" names them.

## Model

| member | source | states |
|---|---|---|
| `Strings.Lower` | c-01/solution.py:19 | `str.lower` keeps the length and lower-cases each character on its own |
| `Strings.Strip` | c-09/solution.py:37 | `str.strip` is no longer than its input, and its result neither starts nor ends with whitespace |
| `Strings.StripKeepsInfix` | c-09/solution.py:37 | the stripped text is a contiguous slice of the input, and everything cut off on either side is whitespace |
| `Strings.StripUntrimmed` | c-09/solution.py:37 | text without whitespace at either end is left unchanged |
| `Strings.StripIdempotent` | c-09/solution.py:37 | stripping twice gives the same as stripping once |
| `Strings.Split` | c-01/solution.py:88 | `split("-")` gives one more piece than there are separators, and no piece contains the separator |
| `Strings.JoinSplit` | c-01/solution.py:88 | joining the pieces of a split with the same separator gives back the original text |
| `Strings.SplitJoin` | c-01/solution.py:88 | splitting the join of separator-free pieces gives back exactly those pieces |
| `Strings.ShowNat` | c-04/solution.py:60 | the f-string rendering of a count is a non-empty run of decimal digits whose value is that count, with no leading zero except in "0" |
| `Strings.ShowNatWithin` | c-01/solution.py:88-89 | a number below 10^k is written with at most k digits, so a valid date's fields stay far inside `int()`'s digit limit |
| `Strings.ParseInt` | c-01/solution.py:88 | text `int()` accepts is, once stripped, a sign or a digit followed only by digits, at most 4300 of them, and a negative result carries a minus sign |
| `Strings.ParseDigits` | c-01/solution.py:88 | `int()` of a non-empty run of ASCII digits is the number those digits denote, and raises when there are more than 4300 of them |
| `Strings.SeparatorBefore` | c-01/solution.py:88 | a U+001C–U+001F separator in front of a number is whitespace to `strip()`, yet `int()` rejects the text |
| `Strings.SeparatorAfter` | c-01/solution.py:88 | a U+001C–U+001F separator behind a number is whitespace to `strip()`, yet `int()` rejects the text |
| `Strings.ParseIntPadded` | c-01/solution.py:88 | `int()` reads a zero-padded decimal rendering back to the number while the padded text has at most 4300 digits, and raises beyond that |
| `PatientDomain.ValidDate` | c-01/solution.py:89 | `date(y, m, d)` accepts only years 1 to 9999, months 1 to 12 and days within the month |
| `PatientDomain.LeapDay` | c-01/solution.py:89 | February 29 is a valid date exactly in leap years, so 2000-02-29 is accepted and 1900-02-29 is not |
| `PatientDomain.IsHighRisk` | c-01/solution.py:18-19 | `is_high_risk` compares the lower-cased risk with "high", so a high-risk patient's risk has exactly four characters; `HighRiskSpellings` states which risks it accepts |
| `PatientDomain.HighRiskSpellings` | c-01/solution.py:18-19 | `is_high_risk` holds exactly for the sixteen upper/lower-case spellings of "high", so "HIGH" and "High" count |
| `PatientDomain.CountHigh` | c-01/solution.py:25 | the number of high-risk patients is at most the number of patients |
| `PatientDomain.CountExact` | c-01/solution.py:26-27 | the number of patients with exactly a given level is at most the number of patients |
| `PatientDomain.StatsFor` | c-01/solution.py:21-28 | "count" is the number of patients and bounds every bucket; an empty input gives four zeros |
| `PatientDomain.LevelsWithinCount` | c-01/solution.py:25-27 | high + medium + low never exceeds count |
| `PatientDomain.CapitalisedLevelUncounted` | c-01/solution.py:26-27 | "Medium" or "Low" lands in no bucket, so the sum can fall strictly below the count |
| `PatientDomain.StatsAfterSave` | c-01/solution.py:21-28 | one more saved patient raises count by one, and raises exactly the bucket of its own level |
| `PatientDomain.ExactHighWithinHigh` | c-04/solution.py:58 | counting exact "high" never finds more patients than the case-insensitive test |
| `PatientPorts.HighRiskAlert` | c-02/solution.py:90 | the alert is a notification whose subject is "High Risk: " followed by the pid, and whose message is "Patient ", the name and " is HIGH risk" |
| `PatientPorts.RegistrationCalls` | c-01/solution.py:90-92 | a registration makes one alert exactly when the patient is high-risk, always before the single save, which comes last |
| `PatientPorts.MemoryPatientRepository.Save` | c-01/solution.py:32 | `save` appends the patient to the stored ones and records the call |
| `PatientPorts.MemoryPatientRepository.All` | c-02/solution.py:28 | `all` / `get_all` returns everything saved, in saving order |
| `PatientPorts.RecordingAlertSink.Notify` | c-01/solution.py:36 | `notify` records one notification with the given subject and message |
| `PatientPorts.RecordingReportWriter.Write` | c-01/solution.py:39 | `write` records one write of the given statistics |
| `SeparatedConcerns.ParseBirthdate` | c-01/solution.py:88-89 | a birthdate is accepted only when it splits on "-" into exactly three pieces, each of which `int()` reads, and then as the date of those three numbers, which `date()` must accept |
| `SeparatedConcerns.ParseIsoFormat` | c-01/solution.py:88-89 | every valid date written as zero-padded YYYY-MM-DD is read back as that same date |
| `SeparatedConcerns.SeparatorInYearRejected` | c-01/solution.py:88 | a year field led by one of the separators U+001C–U+001F makes `int()` raise, so the birthdate is rejected |
| `SeparatedConcerns.BirthdateNeedsThreeFields` | c-01/solution.py:88 | text without exactly two separators always fails the three-way unpacking |
| `SeparatedConcerns.PatientUseCases.constructor` | c-01/solution.py:82-85 | the use cases keep the three ports they are given |
| `SeparatedConcerns.PatientUseCases.RegisterPatient` | c-01/solution.py:87-92 | a malformed birthdate fails with no alert and no save; otherwise the patient is saved once, after one alert exactly when high-risk |
| `SeparatedConcerns.PatientUseCases.BuildAndWriteReport` | c-01/solution.py:94-97 | the returned statistics are `stats_for` of everything saved; the writer receives exactly them, once, and the repository is unchanged |
| `SolidApplication.PatientApplication.constructor` | c-02/solution.py:82-85 | the application keeps the three ports it is given |
| `SolidApplication.PatientApplication.RegisterPatient` | c-02/solution.py:88-91 | the given patient is saved exactly once, after one alert only if high-risk |
| `SolidApplication.PatientApplication.ProduceReport` | c-02/solution.py:94-103 | the report equals the statistics of the stored patients, and the reporter receives exactly that report |
| `SolidApplication.HighThenLow` | c-02/solution.py:116-118 | of the script's two patients, only the "high" one is alerted, and together they give one "high" and one "low" |
| `SolidApplication.HighThenLowAfter` | c-02/solution.py:116-118 | on top of any earlier rows, the script's two patients add two to the count and one each to "high" and "low" |
| `SolidApplication.ScriptedRun` | c-02/solution.py:108-118 | over a patient file already holding some rows, the composition root's script alerts once, saves twice, writes once, and reports the earlier rows' statistics plus two patients, one "high" and one "low"; on a first run (an empty file) that is count 2, high 1, medium 0, low 1 |
| `InjectedReporting.ReportFor` | c-04/solution.py:57-61 | total is the number of patients; high counts exact "high" and never exceeds total |
| `InjectedReporting.AlertMail` | c-04/solution.py:60 | the alert goes to the configured address with the fixed subject, and its body is "There are ", the count in decimal, then " high-risk patients." |
| `InjectedReporting.AlertMailStatesCount` | c-04/solution.py:60 | whenever `str()` can render the count, the count shown in the mail body reads back as the count |
| `InjectedReporting.HighWithinCaseInsensitiveHigh` | c-04/solution.py:58 | this service never counts more high-risk patients than c-01/c-02 would |
| `InjectedReporting.UpperCaseHighNotCounted` | c-04/solution.py:58-59 | a patient with risk "HIGH" counts for c-01/c-02 but not here, so no mail is sent for it |
| `InjectedReporting.PatientSource.All` | c-04/solution.py:19 | the read-only repository returns its patients |
| `InjectedReporting.RecordingMailer.Send` | c-04/solution.py:22 | `send` records one mail with the given fields |
| `InjectedReporting.ReportService.constructor` | c-04/solution.py:51-54 | the service keeps its repository, mailer and alert address |
| `InjectedReporting.ReportService.CreateReportAndAlert` | c-04/solution.py:56-61 | the report is `ReportFor` of the repository; exactly one mail to the alert address when high > 0, none otherwise |
| `AppointmentReminders.IsImminent` | c-09/solution.py:14-16 | an appointment is imminent exactly when it is due no earlier than `now` and at most 86400 seconds after it |
| `AppointmentReminders.ImminentWindow` | c-09/solution.py:14-16 | past appointments are never imminent; exactly 24 hours ahead still is, one second later is not |
| `AppointmentReminders.Imminent` | c-09/solution.py:43 | the due list is never longer than the repository's and holds exactly its imminent appointments |
| `AppointmentReminders.ImminentAppend` | c-09/solution.py:43 | the filter keeps repository order: filtering a concatenation concatenates the filtered parts |
| `AppointmentReminders.ImminentKeepsAllDue` | c-09/solution.py:43 | when every appointment is imminent, all of them are due, in order |
| `AppointmentReminders.ScheduledThenReminded` | c-09/solution.py:36-46 | a newly scheduled appointment is reminded of, after all earlier ones, exactly when it is imminent |
| `AppointmentReminders.ReminderFor` | c-09/solution.py:45 | the reminder for an appointment carries its patient id, time and reason |
| `AppointmentReminders.Reminders` | c-09/solution.py:44-45 | one reminder per due appointment, in the same order, each for that appointment |
| `AppointmentReminders.RemindersSnoc` | c-09/solution.py:44-45 | one more due appointment adds its reminder at the end |
| `AppointmentReminders.InMemoryAppointmentRepo.constructor` | c-09/solution.py:51 | a new repository is empty |
| `AppointmentReminders.InMemoryAppointmentRepo.Add` | c-09/solution.py:52 | `add` appends |
| `AppointmentReminders.InMemoryAppointmentRepo.All` | c-09/solution.py:53 | `all` returns the stored appointments, as a copy the caller cannot use to change them |
| `AppointmentReminders.RecordingNotifier.Notify` | c-09/solution.py:24 | `notify` records one message |
| `AppointmentReminders.AppointmentService.constructor` | c-09/solution.py:31-34 | the service keeps the repository and notifier it is given; the clock is the `now` argument of `SendImminentReminders` |
| `AppointmentReminders.AppointmentService.ScheduleAppointment` | c-09/solution.py:36-39 | an unparsable timestamp fails and adds nothing; otherwise the appointment with the stripped reason is appended and returned |
| `AppointmentReminders.AppointmentService.SendImminentReminders` | c-09/solution.py:41-46 | the due appointments are the imminent ones in repository order; one reminder each is sent, in that order; the repository is untouched |
| `RegistrationFacade.Validate` | d-03/solution.py:12-14 | validation fails exactly when the name is empty, the age is not positive, or the email has no "@" |
| `RegistrationFacade.EachClauseRejects` | d-03/task.py:18-21 | each of the three conditions rejects on its own, and validation passes when none holds |
| `RegistrationFacade.RegistrationCalls` | d-03/solution.py:44-50 | save, log and mail, once each and in that order; save gets the unchanged fields, the log line is "Neuer Patient registriert: " and the name, and the mail goes to the given email with the welcome subject |
| `RegistrationFacade.PatientRepository.Save` | d-03/solution.py:17-18 | `save` records one save with the given fields |
| `RegistrationFacade.Logger.WriteLog` | d-03/solution.py:21-22 | `write_log` records one log line |
| `RegistrationFacade.Mailer.SendMail` | d-03/solution.py:25-26 | `send_mail` records one mail |
| `RegistrationFacade.MentcareFacade.constructor` | d-03/solution.py:35-39 | the facade creates its own subsystems, all sharing one new, empty trace |
| `RegistrationFacade.MentcareFacade.RegisterPatient` | d-03/solution.py:41-50 | a failed validation performs no save, log or mail; a successful one performs save, log and mail, in that order |
| `RegistrationFacade.FacadeMatchesManualSequence` | d-03/task.py:45-48 | the facade and the hand-wired sequence make the same save and log calls; only the welcome body differs, and the facade's names the patient |
| `RegistrationFacade.ClientRun` | d-03/solution.py:53-55 | the client code's patient passes validation and produces the full three-call sequence |
| `RegistrationFacade.RegisterWithoutFacade` | d-03/task.py:36-48 | the guarded main block calls save, log and mail, in that order, only after a successful validation |
| `PatientProxy.SlowServiceCall` | d-04/task.py:28-35 | the source finds a record exactly for a known pid, and the record carries that pid |
| `PatientProxy.Answer` | d-04/task.py:41-53 | a record is returned exactly for the right token and a known pid; with the right token the answer is the source's own |
| `PatientProxy.CacheAfter` | d-04/task.py:45-51 | the cache only grows, keeps every existing entry, touches no other pid, gains the pid only on a valid-token lookup of a known pid, and stays consistent with the source |
| `PatientProxy.AnswerStable` | d-04/task.py:45-51 | after a successful lookup the pid is cached with the returned record, so a second call returns the same value |
| `PatientProxy.PatientClient.constructor` | d-04/task.py:38 | the cache starts empty |
| `PatientProxy.PatientClient.GetPatient` | d-04/task.py:41-53 | a wrong token returns nothing, leaves the cache alone and consults neither cache nor source; a hit is answered from the cache; a miss fetches and caches only a found record; the answer is always `Answer` |
| `PatientProxy.ScriptedSession` | d-04/task.py:55-58 | the main block fetches p001, then gets the same record from the cache, then is refused for the wrong token |
| `RiskObserver.Patient.constructor` | d-05/task.py:27-31 | a patient keeps the given pid, name and risk |
| `RiskObserver.Patient.WithDefaultRisk` | d-05/task.py:31 | without a risk, a patient's risk is "low" |
| `RiskObserver.RiskChangeReactions` | d-05/task.py:42-55 | no reaction when the risk is unchanged; otherwise alert, audit and dashboard, in that order, each for this patient and the new risk, and alert and audit also see the old risk; the alert carries the patient's name |
| `RiskObserver.RepeatedSetRiskSilent` | d-05/task.py:42 | setting the same risk again adds no reaction |
| `RiskObserver.ChangeBackReacts` | d-05/task.py:42-55 | changing the risk back reacts again, with old and new swapped |
| `RiskObserver.PatientService.constructor` | d-05/task.py:34-35 | the service holds no state of its own, only the trace its hooks print to |
| `RiskObserver.PatientService.SetRisk` | d-05/task.py:37-45 | the risk becomes the new value whatever it was; pid and name are untouched; the reactions are those of `RiskChangeReactions` |
| `RiskObserver.ScriptedRun` | d-05/task.py:57-60 | raising p001 from "low" to "high" fires alert, audit and dashboard once each |
| `AppointmentCommands.ReasonOrEmpty` | d-06/task.py:23 | a missing reason is stored as "", and a given one is stored unchanged |
| `AppointmentCommands.ParseWhen` | d-06/task.py:23 | a missing timestamp and an unparsable one are the two ways a schedule raises; otherwise the parsed time is used |
| `AppointmentCommands.Handled` | d-06/task.py:20-27 | schedule fails only on a bad timestamp, and otherwise sets the pid's entry, overwriting any earlier one; cancel removes the pid if present; any other action leaves the map; other pids are never touched |
| `AppointmentCommands.ScheduleThenCancel` | d-06/task.py:29-31 | a schedule followed by a cancel of the same pid leaves that pid absent and everything else as before |
| `AppointmentCommands.ScheduleOverwrites` | d-06/task.py:22-23 | a second schedule for a pid gives the same map as if only the second had happened |
| `AppointmentCommands.AppointmentBook.constructor` | d-06/task.py:18 | `APPTS` starts empty, and nothing has been printed |
| `AppointmentCommands.AppointmentBook.Handle` | d-06/task.py:20-27 | the action line is printed first; the map changes as `Handled` says and not at all when it raises; a log line follows exactly when an entry is written or deleted |
| `AppointmentCommands.ScriptedRun` | d-06/task.py:29-32 | scheduling then cancelling p001 leaves no appointments |
| `PatientFactory.CreatePatient` | d-07/task.py:31-40 | the three tags give normal/basic, high/insurance-covered and low/per-visit; pid and name are copied; any other tag raises |
| `PatientFactory.TypeRecovered` | d-07/task.py:31-40 | the tag can be read back from the created patient |
| `PatientFactory.TypesDistinguished` | d-07/task.py:31-40 | different tags never produce the same patient |
| `PatientFactory.Describe` | d-07/task.py:28-29 | `__str__` is the name, " (", the priority, ", ", the billing model and ")", in that order |
| `PatientFactory.DescriptionsDiffer` | d-07/task.py:28-40 | for one name, two different tags never print the same line |
| `PatientFactory.MainPatients` | d-07/task.py:43-47 | the main block creates three patients without raising |
| `RecordBuilder.StringList.Append` | d-08/solution.py:40 | `list.append` adds at the end and keeps every earlier entry |
| `RecordBuilder.MedicationsShown` | d-08/solution.py:17 | no medications show as "Keine"; one shows as itself; several show as the first, ", ", and the rest shown the same way |
| `RecordBuilder.DiagnosisShown` | d-08/solution.py:20 | an empty diagnosis shows as "n/a", and any other diagnosis shows as itself |
| `RecordBuilder.RecordLines` | d-08/solution.py:16-23 | the record renders as four lines: "Patient {name} ({pid})", the diagnosis, the medications, and the number of appointments planned |
| `RecordBuilder.RecordText` | d-08/solution.py:18-23 | the record text is the heading, diagnosis, medications and appointments lines, each but the last followed by a line break |
| `RecordBuilder.RecordLinesUnbroken` | d-08/solution.py:16-23 | when no field holds a line break, none of the four record lines holds one |
| `RecordBuilder.RecordTextLines` | d-08/solution.py:16-23 | when no field holds a line break, the rendered text splits back into exactly those four lines |
| `RecordBuilder.AppointmentCountReadable` | d-08/solution.py:22 | whenever `str()` can render the number of appointments, the last line states it in a form `int()` reads back |
| `RecordBuilder.PatientRecord.constructor` | d-08/solution.py:7-14 | the record holds the given fields and the very list objects it is given |
| `RecordBuilder.PatientRecord.ToString` | d-08/solution.py:16-23 | `__str__` reads the lists' current contents; when no field holds a line break it splits into exactly the four lines of `RecordLines` |
| `RecordBuilder.PatientRecordBuilder.constructor` | d-08/solution.py:28-33 | a new builder has an empty diagnosis and two new, empty lists |
| `RecordBuilder.PatientRecordBuilder.WithDiagnosis` | d-08/solution.py:35-37 | the diagnosis is replaced, so the last call wins, and the builder itself is returned |
| `RecordBuilder.PatientRecordBuilder.AddMedication` | d-08/solution.py:39-41 | the medication is appended and the appointments stay; the builder itself is returned |
| `RecordBuilder.PatientRecordBuilder.AddAppointment` | d-08/solution.py:43-45 | the appointment is appended and the medications stay; the builder itself is returned |
| `RecordBuilder.PatientRecordBuilder.Build` | d-08/solution.py:47-54 | a new record with the builder's pid, name and diagnosis, sharing the builder's own two lists |
| `RecordBuilder.AddAfterBuild` | d-08/solution.py:47-54 | a medication added after `build` shows in the built record; a diagnosis set after `build` does not |
| `RecordBuilder.DemoRecord` | d-08/solution.py:58-68 | the demo's fluent chain yields a record with its pid, name and diagnosis, both medications and both appointments, in call order |
| `RecordBuilder.DemoRun` | d-08/solution.py:57-71 | the demo's record renders with its diagnosis, both medications and two appointments |
| `RiskProcessing.PatientDict.constructor` | c-08/task.py:46 | a dictionary holds exactly the keys it is given |
| `RiskProcessing.AgeOrZero` | c-08/task.py:27 | `patient.get("age", 0)`: the stored age when there is one, otherwise 0 |
| `RiskProcessing.FinalRisk` | c-08/task.py:25-28 | over 65 forces "high"; otherwise a given risk is kept and a missing one becomes "low"; the result is "high" exactly when the patient is over 65 or was given "high" |
| `RiskProcessing.AgeBoundary` | c-08/task.py:27-28 | age 65 does not force "high" but 66 does, and a missing age behaves as 0 |
| `RiskProcessing.FinalRiskIdempotent` | c-08/task.py:25-28 | processing an already processed dictionary again keeps its risk |
| `RiskProcessing.AlertLine` | c-08/task.py:30 | the alert line is "ALERT! ", the patient's name and " is high risk" |
| `RiskProcessing.PatientRegistry.constructor` | c-08/task.py:21 | the patient list starts empty |
| `RiskProcessing.PatientRegistry.Process` | c-08/task.py:23-31 | the dictionary always gets its final risk; a nameless high-risk patient raises before the alert and the append; otherwise one alert exactly when the risk is "high", and the same dictionary is appended once at the end; name and age are never changed |
| `RiskProcessing.PatientRegistry.ProcessEntered` | c-08/task.py:46-47 | an entered name and age never raise; the patient is "high" and alerted exactly when over 65, and "low" otherwise |

## Left out

- The file adapters are not modelled: the CSV and JSON repositories and writers, and directory creation (c-01/solution.py:42-78, c-02/solution.py:40-77, c-04/solution.py:25-34). The ports are in-memory fakes that record their calls.
- The SMTP mailer, the e-mail alert and the print-based notifiers and loggers are external I/O. Each is a trace entry holding the values it prints or sends, not the rendered text.
- The interactive `main` loops and their `input()` handling are user interface. So are the printouts of results (`print(p)`, `print(get_patient(...))`, `print("Termine:", APPTS)`).
- `datetime.fromisoformat`, `datetime.now()` and `datetime.isoformat()` inside reminder texts are library calls. Times are whole seconds: the clock is the `now` argument and ISO parsing is the `fromIso` argument. Fractional seconds of `timedelta.total_seconds()` are therefore not represented.
- `AppointmentReminders.Reminders`: a reminder keeps the patient id, time and reason rather than the formatted `[REMINDER] …` text with an ISO timestamp.
- `Strings.Lower`: lower-cases ASCII letters only. No other character lower-cases to one of the letters of "high", so the high-risk test is exact; other uses of `str.lower` do not occur.
- `Strings.ParseInt` (and so `SeparatedConcerns.ParseBirthdate`): `int()` also accepts underscores between digits and non-ASCII decimal digits, which are rejected here. CPython's default limit of 4300 digits is modelled: longer digit runs, leading zeros included, are rejected as `int()` rejects them. Its whitespace handling is modelled: `int()` skips every `isspace()` character except U+001C to U+001F, and rejects text whose surrounding whitespace holds one of those four.
- `Strings.ShowNat`: renders every number, while `str()` raises ValueError for one of more than 4300 digits; the numbers rendered here are counts of in-memory lists and date fields, far below that. `InjectedReporting.AlertMailStatesCount` and `RecordBuilder.AppointmentCountReadable` therefore assume a count that `str()` can render.
- `AppointmentReminders.AppointmentService.SendImminentReminders`: does not model the `TypeError` raised at c-09/solution.py:15 when a stored appointment carries a UTC offset (`fromisoformat` of text such as "2025-11-01T09:00+01:00") and the clock's `datetime.now()` is naive. Python then raises inside the filtering comprehension, before any reminder is sent. Times here are plain seconds, so every appointment is comparable with `now`.
- `time.sleep` in d-04/task.py:34 is timing only. `slow_service_call` is a map lookup.
- Python dictionaries in c-08 are modelled with the three keys "name", "age" and "risk". Other keys are not modelled. An age is an integer, as the input loop produces.
- The c-08 input loop's `int(age)` conversion and its retry on bad input are user interface. `RiskProcessing.PatientRegistry.ProcessEntered` starts after a successful conversion.
- d-01 and d-02 compute with floating-point numbers (cost totals, `int(x * 7.5)`) and are not part of this model.
- The remaining task files (c-01, c-03, c-04, c-05 and c-09 `task.py`) weave the same rules into file, SMTP and clock I/O. The solution files cover those rules.
- d-08/task.py only constructs and prints a record; it has no behaviour to state.
- `PatientRecord` fields are constant. The dataclass allows assigning them, but nothing in d-08/solution.py does.
