/** d-03: patient registration through four subsystems (validator, repository, logger, mailer).
    d-03/solution.py hides them behind `MentcareFacade.register_patient`; d-03/task.py calls them
    one by one from its main block. In both, a failed validation raises before anything else runs.
    The three effectful subsystems record into one shared trace. */
module RegistrationFacade {
  import opened Results
  import opened Tracing

  /** ValueError("Ungültige Patientendaten"). */
  datatype ValidationError = InvalidPatientData

  datatype Call =
    | Save(name: string, age: int, email: string)
    | Log(message: string)
    | Mail(to: string, subject: string, body: string)

  /** `PatientValidator.validate`: raises exactly when the name is empty, the age is not positive
      or the email has no '@'. It returns nothing in solution.py and True in task.py; `Pass`
      stands for both. */
  function Validate(name: string, age: int, email: string): (r: Outcome<ValidationError>)
    ensures r.Fail? <==> name == [] || age <= 0 || '@' !in email
    ensures r.Fail? ==> r.error == InvalidPatientData
  {
    if name == [] || age <= 0 || '@' !in email then Fail(InvalidPatientData) else Pass
  }

  /** Each of the three clauses rejects on its own, whatever the other two fields are. */
  lemma EachClauseRejects(name: string, age: int, email: string)
    ensures Validate("", age, email).Fail?
    ensures age <= 0 ==> Validate(name, age, email).Fail?
    ensures '@' !in email ==> Validate(name, age, email).Fail?
    ensures name != [] && age > 0 && '@' in email ==> Validate(name, age, email) == Pass
  {
  }

  const WELCOME_SUBJECT := "Willkommen bei Mentcare"

  /** Save, then log, then mail, each once: the repository gets the fields unchanged, the log line
      names the patient, and the mail goes to the given email with the welcome subject and the
      given body. */
  function RegistrationCalls(name: string, age: int, email: string, welcome: string): (calls: seq<Call>)
    ensures |calls| == 3
    ensures calls[0] == Save(name, age, email)
    ensures calls[1].Log? && calls[2].Mail?
    ensures calls[1] == Log("Neuer Patient registriert: " + name)
    ensures calls[2].to == email && calls[2].subject == WELCOME_SUBJECT && calls[2].body == welcome
  {
    [Save(name, age, email), Log("Neuer Patient registriert: " + name),
     Mail(email, WELCOME_SUBJECT, welcome)]
  }

  class PatientRepository {
    const trace: Trace<Call>

    constructor (trace: Trace<Call>)
      ensures this.trace == trace
    {
      this.trace := trace;
    }

    method Save(name: string, age: int, email: string)
      modifies trace
      ensures trace.events == old(trace.events) + [Call.Save(name, age, email)]
    {
      trace.Record(Call.Save(name, age, email));
    }
  }

  class Logger {
    const trace: Trace<Call>

    constructor (trace: Trace<Call>)
      ensures this.trace == trace
    {
      this.trace := trace;
    }

    method WriteLog(message: string)
      modifies trace
      ensures trace.events == old(trace.events) + [Log(message)]
    {
      trace.Record(Log(message));
    }
  }

  class Mailer {
    const trace: Trace<Call>

    constructor (trace: Trace<Call>)
      ensures this.trace == trace
    {
      this.trace := trace;
    }

    method SendMail(to: string, subject: string, body: string)
      modifies trace
      ensures trace.events == old(trace.events) + [Call.Mail(to, subject, body)]
    {
      trace.Record(Call.Mail(to, subject, body));
    }
  }

  /** The solution's welcome text greets the patient by name. */
  function FacadeWelcome(name: string): string
  {
    "Hallo " + name + ", Ihre Registrierung war erfolgreich!"
  }

  /** The welcome text of task.py is fixed. */
  const TASK_WELCOME := "Ihre Registrierung war erfolgreich!"

  /** `MentcareFacade`: builds its own subsystems, all recording into `trace`. */
  class MentcareFacade {
    const trace: Trace<Call>
    const repo: PatientRepository
    const logger: Logger
    const mailer: Mailer

    predicate Valid()
    {
      repo.trace == trace && logger.trace == trace && mailer.trace == trace
    }

    constructor ()
      ensures Valid() && fresh(trace) && trace.events == []
    {
      var t := new Trace<Call>();
      trace := t;
      repo := new PatientRepository(t);
      logger := new Logger(t);
      mailer := new Mailer(t);
    }

    /** `register_patient`: nothing happens when validation raises; otherwise save, log and mail,
        in that order, each exactly once. */
    method RegisterPatient(name: string, age: int, email: string) returns (outcome: Outcome<ValidationError>)
      requires Valid()
      modifies trace
      ensures outcome == Validate(name, age, email)
      ensures outcome.Fail? ==> trace.events == old(trace.events)
      ensures outcome.Pass? ==>
        trace.events == old(trace.events) + RegistrationCalls(name, age, email, FacadeWelcome(name))
    {
      outcome := Validate(name, age, email);
      if outcome.Fail? {
        return;
      }
      repo.Save(name, age, email);
      logger.WriteLog("Neuer Patient registriert: " + name);
      mailer.SendMail(email, WELCOME_SUBJECT, FacadeWelcome(name));
    }
  }

  /** The facade and the hand-wired main block make the same save and log calls; only the mail
      body differs, and the facade's greets the patient by name. */
  lemma FacadeMatchesManualSequence(name: string, age: int, email: string)
    ensures RegistrationCalls(name, age, email, FacadeWelcome(name))[..2]
         == RegistrationCalls(name, age, email, TASK_WELCOME)[..2]
    ensures FacadeWelcome(name)[6..6 + |name|] == name
    ensures FacadeWelcome(name) != TASK_WELCOME
  {
    assert FacadeWelcome(name)[0] == 'H' != TASK_WELCOME[0];
  }

  /** The solution's client code: one facade and one well-formed patient give the full sequence. */
  method ClientRun() returns (calls: seq<Call>)
    ensures calls == RegistrationCalls("Max Mustermann", 35, "max@example.com", FacadeWelcome("Max Mustermann"))
  {
    var mentcare := new MentcareFacade();
    var email := "max@example.com";
    assert email[3] == '@';
    var outcome := mentcare.RegisterPatient("Max Mustermann", 35, email);
    calls := mentcare.trace.events;
  }

  /** The main block of task.py: `if validator.validate(...)` guards the three calls; a raising
      validation stops the script before any of them. */
  method RegisterWithoutFacade(repo: PatientRepository, logger: Logger, mailer: Mailer,
                               name: string, age: int, email: string)
    returns (outcome: Outcome<ValidationError>)
    requires logger.trace == repo.trace && mailer.trace == repo.trace
    modifies repo.trace
    ensures outcome == Validate(name, age, email)
    ensures outcome.Fail? ==> repo.trace.events == old(repo.trace.events)
    ensures outcome.Pass? ==>
      repo.trace.events == old(repo.trace.events) + RegistrationCalls(name, age, email, TASK_WELCOME)
  {
    outcome := Validate(name, age, email);
    if outcome.Pass? {
      repo.Save(name, age, email);
      logger.WriteLog("Neuer Patient registriert: " + name);
      mailer.SendMail(email, WELCOME_SUBJECT, TASK_WELCOME);
    }
  }
}
