/** c-09/solution.py: appointments kept in an in-memory repository, and a service that schedules
    them and sends a reminder for every appointment due within the next 24 hours.
    Times are whole seconds; the clock is the `now` argument and ISO parsing is the `fromIso`
    argument (it yields None where `datetime.fromisoformat` raises). */
module AppointmentReminders {
  import opened Results
  import opened Strings
  import opened Tracing

  datatype Appointment = Appointment(patientId: string, when: int, reason: string)

  /** 24 * 3600 seconds. */
  const DAY_SECONDS: int := 24 * 3600

  /** `is_imminent`: due between now and one day later, both ends included. */
  predicate IsImminent(a: Appointment, now: int)
    ensures IsImminent(a, now) <==> now <= a.when && a.when <= now + 86400
  {
    0 <= a.when - now <= DAY_SECONDS
  }

  /** An appointment before `now` is never imminent, and exactly 86400 seconds ahead still is. */
  lemma ImminentWindow(a: Appointment, now: int)
    ensures a.when < now ==> !IsImminent(a, now)
    ensures a.when == now + 86400 ==> IsImminent(a, now)
    ensures a.when == now + 86401 ==> !IsImminent(a, now)
  {
  }

  /** `[a for a in appts if is_imminent(a, now)]`: exactly the imminent appointments. */
  function Imminent(appts: seq<Appointment>, now: int): (due: seq<Appointment>)
    ensures |due| <= |appts|
    ensures forall a :: a in due <==> a in appts && IsImminent(a, now)
  {
    if appts == [] then []
    else (if IsImminent(appts[0], now) then [appts[0]] else []) + Imminent(appts[1..], now)
  }

  /** The filter keeps repository order: filtering a concatenation concatenates the filtered parts. */
  lemma {:induction false} ImminentAppend(xs: seq<Appointment>, ys: seq<Appointment>, now: int)
    ensures Imminent(xs + ys, now) == Imminent(xs, now) + Imminent(ys, now)
    decreases |xs|
  {
    if xs == [] {
      assert xs + ys == ys;
    } else {
      assert (xs + ys)[1..] == xs[1..] + ys;
      ImminentAppend(xs[1..], ys, now);
    }
  }

  /** Nothing imminent is dropped: when every appointment is due, all of them are returned. */
  lemma {:induction false} ImminentKeepsAllDue(appts: seq<Appointment>, now: int)
    requires forall i :: 0 <= i < |appts| ==> IsImminent(appts[i], now)
    ensures Imminent(appts, now) == appts
    decreases |appts|
  {
    if appts != [] {
      ImminentKeepsAllDue(appts[1..], now);
    }
  }

  /** A newly scheduled appointment is reminded of after all earlier ones, if and only if it is imminent. */
  lemma ScheduledThenReminded(appts: seq<Appointment>, a: Appointment, now: int)
    ensures Imminent(appts + [a], now) == Imminent(appts, now) + (if IsImminent(a, now) then [a] else [])
  {
    ImminentAppend(appts, [a], now);
    assert [a][1..] == [];
  }

  /** The text sent for one appointment: its patient id, its time and its reason. */
  datatype Message = Reminder(patientId: string, when: int, reason: string)

  /** The reminder `send_imminent_reminders` sends for `a`; the formatted text is not modelled. */
  function ReminderFor(a: Appointment): (m: Message)
    ensures m.patientId == a.patientId && m.when == a.when && m.reason == a.reason
  {
    Reminder(a.patientId, a.when, a.reason)
  }

  /** One reminder per appointment, in the same order. */
  function Reminders(due: seq<Appointment>): (ms: seq<Message>)
    ensures |ms| == |due|
    ensures forall k :: 0 <= k < |due| ==> ms[k] == ReminderFor(due[k])
  {
    if due == [] then [] else [ReminderFor(due[0])] + Reminders(due[1..])
  }

  /** One more appointment adds its reminder at the end. */
  lemma {:induction false} RemindersSnoc(due: seq<Appointment>, a: Appointment)
    ensures Reminders(due + [a]) == Reminders(due) + [ReminderFor(a)]
    decreases |due|
  {
    if due == [] {
      assert [] + [a] == [a];
    } else {
      assert (due + [a])[1..] == due[1..] + [a];
      RemindersSnoc(due[1..], a);
    }
  }

  /** The reminders for one more appointment of a due list extend those for the shorter prefix. */
  lemma RemindersPrefix(due: seq<Appointment>, i: nat)
    requires i < |due|
    ensures Reminders(due[..i + 1]) == Reminders(due[..i]) + [ReminderFor(due[i])]
  {
    assert due[..i + 1] == due[..i] + [due[i]];
    RemindersSnoc(due[..i], due[i]);
  }

  /** `InMemoryAppointmentRepo`: `add` appends; `all` hands out a copy. */
  class InMemoryAppointmentRepo {
    var data: seq<Appointment>

    constructor ()
      ensures data == []
    {
      data := [];
    }

    method Add(a: Appointment)
      modifies this
      ensures data == old(data) + [a]
    {
      data := data + [a];
    }

    /** A sequence is a value: what the caller does with it cannot reach the repository. */
    method All() returns (appts: seq<Appointment>)
      ensures appts == data
    {
      appts := data;
    }
  }

  class RecordingNotifier {
    const trace: Trace<Message>

    constructor (trace: Trace<Message>)
      ensures this.trace == trace
    {
      this.trace := trace;
    }

    method Notify(m: Message)
      modifies trace
      ensures trace.events == old(trace.events) + [m]
    {
      trace.Record(m);
    }
  }

  /** `datetime.fromisoformat` raised ValueError. */
  datatype ScheduleError = InvalidTimestamp

  class AppointmentService {
    const repo: InMemoryAppointmentRepo
    const notifier: RecordingNotifier

    constructor (repo: InMemoryAppointmentRepo, notifier: RecordingNotifier)
      ensures this.repo == repo && this.notifier == notifier
    {
      this.repo := repo;
      this.notifier := notifier;
    }

    /** `schedule_appointment`: a timestamp that does not parse raises and adds nothing; otherwise
        the appointment with the stripped reason is appended and returned. */
    method ScheduleAppointment(patientId: string, whenIso: string, reason: string, fromIso: string -> Option<int>)
      returns (r: Result<Appointment, ScheduleError>)
      modifies repo
      ensures fromIso(whenIso).None? ==> r == Err(InvalidTimestamp) && repo.data == old(repo.data)
      ensures fromIso(whenIso).Some? ==>
        && r == Ok(Appointment(patientId, fromIso(whenIso).value, Strip(reason)))
        && repo.data == old(repo.data) + [r.value]
    {
      var when := fromIso(whenIso);
      if when.None? {
        return Err(InvalidTimestamp);
      }
      var appt := Appointment(patientId, when.value, Strip(reason));
      repo.Add(appt);
      r := Ok(appt);
    }

    /** `send_imminent_reminders`: one clock reading, the imminent appointments in repository
        order, one reminder each in that order, and the repository untouched. */
    method SendImminentReminders(now: int) returns (due: seq<Appointment>)
      modifies notifier.trace
      ensures due == Imminent(repo.data, now)
      ensures notifier.trace.events == old(notifier.trace.events) + Reminders(due)
      ensures unchanged(repo)
    {
      var all := repo.All();
      due := Imminent(all, now);
      var i := 0;
      while i < |due|
        invariant 0 <= i <= |due|
        invariant notifier.trace.events == old(notifier.trace.events) + Reminders(due[..i])
      {
        notifier.Notify(ReminderFor(due[i]));
        RemindersPrefix(due, i);
        i := i + 1;
      }
      assert due[..i] == due;
    }
  }
}
