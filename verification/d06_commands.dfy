/** d-06/task.py: `handle(action, pid, when, reason)` over the module-level `APPTS` map.
    "schedule" parses the timestamp and stores (when, reason) under the pid; "cancel" deletes a
    present pid; any other action only prints. Times are whole seconds and ISO parsing is the
    `fromIso` argument (None where `datetime.fromisoformat` raises). */
module AppointmentCommands {
  import opened Results

  /** `{"when": datetime, "reason": str}`. */
  datatype Entry = Entry(when: int, reason: string)

  /** `datetime.fromisoformat(None)` raises TypeError; an unparsable string raises ValueError. */
  datatype HandleError = MissingTimestamp | InvalidTimestamp

  /** The printed lines: "[ACTION] …" on entry, "[LOG] Termin erstellt", "[LOG] Termin gelöscht". */
  datatype Line = ActionLine(action: string, pid: string) | Created | Deleted

  /** `reason or ""`: None and the empty string both become "". */
  function ReasonOrEmpty(reason: Option<string>): (r: string)
    ensures reason.Some? ==> r == reason.value
    ensures reason.None? ==> r == ""
  {
    match reason
    case Some(text) => text
    case None => ""
  }

  /** The timestamp of a "schedule", or why `fromisoformat` raises. */
  function ParseWhen(when: Option<string>, fromIso: string -> Option<int>): (r: Result<int, HandleError>)
    ensures when.None? ==> r == Err(MissingTimestamp)
    ensures when.Some? && fromIso(when.value).None? ==> r == Err(InvalidTimestamp)
    ensures when.Some? && fromIso(when.value).Some? ==> r == Ok(fromIso(when.value).value)
  {
    match when
    case None => Err(MissingTimestamp)
    case Some(text) =>
      match fromIso(text)
      case None => Err(InvalidTimestamp)
      case Some(t) => Ok(t)
  }

  /** The map after one `handle`, or the exception it raises (the map is then unchanged). */
  function Handled(m: map<string, Entry>, action: string, pid: string, when: Option<string>,
                   reason: Option<string>, fromIso: string -> Option<int>): (r: Result<map<string, Entry>, HandleError>)
    ensures r.Err? <==> action == "schedule" && ParseWhen(when, fromIso).Err?
    ensures r.Ok? && action == "schedule" ==>
      pid in r.value && r.value[pid] == Entry(ParseWhen(when, fromIso).value, ReasonOrEmpty(reason))
    ensures r.Ok? && action == "cancel" ==> r.value == m - {pid}
    ensures action != "schedule" && action != "cancel" ==> r == Ok(m)
    ensures r.Ok? ==> forall k :: k != pid ==> (k in r.value <==> k in m) && (k in m ==> r.value[k] == m[k])
  {
    if action == "schedule" then
      match ParseWhen(when, fromIso)
      case Err(e) => Err(e)
      case Ok(t) => Ok(m[pid := Entry(t, ReasonOrEmpty(reason))])
    else if action == "cancel" && pid in m then Ok(m - {pid})
    else Ok(m)
  }

  /** A schedule followed by a cancel of the same pid leaves it absent, and every other pid as it was. */
  lemma ScheduleThenCancel(m: map<string, Entry>, pid: string, when: string, reason: Option<string>,
                           fromIso: string -> Option<int>)
    requires fromIso(when).Some?
    ensures var s := Handled(m, "schedule", pid, Some(when), reason, fromIso);
      s.Ok? && Handled(s.value, "cancel", pid, None, None, fromIso) == Ok(m - {pid})
  {
    var s := Handled(m, "schedule", pid, Some(when), reason, fromIso);
    assert s.value - {pid} == m - {pid};
  }

  /** A later "schedule" for the same pid replaces the earlier entry outright. */
  lemma ScheduleOverwrites(m: map<string, Entry>, pid: string, w1: string, w2: string,
                           r1: Option<string>, r2: Option<string>, fromIso: string -> Option<int>)
    requires fromIso(w1).Some? && fromIso(w2).Some?
    ensures var s := Handled(m, "schedule", pid, Some(w1), r1, fromIso);
      s.Ok? && Handled(s.value, "schedule", pid, Some(w2), r2, fromIso)
             == Handled(m, "schedule", pid, Some(w2), r2, fromIso)
  {
    var s := Handled(m, "schedule", pid, Some(w1), r1, fromIso);
    assert s.value[pid := Entry(fromIso(w2).value, ReasonOrEmpty(r2))]
        == m[pid := Entry(fromIso(w2).value, ReasonOrEmpty(r2))];
  }

  /** The module globals: `APPTS` and the printed lines. */
  class AppointmentBook {
    var appts: map<string, Entry>
    var lines: seq<Line>

    constructor ()
      ensures appts == map[] && lines == []
    {
      appts := map[];
      lines := [];
    }

    /** `handle`: the action line is always printed first; the map changes as `Handled` says, a
        log line follows exactly when an entry was written or deleted, and a raising schedule
        leaves the map as it was. */
    method Handle(action: string, pid: string, when: Option<string>, reason: Option<string>,
                  fromIso: string -> Option<int>)
      returns (outcome: Outcome<HandleError>)
      modifies this
      ensures Handled(old(appts), action, pid, when, reason, fromIso).Err? ==>
        && outcome == Fail(Handled(old(appts), action, pid, when, reason, fromIso).error)
        && appts == old(appts)
        && lines == old(lines) + [ActionLine(action, pid)]
      ensures Handled(old(appts), action, pid, when, reason, fromIso).Ok? ==>
        && outcome == Pass
        && appts == Handled(old(appts), action, pid, when, reason, fromIso).value
      ensures action == "schedule" && outcome.Pass? ==> lines == old(lines) + [ActionLine(action, pid), Created]
      ensures action == "cancel" ==>
        lines == old(lines) + [ActionLine(action, pid)] + (if pid in old(appts) then [Deleted] else [])
      ensures action != "schedule" && action != "cancel" ==> lines == old(lines) + [ActionLine(action, pid)]
    {
      lines := lines + [ActionLine(action, pid)];
      if action == "schedule" {
        var t := ParseWhen(when, fromIso);
        if t.Err? {
          return Fail(t.error);
        }
        appts := appts[pid := Entry(t.value, ReasonOrEmpty(reason))];
        lines := lines + [Created];
      } else if action == "cancel" && pid in appts {
        appts := appts - {pid};
        lines := lines + [Deleted];
      }
      outcome := Pass;
    }
  }

  /** The main block: schedule then cancel "p001"; the final map is empty. */
  method ScriptedRun(fromIso: string -> Option<int>) returns (appts: map<string, Entry>, lines: seq<Line>)
    requires fromIso("2025-11-01T09:00").Some?
    ensures appts == map[]
    ensures lines == [ActionLine("schedule", "p001"), Created, ActionLine("cancel", "p001"), Deleted]
  {
    var book := new AppointmentBook();
    assert "cancel" != "schedule" by { assert "cancel"[0] != "schedule"[0]; }
    var o1 := book.Handle("schedule", "p001", Some("2025-11-01T09:00"), Some("Intake"), fromIso);
    var o2 := book.Handle("cancel", "p001", None, None, fromIso);
    appts := book.appts;
    lines := book.lines;
  }
}
