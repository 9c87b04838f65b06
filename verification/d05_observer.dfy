/** d-05/task.py: `PatientService.set_risk` assigns the new risk in place and, only when it
    differs from the old one, runs its alert, audit and dashboard hooks in that order. Each hook
    prints a line; here each appends a `Reaction` holding exactly the values its line shows. */
module RiskObserver {
  import opened Tracing

  /** The `Patient` dataclass; its fields are assignable. */
  class Patient {
    var pid: string
    var name: string
    var risk: string

    constructor (pid: string, name: string, risk: string)
      ensures this.pid == pid && this.name == name && this.risk == risk
    {
      this.pid := pid;
      this.name := name;
      this.risk := risk;
    }

    /** `Patient(pid, name)`: the risk defaults to "low". */
    constructor WithDefaultRisk(pid: string, name: string)
      ensures this.pid == pid && this.name == name && this.risk == "low"
    {
      this.pid := pid;
      this.name := name;
      this.risk := "low";
    }
  }

  /** `_send_alert` shows pid, name, old and new risk; `_write_audit` pid, old and new;
      `_update_dashboard` pid and the new risk. */
  datatype Reaction =
    | Alert(pid: string, name: string, before: string, after: string)
    | Audit(pid: string, before: string, after: string)
    | Dashboard(pid: string, after: string)

  /** The reactions of one `set_risk`: none when the risk is unchanged, otherwise alert, audit and
      dashboard, in that order, each for this patient, each seeing the new risk and the first two
      the old one; the alert also names the patient. */
  function RiskChangeReactions(pid: string, name: string, before: string, after: string): (rs: seq<Reaction>)
    ensures before == after <==> rs == []
    ensures before != after ==> |rs| == 3 && rs[0].Alert? && rs[1].Audit? && rs[2].Dashboard?
    ensures before != after ==> rs[0].name == name
    ensures forall r :: r in rs ==> r.pid == pid && r.after == after && (r.Dashboard? || r.before == before)
  {
    if before == after then []
    else [Alert(pid, name, before, after), Audit(pid, before, after), Dashboard(pid, after)]
  }

  /** Setting the risk it already has is silent, so a repeated `set_risk` reacts at most once. */
  lemma RepeatedSetRiskSilent(pid: string, name: string, before: string, after: string)
    ensures RiskChangeReactions(pid, name, before, after) + RiskChangeReactions(pid, name, after, after)
         == RiskChangeReactions(pid, name, before, after)
  {
    assert RiskChangeReactions(pid, name, after, after) == [];
  }

  /** A change and its reversal react twice, the second time with old and new risk swapped. */
  lemma ChangeBackReacts(pid: string, name: string, before: string, after: string)
    requires before != after
    ensures var back := RiskChangeReactions(pid, name, after, before);
      |back| == 3 && back[0] == Alert(pid, name, after, before) && back[2] == Dashboard(pid, before)
  {
  }

  class PatientService {
    const trace: Trace<Reaction>

    constructor (trace: Trace<Reaction>)
      ensures this.trace == trace
    {
      this.trace := trace;
    }

    /** `set_risk`: the risk becomes `newRisk` whatever it was, pid and name stay, and the hooks
        fire as `RiskChangeReactions` says, after the assignment. */
    method SetRisk(p: Patient, newRisk: string)
      modifies p`risk, trace
      ensures p.risk == newRisk
      ensures p.pid == old(p.pid) && p.name == old(p.name)
      ensures trace.events == old(trace.events) + RiskChangeReactions(p.pid, p.name, old(p.risk), newRisk)
    {
      var before := p.risk;
      p.risk := newRisk;
      if before != newRisk {
        trace.Record(Alert(p.pid, p.name, before, newRisk));
        trace.Record(Audit(p.pid, before, newRisk));
        trace.Record(Dashboard(p.pid, newRisk));
      }
    }
  }

  /** The main block: raising a low-risk patient to "high" fires all three hooks once. */
  method ScriptedRun() returns (reactions: seq<Reaction>, risk: string)
    ensures risk == "high"
    ensures reactions == [Alert("p001", "Max Mustermann", "low", "high"), Audit("p001", "low", "high"),
                          Dashboard("p001", "high")]
  {
    var trace := new Trace<Reaction>();
    var svc := new PatientService(trace);
    var pat := new Patient("p001", "Max Mustermann", "low");
    assert "low" != "high" by { assert "low"[0] != "high"[0]; }
    svc.SetRisk(pat, "high");
    reactions := trace.events;
    risk := pat.risk;
  }
}
