/** d-04/task.py: `get_patient`, which checks a token, answers from a module-level cache and
    otherwise fetches from the slow data source, caching what it finds. The module globals
    `_CACHE` and the printed progress lines are the fields of `PatientClient`; the slow call is a
    lookup in `DB` (its sleep is timing only). */
module PatientProxy {
  import opened Results

  /** One `_DB` record `{"pid", "name", "risk"}`. */
  datatype PatientData = PatientData(pid: string, name: string, risk: string)

  /** `_DB`. Every record is a non-empty dictionary, so the truthiness test on a lookup result is
      the same as "the pid is known". */
  const DB: map<string, PatientData> := map[
    "p001" := PatientData("p001", "Max Mustermann", "high"),
    "p002" := PatientData("p002", "Erika Musterfrau", "low")]

  const AUTH_TOKEN: string := "secret123"

  /** `slow_service_call`: `_DB.get(pid)`. */
  function SlowServiceCall(pid: string): (r: Option<PatientData>)
    ensures r.Some? <==> pid in DB
    ensures r.Some? ==> r.value == DB[pid] && r.value.pid == pid
  {
    if pid in DB then Some(DB[pid]) else None
  }

  /** What an uncached, unproxied service would answer: the record for a valid token and a known
      pid, nothing otherwise. */
  function Answer(pid: string, token: string): (r: Option<PatientData>)
    ensures r.Some? <==> token == AUTH_TOKEN && pid in DB
    ensures token == AUTH_TOKEN ==> r == SlowServiceCall(pid)
  {
    if token != AUTH_TOKEN then None else SlowServiceCall(pid)
  }

  /** The cache never holds anything but the data source's own record for a pid. */
  predicate Consistent(cache: map<string, PatientData>)
  {
    forall pid :: pid in cache ==> pid in DB && cache[pid] == DB[pid]
  }

  /** The printed lines, in order. */
  datatype Event =
    | AccessDenied          // "[AUTH] Zugriff verweigert"
    | CacheHit(pid: string) // "[CACHE] Treffer:"
    | Fetch(pid: string)    // "[SERVICE] Hole Patient:"
    | Logged(pid: string)   // "[LOG] Zugriff auf"

  /** The cache after one `get_patient`: only a valid-token miss on a known pid adds an entry;
      nothing is ever removed or overwritten, and other pids are untouched. */
  function CacheAfter(cache: map<string, PatientData>, pid: string, token: string): (c: map<string, PatientData>)
    ensures Consistent(cache) ==> Consistent(c)
    ensures cache.Keys <= c.Keys
    ensures forall k :: k in cache ==> c[k] == cache[k]
    ensures forall k :: k != pid ==> (k in c <==> k in cache)
    ensures pid in c <==> pid in cache || (token == AUTH_TOKEN && pid in DB)
  {
    if token != AUTH_TOKEN || pid in cache || pid !in DB then cache else cache[pid := DB[pid]]
  }

  /** After one answered request, asking again with the same token returns the same answer. */
  lemma AnswerStable(cache: map<string, PatientData>, pid: string, token: string)
    requires Consistent(cache)
    ensures Consistent(CacheAfter(cache, pid, token))
    ensures Answer(pid, token).Some? ==> pid in CacheAfter(cache, pid, token)
    ensures Answer(pid, token).Some? ==> CacheAfter(cache, pid, token)[pid] == Answer(pid, token).value
  {
  }

  /** The global state the function reads and writes: `_CACHE` and what it has printed. */
  class PatientClient {
    var cache: map<string, PatientData>
    var events: seq<Event>

    predicate Valid()
      reads this
    {
      Consistent(cache)
    }

    constructor ()
      ensures Valid() && cache == map[] && events == []
    {
      cache := map[];
      events := [];
    }

    /** `get_patient`. A wrong token is refused before cache or source is consulted; a cached pid
        is answered from the cache; a miss asks the source and caches only a record it found.
        Whatever the path, the answer is the one the source itself gives a valid token. */
    method GetPatient(pid: string, token: string) returns (r: Option<PatientData>)
      requires Valid()
      modifies this
      ensures Valid()
      ensures r == Answer(pid, token)
      ensures cache == CacheAfter(old(cache), pid, token)
      ensures token != AUTH_TOKEN ==> events == old(events) + [AccessDenied]
      ensures token == AUTH_TOKEN && pid in old(cache) ==> events == old(events) + [CacheHit(pid)]
      ensures token == AUTH_TOKEN && pid !in old(cache) ==>
        events == old(events) + [Fetch(pid)] + (if pid in DB then [Logged(pid)] else [])
    {
      if token != AUTH_TOKEN {
        events := events + [AccessDenied];
        return None;
      }
      if pid in cache {
        events := events + [CacheHit(pid)];
        return Some(cache[pid]);
      }
      events := events + [Fetch(pid)];
      var data := SlowServiceCall(pid);
      if data.Some? {
        cache := cache[pid := data.value];
        events := events + [Logged(pid)];
      }
      r := data;
    }
  }

  /** The main block: a fetch, a cache hit for the same pid with the same answer, and a refusal. */
  method ScriptedSession() returns (first: Option<PatientData>, second: Option<PatientData>,
                                    third: Option<PatientData>, events: seq<Event>)
    ensures first == Some(DB["p001"]) && second == first && third == None
    ensures events == [Fetch("p001"), Logged("p001"), CacheHit("p001"), AccessDenied]
  {
    var client := new PatientClient();
    first := client.GetPatient("p001", "secret123");
    second := client.GetPatient("p001", "secret123");
    assert "wrong" != AUTH_TOKEN by { assert "wrong"[0] != AUTH_TOKEN[0]; }
    third := client.GetPatient("p002", "wrong");
    events := client.events;
  }
}
