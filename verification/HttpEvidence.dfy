/** The append-only log of HTTP evidence read off completed operation runs. */
module HttpEvidence {
  import opened Options

  /** The deterministic identity of one observed event: everything it is derived from. */
  datatype EventId = EventId(program: string, digest: string, exitCode: int, timedOut: bool, stdout: seq<string>)

  /** What parsing the run's output yields. */
  datatype Response = Response(hostname: string, statusCode: int, headers: seq<(string, string)>)

  datatype EvidenceRecord = EvidenceRecord(id: EventId, program: string, hostname: string, statusCode: int, headers: seq<(string, string)>,
                                           digest: string, recordedAt: int)

  datatype Run = Run(event: EventId, response: Option<Response>, scopeReadable: bool)

  const MAX_RECORDS: nat := 5000

  predicate ValidLog(log: seq<EvidenceRecord>) {
    && |log| <= MAX_RECORDS
    && forall i, j :: 0 <= i < j < |log| ==> log[i].id != log[j].id
  }

  function Find(log: seq<EvidenceRecord>, id: EventId): (r: Option<EvidenceRecord>)
    ensures r.Some? ==> r.value in log && r.value.id == id
    ensures r.None? ==> forall x :: x in log ==> x.id != id
  {
    if log == [] then None else if log[0].id == id then Some(log[0]) else Find(log[1..], id)
  }

  lemma {:induction false} FindFirst(log: seq<EvidenceRecord>, r: EvidenceRecord)
    requires ValidLog(log) && r in log
    ensures Find(log, r.id) == Some(r)
  {
    if log[0] != r {
      var i :| 0 <= i < |log| && log[i] == r;
      assert r in log[1..];
      FindFirst(log[1..], r);
    }
  }

  function RecordOf(run: Run, at: int): EvidenceRecord
    requires run.response.Some?
  {
    var x := run.response.value;
    EvidenceRecord(run.event, run.event.program, x.hostname, x.statusCode, x.headers, run.event.digest, at)
  }

  datatype Ingestion = Refused | Ingested(evidence: EvidenceRecord, alreadyRecorded: bool)

  /** The log after one ingestion, and its answer. */
  function Ingest(log: seq<EvidenceRecord>, run: Run, at: int, lands: bool): (seq<EvidenceRecord>, Ingestion) {
    if run.response.None? || !run.scopeReadable then (log, Refused)
    else if Find(log, run.event).Some? then (log, Ingested(Find(log, run.event).value, true))
    else if |log| >= MAX_RECORDS || !lands then (log, Refused)
    else (log + [RecordOf(run, at)], Ingested(RecordOf(run, at), false))
  }

  /** A readable run in scope is ingested when its event is in the log, and then nothing is written; or when there
      is room and the save lands, and then exactly its own record is appended. Nothing else is ever written. */
  lemma IngestLaw(log: seq<EvidenceRecord>, run: Run, at: int, lands: bool)
    ensures var (after, r) := Ingest(log, run, at, lands);
            var known := exists x :: x in log && x.id == run.event;
            && (r.Ingested? <==> run.response.Some? && run.scopeReadable && (known || (|log| < 5000 && lands)))
            && (r.Ingested? ==> r.alreadyRecorded == known && r.evidence.id == run.event && r.evidence in after)
            && (r.Ingested? && !known ==>
                  && after == log + [r.evidence] && r.evidence.recordedAt == at
                  && r.evidence.program == run.event.program && r.evidence.digest == run.event.digest
                  && Response(r.evidence.hostname, r.evidence.statusCode, r.evidence.headers) == run.response.value)
            && (!r.Ingested? || known ==> after == log)
  {
    var (after, r) := Ingest(log, run, at, lands);
    if r.Ingested? && !r.alreadyRecorded {
      assert after[|log|] == r.evidence;
    }
  }

  lemma IngestionKeepsLogValid(log: seq<EvidenceRecord>, run: Run, at: int, lands: bool)
    requires ValidLog(log)
    ensures ValidLog(Ingest(log, run, at, lands).0) && log <= Ingest(log, run, at, lands).0
  {
  }

  /** Ingestion is idempotent: whatever else was ingested in between, the same run finds the record the
      first time made, and writes nothing. */
  lemma ReplayFindsTheRecord(log: seq<EvidenceRecord>, run: Run, at: int, between: seq<(Run, int, bool)>, again: int, lands: bool)
    requires ValidLog(log) && Ingest(log, run, at, true).1.Ingested?
    ensures var later := IngestAll(Ingest(log, run, at, true).0, between);
            Ingest(later, run, again, lands) == (later, Ingested(Ingest(log, run, at, true).1.evidence, true))
  {
    var (after, made) := Ingest(log, run, at, true);
    IngestionKeepsLogValid(log, run, at, true);
    assert made.evidence in after by {
      if !made.alreadyRecorded {
        assert after[|log|] == made.evidence;
      }
    }
    IngestAllExtends(after, between);
    var later := IngestAll(after, between);
    assert made.evidence in later by {
      var i :| 0 <= i < |after| && after[i] == made.evidence;
      assert later[i] == made.evidence;
    }
    FindFirst(later, made.evidence);
  }

  function IngestAll(log: seq<EvidenceRecord>, runs: seq<(Run, int, bool)>): seq<EvidenceRecord>
    decreases |runs|
  {
    if runs == [] then log else IngestAll(Ingest(log, runs[0].0, runs[0].1, runs[0].2).0, runs[1..])
  }

  /** The log is append-only over any sequence of ingestions, and never holds an event twice. */
  lemma {:induction false} IngestAllExtends(log: seq<EvidenceRecord>, runs: seq<(Run, int, bool)>)
    requires ValidLog(log)
    ensures ValidLog(IngestAll(log, runs)) && log <= IngestAll(log, runs)
    decreases |runs|
  {
    if runs != [] {
      IngestionKeepsLogValid(log, runs[0].0, runs[0].1, runs[0].2);
      IngestAllExtends(Ingest(log, runs[0].0, runs[0].1, runs[0].2).0, runs[1..]);
    }
  }

  class EvidenceStore {
    var saved: seq<EvidenceRecord>

    constructor ()
      ensures saved == []
    {
      saved := [];
    }

    /** An atomic replacement of the whole document: it lands whole or changes nothing. */
    method Save(document: seq<EvidenceRecord>, lands: bool) returns (ok: bool)
      modifies this
      ensures ok == lands && saved == if lands then document else old(saved)
    {
      if lands {
        saved := document;
      }
      ok := lands;
    }
  }

  class EvidenceService {
    const store: EvidenceStore

    constructor (store: EvidenceStore)
      ensures this.store == store
    {
      this.store := store;
    }

    /** Would recording this run find it already recorded? Nothing is written. */
    function Preview(run: Run): (r: Option<bool>)
      reads store
      ensures r.Some? <==> run.response.Some? && run.scopeReadable
      ensures r == Some(true) <==> r.Some? && exists x :: x in store.saved && x.id == run.event
    {
      if run.response.None? || !run.scopeReadable then None else Some(Find(store.saved, run.event).Some?)
    }

    /** Confirm one run into durable evidence, once. */
    method RecordIngestion(run: Run, at: int, lands: bool) returns (r: Ingestion)
      requires ValidLog(store.saved)
      modifies store
      ensures ValidLog(store.saved) && (store.saved, r) == Ingest(old(store.saved), run, at, lands)
      ensures r.Ingested? ==> old(Preview(run)) == Some(r.alreadyRecorded)
    {
      if run.response.None? {
        return Refused;
      }
      var log := store.saved;
      var existing := Find(log, run.event);
      if !run.scopeReadable {
        return Refused;
      }
      if existing.Some? {
        return Ingested(existing.value, true);
      }
      var evidence := RecordOf(run, at);
      if |log| >= MAX_RECORDS {
        return Refused;
      }
      var ok := store.Save(log + [evidence], lands);
      if !ok {
        return Refused;
      }
      r := Ingested(evidence, false);
    }
  }
}
