/**
 * The incident store: records kept newest first in memory, with the whole
 * list rewritten to the data file after every change.
 */
module Incidents {
  import opened Wrappers
  import opened IdFormat

  /** One stored incident. `openedAt` is the ISO timestamp taken at creation. */
  datatype Incident = Incident(
    id: string,
    severity: string,
    service: string,
    summary: string,
    openedAt: string,
    acknowledged: bool)

  /** The body of a create request: each key may be absent. */
  datatype CreateRequest = CreateRequest(
    severity: Option<string>,
    service: Option<string>,
    summary: Option<string>)

  const DEFAULT_SEVERITY: string := "info"
  const DEFAULT_SERVICE: string := "unknown"
  const DEFAULT_SUMMARY: string := "Sem descrição"

  /**
   * The record created when the store holds `count` incidents: number
   * 1000 + count, supplied keys copied, missing keys defaulted, never
   * acknowledged.
   */
  function NewIncident(req: CreateRequest, openedAt: string, count: nat): (inc: Incident)
    ensures inc.id == IdString(ID_BASE + count)
    ensures req.severity.Some? ==> inc.severity == req.severity.value
    ensures req.severity.None? ==> inc.severity == DEFAULT_SEVERITY
    ensures req.service.Some? ==> inc.service == req.service.value
    ensures req.service.None? ==> inc.service == DEFAULT_SERVICE
    ensures req.summary.Some? ==> inc.summary == req.summary.value
    ensures req.summary.None? ==> inc.summary == DEFAULT_SUMMARY
    ensures inc.openedAt == openedAt && !inc.acknowledged
  {
    Incident(
      IdString(ID_BASE + count),
      req.severity.GetOr(DEFAULT_SEVERITY),
      req.service.GetOr(DEFAULT_SERVICE),
      req.summary.GetOr(DEFAULT_SUMMARY),
      openedAt,
      false)
  }

  /**
   * The data file: absent, present but not parsable, or present and
   * holding a list of records.
   */
  datatype DataFile = Missing | Corrupt | Written(records: seq<Incident>)

  /** The list the store starts from: a missing or unparsable file reads as empty. */
  function LoadData(file: DataFile): (r: seq<Incident>)
    ensures file.Written? ==> r == file.records
    ensures !file.Written? ==> r == []
  {
    match file
    case Missing => []
    case Corrupt => []
    case Written(records) => records
  }

  /** The file written for `incidents`; loading it back gives the same list. */
  function SaveData(incidents: seq<Incident>): (file: DataFile)
    ensures LoadData(file) == incidents
  {
    Written(incidents)
  }

  /** The message returned by clear. */
  datatype Ack = Ack(status: string, message: string)

  const CLEARED: Ack := Ack("success", "Todos os incidentes foram apagados.")

  /**
   * Element i (0 is the newest) carries number 1000 + |s| - 1 - i: what a
   * store that started empty and only saw creates and clears holds.
   */
  ghost predicate WellNumbered(s: seq<Incident>) {
    forall i :: 0 <= i < |s| ==> s[i].id == IdString(ID_BASE + |s| - 1 - i)
  }

  ghost predicate DistinctIds(s: seq<Incident>) {
    forall i, j :: 0 <= i < j < |s| ==> s[i].id != s[j].id
  }

  /** Putting the next record at the head keeps the numbering. */
  lemma CreatePreservesNumbering(s: seq<Incident>, req: CreateRequest, openedAt: string)
    requires WellNumbered(s)
    ensures WellNumbered([NewIncident(req, openedAt, |s|)] + s)
  {
  }

  /** Within a well-numbered store no two incidents share an identifier. */
  lemma WellNumberedIdsDistinct(s: seq<Incident>)
    requires WellNumbered(s)
    ensures DistinctIds(s)
  {
    forall i, j | 0 <= i < j < |s|
      ensures s[i].id != s[j].id
    {
      IdStringInjective(ID_BASE + |s| - 1 - i, ID_BASE + |s| - 1 - j);
    }
  }

  /**
   * The store after the given creates, oldest first, starting from an
   * empty store (each request paired with its creation time).
   */
  function Replay(requests: seq<(CreateRequest, string)>): (s: seq<Incident>)
    ensures |s| == |requests|
    decreases |requests|
  {
    if requests == [] then []
    else
      var earlier := Replay(requests[..|requests| - 1]);
      var last := requests[|requests| - 1];
      [NewIncident(last.0, last.1, |earlier|)] + earlier
  }

  /** After N creates from empty, the list holds them newest first, numbered by creation order. */
  lemma {:induction false} ReplayNewestFirst(requests: seq<(CreateRequest, string)>)
    ensures forall i :: 0 <= i < |requests| ==>
      Replay(requests)[i] == NewIncident(requests[|requests| - 1 - i].0, requests[|requests| - 1 - i].1, |requests| - 1 - i)
    decreases |requests|
  {
    if requests != [] {
      var n := |requests|;
      var front := requests[..n - 1];
      ReplayNewestFirst(front);
      forall i | 0 <= i < n
        ensures Replay(requests)[i] == NewIncident(requests[n - 1 - i].0, requests[n - 1 - i].1, n - 1 - i)
      {
        if i > 0 {
          assert Replay(requests)[i] == Replay(front)[i - 1];
          assert front[|front| - 1 - (i - 1)] == requests[n - 1 - i];
        }
      }
    }
  }

  /** A store built by creates from empty is well numbered, so its identifiers are distinct. */
  lemma ReplayIdsDistinct(requests: seq<(CreateRequest, string)>)
    ensures WellNumbered(Replay(requests))
    ensures DistinctIds(Replay(requests))
  {
    ReplayNewestFirst(requests);
    WellNumberedIdsDistinct(Replay(requests));
  }

  /**
   * The in-memory list of incidents and the data file it is persisted to.
   */
  class IncidentStore {
    var incidents: seq<Incident>
    var file: DataFile

    /** The file holds exactly the in-memory list. */
    ghost predicate Persisted()
      reads this
    {
      file == SaveData(incidents)
    }

    ghost predicate Numbered()
      reads this
    {
      WellNumbered(incidents)
    }

    /** Process start: load the list from the file found on disk. */
    constructor (stored: DataFile)
      ensures incidents == LoadData(stored) && file == stored
    {
      incidents := LoadData(stored);
      file := stored;
    }

    /** Every incident, newest first. */
    method List() returns (r: seq<Incident>)
      ensures r == incidents
    {
      r := incidents;
    }

    /** Rewrite the whole file with the current list. */
    method Save()
      modifies this`file
      ensures Persisted()
    {
      file := SaveData(incidents);
    }

    /** Build the record, put it at the head, persist the whole list. */
    method Create(req: CreateRequest, openedAt: string) returns (inc: Incident)
      modifies this
      ensures inc == NewIncident(req, openedAt, |old(incidents)|)
      ensures incidents == [inc] + old(incidents)
      ensures Persisted()
      ensures old(Numbered()) ==> Numbered()
    {
      inc := NewIncident(req, openedAt, |incidents|);
      if Numbered() {
        CreatePreservesNumbering(incidents, req, openedAt);
      }
      incidents := [inc] + incidents;
      Save();
    }

    /** Empty the list and persist the empty list. */
    method Clear() returns (ack: Ack)
      modifies this
      ensures incidents == [] && Persisted() && Numbered()
      ensures ack == CLEARED
    {
      incidents := [];
      Save();
      ack := CLEARED;
    }
  }

  /** Clearing makes the next create hand out `INC-1000` again, whatever the store held. */
  method ClearThenCreate(store: IncidentStore, req: CreateRequest, openedAt: string) returns (inc: Incident)
    modifies store
    ensures inc.id == IdString(ID_BASE) && store.incidents == [inc]
    ensures store.Persisted()
  {
    var _ := store.Clear();
    inc := store.Create(req, openedAt);
  }

  /**
   * N creates, oldest first, on a store started from a missing data file:
   * the store ends as `Replay` says, with distinct identifiers.
   */
  method CreateInSequence(requests: seq<(CreateRequest, string)>) returns (store: IncidentStore)
    ensures store.incidents == Replay(requests)
    ensures DistinctIds(store.incidents)
    ensures requests != [] ==> store.Persisted()
  {
    store := new IncidentStore(Missing);
    var i := 0;
    while i < |requests|
      invariant 0 <= i <= |requests|
      invariant store.incidents == Replay(requests[..i])
      invariant i > 0 ==> store.Persisted()
    {
      var _ := store.Create(requests[i].0, requests[i].1);
      assert requests[..i + 1][..i] == requests[..i];
      i := i + 1;
    }
    assert requests[..i] == requests;
    ReplayIdsDistinct(requests);
  }

  /** A restart after any persisted state loads back the same list. */
  method Restart(store: IncidentStore) returns (restarted: IncidentStore)
    requires store.Persisted()
    ensures restarted.incidents == store.incidents && restarted.Persisted()
  {
    restarted := new IncidentStore(store.file);
  }
}
