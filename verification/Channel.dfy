/** The per-session event log: lookups, appends, retry equivalence and the cached phase. */
module Channel {
  import opened Prelude
  import opened Text
  import opened Events
  import Cursors

  // ---- Lookups ---------------------------------------------------------------------------

  /** The phase of a session is the phase of its last event. */
  function LatestPhase(log: Log): Phase {
    if log == [] then Created else log[|log| - 1].phase
  }

  predicate HasId(log: Log, id: string) {
    exists i :: 0 <= i < |log| && log[i].id == id
  }

  /** Event ids occur at most once. */
  ghost predicate UniqueIds(log: Log) {
    forall i, j :: 0 <= i < j < |log| ==> log[i].id != log[j].id
  }

  /** The first event with this id. */
  function EventById(log: Log, id: string): (r: Option<Event>)
    ensures r.Some? <==> HasId(log, id)
    ensures r.Some? ==> r.value in log && r.value.id == id
  {
    if log == [] then None
    else
      var earlier := EventById(log[..|log| - 1], id);
      if earlier.Some? then earlier
      else if log[|log| - 1].id == id then Some(log[|log| - 1])
      else None
  }

  function EventByIdAndType(log: Log, id: string, typ: EventType): (r: Option<Event>)
    ensures r.Some? ==> r.value in log && r.value.id == id && r.value.typ == typ
  {
    if log == [] then None
    else
      var earlier := EventByIdAndType(log[..|log| - 1], id, typ);
      if earlier.Some? then earlier
      else if log[|log| - 1].id == id && log[|log| - 1].typ == typ then Some(log[|log| - 1])
      else None
  }

  /** The offset of the first event written under a command id. */
  function FirstWithCommand(log: Log, commandId: string): (r: Option<nat>)
    ensures r.Some? ==> r.value < |log| && log[r.value].commandId == commandId
    ensures r.Some? ==> forall i :: 0 <= i < r.value ==> log[i].commandId != commandId
    ensures r.None? ==> forall i :: 0 <= i < |log| ==> log[i].commandId != commandId
  {
    if log == [] then None
    else
      var earlier := FirstWithCommand(log[..|log| - 1], commandId);
      if earlier.Some? then earlier
      else if log[|log| - 1].commandId == commandId then Some(|log| - 1)
      else None
  }

  lemma {:induction false} EventByIdExtends(log: Log, longer: Log, id: string)
    requires log <= longer && HasId(log, id)
    ensures EventById(longer, id) == EventById(log, id)
  {
    if |log| < |longer| {
      EventByIdExtends(log, longer[..|longer| - 1], id);
    } else {
      assert log == longer;
    }
  }

  lemma {:induction false} EventByIdAndTypeExtends(log: Log, longer: Log, id: string, typ: EventType)
    requires log <= longer && EventByIdAndType(log, id, typ).Some?
    ensures EventByIdAndType(longer, id, typ) == EventByIdAndType(log, id, typ)
  {
    if |log| < |longer| {
      EventByIdAndTypeExtends(log, longer[..|longer| - 1], id, typ);
    } else {
      assert log == longer;
    }
  }

  /** With unique ids a lookup finds the event at whichever offset carries the id. */
  lemma {:induction false} EventByIdAt(log: Log, i: nat)
    requires UniqueIds(log) && i < |log|
    ensures EventById(log, log[i].id) == Some(log[i])
  {
    var init := log[..|log| - 1];
    if i < |init| {
      EventByIdAt(init, i);
      assert init[i] == log[i];
    } else {
      forall k | 0 <= k < |init| ensures init[k].id != log[i].id {
        assert init[k] == log[k];
      }
    }
  }

  // ---- Participant runtime evidence ------------------------------------------------------

  /** The session handle of a member; a truncated digest of both names in the source. */
  function Handle(sessionId: string, member: string): (h: string)
    ensures h != ""
  {
    "psh_" + Trim(sessionId) + "\0" + Trim(member)
  }

  function RowGeneration(rows: seq<RuntimeRow>, member: string, handle: string): int {
    if rows == [] then 0
    else if rows[0].member == member && rows[0].handle == handle && rows[0].generation > 0 then rows[0].generation
    else RowGeneration(rows[1..], member, handle)
  }

  /** The generation recorded by the latest evidence that has a row for the member, or one. */
  function Generation(log: Log, member: string, handle: string): int {
    if log == [] then 1
    else
      var e := log[|log| - 1];
      var found := if e.payload.runtime.Some? then RowGeneration(e.payload.runtime.value.rows, member, handle) else 0;
      if found > 0 then found else Generation(log[..|log| - 1], member, handle)
  }

  function RuntimeRows(meta: Metadata, log: Log, e: Event, cursor: string, members: seq<string>): (rows: seq<RuntimeRow>)
    ensures |rows| == |members|
    ensures forall i :: 0 <= i < |rows| ==>
              rows[i] == RuntimeRow(members[i], Handle(meta.id, members[i]),
                                    Generation(log, members[i], Handle(meta.id, members[i])), e.id, cursor)
  {
    if members == [] then []
    else
      [RuntimeRow(members[0], Handle(meta.id, members[0]),
                  Generation(log, members[0], Handle(meta.id, members[0])), e.id, cursor)]
      + RuntimeRows(meta, log, e, cursor, members[1..])
  }

  /** Every speech is stamped with the cursor it will have and one row per council member. */
  function Prepare(meta: Metadata, log: Log, e: Event): Event {
    if e.typ != Speech then e
    else
      var cursor := Cursors.Print(|log|, e.id);
      e.(payload := e.payload.(runtime := Some(RuntimeEvidence(
        e.id, cursor, RuntimeRows(meta, log, e, cursor, CouncilMembers(meta))))))
  }

  // ---- Appending -------------------------------------------------------------------------

  datatype Receipt = Receipt(cursor: string, offset: nat, eventId: string, deduplicated: bool)

  /** A command's effect: the log afterwards and what the caller is told. */
  datatype Outcome = Outcome(log: Log, result: Result<Receipt>)

  /** The record that an append writes. */
  function Stored(meta: Metadata, log: Log, e: Event): Event {
    Prepare(meta, log, e).(to := SortStrings(e.to))
  }

  /** `foreign` are the command ids used by other sessions. */
  function AppendError(meta: Metadata, log: Log, e: Event, foreign: set<string>): Option<Failure> {
    if HasId(log, e.id) then Some(DuplicateEventId)
    else if !ValidEnvelope(meta, e) then Some(Invalid("envelope"))
    else if Trim(e.commandId) != "" && Trim(e.commandId) in foreign then Some(Conflict("command_id"))
    else None
  }

  function Append(meta: Metadata, log: Log, e: Event, foreign: set<string>): Outcome {
    var error := AppendError(meta, log, e, foreign);
    if error.Some? then Outcome(log, Err(error.value))
    else Outcome(log + [Stored(meta, log, e)], Ok(Receipt(Cursors.Print(|log|, e.id), |log|, e.id, false)))
  }

  /** Retry equivalence: the creation time, the turn and the runner do not count. */
  predicate Equivalent(a: Event, b: Event) {
    a.typ == b.typ && a.commandId == b.commandId && a.causation == b.causation && a.phase == b.phase
    && a.from == b.from && a.to == b.to && a.payload == b.payload
  }

  function Retried(log: Log, offset: nat): Result<Receipt>
    requires offset < |log|
  {
    Ok(Receipt(Cursors.Print(offset, log[offset].id), offset, log[offset].id, true))
  }

  function AppendIdempotent(meta: Metadata, log: Log, e: Event, foreign: set<string>): Outcome {
    var prepared := Prepare(meta, log, e);
    var first := FirstWithCommand(log, e.commandId);
    if e.commandId != "" && first.Some? then
      Outcome(log, if Equivalent(log[first.value], prepared) then Retried(log, first.value)
                   else Err(Conflict("command_id")))
    else Append(meta, log, e, foreign)
  }

  // ---- The cached phase ------------------------------------------------------------------

  /** The phase kept in session.yaml follows the log but never leaves a terminal phase. */
  function CachedPhase(log: Log): Phase {
    if log == [] then Created
    else
      var before := CachedPhase(log[..|log| - 1]);
      if Terminal(before) then before else log[|log| - 1].phase
  }

  /** The cached phase is terminal exactly when some event ever was, whatever the log says later;
      until then it is the phase of the last event. */
  lemma {:induction false} CachedPhaseSticky(log: Log)
    ensures Terminal(CachedPhase(log)) <==> exists i :: 0 <= i < |log| && Terminal(log[i].phase)
    ensures !Terminal(CachedPhase(log)) ==> CachedPhase(log) == LatestPhase(log)
  {
    if log != [] {
      var init := log[..|log| - 1];
      CachedPhaseSticky(init);
      assert forall i :: 0 <= i < |init| ==> init[i] == log[i];
      if Terminal(CachedPhase(init)) {
        var i :| 0 <= i < |init| && Terminal(init[i].phase);
        assert Terminal(log[i].phase);
      }
    }
  }

  function LastTurn(log: Log): int {
    if log == [] then 0
    else if log[|log| - 1].turn.Some? then log[|log| - 1].turn.value
    else LastTurn(log[..|log| - 1])
  }

  function LastSpeaker(log: Log): string {
    if log == [] then ""
    else if log[|log| - 1].typ == Speech then log[|log| - 1].from
    else LastSpeaker(log[..|log| - 1])
  }

  /** A session directory: its log and the state cached beside it. */
  class Session {
    const meta: Metadata
    var events: Log
    var phase: Phase
    var status: Status
    var currentTurn: int
    var lastSpeaker: string

    ghost predicate Valid()
      reads this
    {
      && phase == CachedPhase(events) && status == StatusFromPhase(phase)
      && currentTurn == LastTurn(events) && lastSpeaker == LastSpeaker(events)
    }

    constructor (meta: Metadata)
      ensures Valid() && events == [] && this.meta == meta
    {
      this.meta := meta;
      events, phase, status, currentTurn, lastSpeaker := [], Created, StatusOpen, 0, "";
    }

    method FindById(id: string) returns (found: Option<Event>)
      ensures found == EventById(events, id)
    {
      found := None;
      for i := 0 to |events|
        invariant found == EventById(events[..i], id)
      {
        assert events[..i + 1][..i] == events[..i];
        if found == None && events[i].id == id {
          found := Some(events[i]);
        }
      }
      assert events[..|events|] == events;
    }

    /** Writes a record and brings the cached state up to date. */
    method Write(stored: Event)
      requires Valid()
      modifies this
      ensures Valid() && events == old(events) + [stored]
    {
      events := events + [stored];
      assert events[..|events| - 1] == old(events);
      if !(status == StatusTerminal || Terminal(phase)) {
        phase, status := stored.phase, StatusFromPhase(stored.phase);
      }
      if stored.turn.Some? {
        currentTurn := stored.turn.value;
      }
      if stored.typ == Speech {
        lastSpeaker := stored.from;
      }
    }

    method AppendEvent(e: Event, foreign: set<string>) returns (r: Result<Receipt>)
      requires Valid()
      modifies this
      ensures Valid()
      ensures Outcome(events, r) == Append(meta, old(events), e, foreign)
    {
      var found := FindById(e.id);
      if found.Some? {
        return Err(DuplicateEventId);
      }
      if !ValidEnvelope(meta, e) {
        return Err(Invalid("envelope"));
      }
      if Trim(e.commandId) != "" && Trim(e.commandId) in foreign {
        return Err(Conflict("command_id"));
      }
      var offset := |events|;
      var stored := Prepare(meta, events, e);
      stored := stored.(to := SortStrings(stored.to));
      Write(stored);
      return Ok(Receipt(Cursors.Print(offset, e.id), offset, e.id, false));
    }

    method AppendIdempotentEvent(e: Event, foreign: set<string>) returns (r: Result<Receipt>)
      requires Valid()
      modifies this
      ensures Valid()
      ensures Outcome(events, r) == AppendIdempotent(meta, old(events), e, foreign)
    {
      var prepared := Prepare(meta, events, e);
      if e.commandId != "" {
        for offset := 0 to |events|
          invariant Valid() && events == old(events)
          invariant forall i :: 0 <= i < offset ==> events[i].commandId != e.commandId
        {
          if events[offset].commandId == e.commandId {
            if Equivalent(events[offset], prepared) {
              return Ok(Receipt(Cursors.Print(offset, events[offset].id), offset, events[offset].id, true));
            }
            return Err(Conflict("command_id"));
          }
        }
      }
      r := AppendEvent(e, foreign);
    }
  }
}
