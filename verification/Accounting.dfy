/** Selected-runner accounting: one pass over the log ties runner events to the grants they work
    for, and a verdict on every grant follows. */
module Accounting {
  import opened Prelude
  import opened Text
  import opened Events

  // ---- Delivery evidence -----------------------------------------------------------------

  function DeliveryStatus(d: Delivery): string {
    var status := Trim(d.status);
    if status == "posted" && (d.hasMessagePointer || d.hasOtherPointer) then "posted"
    else if status == "failed" && d.hasFailureReason then "failed"
    else if status == "pending_followup" && d.hasFollowupPointer then "pending_followup"
    else if status != "" then "missing/unproven"
    else if d.hasFailureReason then "failed"
    else if d.hasFollowupPointer then "pending_followup"
    else if d.hasMessagePointer || d.hasOtherPointer then "posted"
    else "missing/unproven"
  }

  /** The first of the evidence keys that holds an object. */
  function FirstDelivery(slots: seq<DeliverySlot>): Option<Delivery> {
    if slots == [] then None
    else if slots[0].OneDelivery? then Some(slots[0].one)
    else FirstDelivery(slots[1..])
  }

  function EvidenceOf(e: Event): Option<Delivery> {
    FirstDelivery(e.payload.runner.deliveries)
  }

  predicate LinksSpeech(d: Delivery, speechId: string) {
    exists i :: 0 <= i < |d.references| && Trim(d.references[i]) == speechId
  }

  predicate NeedsDelivery(meta: Metadata) {
    DiscordThread(meta)
  }

  predicate SurfaceFieldOk(expected: string, observed: string) {
    Trim(expected) == "" || Trim(observed) == Trim(expected)
  }

  /** Does this evidence prove that the member itself delivered the speech into the bound thread? */
  predicate DeliveryProves(meta: Metadata, member: string, d: Delivery, speechId: string)
    requires meta.surface.Some?
  {
    var surface := meta.surface.value;
    && DeliveryStatus(d) == "posted" && Trim(d.kind) == "discord_thread"
    && SurfaceFieldOk(surface.platform, d.platform) && SurfaceFieldOk(surface.channelId, d.channelId)
    && Trim(d.messageId) != "" && Trim(d.postingPath) == "selected_member_profile_send" && Trim(d.senderMember) == member
    && SurfaceFieldOk(surface.threadId, d.threadId)
    && LinksSpeech(d, speechId)
  }

  predicate SpeechDelivered(meta: Metadata, member: string, e: Event)
    requires meta.surface.Some?
  {
    EvidenceOf(e).Some? && DeliveryProves(meta, member, EvidenceOf(e).value, e.id)
  }

  // ---- The books -------------------------------------------------------------------------

  datatype GrantRow = GrantRow(
    selectedId: string, member: string, turn: int, started: bool, runnerStatus: string,
    starts: seq<string>, succeeded: seq<string>, invocations: seq<string>, speeches: seq<string>,
    failures: seq<string>, discards: seq<string>, dispatchFailures: seq<string>)

  datatype Counters = Counters(
    selected: nat, started: nat, failed: nat, discarded: nat, dispatchFailed: nat, linkedSpeeches: nat,
    echoes: nat, runnerless: nat, manual: nat)

  const NO_COUNTS := Counters(0, 0, 0, 0, 0, 0, 0, 0, 0)

  /** The rows in selection order, where each grant's row is, and which grant an invocation serves. */
  datatype Ledger = Ledger(
    rows: seq<GrantRow>, grantIndex: map<string, nat>, invocationToGrant: map<string, string>,
    linked: map<string, Event>, succeededInvocations: set<string>, counters: Counters)

  predicate Wired(l: Ledger) {
    && (forall id :: id in l.grantIndex ==> l.grantIndex[id] < |l.rows| && l.rows[l.grantIndex[id]].selectedId == id)
    && (forall inv :: inv in l.invocationToGrant ==> l.invocationToGrant[inv] in l.grantIndex)
  }

  const NO_LEDGER := Ledger([], map[], map[], map[], {}, NO_COUNTS)

  type Books = l: Ledger | Wired(l) witness NO_LEDGER

  function SelectedMember(e: Event): string {
    Trim(if e.payload.member == "" && |e.to| == 1 then e.to[0] else e.payload.member)
  }

  function SpeechTurn(e: Event): int {
    if e.payload.turn != 0 then e.payload.turn else if e.turn.Some? then e.turn.value else 0
  }

  function AppendUnique(values: seq<string>, value: string): (r: seq<string>)
    ensures values <= r
    ensures forall v :: v in r <==> v in values || (v == Trim(value) && v != "")
  {
    if Trim(value) == "" || Trim(value) in values then values else values + [Trim(value)]
  }

  /** The first of the payload's references that names a known grant. */
  function Referenced(refs: seq<string>, grants: set<string>): (id: string)
    ensures id != "" ==> id in grants && id in refs
  {
    if refs == [] then ""
    else if refs[0] != "" && refs[0] in grants then refs[0]
    else Referenced(refs[1..], grants)
  }

  function GrantForSpeech(e: Event, grants: set<string>): (id: string)
    ensures id != "" ==> id in grants
  {
    var id := Referenced(e.payload.runner.grantRefs, grants);
    if id != "" then id else if e.causation in grants then e.causation else ""
  }

  /** An invocation already tied to a grant decides; then the payload's references; then the cause. */
  function Match(e: Event, grants: set<string>, invocationToGrant: map<string, string>): (id: string)
    requires forall inv :: inv in invocationToGrant ==> invocationToGrant[inv] in grants
    ensures id != "" ==> id in grants
  {
    if e.runner.Some? && e.runner.value.invocationId != "" && e.runner.value.invocationId in invocationToGrant
       && invocationToGrant[e.runner.value.invocationId] != ""
    then invocationToGrant[e.runner.value.invocationId]
    else GrantForSpeech(e, grants)
  }

  function MatchIn(l: Books, e: Event): (id: string)
    ensures id != "" ==> id in l.grantIndex
  {
    Match(e, l.grantIndex.Keys, l.invocationToGrant)
  }

  /** A runner speech fits a grant when member, turn, invocation and cause all agree. */
  predicate LinkMatches(e: Event, row: GrantRow) {
    && e.runner.Some? && e.runner.value.status == "succeeded"
    && row.member != "" && e.from == row.member && e.runner.value.member == row.member
    && row.turn > 0 && SpeechTurn(e) == row.turn
    && e.runner.value.invocationId != "" && e.runner.value.invocationId in row.invocations
    && GrantForSpeech(e, {row.selectedId}) == row.selectedId
  }

  function NewRow(e: Event): GrantRow {
    GrantRow(e.id, SelectedMember(e), Max(e.payload.turn, 0), false, "pending", [], [], [], [], [], [], [])
  }

  predicate MemberFits(row: GrantRow, e: Event)
    requires e.runner.Some?
  {
    row.member == "" || e.runner.value.member == row.member
  }

  /** A start that fits the row's member. */
  function Started(row: GrantRow, e: Event): GrantRow
    requires e.runner.Some?
  {
    row.(started := true, runnerStatus := "started", starts := AppendUnique(row.starts, e.id),
         invocations := if e.runner.value.invocationId != "" then AppendUnique(row.invocations, e.runner.value.invocationId)
                        else row.invocations)
  }

  function Succeeded(row: GrantRow, e: Event): GrantRow
    requires e.runner.Some?
  {
    row.(runnerStatus := "succeeded", invocations := AppendUnique(row.invocations, e.runner.value.invocationId),
         succeeded := AppendUnique(row.succeeded, e.id))
  }

  /** The runner status that a terminal event leaves on its row. */
  function TerminalStatus(e: Event, fallback: string): string {
    if e.runner.Some? && Trim(e.runner.value.status) != "" then Trim(e.runner.value.status)
    else if e.payload.reason == "dispatch_timeout" then "timeout"
    else if e.payload.runner.errorClass == "dispatch_timeout" then "timeout"
    else if e.payload.runner.errorClass != "" then e.payload.runner.errorClass
    else fallback
  }

  function WithTerminal(row: GrantRow, e: Event): GrantRow {
    match e.typ
    case RunnerFailed => row.(runnerStatus := TerminalStatus(e, "failed"), failures := AppendUnique(row.failures, e.id))
    case RunnerDiscarded =>
      row.(runnerStatus := TerminalStatus(e, "discarded_after_cancel"), discards := AppendUnique(row.discards, e.id))
    case DispatchFailed =>
      row.(runnerStatus := TerminalStatus(e, "dispatch_failed"), dispatchFailures := AppendUnique(row.dispatchFailures, e.id))
    case _ => row
  }

  function SetRow(l: Books, id: string, row: GrantRow): (r: Books)
    requires id in l.grantIndex && row.selectedId == id
    ensures r.grantIndex == l.grantIndex && r.invocationToGrant == l.invocationToGrant
    ensures r.rows == l.rows[l.grantIndex[id] := row]
  {
    l.(rows := l.rows[l.grantIndex[id] := row])
  }

  function RowFor(l: Books, id: string): (row: GrantRow)
    requires id in l.grantIndex
    ensures row.selectedId == id
  {
    l.rows[l.grantIndex[id]]
  }

  function NoteSelected(l: Books, e: Event): Books {
    l.(rows := l.rows + [NewRow(e)], grantIndex := l.grantIndex[e.id := |l.rows|],
       counters := l.counters.(selected := l.counters.selected + 1))
  }

  function NoteStarted(l: Books, e: Event): Books {
    hide Match, AppendUnique;
    var counted: Books := l.(counters := l.counters.(started := l.counters.started + 1));
    var id := MatchIn(l, e);
    if id == "" || e.runner == None || !MemberFits(RowFor(l, id), e) then counted
    else
      var next := SetRow(counted, id, Started(RowFor(l, id), e));
      if e.runner.value.invocationId == "" then next
      else next.(invocationToGrant := next.invocationToGrant[e.runner.value.invocationId := id])
  }

  function NoteSucceeded(l: Books, e: Event): Books {
    var id := MatchIn(l, e);
    if id == "" || e.runner == None || e.runner.value.status != "succeeded" || !MemberFits(RowFor(l, id), e)
       || e.runner.value.invocationId == "" then l
    else
      SetRow(l, id, Succeeded(RowFor(l, id), e)).(
        succeededInvocations := l.succeededInvocations + {e.runner.value.invocationId})
  }

  function NoteRunnerless(l: Books, echoIds: set<string>, e: Event): Books {
    if e.id in echoIds then l.(counters := l.counters.(echoes := l.counters.echoes + 1))
    else
      l.(counters := l.counters.(
           runnerless := l.counters.runnerless + 1,
           manual := l.counters.manual + if e.payload.runner.manualOrFallback then 1 else 0))
  }

  function NoteRunnerSpeech(l: Books, e: Event): Books {
    var id := MatchIn(l, e);
    if id == "" || !LinkMatches(e, RowFor(l, id)) then l
    else
      SetRow(l, id, RowFor(l, id).(speeches := AppendUnique(RowFor(l, id).speeches, e.id))).(
        linked := l.linked[e.id := e], counters := l.counters.(linkedSpeeches := l.counters.linkedSpeeches + 1))
  }

  function CountTerminal(c: Counters, typ: EventType): Counters {
    match typ
    case RunnerFailed => c.(failed := c.failed + 1)
    case RunnerDiscarded => c.(discarded := c.discarded + 1)
    case DispatchFailed => c.(dispatchFailed := c.dispatchFailed + 1)
    case _ => c
  }

  function NoteTerminal(l: Books, e: Event): Books
    requires e.typ in {RunnerFailed, RunnerDiscarded, DispatchFailed}
  {
    hide Match, AppendUnique, TerminalStatus;
    var counted: Books := l.(counters := CountTerminal(l.counters, e.typ));
    var id := MatchIn(l, e);
    if id == "" then counted else SetRow(counted, id, WithTerminal(RowFor(l, id), e))
  }

  function Note(l: Books, echoIds: set<string>, e: Event): Books {
    match e.typ
    case SpeakerSelected => NoteSelected(l, e)
    case RunnerStarted => NoteStarted(l, e)
    case RunnerSucceeded => NoteSucceeded(l, e)
    case Speech => if e.runner == None then NoteRunnerless(l, echoIds, e) else NoteRunnerSpeech(l, e)
    case RunnerFailed => NoteTerminal(l, e)
    case RunnerDiscarded => NoteTerminal(l, e)
    case DispatchFailed => NoteTerminal(l, e)
    case _ => l
  }

  function Account(echoIds: set<string>, log: Log): Books {
    if log == [] then NO_LEDGER else Note(Account(echoIds, log[..|log| - 1]), echoIds, log[|log| - 1])
  }

  // ---- The verdict -----------------------------------------------------------------------

  predicate TerminallyFailed(row: GrantRow) {
    row.failures != [] || row.discards != [] || row.dispatchFailures != []
  }

  /** Of the row's linked speeches the first that is on the books decides. */
  predicate DeliveryProven(meta: Metadata, speeches: seq<string>, member: string, linked: map<string, Event>)
    requires meta.surface.Some?
  {
    speeches != [] &&
    if speeches[0] in linked then SpeechDelivered(meta, member, linked[speeches[0]])
    else DeliveryProven(meta, speeches[1..], member, linked)
  }

  predicate Passes(meta: Metadata, row: GrantRow, linked: map<string, Event>) {
    && !TerminallyFailed(row) && row.turn > 0 && row.started && row.succeeded != [] && row.speeches != []
    && (NeedsDelivery(meta) ==> DeliveryProven(meta, row.speeches, row.member, linked))
  }

  /** The session passes when it has grants and each of them passes. */
  predicate SessionPasses(meta: Metadata, l: Ledger) {
    l.rows != [] && forall i :: 0 <= i < |l.rows| ==> Passes(meta, l.rows[i], l.linked)
  }

  // ---- The loop --------------------------------------------------------------------------

  /** The grants and the maps around them, updated in place event by event. */
  class Ledgers {
    var rows: seq<GrantRow>
    var grantIndex: map<string, nat>
    var invocationToGrant: map<string, string>
    var linked: map<string, Event>
    var succeededInvocations: set<string>
    var counters: Counters

    ghost function Contents(): Ledger
      reads this
    {
      Ledger(rows, grantIndex, invocationToGrant, linked, succeededInvocations, counters)
    }

    constructor ()
      ensures Contents() == NO_LEDGER
    {
      rows, grantIndex, invocationToGrant, linked, succeededInvocations, counters := [], map[], map[], map[], {}, NO_COUNTS;
    }

    method ObserveStarted(e: Event)
      requires Wired(Contents())
      modifies this
      ensures Contents() == NoteStarted(old(Contents()), e)
    {
      hide Started, AppendUnique, Match;
      counters := counters.(started := counters.started + 1);
      var id := Match(e, grantIndex.Keys, invocationToGrant);
      if id == "" || e.runner == None {
        return;
      }
      var n := grantIndex[id];
      if rows[n].member != "" && e.runner.value.member != rows[n].member {
        return;
      }
      rows := rows[n := Started(rows[n], e)];
      if e.runner.value.invocationId != "" {
        invocationToGrant := invocationToGrant[e.runner.value.invocationId := rows[n].selectedId];
      }
    }

    method ObserveSucceeded(e: Event)
      requires Wired(Contents())
      modifies this
      ensures Contents() == NoteSucceeded(old(Contents()), e)
    {
      hide Succeeded, AppendUnique, Match;
      var id := Match(e, grantIndex.Keys, invocationToGrant);
      if id == "" || e.runner == None || e.runner.value.status != "succeeded" {
        return;
      }
      var n := grantIndex[id];
      if rows[n].member != "" && e.runner.value.member != rows[n].member {
        return;
      }
      if e.runner.value.invocationId != "" {
        rows := rows[n := Succeeded(rows[n], e)];
        succeededInvocations := succeededInvocations + {e.runner.value.invocationId};
      }
    }

    method ObserveSpeech(echoIds: set<string>, e: Event)
      requires Wired(Contents()) && e.typ == Speech
      modifies this
      ensures Contents() == Note(old(Contents()), echoIds, e)
    {
      hide LinkMatches, AppendUnique, Match, GrantForSpeech, NoteStarted, NoteSucceeded, NoteTerminal, NoteSelected;
      if e.runner == None {
        if e.id in echoIds {
          counters := counters.(echoes := counters.echoes + 1);
          return;
        }
        counters := counters.(runnerless := counters.runnerless + 1);
        if e.payload.runner.manualOrFallback {
          counters := counters.(manual := counters.manual + 1);
        }
        return;
      }
      var id := Match(e, grantIndex.Keys, invocationToGrant);
      if id == "" {
        return;
      }
      var n := grantIndex[id];
      if LinkMatches(e, rows[n]) {
        counters := counters.(linkedSpeeches := counters.linkedSpeeches + 1);
        rows := rows[n := rows[n].(speeches := AppendUnique(rows[n].speeches, e.id))];
        linked := linked[e.id := e];
      }
    }

    method ObserveTerminal(e: Event)
      requires Wired(Contents()) && e.typ in {RunnerFailed, RunnerDiscarded, DispatchFailed}
      modifies this
      ensures Contents() == NoteTerminal(old(Contents()), e)
    {
      hide WithTerminal, Match, CountTerminal;
      counters := CountTerminal(counters, e.typ);
      var id := Match(e, grantIndex.Keys, invocationToGrant);
      if id != "" {
        var n := grantIndex[id];
        rows := rows[n := WithTerminal(rows[n], e)];
      }
    }

    method Observe(echoIds: set<string>, e: Event)
      requires Wired(Contents())
      modifies this
      ensures Contents() == Note(old(Contents()), echoIds, e)
    {
      hide NewRow;
      match e.typ {
        case SpeakerSelected =>
          rows, grantIndex := rows + [NewRow(e)], grantIndex[e.id := |rows|];
          counters := counters.(selected := counters.selected + 1);
        case RunnerStarted => ObserveStarted(e);
        case RunnerSucceeded => ObserveSucceeded(e);
        case Speech => ObserveSpeech(echoIds, e);
        case RunnerFailed => ObserveTerminal(e);
        case RunnerDiscarded => ObserveTerminal(e);
        case DispatchFailed => ObserveTerminal(e);
        case _ =>
      }
    }
  }

  /** The accounting of a log: the books after one pass and the session's verdict. */
  method SelectedRunnerAccounting(meta: Metadata, echoIds: set<string>, log: Log) returns (books: Ledgers, pass: bool)
    ensures fresh(books)
    ensures books.Contents() == Account(echoIds, log)
    ensures pass == SessionPasses(meta, Account(echoIds, log))
  {
    hide Note, Passes;
    books := new Ledgers();
    for i := 0 to |log|
      invariant fresh(books) && books.Contents() == Account(echoIds, log[..i])
    {
      assert log[..i + 1][..i] == log[..i];
      books.Observe(echoIds, log[i]);
    }
    assert log[..|log|] == log;
    pass := books.rows != [];
    for i := 0 to |books.rows|
      invariant pass == (books.rows != [] && forall k :: 0 <= k < i ==> Passes(meta, books.rows[k], books.linked))
    {
      pass := pass && Passes(meta, books.rows[i], books.linked);
    }
  }
}
