/** Delivery echoes: a separate pass over the log finds the runnerless speeches that only repeat a
    runner's visible delivery. It keeps books of its own, which agree with the accounting's. */
module Echoes {
  import opened Prelude
  import opened Text
  import opened Events
  import opened Accounting
  import opened AccountingSafety
  import Channel

  /** The delivery that stands for a member's turn. */
  datatype Canonical = Canonical(eventId: string, messageId: string)

  datatype EchoLedger = EchoLedger(
    rows: seq<GrantRow>, grantIndex: map<string, nat>, invocationToGrant: map<string, string>,
    canonical: map<(string, int), Canonical>)

  predicate EchoWired(l: EchoLedger) {
    && (forall id :: id in l.grantIndex ==> l.grantIndex[id] < |l.rows| && l.rows[l.grantIndex[id]].selectedId == id)
    && (forall inv :: inv in l.invocationToGrant ==> l.invocationToGrant[inv] in l.grantIndex)
  }

  const NO_ECHOES := EchoLedger([], map[], map[], map[])

  type EchoBooks = l: EchoLedger | EchoWired(l) witness NO_ECHOES

  /** Evidence of a message visible where the session expects it. */
  predicate VisiblyPosted(meta: Metadata, d: Delivery) {
    var kind, platform, messageId := Trim(d.kind), Trim(d.platform), Trim(d.messageId);
    && DeliveryStatus(d) == "posted"
    && (kind in {"visible_discord_message", "discord_thread"} || (platform == "discord" && messageId != ""))
    && (meta.surface.Some? ==>
          var surface := meta.surface.value;
          && (Trim(surface.platform) == "" || platform == "" || platform == Trim(surface.platform))
          && SurfaceFieldOk(surface.channelId, d.channelId) && SurfaceFieldOk(surface.threadId, d.threadId))
    && messageId != ""
  }

  function EchoMatch(l: EchoBooks, e: Event): (id: string)
    ensures id != "" ==> id in l.grantIndex
  {
    Match(e, l.grantIndex.Keys, l.invocationToGrant)
  }

  function EchoRow(l: EchoBooks, id: string): (row: GrantRow)
    requires id in l.grantIndex
    ensures row.selectedId == id
  {
    l.rows[l.grantIndex[id]]
  }

  function WithRow(l: EchoBooks, id: string, row: GrantRow): (r: EchoBooks)
    requires id in l.grantIndex && row.selectedId == id
    ensures r.rows == l.rows[l.grantIndex[id] := row]
    ensures r.grantIndex == l.grantIndex && r.invocationToGrant == l.invocationToGrant && r.canonical == l.canonical
  {
    l.(rows := l.rows[l.grantIndex[id] := row])
  }

  function EchoStarted(l: EchoBooks, e: Event): EchoBooks {
    hide Match, AppendUnique;
    var id := EchoMatch(l, e);
    if id == "" || e.runner == None || !MemberFits(EchoRow(l, id), e) then l
    else
      var next := WithRow(l, id, Started(EchoRow(l, id), e));
      if e.runner.value.invocationId == "" then next
      else next.(invocationToGrant := next.invocationToGrant[e.runner.value.invocationId := id])
  }

  function EchoSucceeded(l: EchoBooks, e: Event): EchoBooks {
    var id := EchoMatch(l, e);
    if id == "" || e.runner == None || e.runner.value.status != "succeeded" || !MemberFits(EchoRow(l, id), e)
       || e.runner.value.invocationId == "" then l
    else WithRow(l, id, Succeeded(EchoRow(l, id), e))
  }

  /** Is this runner speech, with its evidence, a visible delivery for its grant? */
  predicate IsCanonical(meta: Metadata, row: GrantRow, e: Event) {
    && row.started && row.succeeded != [] && LinkMatches(e, row)
    && (NeedsDelivery(meta) ==> SpeechDelivered(meta, row.member, e))
    && EvidenceOf(e).Some? && VisiblyPosted(meta, EvidenceOf(e).value)
  }

  function EchoSpeech(meta: Metadata, l: EchoBooks, e: Event): EchoBooks {
    var id := EchoMatch(l, e);
    if e.runner == None || id == "" || !IsCanonical(meta, EchoRow(l, id), e) then l
    else l.(canonical := l.canonical[(Trim(e.from), SpeechTurn(e)) := Canonical(e.id, Trim(EvidenceOf(e).value.messageId))])
  }

  function EchoStep(meta: Metadata, l: EchoBooks, e: Event): EchoBooks {
    match e.typ
    case SpeakerSelected => l.(rows := l.rows + [NewRow(e)], grantIndex := l.grantIndex[e.id := |l.rows|])
    case RunnerStarted => EchoStarted(l, e)
    case RunnerSucceeded => EchoSucceeded(l, e)
    case Speech => EchoSpeech(meta, l, e)
    case _ => l
  }

  function EchoFold(meta: Metadata, log: Log): EchoBooks {
    if log == [] then NO_ECHOES else EchoStep(meta, EchoFold(meta, log[..|log| - 1]), log[|log| - 1])
  }

  // ---- Echo ids --------------------------------------------------------------------------

  function Items(slots: seq<DeliverySlot>): seq<Delivery> {
    if slots == [] then []
    else
      match slots[0]
      case NoDelivery => Items(slots[1..])
      case OneDelivery(one) => [one] + Items(slots[1..])
      case ManyDeliveries(many) => many + Items(slots[1..])
  }

  predicate Repeats(meta: Metadata, e: Event, canonical: Canonical) {
    var items := Items(e.payload.runner.deliveries);
    exists i :: 0 <= i < |items| && VisiblyPosted(meta, items[i])
      && (LinksSpeech(items[i], canonical.eventId) || Trim(items[i].messageId) == canonical.messageId)
  }

  predicate IsEcho(meta: Metadata, canonical: map<(string, int), Canonical>, e: Event) {
    && e.typ == Speech && e.runner == None && e.id != "" && !e.payload.runner.manualOrFallback
    && Trim(e.from) != "" && SpeechTurn(e) > 0
    && (Trim(e.from), SpeechTurn(e)) in canonical
    && Repeats(meta, e, canonical[(Trim(e.from), SpeechTurn(e))])
  }

  function EchoIds(meta: Metadata, canonical: map<(string, int), Canonical>, log: Log): (ids: set<string>)
    ensures forall id :: id in ids <==> exists k :: 0 <= k < |log| && log[k].id == id && IsEcho(meta, canonical, log[k])
  {
    if log == [] then {}
    else
      var rest, e := EchoIds(meta, canonical, log[..|log| - 1]), log[|log| - 1];
      assert log == log[..|log| - 1] + [e];
      if IsEcho(meta, canonical, e) then rest + {e.id} else rest
  }

  /** The ids of the runnerless speeches that count as echoes. */
  function VisibleEchoIds(meta: Metadata, log: Log): set<string> {
    EchoIds(meta, EchoFold(meta, log).canonical, log)
  }

  // ---- The two loops ---------------------------------------------------------------------

  method ObserveEchoSelected(before: EchoBooks, e: Event) returns (l: EchoBooks)
    ensures l == before.(rows := before.rows + [NewRow(e)], grantIndex := before.grantIndex[e.id := |before.rows|])
  {
    var rows, grantIndex := before.rows, before.grantIndex;
    rows := rows + [NewRow(e)];
    grantIndex := grantIndex[e.id := |rows| - 1];
    return EchoLedger(rows, grantIndex, before.invocationToGrant, before.canonical);
  }

  method ObserveEchoStarted(before: EchoBooks, e: Event) returns (l: EchoBooks)
    ensures l == EchoStarted(before, e)
  {
    hide Match, AppendUnique;
    l := before;
    var id := EchoMatch(l, e);
    if id == "" || e.runner == None || (EchoRow(l, id).member != "" && e.runner.value.member != EchoRow(l, id).member) {
      return;
    }
    l := WithRow(l, id, Started(EchoRow(l, id), e));
    if e.runner.value.invocationId != "" {
      l := l.(invocationToGrant := l.invocationToGrant[e.runner.value.invocationId := id]);
    }
  }

  method ObserveEchoSucceeded(before: EchoBooks, e: Event) returns (l: EchoBooks)
    ensures l == EchoSucceeded(before, e)
  {
    hide Match, AppendUnique;
    l := before;
    var id := EchoMatch(l, e);
    if id == "" || e.runner == None || e.runner.value.status != "succeeded" {
      return;
    }
    if EchoRow(l, id).member != "" && e.runner.value.member != EchoRow(l, id).member {
      return;
    }
    if e.runner.value.invocationId != "" {
      l := WithRow(l, id, Succeeded(EchoRow(l, id), e));
    }
  }

  method ObserveEchoSpeech(meta: Metadata, before: EchoBooks, e: Event) returns (l: EchoBooks)
    ensures l == EchoSpeech(meta, before, e)
  {
    hide Match, LinkMatches, SpeechDelivered, VisiblyPosted, EvidenceOf;
    l := before;
    if e.runner == None {
      return;
    }
    var id := EchoMatch(l, e);
    if id == "" || !IsCanonical(meta, EchoRow(l, id), e) {
      return;
    }
    var key := (Trim(e.from), SpeechTurn(e));
    l := l.(canonical := l.canonical[key := Canonical(e.id, Trim(EvidenceOf(e).value.messageId))]);
  }

  method ObserveEcho(meta: Metadata, before: EchoBooks, e: Event) returns (l: EchoBooks)
    ensures l == EchoStep(meta, before, e)
  {
    hide EchoStarted, EchoSucceeded, EchoSpeech, NewRow;
    match e.typ {
      case SpeakerSelected => l := ObserveEchoSelected(before, e);
      case RunnerStarted => l := ObserveEchoStarted(before, e);
      case RunnerSucceeded => l := ObserveEchoSucceeded(before, e);
      case Speech => l := ObserveEchoSpeech(meta, before, e);
      case _ => l := before;
    }
  }

  method SelectedRunnerVisibleEchoIds(meta: Metadata, log: Log) returns (ids: set<string>)
    ensures ids == VisibleEchoIds(meta, log)
  {
    hide EchoStep, IsEcho;
    var l: EchoBooks := NO_ECHOES;
    for i := 0 to |log|
      invariant l == EchoFold(meta, log[..i])
    {
      assert log[..i + 1][..i] == log[..i];
      l := ObserveEcho(meta, l, log[i]);
    }
    assert log[..|log|] == log;
    ids := {};
    for i := 0 to |log|
      invariant ids == EchoIds(meta, l.canonical, log[..i])
    {
      assert log[..i + 1][..i] == log[..i];
      if IsEcho(meta, l.canonical, log[i]) {
        ids := ids + {log[i].id};
      }
    }
  }

  // ---- The two folds agree ---------------------------------------------------------------

  /** What both folds know about a grant. */
  predicate SameGrant(a: GrantRow, b: GrantRow) {
    a.selectedId == b.selectedId && a.member == b.member && a.turn == b.turn && a.started == b.started
    && a.starts == b.starts && a.succeeded == b.succeeded && a.invocations == b.invocations
  }

  /** The canonical delivery of a member's turn is a speech that the accounting has linked. */
  ghost predicate Backed(main: Ledger, key: (string, int), canonical: Canonical) {
    && canonical.eventId in main.linked
    && var speech := main.linked[canonical.eventId];
       && speech.id == canonical.eventId && speech.typ == Speech && speech.runner.Some?
       && Trim(speech.from) == key.0 && SpeechTurn(speech) == key.1
       && exists n :: 0 <= n < |main.rows| && Trim(speech.id) in main.rows[n].speeches && main.rows[n].member == speech.from
            && main.rows[n].turn == key.1
  }

  ghost predicate Simulates(main: Ledger, echo: EchoLedger) {
    && |main.rows| == |echo.rows| && main.grantIndex == echo.grantIndex && main.invocationToGrant == echo.invocationToGrant
    && (forall n :: 0 <= n < |main.rows| ==> SameGrant(main.rows[n], echo.rows[n]))
    && (forall key :: key in echo.canonical ==> Backed(main, key, echo.canonical[key]))
  }

  lemma BackedGrows(main: Ledger, later: Ledger, key: (string, int), canonical: Canonical)
    requires Backed(main, key, canonical) && LedgerGrows(main, later)
    ensures Backed(later, key, canonical)
  {
    hide Trim;
    var speech := main.linked[canonical.eventId];
    var n :| 0 <= n < |main.rows| && Trim(speech.id) in main.rows[n].speeches && main.rows[n].member == speech.from
             && main.rows[n].turn == key.1;
    assert RowGrows(main.rows[n], later.rows[n]);
  }

  lemma BackedStays(main: Ledger, later: Ledger, canonical: map<(string, int), Canonical>)
    requires LedgerGrows(main, later) && forall key :: key in canonical ==> Backed(main, key, canonical[key])
    ensures forall key :: key in canonical ==> Backed(later, key, canonical[key])
  {
    hide LedgerGrows, Backed;
    forall key | key in canonical ensures Backed(later, key, canonical[key]) {
      BackedGrows(main, later, key, canonical[key]);
    }
  }

  lemma SameStarted(a: GrantRow, b: GrantRow, e: Event)
    requires SameGrant(a, b) && e.runner.Some?
    ensures SameGrant(Started(a, e), Started(b, e)) && SameGrant(Succeeded(a, e), Succeeded(b, e))
    ensures LinkMatches(e, a) == LinkMatches(e, b) && MemberFits(a, e) == MemberFits(b, e)
  {
    hide AppendUnique, GrantForSpeech;
  }

  /** Both folds rewrite the same row, alike. */
  lemma SimulatesUpdate(main: Ledger, later: Ledger, echo: EchoLedger, after: EchoLedger, n: nat, a: GrantRow, b: GrantRow)
    requires Simulates(main, echo) && LedgerGrows(main, later) && n < |main.rows| && SameGrant(a, b)
    requires later.rows == main.rows[n := a] && after.rows == echo.rows[n := b]
    requires later.grantIndex == after.grantIndex && later.invocationToGrant == after.invocationToGrant
    requires after.canonical == echo.canonical
    ensures Simulates(later, after)
  {
    hide SameGrant, Backed, LedgerGrows;
    BackedStays(main, later, echo.canonical);
  }

  /** Does a start reach a row? */
  predicate StartFits(rows: seq<GrantRow>, grantIndex: map<string, nat>, id: string, e: Event) {
    id != "" && id in grantIndex && grantIndex[id] < |rows| && e.runner.Some? && MemberFits(rows[grantIndex[id]], e)
  }

  function Served(invocationToGrant: map<string, string>, id: string, e: Event): map<string, string> {
    if e.runner == None || e.runner.value.invocationId == "" then invocationToGrant
    else invocationToGrant[e.runner.value.invocationId := id]
  }

  lemma StartedShape(l: Books, e: Event)
    ensures var id, later := MatchIn(l, e), NoteStarted(l, e);
            later.grantIndex == l.grantIndex
            && if StartFits(l.rows, l.grantIndex, id, e)
               then var n := l.grantIndex[id];
                    later.rows == l.rows[n := Started(l.rows[n], e)] && later.invocationToGrant == Served(l.invocationToGrant, id, e)
               else later == l.(counters := later.counters)
  {
    hide Match, Started, MemberFits;
  }

  lemma EchoStartedShape(l: EchoBooks, e: Event)
    ensures var id, later := EchoMatch(l, e), EchoStarted(l, e);
            later.grantIndex == l.grantIndex && later.canonical == l.canonical
            && if StartFits(l.rows, l.grantIndex, id, e)
               then var n := l.grantIndex[id];
                    later.rows == l.rows[n := Started(l.rows[n], e)] && later.invocationToGrant == Served(l.invocationToGrant, id, e)
               else later == l
  {
    hide Match, Started, MemberFits;
  }

  lemma SimulatesStarted(main: Books, echo: EchoBooks, e: Event)
    requires Simulates(main, echo)
    ensures Simulates(NoteStarted(main, e), EchoStarted(echo, e))
  {
    hide Started, MemberFits, SameGrant, Match, LedgerGrows, Simulates, NoteStarted, EchoStarted;
    StartedGrows(main, e);
    StartedShape(main, e);
    EchoStartedShape(echo, e);
    SimulatesMaps(main, echo);
    var id := MatchIn(main, e);
    if id != "" && e.runner.Some? {
      var n := main.grantIndex[id];
      SimulatesAt(main, echo, n);
      SameStarted(main.rows[n], echo.rows[n], e);
      if MemberFits(main.rows[n], e) {
        SimulatesUpdate(main, NoteStarted(main, e), echo, EchoStarted(echo, e), n, Started(main.rows[n], e), Started(echo.rows[n], e));
        return;
      }
    }
    SimulatesCounted(main, echo, NoteStarted(main, e).counters);
  }

  lemma SimulatesMaps(main: Ledger, echo: EchoLedger)
    requires Simulates(main, echo)
    ensures |main.rows| == |echo.rows| && main.grantIndex == echo.grantIndex && main.invocationToGrant == echo.invocationToGrant
  {
  }

  lemma SimulatesAt(main: Ledger, echo: EchoLedger, n: nat)
    requires Simulates(main, echo) && n < |main.rows|
    ensures n < |echo.rows| && SameGrant(main.rows[n], echo.rows[n])
  {
    hide SameGrant;
  }

  lemma SimulatesCounted(main: Ledger, echo: EchoLedger, counters: Counters)
    requires Simulates(main, echo)
    ensures Simulates(main.(counters := counters), echo)
  {
    hide SameGrant;
  }

  lemma SimulatesSucceeded(main: Books, echo: EchoBooks, e: Event)
    requires Simulates(main, echo)
    ensures Simulates(NoteSucceeded(main, e), EchoSucceeded(echo, e))
  {
    hide Started, Succeeded, MemberFits, SameGrant, Match, Backed, LedgerGrows, LinkMatches;
    SucceededGrows(main, e);
    var id := MatchIn(main, e);
    if id != "" && e.runner.Some? {
      SameStarted(main.rows[main.grantIndex[id]], echo.rows[main.grantIndex[id]], e);
    }
    BackedStays(main, NoteSucceeded(main, e), echo.canonical);
  }

  /** A speech the echo pass takes as canonical is one that the accounting links. */
  lemma CanonicalIsLinked(meta: Metadata, echoIds: set<string>, main: Books, echo: EchoBooks, e: Event)
    requires Simulates(main, echo) && e.typ == Speech && e.runner.Some? && Trim(e.id) != ""
    requires EchoMatch(echo, e) != "" && IsCanonical(meta, EchoRow(echo, EchoMatch(echo, e)), e)
    ensures Backed(Note(main, echoIds, e), (Trim(e.from), SpeechTurn(e)), Canonical(e.id, Trim(EvidenceOf(e).value.messageId)))
  {
    hide Trim, Match, SpeechDelivered, EvidenceOf, GrantForSpeech, Backed;
    var id := MatchIn(main, e);
    var n := main.grantIndex[id];
    SameStarted(main.rows[n], echo.rows[n], e);
    var later := Note(main, echoIds, e);
    assert later.linked[e.id] == e;
    assert Trim(e.id) in later.rows[n].speeches && later.rows[n].member == e.from && later.rows[n].turn == SpeechTurn(e);
    BackedBy(later, e, n);
  }

  lemma BackedBy(main: Ledger, e: Event, n: nat)
    requires e.id in main.linked && main.linked[e.id] == e && e.typ == Speech && e.runner.Some?
    requires n < |main.rows| && Trim(e.id) in main.rows[n].speeches && main.rows[n].member == e.from
    requires main.rows[n].turn == SpeechTurn(e)
    ensures forall messageId :: Backed(main, (Trim(e.from), SpeechTurn(e)), Canonical(e.id, messageId))
  {
    hide Trim;
  }

  lemma SimulatesSpeech(meta: Metadata, echoIds: set<string>, main: Books, echo: EchoBooks, e: Event)
    requires Simulates(main, echo) && e.typ == Speech && e.id !in main.linked && Trim(e.id) != ""
    ensures Simulates(Note(main, echoIds, e), EchoStep(meta, echo, e))
  {
    hide LinkMatches, SameGrant, Match, Backed, LedgerGrows, IsCanonical, EvidenceOf, Trim, AppendUnique;
    NoteGrows(main, echoIds, e);
    var later, after := Note(main, echoIds, e), EchoStep(meta, echo, e);
    if after != echo {
      CanonicalIsLinked(meta, echoIds, main, echo, e);
    }
    forall n | 0 <= n < |later.rows| ensures SameGrant(later.rows[n], after.rows[n]) {
      SpeechKeepsGrant(main, echoIds, e, echo.rows[n], n);
    }
    forall key | key in after.canonical ensures Backed(later, key, after.canonical[key]) {
      if key in echo.canonical && after.canonical[key] == echo.canonical[key] {
        BackedGrows(main, later, key, echo.canonical[key]);
      }
    }
  }

  lemma RunnerSpeechKeepsGrant(main: Books, e: Event, row: GrantRow, n: nat)
    requires n < |main.rows| && SameGrant(main.rows[n], row)
    ensures |NoteRunnerSpeech(main, e).rows| == |main.rows| && SameGrant(NoteRunnerSpeech(main, e).rows[n], row)
    ensures NoteRunnerSpeech(main, e).grantIndex == main.grantIndex
    ensures NoteRunnerSpeech(main, e).invocationToGrant == main.invocationToGrant
  {
    hide LinkMatches, Match, AppendUnique;
  }

  lemma SpeechKeepsGrant(main: Books, echoIds: set<string>, e: Event, row: GrantRow, n: nat)
    requires e.typ == Speech && n < |main.rows| && SameGrant(main.rows[n], row)
    ensures |Note(main, echoIds, e).rows| == |main.rows| && SameGrant(Note(main, echoIds, e).rows[n], row)
    ensures Note(main, echoIds, e).grantIndex == main.grantIndex
    ensures Note(main, echoIds, e).invocationToGrant == main.invocationToGrant
  {
    hide NoteRunnerSpeech, SameGrant;
    RunnerSpeechKeepsGrant(main, e, row, n);
  }

  lemma SameAsItself(row: GrantRow)
    ensures SameGrant(row, row)
  {
  }

  lemma SimulatesSelected(meta: Metadata, echoIds: set<string>, main: Books, echo: EchoBooks, e: Event)
    requires Simulates(main, echo) && e.typ == SpeakerSelected
    ensures Simulates(Note(main, echoIds, e), EchoStep(meta, echo, e))
  {
    hide Backed, LedgerGrows, NewRow, SameGrant, EchoStarted, EchoSucceeded, EchoSpeech, NoteStarted, NoteSucceeded,
      NoteRunnerless, NoteRunnerSpeech, NoteTerminal;
    var later := Note(main, echoIds, e);
    SameAsItself(NewRow(e));
    SameBooksGrow(main, later);
    BackedStays(main, later, echo.canonical);
  }

  lemma SimulatesTerminal(main: Books, echo: EchoBooks, e: Event)
    requires Simulates(main, echo) && e.typ in {RunnerFailed, RunnerDiscarded, DispatchFailed}
    ensures Simulates(NoteTerminal(main, e), echo)
  {
    hide Match, Backed, LedgerGrows, SameGrant, WithTerminal, CountTerminal;
    TerminalGrows(main, e);
    var later := NoteTerminal(main, e);
    forall n | 0 <= n < |later.rows| ensures SameGrant(later.rows[n], echo.rows[n]) {
      TerminalKeepsGrant(main.rows[n], echo.rows[n], e);
    }
    BackedStays(main, later, echo.canonical);
  }

  lemma SimulatesRest(meta: Metadata, echoIds: set<string>, main: Books, echo: EchoBooks, e: Event)
    requires Simulates(main, echo) && e.typ !in {RunnerStarted, RunnerSucceeded, Speech, SpeakerSelected}
    ensures Simulates(Note(main, echoIds, e), EchoStep(meta, echo, e))
  {
    hide Simulates, NoteTerminal;
    if e.typ in {RunnerFailed, RunnerDiscarded, DispatchFailed} {
      SimulatesTerminal(main, echo, e);
    }
  }

  lemma TerminalKeepsGrant(a: GrantRow, b: GrantRow, e: Event)
    requires SameGrant(a, b)
    ensures SameGrant(WithTerminal(a, e), b)
  {
    hide AppendUnique, TerminalStatus;
  }

  /** On a log with unique, non-blank event ids the echo pass and the accounting agree on every
      grant: member, turn, starts, successes and invocations. */
  lemma {:induction false} EchoesSimulateAccounting(meta: Metadata, echoIds: set<string>, log: Log)
    requires Channel.UniqueIds(log) && forall k :: 0 <= k < |log| ==> !Blank(log[k].id)
    ensures Simulates(Account(echoIds, log), EchoFold(meta, log))
  {
    hide Note, EchoStep, Simulates;
    if log == [] {
      EmptySimulates();
    } else {
      var init, e := log[..|log| - 1], log[|log| - 1];
      assert forall k :: 0 <= k < |init| ==> init[k] == log[k];
      EchoesSimulateAccounting(meta, echoIds, init);
      LinkedAreRecorded(echoIds, init);
      var main, echo := Account(echoIds, init), EchoFold(meta, init);
      assert e.id !in main.linked;
      if e.typ == RunnerStarted {
        SimulatesStarted(main, echo, e);
        StepsAre(meta, echoIds, main, echo, e);
      } else if e.typ == RunnerSucceeded {
        SimulatesSucceeded(main, echo, e);
        StepsAre(meta, echoIds, main, echo, e);
      } else if e.typ == Speech {
        SimulatesSpeech(meta, echoIds, main, echo, e);
      } else if e.typ == SpeakerSelected {
        SimulatesSelected(meta, echoIds, main, echo, e);
      } else {
        SimulatesRest(meta, echoIds, main, echo, e);
      }
    }
  }

  lemma StepsAre(meta: Metadata, echoIds: set<string>, main: Books, echo: EchoBooks, e: Event)
    ensures e.typ == RunnerStarted ==>
              Note(main, echoIds, e) == NoteStarted(main, e) && EchoStep(meta, echo, e) == EchoStarted(echo, e)
    ensures e.typ == RunnerSucceeded ==>
              Note(main, echoIds, e) == NoteSucceeded(main, e) && EchoStep(meta, echo, e) == EchoSucceeded(echo, e)
  {
    hide NoteStarted, NoteSucceeded, EchoStarted, EchoSucceeded;
  }

  lemma EmptySimulates()
    ensures Simulates(NO_LEDGER, NO_ECHOES)
  {
  }

  /** Every runnerless speech that counts as an echo shares member and turn with a runner speech
      that the accounting lists as linked to a grant of that member and turn. */
  lemma {:induction false} EchoHasLinkedSpeech(meta: Metadata, echoIds: set<string>, log: Log, k: nat)
    requires Channel.UniqueIds(log) && forall i :: 0 <= i < |log| ==> !Blank(log[i].id)
    requires k < |log| && log[k].id in VisibleEchoIds(meta, log)
    ensures log[k].typ == Speech && log[k].runner == None
    ensures exists canonical :: Backed(Account(echoIds, log), (Trim(log[k].from), SpeechTurn(log[k])), canonical)
  {
    hide Account, EchoFold, Backed, Trim, Repeats;
    EchoesSimulateAccounting(meta, echoIds, log);
    var canonical := EchoFold(meta, log).canonical;
    var i :| 0 <= i < |log| && log[i].id == log[k].id && IsEcho(meta, canonical, log[i]);
    assert i == k;
    assert Backed(Account(echoIds, log), (Trim(log[k].from), SpeechTurn(log[k])), canonical[(Trim(log[k].from), SpeechTurn(log[k]))]);
  }
}
