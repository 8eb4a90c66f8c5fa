/** Dispatch against accounting: the log that a dispatch leaves is read back as what happened. */
module DispatchAccounting {
  import opened Prelude
  import opened Text
  import opened Events
  import opened Accounting
  import opened AccountingSafety
  import opened Dispatch

  /** The accounting of further events. */
  function NoteAll(l: Books, echoIds: set<string>, events: Log): Books
    decreases |events|
  {
    if events == [] then l else NoteAll(Note(l, echoIds, events[0]), echoIds, events[1..])
  }

  lemma {:induction false} NoteAllSnoc(l: Books, echoIds: set<string>, events: Log, e: Event)
    ensures NoteAll(l, echoIds, events + [e]) == Note(NoteAll(l, echoIds, events), echoIds, e)
    decreases |events|
  {
    hide Note;
    if events == [] {
      assert [] + [e] == [e] && [e][1..] == [];
    } else {
      assert (events + [e])[1..] == events[1..] + [e];
      NoteAllSnoc(Note(l, echoIds, events[0]), echoIds, events[1..], e);
    }
  }

  lemma {:induction false} AccountContinues(echoIds: set<string>, log: Log, events: Log)
    ensures Account(echoIds, log + events) == NoteAll(Account(echoIds, log), echoIds, events)
  {
    hide Note;
    if events == [] {
      assert log + [] == log;
    } else {
      var init, e := events[..|events| - 1], events[|events| - 1];
      AccountContinues(echoIds, log, init);
      AccountSnoc(echoIds, log + init, e);
      NoteAllSnoc(Account(echoIds, log), echoIds, init, e);
      assert log + events == (log + init) + [e] && events == init + [e];
    }
  }

  /** No outcome is on the books yet. */
  predicate Untouched(row: GrantRow) {
    !TerminallyFailed(row) && row.succeeded == [] && row.speeches == []
  }

  ghost predicate OursServe(l: Ledger, names: Names, id: string) {
    forall inv :: inv in l.invocationToGrant && Ours(names, inv) ==> l.invocationToGrant[inv] == id
  }

  /** The grant is waiting for the outcome of this dispatch. */
  ghost predicate Waiting(l: Books, id: string, member: string, turn: int, names: Names) {
    && id != "" && id in l.grantIndex && OursServe(l, names, id)
    && Untouched(RowFor(l, id)) && RowFor(l, id).member == member && RowFor(l, id).turn == turn
  }

  /** Ids of runs and events are never padded, and run ids never blank: they are digests. */
  ghost predicate WellNamed(names: Names) {
    && (forall attempt: nat :: Trim(names.invocationId(attempt)) == names.invocationId(attempt) != "")
    && (forall typ: EventType, attempt: nat :: Trim(names.eventId(typ, attempt)) == names.eventId(typ, attempt))
  }

  lemma OursNamed(names: Names, inv: string)
    requires WellNamed(names) && Ours(names, inv)
    ensures Trim(inv) == inv != ""
  {
    hide Trim;
  }

  lemma ServesMatches(l: Books, id: string, req: Request, names: Names, e: Event)
    requires id != "" && id in l.grantIndex && OursServe(l, names, id) && Serves(e, req, names) && Trim(req.causation) == id
    ensures MatchIn(l, e) == id
  {
    hide Trim;
  }

  lemma NoteByType(l: Books, echoIds: set<string>, e: Event)
    ensures e.typ == RunnerStarted ==> Note(l, echoIds, e) == NoteStarted(l, e)
    ensures e.typ == RunnerSucceeded ==> Note(l, echoIds, e) == NoteSucceeded(l, e)
    ensures e.typ == Speech && e.runner.Some? ==> Note(l, echoIds, e) == NoteRunnerSpeech(l, e)
    ensures Closes(e) ==> Note(l, echoIds, e) == NoteTerminal(l, e)
  {
    hide NoteSelected, NoteStarted, NoteSucceeded, NoteTerminal, NoteRunnerless, NoteRunnerSpeech, Wired;
  }

  lemma StartedFacts(row: GrantRow, e: Event)
    requires e.runner.Some? && Trim(e.runner.value.invocationId) == e.runner.value.invocationId != "" && Untouched(row)
    ensures var next := Started(row, e);
            Untouched(next) && next.member == row.member && next.turn == row.turn && next.selectedId == row.selectedId
            && next.started && e.runner.value.invocationId in next.invocations
  {
    hide Trim;
  }

  /** A start that fits its row ties its invocation to the grant. */
  lemma StartedAt(l: Books, e: Event, id: string)
    requires id != "" && MatchIn(l, e) == id && e.runner.Some? && e.runner.value.invocationId != "" && MemberFits(RowFor(l, id), e)
    ensures var next := NoteStarted(l, e);
            && next.grantIndex == l.grantIndex && RowFor(next, id) == Started(RowFor(l, id), e)
            && next.invocationToGrant == l.invocationToGrant[e.runner.value.invocationId := id]
  {
    hide Trim, Match, Started;
  }

  lemma StartWaits(l: Books, echoIds: set<string>, id: string, turn: int, req: Request, names: Names, e: Event)
    requires Waiting(l, id, req.member, turn, names) && Serves(e, req, names) && Trim(req.causation) == id && WellNamed(names)
    requires e.typ == RunnerStarted
    ensures var next := Note(l, echoIds, e);
            && Waiting(next, id, req.member, turn, names) && RowFor(next, id).started
            && e.runner.value.invocationId in RowFor(next, id).invocations
            && e.runner.value.invocationId in next.invocationToGrant
  {
    hide Trim, Match, Ours, Note, NoteStarted, Started, Untouched, WellNamed;
    NoteByType(l, echoIds, e);
    ServesMatches(l, id, req, names, e);
    OursNamed(names, e.runner.value.invocationId);
    StartedAt(l, e, id);
    StartedFacts(RowFor(l, id), e);
  }

  lemma CloseFails(l: Books, echoIds: set<string>, id: string, turn: int, req: Request, names: Names, e: Event)
    requires Waiting(l, id, req.member, turn, names) && Serves(e, req, names) && Trim(req.causation) == id && Closes(e)
    requires !Blank(e.id)
    ensures var next := Note(l, echoIds, e);
            next.grantIndex == l.grantIndex && id in next.grantIndex && TerminallyFailed(RowFor(next, id))
  {
    hide Trim, Match, Ours, TerminalStatus, Note;
    NoteByType(l, echoIds, e);
    ServesMatches(l, id, req, names, e);
  }

  /** A success note counts exactly when its runner status says so. */
  lemma SuccessNoted(l: Books, echoIds: set<string>, id: string, turn: int, req: Request, names: Names, e: Event)
    requires Waiting(l, id, req.member, turn, names) && Serves(e, req, names) && Trim(req.causation) == id && WellNamed(names)
    requires e.typ == RunnerSucceeded && !Blank(e.id)
    ensures var next, row := Note(l, echoIds, e), RowFor(l, id);
            && next.grantIndex == l.grantIndex && next.invocationToGrant == l.invocationToGrant && id in next.grantIndex
            && if e.runner.value.status == "succeeded"
               then RowFor(next, id).succeeded != [] && !TerminallyFailed(RowFor(next, id)) && RowFor(next, id).speeches == []
                    && RowFor(next, id).started == row.started && RowFor(next, id).member == row.member && RowFor(next, id).turn == row.turn
                    && row.invocations <= RowFor(next, id).invocations
               else next == l
  {
    hide Trim, Match, Ours, Note, WellNamed;
    NoteByType(l, echoIds, e);
    ServesMatches(l, id, req, names, e);
    OursNamed(names, e.runner.value.invocationId);
  }

  lemma CauseDecides(e: Event, id: string)
    requires e.causation == id != ""
    ensures GrantForSpeech(e, {id}) == id
  {
  }

  lemma SpeechLinks(e: Event, row: GrantRow)
    requires e.runner.Some? && e.causation == row.selectedId != ""
    requires row.member != "" && e.from == row.member == e.runner.value.member
    requires e.runner.value.invocationId != "" && e.runner.value.invocationId in row.invocations
    ensures LinkMatches(e, row) <==> (e.runner.value.status == "succeeded" && row.turn > 0 && SpeechTurn(e) == row.turn)
  {
    hide SpeechTurn, GrantForSpeech;
    CauseDecides(e, row.selectedId);
  }

  /** The speech is linked exactly when it succeeded and speaks for the grant's turn. */
  lemma SpeechNoted(l: Books, echoIds: set<string>, id: string, e: Event)
    requires id != "" && id in l.grantIndex && e.typ == Speech && e.runner.Some? && e.causation == id && !Blank(e.id)
    requires e.runner.value.invocationId != "" && e.runner.value.invocationId in l.invocationToGrant
    requires l.invocationToGrant[e.runner.value.invocationId] == id
    requires var row := RowFor(l, id);
             row.member != "" && e.from == row.member == e.runner.value.member && e.runner.value.invocationId in row.invocations
             && row.speeches == []
    ensures var next, row := Note(l, echoIds, e), RowFor(l, id);
            && next.grantIndex == l.grantIndex && id in next.grantIndex
            && RowFor(next, id) == row.(speeches := RowFor(next, id).speeches)
            && (RowFor(next, id).speeches != [] <==>
                  (e.runner.value.status == "succeeded" && row.turn > 0 && SpeechTurn(e) == row.turn))
            && (RowFor(next, id).speeches != [] ==>
                  RowFor(next, id).speeches == [Trim(e.id)] && e.id in next.linked && next.linked[e.id] == e)
  {
    hide Trim, SpeechTurn, LinkMatches, GrantForSpeech, Note;
    NoteByType(l, echoIds, e);
    SpeechLinks(e, RowFor(l, id));
  }

  /** The dispatch ended in a speech that succeeded and speaks for the granted turn. */
  predicate Spoke(terminal: Event, turn: int) {
    terminal.typ == Speech && terminal.runner.Some? && terminal.runner.value.status == "succeeded" && turn > 0 && SpeechTurn(terminal) == turn
  }

  /** The verdict on a grant but for the proof of delivery. */
  predicate PassesUndelivered(row: GrantRow) {
    !TerminallyFailed(row) && row.turn > 0 && row.started && row.succeeded != [] && row.speeches != []
  }

  /** The speech is the one that the grant has linked. */
  ghost predicate Lists(l: Books, id: string, member: string, terminal: Event)
    requires id in l.grantIndex
  {
    && RowFor(l, id).member == member && RowFor(l, id).speeches == [Trim(terminal.id)]
    && terminal.id in l.linked && SameRecord(l.linked[terminal.id], terminal)
  }

  ghost predicate SpeaksFor(terminal: Event, id: string, member: string) {
    terminal.typ == Speech && terminal.causation == id && terminal.from == member
  }

  lemma FinishVerdict(l: Books, echoIds: set<string>, id: string, turn: int, req: Request, names: Names, events: Log, terminal: Event)
    requires Waiting(l, id, req.member, turn, names) && Trim(req.causation) == id && WellNamed(names) && req.member != ""
    requires RowFor(l, id).started
    requires |events| == 3 && events[1].typ == RunnerSucceeded && Serves(events[1], req, names) && SameRecord(events[2], terminal)
    requires SameInvocation(events[0], events[1]) && events[1].runner == terminal.runner && SpeaksFor(terminal, id, req.member)
    requires events[0].runner.value.invocationId in RowFor(l, id).invocations
    requires events[0].runner.value.invocationId in l.invocationToGrant
    requires !Blank(events[1].id) && !Blank(events[2].id)
    ensures var last := Note(Note(l, echoIds, events[1]), echoIds, events[2]);
            last.grantIndex == l.grantIndex && id in last.grantIndex
            && (PassesUndelivered(RowFor(last, id)) <==> Spoke(terminal, turn))
            && (Spoke(terminal, turn) ==> Lists(last, id, req.member, terminal))
  {
    hide Note, Trim, Ours, SpeechTurn, WellNamed;
    SuccessNoted(l, echoIds, id, turn, req, names, events[1]);
    OursNamed(names, events[1].runner.value.invocationId);
    var noted := Note(l, echoIds, events[1]);
    SpeechNoted(noted, echoIds, id, events[2]);
    SameTurn(events[2], terminal);
  }

  lemma SameTurn(stored: Event, e: Event)
    requires SameRecord(stored, e)
    ensures SpeechTurn(stored) == SpeechTurn(e)
  {
  }

  /** The books after a dispatch's events agree with how it ended. */
  ghost predicate Told(l: Books, last: Books, id: string, member: string, terminal: Event, turn: int) {
    && id in last.grantIndex && last.grantIndex == l.grantIndex && (PassesUndelivered(RowFor(last, id)) <==> Spoke(terminal, turn))
    && (Spoke(terminal, turn) ==> Lists(last, id, member, terminal))
  }

  lemma FoldClosed(l: Books, echoIds: set<string>, id: string, turn: int, req: Request, names: Names, events: Log, terminal: Event)
    requires Waiting(l, id, req.member, turn, names) && Trim(req.causation) == id && WellNamed(names)
    requires |events| == 2 && events[0].typ == RunnerStarted && Serves(events[0], req, names)
    requires Closes(events[1]) && Serves(events[1], req, names) && SameRecord(events[1], terminal) && !Blank(events[1].id)
    ensures Told(l, NoteAll(l, echoIds, events), id, req.member, terminal, turn)
  {
    hide Note, Trim, Waiting, Serves, SameRecord, Spoke, PassesUndelivered, NoteAll, Closes, Lists;
    StartWaits(l, echoIds, id, turn, req, names, events[0]);
    StartKeepsIndex(l, echoIds, events[0]);
    NoteTwo(l, echoIds, events);
    var started := Note(l, echoIds, events[0]);
    CloseFails(started, echoIds, id, turn, req, names, events[1]);
    ClosedVerdict(started, echoIds, id, events[1], terminal, turn);
  }

  lemma FoldFinished(l: Books, echoIds: set<string>, id: string, turn: int, req: Request, names: Names, events: Log, terminal: Event)
    requires Waiting(l, id, req.member, turn, names) && Trim(req.causation) == id && WellNamed(names) && req.member != ""
    requires |events| == 3 && events[0].typ == RunnerStarted && Serves(events[0], req, names)
    requires events[1].typ == RunnerSucceeded && Serves(events[1], req, names) && SameRecord(events[2], terminal)
    requires SameInvocation(events[0], events[1]) && events[1].runner == terminal.runner && SpeaksFor(terminal, id, req.member)
    requires !Blank(events[1].id) && !Blank(events[2].id)
    ensures Told(l, NoteAll(l, echoIds, events), id, req.member, terminal, turn)
  {
    hide Note, Trim, Waiting, Serves, SameRecord, Spoke, PassesUndelivered, NoteAll, SpeaksFor, Lists;
    StartWaits(l, echoIds, id, turn, req, names, events[0]);
    StartKeepsIndex(l, echoIds, events[0]);
    NoteTwo(l, echoIds, events[..2]);
    NoteAllSnoc(l, echoIds, events[..2], events[2]);
    assert events[..2] + [events[2]] == events;
    FinishVerdict(Note(l, echoIds, events[0]), echoIds, id, turn, req, names, events, terminal);
  }

  lemma FoldAgain(l: Books, echoIds: set<string>, id: string, turn: int, req: Request, names: Names, events: Log, terminal: Event)
    requires Waiting(l, id, req.member, turn, names) && Trim(req.causation) == id && WellNamed(names)
    requires |events| >= 2 && events[0].typ == RunnerStarted && Serves(events[0], req, names) && events[1].typ == RetryAttempted
    ensures var started := Note(l, echoIds, events[0]);
            && Waiting(started, id, req.member, turn, names) && started.grantIndex == l.grantIndex
            && NoteAll(l, echoIds, events) == NoteAll(started, echoIds, events[2..])
  {
    hide Note, Trim, Waiting, Serves, NoteAll;
    StartWaits(l, echoIds, id, turn, req, names, events[0]);
    StartKeepsIndex(l, echoIds, events[0]);
    NoteFirstTwo(l, echoIds, events);
    RetryIgnored(Note(l, echoIds, events[0]), echoIds, events[1]);
  }

  lemma {:induction false} FoldVerdict(l: Books, echoIds: set<string>, id: string, turn: int, req: Request, names: Names,
                                       events: Log, budget: nat, terminal: Event)
    requires Waiting(l, id, req.member, turn, names) && Trim(req.causation) == id && WellNamed(names) && req.member != ""
    requires Shaped(events, req, names, budget, terminal) && req.allowed == [Speech]
    requires Vetted(terminal, req) ==> SpeaksFor(terminal, id, req.member)
    requires req.validator.Some?
    requires forall i :: 0 <= i < |events| ==> !Blank(events[i].id)
    ensures Told(l, NoteAll(l, echoIds, events), id, req.member, terminal, turn)
    decreases |events|
  {
    hide Note, Trim, Waiting, Serves, SameRecord, Vetted, SpeaksFor, NoteAll, WellNamed, Spoke, PassesUndelivered, Lists;
    if |events| == 2 && Closes(events[1]) {
      FoldClosed(l, echoIds, id, turn, req, names, events, terminal);
    } else if |events| == 3 && events[1].typ == RunnerSucceeded {
      FoldFinished(l, echoIds, id, turn, req, names, events, terminal);
    } else {
      FoldAgain(l, echoIds, id, turn, req, names, events, terminal);
      FoldVerdict(Note(l, echoIds, events[0]), echoIds, id, turn, req, names, events[2..], budget - 1, terminal);
    }
  }

  lemma NoteFirstTwo(l: Books, echoIds: set<string>, events: Log)
    requires |events| >= 2
    ensures NoteAll(l, echoIds, events) == NoteAll(Note(Note(l, echoIds, events[0]), echoIds, events[1]), echoIds, events[2..])
  {
    hide Note;
    assert events[1..][0] == events[1] && events[1..][1..] == events[2..];
  }

  lemma NoteTwo(l: Books, echoIds: set<string>, events: Log)
    requires |events| == 2
    ensures NoteAll(l, echoIds, events) == Note(Note(l, echoIds, events[0]), echoIds, events[1])
  {
    hide Note;
    NoteFirstTwo(l, echoIds, events);
  }

  lemma StartKeepsIndex(l: Books, echoIds: set<string>, e: Event)
    requires e.typ == RunnerStarted
    ensures Note(l, echoIds, e).grantIndex == l.grantIndex
  {
    hide Match, Started, MemberFits;
  }

  lemma RetryIgnored(l: Books, echoIds: set<string>, e: Event)
    requires e.typ == RetryAttempted
    ensures Note(l, echoIds, e) == l
  {
  }

  lemma ClosedVerdict(l: Books, echoIds: set<string>, id: string, e: Event, terminal: Event, turn: int)
    requires Closes(e) && SameRecord(e, terminal) && id in Note(l, echoIds, e).grantIndex && TerminallyFailed(RowFor(Note(l, echoIds, e), id))
    ensures !PassesUndelivered(RowFor(Note(l, echoIds, e), id)) && !Spoke(terminal, turn)
  {
    hide Note;
  }

  /** The validator turns the runner's speech into one by the member, for the same cause. */
  ghost predicate SpeechValidator(req: Request) {
    req.validator.Some? &&
    forall log: Log, e: Event, has: bool :: e.typ == Speech && req.validator.value(log, e, has).Ok? ==>
      var valid := req.validator.value(log, e, has).value;
      valid.typ == Speech && valid.causation == e.causation && valid.from == req.member && valid.id == e.id
  }

  lemma VettedSpeaks(req: Request, terminal: Event)
    requires SpeechValidator(req) && Vetted(terminal, req)
    ensures SpeaksFor(terminal, Trim(req.causation), req.member)
  {
    hide Trim;
  }

  lemma ValidatorGiven(req: Request)
    requires SpeechValidator(req)
    ensures req.validator.Some?
  {
  }

  // ---- What the runner reported ----------------------------------------------------------

  /** An attempt that ends in the runner's own event was a success, and the event has its status. */
  predicate Reports(terminal: Event, result: AdapterResult) {
    result.ok && !result.discarded && terminal.runner.Some? && terminal.runner.value.status == StatusOf(Speech, result)
  }

  lemma AttemptReports(meta: Metadata, log: Log, req: Request, names: Names, attempt: nat, result: AdapterResult, foreign: set<string>)
    requires req.allowed == [Speech] && SpeechValidator(req)
    ensures var tried := OneAttempt(meta, log, req, names, attempt, result, foreign);
            tried.Ended? && tried.terminal.Some? && tried.terminal.value.typ == Speech ==>
              Reports(tried.terminal.value, result) && tried.terminal.value.id == names.eventId(Speech, attempt)
  {
    hide Put, Launch, CommandOf, Trim, StatusOf, RawCost, FailureReason, Retryable;
  }

  lemma {:induction false} AttemptsReport(meta: Metadata, log: Log, req: Request, names: Names, adapter: nat -> AdapterResult,
                                          attempt: nat, ids: seq<string>, foreign: set<string>)
    requires req.allowed == [Speech] && SpeechValidator(req)
    ensures var report := Attempts(meta, log, req, names, adapter, attempt, ids, foreign).1;
            report.terminal.Some? && report.terminal.value.typ == Speech ==>
              Reports(report.terminal.value, adapter(report.attempts))
              && report.terminal.value.id == names.eventId(Speech, report.attempts)
    decreases Budget(req) + 1 - attempt
  {
    hide OneAttempt, Reports, SpeechValidator;
    if attempt <= Budget(req) {
      AttemptReports(meta, log, req, names, attempt, adapter(attempt), foreign);
      var tried := OneAttempt(meta, log, req, names, attempt, adapter(attempt), foreign);
      if tried.Retrying? {
        AttemptsReport(meta, tried.log, req, names, adapter, attempt + 1, ids + [names.invocationId(attempt)], foreign);
      }
    }
  }

  lemma RunReports(meta: Metadata, log: Log, req: Request, names: Names, adapter: nat -> AdapterResult, foreign: set<string>)
    requires req.allowed == [Speech] && SpeechValidator(req)
    ensures var report := DispatchRun(meta, log, req, names, adapter, foreign).1;
            report.terminal.Some? && report.terminal.value.typ == Speech ==>
              Reports(report.terminal.value, adapter(report.attempts))
              && report.terminal.value.id == names.eventId(Speech, report.attempts)
  {
    hide Reports, Preflight, Attempts, SpeechValidator;
    AttemptsReport(meta, log, req, names, adapter, 1, [], foreign);
  }

  lemma StatusSucceeds(terminal: Event, result: AdapterResult)
    requires Reports(terminal, result)
    ensures terminal.runner.value.status == "succeeded" <==> result.semanticStatus in {"", "succeeded"}
  {
  }

  // ---- The verdict -----------------------------------------------------------------------

  lemma SameDelivery(meta: Metadata, member: string, stored: Event, e: Event)
    requires SameRecord(stored, e) && NeedsDelivery(meta)
    ensures SpeechDelivered(meta, member, stored) == SpeechDelivered(meta, member, e)
  {
    hide DeliveryProves;
  }

  /** The one linked speech decides whether delivery is proved. */
  lemma DeliveryDecides(meta: Metadata, l: Books, id: string, member: string, terminal: Event)
    requires id in l.grantIndex && Lists(l, id, member, terminal) && Trim(terminal.id) == terminal.id && PassesUndelivered(RowFor(l, id))
    ensures Passes(meta, RowFor(l, id), l.linked) <==> (NeedsDelivery(meta) ==> SpeechDelivered(meta, member, terminal))
  {
    hide SpeechDelivered, Trim, SameRecord;
    if NeedsDelivery(meta) {
      SameDelivery(meta, member, l.linked[terminal.id], terminal);
    }
  }

  lemma UndeliveredFails(meta: Metadata, l: Books, id: string)
    requires id in l.grantIndex && !PassesUndelivered(RowFor(l, id))
    ensures !Passes(meta, RowFor(l, id), l.linked)
  {
    hide DeliveryProven;
  }

  /** Run on a grant that nothing has touched yet, with run ids of its own, a dispatch that met no append
      error leaves a log on which the grant passes exactly when the dispatch ended in a speech that
      succeeded, for the granted turn, and that in a Discord thread proves its delivery. */
  lemma GrantPassesExactly(meta: Metadata, echoIds: set<string>, log: Log, req: Request, names: Names,
                           adapter: nat -> AdapterResult, foreign: set<string>)
    requires DispatchRun(meta, log, req, names, adapter, foreign).1.error == None
    requires WellNamed(names) && req.member != "" && req.allowed == [Speech] && SpeechValidator(req)
    requires var l, id := Account(echoIds, log), Trim(req.causation);
             && id != "" && id in l.grantIndex && Untouched(RowFor(l, id)) && RowFor(l, id).member == req.member
             && forall attempt: nat :: names.invocationId(attempt) !in l.invocationToGrant
    ensures var (after, report) := DispatchRun(meta, log, req, names, adapter, foreign);
            var l, last, id := Account(echoIds, log), Account(echoIds, after), Trim(req.causation);
            && id in last.grantIndex && report.terminal.Some?
            && (Passes(meta, RowFor(last, id), last.linked)
                <==> Spoke(report.terminal.value, RowFor(l, id).turn)
                     && (NeedsDelivery(meta) ==> SpeechDelivered(meta, req.member, report.terminal.value)))
  {
    hide DispatchRun, Account, Shaped, Trim, SpeechTurn, SpeechValidator, Vetted, SpeaksFor, Passes, PassesUndelivered, Lists, Reports,
      SpeechDelivered;
    var (after, report) := DispatchRun(meta, log, req, names, adapter, foreign);
    var l, id := Account(echoIds, log), Trim(req.causation);
    DispatchShaped(meta, log, req, names, adapter, foreign);
    DispatchGrows(meta, log, req, names, adapter, foreign);
    if Vetted(report.terminal.value, req) {
      VettedSpeaks(req, report.terminal.value);
    }
    assert OursServe(l, names, id);
    ValidatorGiven(req);
    FoldVerdict(l, echoIds, id, RowFor(l, id).turn, req, names, after[|log|..], Budget(req), report.terminal.value);
    AccountContinues(echoIds, log, after[|log|..]);
    assert log + after[|log|..] == after;
    if Spoke(report.terminal.value, RowFor(l, id).turn) {
      RunReports(meta, log, req, names, adapter, foreign);
      DeliveryDecides(meta, Account(echoIds, after), id, req.member, report.terminal.value);
    } else {
      UndeliveredFails(meta, Account(echoIds, after), id);
    }
  }
}
