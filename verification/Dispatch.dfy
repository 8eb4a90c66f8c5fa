/** Runner dispatch: the bounded retry loop and the events it writes. */
module Dispatch {
  import opened Prelude
  import opened Text
  import opened Events
  import opened Channel

  const STALE := "stale_phase_evidence"

  /** What one run of the member's process came to; `cancelled` is whether the request had been
      cancelled when it returned. */
  datatype AdapterResult = AdapterResult(
    err: bool, ok: bool, discarded: bool, cancelled: bool, errorClass: string,
    semanticType: Option<EventType>, semanticStatus: string, payload: Option<Payload>, cost: Option<Cost>)

  /** Ids and times made from the clock, by event type and attempt. */
  datatype Names = Names(eventId: (EventType, nat) -> string, invocationId: nat -> string, clock: (EventType, nat) -> int)

  /** Turns a proposed terminal event into the one to record, or rejects it; the flag says whether
      the runner returned a payload at all. */
  type Validator = (Log, Event, bool) -> Result<Event>

  datatype Request = Request(
    commandId: string, sourceCommandId: string, causation: string, member: string, phase: Phase, maxRetries: int,
    allowed: seq<EventType>, validator: Option<Validator>,
    sessionTerminal: bool, adapterReady: bool)

  datatype Report = Report(
    attempts: nat, invocationIds: seq<string>, terminal: Option<Event>, error: Option<Failure>, exhausted: bool)

  function CommandOf(req: Request): string {
    if Blank(req.sourceCommandId) then Trim(req.commandId) else Trim(req.sourceCommandId)
  }

  /** How many times the runner may be started. */
  function Budget(req: Request): (n: nat)
    ensures n >= 1
  {
    Max(req.maxRetries, 0) + 1
  }

  // ---- Status mapping --------------------------------------------------------------------

  function NormalizeStatus(value: string): (status: string)
    ensures KnownRunnerStatus(status)
  {
    if KnownRunnerStatus(value) then value
    else if value == "dispatch_timeout" then "timeout"
    else "failed"
  }

  function StatusOf(typ: EventType, result: AdapterResult): (status: string)
    ensures KnownRunnerStatus(status)
  {
    if result.discarded || typ == RunnerDiscarded then "discarded_after_cancel"
    else if result.ok then if result.semanticStatus != "" then NormalizeStatus(result.semanticStatus) else "succeeded"
    else NormalizeStatus(result.errorClass)
  }

  predicate Retryable(result: AdapterResult) {
    result.err && result.errorClass in {"timeout", "transport", "nonzero_exit", ""}
  }

  function RawCost(result: AdapterResult): Cost {
    match result.cost
    case None => CostNull
    case Some(CostOmitted) => CostNull
    case Some(cost) => cost
  }

  // ---- The events of an attempt ----------------------------------------------------------

  predicate RunnerType(typ: EventType) {
    typ in {RunnerStarted, RunnerSucceeded, RunnerFailed, RunnerDiscarded, RetryAttempted}
  }

  function BaseEvent(meta: Metadata, req: Request, names: Names, typ: EventType, attempt: nat, status: string, cost: Cost, payload: Payload): Event {
    Event(names.eventId(typ, attempt), CommandOf(req), Trim(req.causation), None, req.phase, typ,
          if RunnerType(typ) then DAEMON else req.member, [meta.moderator], names.clock(typ, attempt),
          Some(Runner(names.invocationId(attempt), req.member, attempt, attempt > 1, status)), cost, payload)
  }

  function StartedEvent(meta: Metadata, req: Request, names: Names, attempt: nat): Event {
    BaseEvent(meta, req, names, RunnerStarted, attempt, "started", CostOmitted, EMPTY_PAYLOAD)
  }

  function RetryEvent(meta: Metadata, req: Request, names: Names, attempt: nat): Event {
    Event(names.eventId(RetryAttempted, attempt), CommandOf(req), "", None, req.phase, RetryAttempted, DAEMON,
          [meta.moderator], names.clock(RetryAttempted, attempt), None, CostOmitted, EMPTY_PAYLOAD)
  }

  function TerminalEvent(meta: Metadata, req: Request, names: Names, typ: EventType, attempt: nat, result: AdapterResult, payload: Payload): Event {
    BaseEvent(meta, req, names, typ, attempt, StatusOf(typ, result), RawCost(result), payload)
  }

  function Diagnostic(reason: string, errorClass: string): Payload {
    EMPTY_PAYLOAD.(reason := reason, runner := EMPTY_PAYLOAD.runner.(errorClass := errorClass))
  }

  function FailureReason(errorClass: string): string {
    if errorClass in {"timeout", "dispatch_timeout"} then "dispatch_timeout"
    else if errorClass in {"adapter_command_mismatch", "model_provider_failure", "malformed_or_missing_response",
                           "workspace_missing", "workspace_invalid", STALE, "cancelled", "interrupted"} then errorClass
    else if errorClass in {"transport", "transport_error"} then "transport_error"
    else if errorClass in {"nonzero_exit", "nonzero_exit_empty_output"} then "nonzero_exit_empty_output"
    else if errorClass in {"semantic_error", "semantic_parse_error"} then "semantic_parse_error"
    else "other"
  }

  /** What becomes of an attempt once the runner has returned. */
  datatype Ending = Discard(reason: string, errorClass: string) | Fail | Again | Finish(terminal: Event)

  /** The event that a successful result stands for, unless the validator rejects it. */
  function SuccessTerminal(meta: Metadata, log: Log, req: Request, names: Names, attempt: nat, typ: EventType, result: AdapterResult): Result<Event> {
    hide TerminalEvent;
    var payload := if result.payload.Some? then result.payload.value else EMPTY_PAYLOAD;
    var e := TerminalEvent(meta, req, names, typ, attempt, result, payload);
    if req.validator == None then Ok(e)
    else
      match req.validator.value(log, e, result.payload.Some?)
      case Err(error) => Err(error)
      case Ok(valid) => Ok(valid.(runner := e.runner, cost := e.cost))
  }

  function Decide(meta: Metadata, log: Log, req: Request, names: Names, attempt: nat, result: AdapterResult): Ending {
    if result.discarded || result.cancelled then Discard(STALE, if result.errorClass == "" then STALE else result.errorClass)
    else if !result.err && result.ok then
      var typ := if result.semanticType.Some? then result.semanticType.value else AssigneeUpdate;
      if req.allowed != [] && typ !in req.allowed then Discard("terminal_event_type_not_allowed", result.errorClass)
      else
        match SuccessTerminal(meta, log, req, names, attempt, typ, result)
        case Err(_) => Discard("terminal_payload_validation_failed", result.errorClass)
        case Ok(terminal) => Finish(terminal)
    else if !Retryable(result) || attempt >= Budget(req) then Fail
    else Again
  }

  /** The last event of an attempt that does not finish with the runner's own event. */
  function ClosingEvent(meta: Metadata, req: Request, names: Names, attempt: nat, result: AdapterResult, ending: Ending): Event
    requires ending.Discard? || ending.Fail?
  {
    match ending
    case Discard(reason, errorClass) =>
      TerminalEvent(meta, req, names, RunnerDiscarded, attempt, result, Diagnostic(reason, errorClass))
    case Fail =>
      TerminalEvent(meta, req, names, RunnerFailed, attempt, result,
                    Diagnostic(FailureReason(result.errorClass), if result.errorClass == "" then "runner_error" else result.errorClass))
  }

  function SucceededEvent(meta: Metadata, req: Request, names: Names, attempt: nat, result: AdapterResult): Event {
    TerminalEvent(meta, req, names, RunnerSucceeded, attempt, result, EMPTY_PAYLOAD)
  }

  predicate Preflight(meta: Metadata, req: Request) {
    !req.sessionTerminal && req.phase !in {Finalized, Accepted, Cancelled, Blocked} && !Blank(req.member) && req.member in meta.participants && req.adapterReady
  }

  // ---- Appending -------------------------------------------------------------------------

  /** A log so far, and the error that stopped it. */
  datatype Written = Written(log: Log, error: Option<Failure>)

  function Put(meta: Metadata, written: Written, e: Event, foreign: set<string>): Written {
    if written.error.Some? then written
    else
      var outcome := Append(meta, written.log, e, foreign);
      Written(outcome.log, if outcome.result.Err? then Some(outcome.result.error) else None)
  }

  /** The log once the attempt's runner has been started. */
  function Launch(meta: Metadata, log: Log, req: Request, names: Names, attempt: nat, foreign: set<string>): Written {
    var retried := if attempt > 1 then Put(meta, Written(log, None), RetryEvent(meta, req, names, attempt), foreign) else Written(log, None);
    Put(meta, retried, StartedEvent(meta, req, names, attempt), foreign)
  }

  // ---- The loop --------------------------------------------------------------------------

  datatype Attempted = Retrying(log: Log) | Ended(log: Log, terminal: Option<Event>, error: Option<Failure>)

  /** One attempt: start the runner, and record what it came to unless it is to be tried again. */
  function OneAttempt(meta: Metadata, log: Log, req: Request, names: Names, attempt: nat, result: AdapterResult, foreign: set<string>): Attempted {
    hide Put, StartedEvent, ClosingEvent, SucceededEvent, BaseEvent, SuccessTerminal, RetryEvent;
    var launched := Launch(meta, log, req, names, attempt, foreign);
    if launched.error.Some? then Ended(launched.log, None, launched.error)
    else
      match Decide(meta, launched.log, req, names, attempt, result)
      case Again => Retrying(launched.log)
      case Finish(terminal) =>
        var succeeded := SucceededEvent(meta, req, names, attempt, result);
        var noted := Put(meta, launched, succeeded, foreign);
        if noted.error.Some? then Ended(noted.log, Some(succeeded), noted.error)
        else
          var done := Put(meta, noted, terminal, foreign);
          Ended(done.log, Some(terminal), done.error)
      case ending =>
        var closing := ClosingEvent(meta, req, names, attempt, result, ending);
        var done := Put(meta, launched, closing, foreign);
        Ended(done.log, Some(closing), done.error)
  }

  /** The attempts from `attempt` on; `adapter` is what each run comes to. */
  function Attempts(meta: Metadata, log: Log, req: Request, names: Names, adapter: nat -> AdapterResult, attempt: nat,
                    invocationIds: seq<string>, foreign: set<string>): (Log, Report)
    decreases Budget(req) + 1 - attempt
  {
    hide OneAttempt;
    if attempt > Budget(req) then (log, Report(Budget(req), invocationIds, None, None, true))
    else
      var ids := invocationIds + [names.invocationId(attempt)];
      match OneAttempt(meta, log, req, names, attempt, adapter(attempt), foreign)
      case Retrying(next) => Attempts(meta, next, req, names, adapter, attempt + 1, ids, foreign)
      case Ended(last, terminal, error) => (last, Report(attempt, ids, terminal, error, false))
  }

  function DispatchRun(meta: Metadata, log: Log, req: Request, names: Names, adapter: nat -> AdapterResult, foreign: set<string>): (Log, Report) {
    if !Preflight(meta, req) then (log, Report(0, [], None, Some(Conflict("session")), false))
    else Attempts(meta, log, req, names, adapter, 1, [], foreign)
  }

  /** Appends unless an earlier append of the same attempt failed. */
  method PutEvent(s: Session, e: Event, foreign: set<string>) returns (error: Option<Failure>)
    requires s.Valid()
    modifies s
    ensures s.Valid()
    ensures Written(s.events, error) == Put(s.meta, Written(old(s.events), None), e, foreign)
  {
    hide Append;
    var r := s.AppendEvent(e, foreign);
    return if r.Err? then Some(r.error) else None;
  }

  method LaunchAttempt(s: Session, req: Request, names: Names, attempt: nat, foreign: set<string>) returns (error: Option<Failure>)
    requires s.Valid()
    modifies s
    ensures s.Valid()
    ensures Written(s.events, error) == Launch(s.meta, old(s.events), req, names, attempt, foreign)
  {
    hide Append, RetryEvent, StartedEvent;
    if attempt > 1 {
      error := PutEvent(s, RetryEvent(s.meta, req, names, attempt), foreign);
      if error.Some? {
        return;
      }
    }
    error := PutEvent(s, StartedEvent(s.meta, req, names, attempt), foreign);
  }

  method RunAttempt(s: Session, req: Request, names: Names, attempt: nat, result: AdapterResult, foreign: set<string>)
    returns (again: bool, terminal: Option<Event>, error: Option<Failure>)
    requires s.Valid()
    modifies s
    ensures s.Valid()
    ensures OneAttempt(s.meta, old(s.events), req, names, attempt, result, foreign)
            == if again then Retrying(s.events) else Ended(s.events, terminal, error)
  {
    hide Put, Launch, Decide, StartedEvent, ClosingEvent, SucceededEvent;
    again, terminal := false, None;
    error := LaunchAttempt(s, req, names, attempt, foreign);
    if error.Some? {
      return;
    }
    var ending := Decide(s.meta, s.events, req, names, attempt, result);
    match ending {
      case Again =>
        again := true;
      case Finish(finish) =>
        var succeeded := SucceededEvent(s.meta, req, names, attempt, result);
        error := PutEvent(s, succeeded, foreign);
        if error.Some? {
          return false, Some(succeeded), error;
        }
        error := PutEvent(s, finish, foreign);
        terminal := Some(finish);
      case _ =>
        var closing := ClosingEvent(s.meta, req, names, attempt, result, ending);
        error := PutEvent(s, closing, foreign);
        terminal := Some(closing);
    }
  }

  /** Starts the runner, and starts it again after a retryable failure, within the budget. */
  method DispatchRunner(s: Session, req: Request, names: Names, adapter: nat -> AdapterResult, foreign: set<string>)
    returns (report: Report)
    requires s.Valid()
    modifies s
    ensures s.Valid()
    ensures (s.events, report) == DispatchRun(s.meta, old(s.events), req, names, adapter, foreign)
  {
    hide OneAttempt, Preflight;
    if !Preflight(s.meta, req) {
      return Report(0, [], None, Some(Conflict("session")), false);
    }
    var attempt, invocationIds := 1, [];
    while attempt <= Budget(req)
      invariant s.Valid() && 1 <= attempt <= Budget(req) + 1
      invariant DispatchRun(s.meta, old(s.events), req, names, adapter, foreign)
                == Attempts(s.meta, s.events, req, names, adapter, attempt, invocationIds, foreign)
    {
      var again, terminal, error := RunAttempt(s, req, names, attempt, adapter(attempt), foreign);
      invocationIds := invocationIds + [names.invocationId(attempt)];
      if !again {
        return Report(attempt, invocationIds, terminal, error, false);
      }
      attempt := attempt + 1;
    }
    return Report(Budget(req), invocationIds, None, None, true);
  }

  // ---- The shape of what is written ------------------------------------------------------

  predicate Closes(e: Event) {
    e.typ == RunnerFailed || e.typ == RunnerDiscarded
  }

  /** An invocation id of this dispatch. */
  ghost predicate Ours(names: Names, invocationId: string) {
    exists attempt: nat :: invocationId == names.invocationId(attempt)
  }

  /** An event that the dispatcher writes about a run of the member for this request. */
  ghost predicate Serves(e: Event, req: Request, names: Names) {
    && e.causation == Trim(req.causation) && e.payload.runner.grantRefs == []
    && e.runner.Some? && e.runner.value.member == req.member && Ours(names, e.runner.value.invocationId)
  }

  /** The validator let this event through, as the outcome of a speech of this request. */
  ghost predicate Vetted(terminal: Event, req: Request) {
    req.validator.Some? &&
    exists log: Log, e: Event, has: bool :: e.typ == Speech && e.causation == Trim(req.causation) && req.validator.value(log, e, has).Ok?
      && terminal == req.validator.value(log, e, has).value.(runner := terminal.runner, cost := terminal.cost)
  }

  predicate SameInvocation(a: Event, b: Event) {
    a.runner.Some? && b.runner.Some? && a.runner.value.invocationId == b.runner.value.invocationId
  }

  /** started (retry started)*, then failed, discarded, or succeeded and the terminal event, with
      at most `budget` starts; when only speeches are allowed, success and speech report the run alike. */
  ghost predicate Shaped(events: Log, req: Request, names: Names, budget: nat, terminal: Event) {
    && budget > 0 && |events| >= 2 && events[0].typ == RunnerStarted && Serves(events[0], req, names)
    && (|| (|events| == 2 && Closes(events[1]) && Serves(events[1], req, names) && SameRecord(events[1], terminal))
        || (|events| == 3 && events[1].typ == RunnerSucceeded && Serves(events[1], req, names) && SameRecord(events[2], terminal)
            && SameInvocation(events[0], events[1])
            && (req.allowed == [Speech] ==> events[1].runner == terminal.runner && (req.validator.Some? ==> Vetted(terminal, req))))
        || (|events| > 2 && events[1].typ == RetryAttempted && Shaped(events[2..], req, names, budget - 1, terminal)))
  }

  /** A stored event and what it was stored from. */
  predicate SameRecord(stored: Event, e: Event) {
    stored.id == e.id && stored.typ == e.typ && stored.causation == e.causation && stored.from == e.from && stored.runner == e.runner
    && stored.turn == e.turn && stored.payload.turn == e.payload.turn && stored.payload.runner == e.payload.runner
  }

  lemma StoredIsSame(meta: Metadata, log: Log, e: Event)
    ensures SameRecord(Stored(meta, log, e), e)
  {
    hide RuntimeRows, SortStrings, CouncilMembers;
  }

  lemma PutAdds(meta: Metadata, log: Log, e: Event, foreign: set<string>)
    requires Put(meta, Written(log, None), e, foreign).error == None
    ensures Put(meta, Written(log, None), e, foreign).log == log + [Stored(meta, log, e)]
    ensures SameRecord(Stored(meta, log, e), e)
  {
    hide Stored, AppendError;
    StoredIsSame(meta, log, e);
  }

  /** What a launch adds: the start, after a retry note if this is not the first attempt. */
  lemma LaunchAdds(meta: Metadata, log: Log, req: Request, names: Names, attempt: nat, foreign: set<string>)
    requires Launch(meta, log, req, names, attempt, foreign).error == None
    ensures var after, n := Launch(meta, log, req, names, attempt, foreign).log, if attempt > 1 then 1 else 0;
            && |after| == |log| + n + 1 && log <= after
            && (attempt > 1 ==> after[|log|].typ == RetryAttempted)
            && SameRecord(after[|log| + n], StartedEvent(meta, req, names, attempt))
  {
    hide Put, Stored, SameRecord, StartedEvent;
    var first := if attempt > 1 then Put(meta, Written(log, None), RetryEvent(meta, req, names, attempt), foreign) else Written(log, None);
    if first.error.Some? {
      PutStops(meta, first, StartedEvent(meta, req, names, attempt), foreign);
    }
    if attempt > 1 {
      PutAdds(meta, log, RetryEvent(meta, req, names, attempt), foreign);
      RetryStored(meta, log, req, names, attempt);
    }
    PutAdds(meta, first.log, StartedEvent(meta, req, names, attempt), foreign);
  }

  lemma RetryStored(meta: Metadata, log: Log, req: Request, names: Names, attempt: nat)
    ensures Stored(meta, log, RetryEvent(meta, req, names, attempt)).typ == RetryAttempted
  {
    StoredIsSame(meta, log, RetryEvent(meta, req, names, attempt));
  }

  lemma PutStops(meta: Metadata, written: Written, e: Event, foreign: set<string>)
    requires written.error.Some?
    ensures Put(meta, written, e, foreign) == written
  {
  }

  /** `after` extends `log` by `n` retry notes and a well-shaped run. */
  ghost predicate Extends(log: Log, after: Log, n: nat, req: Request, names: Names, budget: nat, terminal: Event) {
    && |after| >= |log| + n && log <= after && (n > 0 ==> after[|log|].typ == RetryAttempted)
    && Shaped(after[|log| + n..], req, names, budget, terminal)
  }

  function RetryNotes(attempt: nat): (n: nat) {
    if attempt > 1 then 1 else 0
  }

  lemma ExtendsClosed(log: Log, launched: Log, after: Log, n: nat, req: Request, names: Names, budget: nat, terminal: Event)
    requires budget > 0 && |launched| == |log| + n + 1 && log <= launched <= after && |after| == |launched| + 1
    requires (n > 0 ==> launched[|log|].typ == RetryAttempted) && launched[|log| + n].typ == RunnerStarted
    requires Serves(launched[|log| + n], req, names)
    requires Closes(after[|launched|]) && Serves(after[|launched|], req, names) && SameRecord(after[|launched|], terminal)
    ensures Extends(log, after, n, req, names, budget, terminal)
  {
    hide SameRecord, Serves, Vetted;
    var events := after[|log| + n..];
    assert events[0] == launched[|log| + n] && events[1] == after[|launched|];
  }

  lemma ExtendsFinished(log: Log, launched: Log, after: Log, n: nat, req: Request, names: Names, budget: nat, terminal: Event)
    requires budget > 0 && |launched| == |log| + n + 1 && log <= launched <= after && |after| == |launched| + 2
    requires (n > 0 ==> launched[|log|].typ == RetryAttempted) && launched[|log| + n].typ == RunnerStarted
    requires Serves(launched[|log| + n], req, names)
    requires after[|launched|].typ == RunnerSucceeded && Serves(after[|launched|], req, names)
    requires SameInvocation(launched[|log| + n], after[|launched|])
    requires req.allowed == [Speech] ==>
               after[|launched|].runner == terminal.runner && (req.validator.Some? ==> Vetted(terminal, req))
    requires SameRecord(after[|launched| + 1], terminal)
    ensures Extends(log, after, n, req, names, budget, terminal)
  {
    hide SameRecord, Serves, Vetted;
    var events := after[|log| + n..];
    assert events[0] == launched[|log| + n] && events[1] == after[|launched|] && events[2] == after[|launched| + 1];
  }

  lemma SameRunner(stored: Event, e: Event)
    requires SameRecord(stored, e)
    ensures stored.runner == e.runner
  {
  }

  lemma AttemptInvocation(meta: Metadata, req: Request, names: Names, attempt: nat, result: AdapterResult)
    ensures SameInvocation(StartedEvent(meta, req, names, attempt), SucceededEvent(meta, req, names, attempt, result))
  {
    hide Trim, CommandOf, StatusOf, RawCost;
  }

  lemma SameCloses(stored: Event, e: Event)
    requires SameRecord(stored, e) && Closes(e)
    ensures Closes(stored)
  {
  }

  /** An attempt that ends without an append error writes a complete run. */
  lemma AttemptEnds(meta: Metadata, log: Log, req: Request, names: Names, attempt: nat, result: AdapterResult, foreign: set<string>, budget: nat)
    requires budget > 0 && OneAttempt(meta, log, req, names, attempt, result, foreign).Ended?
    requires OneAttempt(meta, log, req, names, attempt, result, foreign).error == None
    ensures var ended := OneAttempt(meta, log, req, names, attempt, result, foreign);
            ended.terminal.Some? && Extends(log, ended.log, RetryNotes(attempt), req, names, budget, ended.terminal.value)
  {
    hide Put, Launch, StartedEvent, ClosingEvent, SucceededEvent, SameRecord, Stored, SuccessTerminal, Extends, Decide, Serves, Closes, Vetted;
    var launched, n := Launch(meta, log, req, names, attempt, foreign), RetryNotes(attempt);
    LaunchAdds(meta, log, req, names, attempt, foreign);
    AttemptServes(meta, req, names, attempt, result);
    SameServes(launched.log[|log| + n], StartedEvent(meta, req, names, attempt), req, names);
    AgainWithinBudget(meta, launched.log, req, names, attempt, result);
    var after := OneAttempt(meta, log, req, names, attempt, result, foreign).log;
    var ending := Decide(meta, launched.log, req, names, attempt, result);
    if ending.Finish? {
      var terminal := ending.terminal;
      var succeeded := SucceededEvent(meta, req, names, attempt, result);
      FinishAdds(meta, launched.log, succeeded, terminal, foreign);
      SameServes(after[|launched.log|], succeeded, req, names);
      SameRunner(after[|launched.log|], succeeded);
      SameRunner(launched.log[|log| + n], StartedEvent(meta, req, names, attempt));
      AttemptInvocation(meta, req, names, attempt, result);
      if req.allowed == [Speech] {
        FinishRunner(meta, launched.log, req, names, attempt, result);
      }
      ExtendsFinished(log, launched.log, after, n, req, names, budget, terminal);
    } else {
      var closing := ClosingEvent(meta, req, names, attempt, result, ending);
      PutAdds(meta, launched.log, closing, foreign);
      ClosingServes(meta, req, names, attempt, result, ending);
      SameServes(after[|launched.log|], closing, req, names);
      SameCloses(after[|launched.log|], closing);
      ExtendsClosed(log, launched.log, after, n, req, names, budget, closing);
    }
  }

  /** An attempt that is to be tried again has only written its start, and the budget allows it. */
  lemma AttemptRetries(meta: Metadata, log: Log, req: Request, names: Names, attempt: nat, result: AdapterResult, foreign: set<string>)
    requires OneAttempt(meta, log, req, names, attempt, result, foreign).Retrying?
    ensures var next, n := OneAttempt(meta, log, req, names, attempt, result, foreign).log, RetryNotes(attempt);
            && attempt < Budget(req) && |next| == |log| + n + 1 && log <= next
            && (n > 0 ==> next[|log|].typ == RetryAttempted) && next[|log| + n].typ == RunnerStarted
            && Serves(next[|log| + n], req, names)
  {
    hide Put, Launch, StartedEvent, ClosingEvent, SucceededEvent, SameRecord, Stored, SuccessTerminal, Serves, Decide;
    LaunchAdds(meta, log, req, names, attempt, foreign);
    var next := Launch(meta, log, req, names, attempt, foreign).log;
    AttemptServes(meta, req, names, attempt, result);
    SameServes(next[|log| + RetryNotes(attempt)], StartedEvent(meta, req, names, attempt), req, names);
    AgainWithinBudget(meta, next, req, names, attempt, result);
  }

  /** Without append errors a dispatch writes a well-shaped run of at most MaxRetries + 1 starts,
      reports its last event, and never falls out of the loop. */
  lemma {:induction false} AttemptsShaped(meta: Metadata, log: Log, req: Request, names: Names, adapter: nat -> AdapterResult,
                                          attempt: nat, ids: seq<string>, foreign: set<string>)
    requires 1 <= attempt <= Budget(req)
    requires Attempts(meta, log, req, names, adapter, attempt, ids, foreign).1.error == None
    ensures var (after, report) := Attempts(meta, log, req, names, adapter, attempt, ids, foreign);
            && !report.exhausted && report.terminal.Some? && report.attempts <= Budget(req)
            && Extends(log, after, RetryNotes(attempt), req, names, Budget(req) + 1 - attempt, report.terminal.value)
    decreases Budget(req) + 1 - attempt
  {
    hide OneAttempt, Shaped;
    var result := adapter(attempt);
    match OneAttempt(meta, log, req, names, attempt, result, foreign) {
      case Ended(_, _, _) =>
        AttemptEnds(meta, log, req, names, attempt, result, foreign, Budget(req) + 1 - attempt);
      case Retrying(next) =>
        var ids' := ids + [names.invocationId(attempt)];
        AttemptRetries(meta, log, req, names, attempt, result, foreign);
        AttemptsShaped(meta, next, req, names, adapter, attempt + 1, ids', foreign);
        var (after, report) := Attempts(meta, next, req, names, adapter, attempt + 1, ids', foreign);
        ShapedAgain(next, after, |log| + RetryNotes(attempt), req, names, Budget(req) + 1 - attempt, report.terminal.value);
    }
  }

  lemma ShapedAgain(launched: Log, after: Log, start: nat, req: Request, names: Names, budget: nat, terminal: Event)
    requires |launched| == start + 1 && launched[start].typ == RunnerStarted && Serves(launched[start], req, names)
    requires launched <= after && budget > 0
    requires |after| > |launched| && after[|launched|].typ == RetryAttempted
    requires Shaped(after[|launched| + 1..], req, names, budget - 1, terminal)
    ensures Shaped(after[start..], req, names, budget, terminal)
  {
    var events := after[start..];
    assert events[0] == launched[start] && events[1] == after[|launched|];
    assert events[2..] == after[|launched| + 1..];
  }

  lemma FinishAdds(meta: Metadata, log: Log, succeeded: Event, terminal: Event, foreign: set<string>)
    requires Put(meta, Written(log, None), succeeded, foreign).error == None
    requires Put(meta, Put(meta, Written(log, None), succeeded, foreign), terminal, foreign).error == None
    ensures var after := Put(meta, Put(meta, Written(log, None), succeeded, foreign), terminal, foreign).log;
            |after| == |log| + 2 && log <= after && SameRecord(after[|log|], succeeded) && SameRecord(after[|log| + 1], terminal)
  {
    hide Put, SameRecord, Stored;
    PutAdds(meta, log, succeeded, foreign);
    PutAdds(meta, log + [Stored(meta, log, succeeded)], terminal, foreign);
  }

  lemma SameServes(stored: Event, e: Event, req: Request, names: Names)
    requires SameRecord(stored, e) && Serves(e, req, names)
    ensures Serves(stored, req, names) && stored.typ == e.typ
  {
    hide Ours, Trim;
  }

  lemma BaseServes(meta: Metadata, req: Request, names: Names, typ: EventType, attempt: nat, status: string, cost: Cost, payload: Payload)
    requires payload.runner.grantRefs == []
    ensures Serves(BaseEvent(meta, req, names, typ, attempt, status, cost, payload), req, names)
  {
    hide Trim, CommandOf;
    assert Ours(names, names.invocationId(attempt));
  }

  lemma AttemptServes(meta: Metadata, req: Request, names: Names, attempt: nat, result: AdapterResult)
    ensures StartedEvent(meta, req, names, attempt).typ == RunnerStarted && Serves(StartedEvent(meta, req, names, attempt), req, names)
    ensures SucceededEvent(meta, req, names, attempt, result).typ == RunnerSucceeded
            && Serves(SucceededEvent(meta, req, names, attempt, result), req, names)
  {
    hide Trim, CommandOf, Serves, StatusOf;
    BaseServes(meta, req, names, RunnerStarted, attempt, "started", CostOmitted, EMPTY_PAYLOAD);
    BaseServes(meta, req, names, RunnerSucceeded, attempt, StatusOf(RunnerSucceeded, result), RawCost(result), EMPTY_PAYLOAD);
  }

  lemma ClosingServes(meta: Metadata, req: Request, names: Names, attempt: nat, result: AdapterResult, ending: Ending)
    requires ending.Discard? || ending.Fail?
    ensures Closes(ClosingEvent(meta, req, names, attempt, result, ending))
    ensures Serves(ClosingEvent(meta, req, names, attempt, result, ending), req, names)
  {
    hide Trim, CommandOf, Serves, StatusOf, FailureReason;
    match ending {
      case Discard(reason, errorClass) =>
        BaseServes(meta, req, names, RunnerDiscarded, attempt, StatusOf(RunnerDiscarded, result), RawCost(result), Diagnostic(reason, errorClass));
      case Fail =>
        BaseServes(meta, req, names, RunnerFailed, attempt, StatusOf(RunnerFailed, result), RawCost(result),
                   Diagnostic(FailureReason(result.errorClass), if result.errorClass == "" then "runner_error" else result.errorClass));
    }
  }

  lemma AgainWithinBudget(meta: Metadata, log: Log, req: Request, names: Names, attempt: nat, result: AdapterResult)
    ensures Decide(meta, log, req, names, attempt, result) == Again ==> attempt < Budget(req)
  {
    hide SuccessTerminal;
  }

  lemma FinishRunner(meta: Metadata, log: Log, req: Request, names: Names, attempt: nat, result: AdapterResult)
    requires Decide(meta, log, req, names, attempt, result).Finish? && req.allowed == [Speech]
    ensures Decide(meta, log, req, names, attempt, result).terminal.runner == SucceededEvent(meta, req, names, attempt, result).runner
    ensures result.ok && !result.discarded && result.semanticType == Some(Speech)
    ensures req.validator.Some? ==> Vetted(Decide(meta, log, req, names, attempt, result).terminal, req)
  {
    hide SuccessTerminal, Vetted, SucceededEvent;
    SuccessRunner(meta, log, req, names, attempt, result);
    if req.validator.Some? {
      SuccessVetted(meta, log, req, names, attempt, result);
    }
  }

  lemma SuccessRunner(meta: Metadata, log: Log, req: Request, names: Names, attempt: nat, result: AdapterResult)
    requires SuccessTerminal(meta, log, req, names, attempt, Speech, result).Ok?
    ensures SuccessTerminal(meta, log, req, names, attempt, Speech, result).value.runner
            == SucceededEvent(meta, req, names, attempt, result).runner
  {
    hide Trim, RawCost, NormalizeStatus, CommandOf;
  }

  lemma VettedBy(req: Request, log: Log, e: Event, has: bool, terminal: Event)
    requires req.validator.Some? && e.typ == Speech && e.causation == Trim(req.causation)
    requires req.validator.value(log, e, has).Ok?
    requires terminal == req.validator.value(log, e, has).value.(runner := e.runner, cost := e.cost)
    ensures Vetted(terminal, req)
  {
    hide Trim;
    assert terminal == req.validator.value(log, e, has).value.(runner := terminal.runner, cost := terminal.cost);
  }

  lemma SuccessVetted(meta: Metadata, log: Log, req: Request, names: Names, attempt: nat, result: AdapterResult)
    requires SuccessTerminal(meta, log, req, names, attempt, Speech, result).Ok? && req.validator.Some?
    ensures Vetted(SuccessTerminal(meta, log, req, names, attempt, Speech, result).value, req)
  {
    hide Vetted, StatusOf, RawCost, CommandOf, Trim;
    var e := TerminalEvent(meta, req, names, Speech, attempt, result, if result.payload.Some? then result.payload.value else EMPTY_PAYLOAD);
    assert e.typ == Speech && e.causation == Trim(req.causation);
    hide TerminalEvent;
    VettedBy(req, log, e, result.payload.Some?, SuccessTerminal(meta, log, req, names, attempt, Speech, result).value);
  }

  /** The shape of a whole dispatch. */
  lemma DispatchShaped(meta: Metadata, log: Log, req: Request, names: Names, adapter: nat -> AdapterResult, foreign: set<string>)
    requires DispatchRun(meta, log, req, names, adapter, foreign).1.error == None
    ensures var (after, report) := DispatchRun(meta, log, req, names, adapter, foreign);
            && log <= after && report.terminal.Some? && !report.exhausted
            && Shaped(after[|log|..], req, names, Budget(req), report.terminal.value)
  {
    hide Attempts, Shaped, Preflight;
    AttemptsShaped(meta, log, req, names, adapter, 1, [], foreign);
  }

  // ---- Recorded ids ----------------------------------------------------------------------

  /** `after` adds only events with proper ids to `log`. */
  ghost predicate Grown(log: Log, after: Log) {
    log <= after && forall i :: |log| <= i < |after| ==> !Blank(after[i].id)
  }

  lemma GrownTwice(a: Log, b: Log, c: Log)
    requires Grown(a, b) && Grown(b, c)
    ensures Grown(a, c)
  {
    hide Trim;
  }

  lemma PutGrows(meta: Metadata, written: Written, e: Event, foreign: set<string>)
    ensures Grown(written.log, Put(meta, written, e, foreign).log)
  {
    hide Stored, Trim, ValidRecipients, PrincipalAllowed;
    StoredIsSame(meta, written.log, e);
  }

  lemma LaunchGrows(meta: Metadata, log: Log, req: Request, names: Names, attempt: nat, foreign: set<string>)
    ensures Grown(log, Launch(meta, log, req, names, attempt, foreign).log)
  {
    hide Put, RetryEvent, StartedEvent, Trim;
    var first := if attempt > 1 then Put(meta, Written(log, None), RetryEvent(meta, req, names, attempt), foreign) else Written(log, None);
    if attempt > 1 {
      PutGrows(meta, Written(log, None), RetryEvent(meta, req, names, attempt), foreign);
    }
    PutGrows(meta, first, StartedEvent(meta, req, names, attempt), foreign);
    GrownTwice(log, first.log, Launch(meta, log, req, names, attempt, foreign).log);
  }

  lemma AttemptGrows(meta: Metadata, log: Log, req: Request, names: Names, attempt: nat, result: AdapterResult, foreign: set<string>)
    ensures Grown(log, OneAttempt(meta, log, req, names, attempt, result, foreign).log)
  {
    hide Put, Launch, SucceededEvent, ClosingEvent, Decide, Grown;
    LaunchGrows(meta, log, req, names, attempt, foreign);
    var launched, after := Launch(meta, log, req, names, attempt, foreign), OneAttempt(meta, log, req, names, attempt, result, foreign);
    var ending := Decide(meta, launched.log, req, names, attempt, result);
    if launched.error == None && ending.Finish? {
      var noted := Put(meta, launched, SucceededEvent(meta, req, names, attempt, result), foreign);
      PutGrows(meta, launched, SucceededEvent(meta, req, names, attempt, result), foreign);
      PutGrows(meta, noted, ending.terminal, foreign);
      GrownTwice(log, launched.log, noted.log);
      if noted.error == None {
        GrownTwice(log, noted.log, after.log);
      }
    } else if launched.error == None && (ending.Discard? || ending.Fail?) {
      PutGrows(meta, launched, ClosingEvent(meta, req, names, attempt, result, ending), foreign);
      GrownTwice(log, launched.log, after.log);
    }
  }

  lemma {:induction false} AttemptsGrow(meta: Metadata, log: Log, req: Request, names: Names, adapter: nat -> AdapterResult,
                                        attempt: nat, ids: seq<string>, foreign: set<string>)
    ensures Grown(log, Attempts(meta, log, req, names, adapter, attempt, ids, foreign).0)
    decreases Budget(req) + 1 - attempt
  {
    hide OneAttempt, Trim;
    if attempt <= Budget(req) {
      AttemptGrows(meta, log, req, names, attempt, adapter(attempt), foreign);
      var tried := OneAttempt(meta, log, req, names, attempt, adapter(attempt), foreign);
      if tried.Retrying? {
        var ids' := ids + [names.invocationId(attempt)];
        AttemptsGrow(meta, tried.log, req, names, adapter, attempt + 1, ids', foreign);
        GrownTwice(log, tried.log, Attempts(meta, tried.log, req, names, adapter, attempt + 1, ids', foreign).0);
      }
    }
  }

  lemma DispatchGrows(meta: Metadata, log: Log, req: Request, names: Names, adapter: nat -> AdapterResult, foreign: set<string>)
    ensures Grown(log, DispatchRun(meta, log, req, names, adapter, foreign).0)
  {
    hide Attempts, Preflight, Trim;
    AttemptsGrow(meta, log, req, names, adapter, 1, [], foreign);
  }
}
