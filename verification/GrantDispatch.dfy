/** What a grant sets off: at most one dispatch, however often the grant command is retried and
    wherever a crash cuts the recording short. */
module GrantDispatch {
  import opened Prelude
  import opened Text
  import opened Events
  import opened Channel
  import opened SelectedSpeaker
  import Dispatch

  /** What a retried grant command meets: the checks around the dispatch, as the reason of the one
      that fails, and the dispatch's own parameters. */
  datatype Environment = Environment(
    blocked: Option<string>, evidenceBlocked: bool, evidence: Payload, promptBlank: bool, maxRetries: int,
    sessionTerminal: bool, adapterReady: bool, send: string -> Result<Sent>, names: Dispatch.Names,
    adapter: nat -> Dispatch.AdapterResult, foreign: set<string>)

  // ---- What the log says about a grant ---------------------------------------------------

  predicate OutcomeFor(e: Event, grantId: string) {
    e.causation == grantId && e.typ in {RunnerFailed, RunnerDiscarded, Speech, DispatchFailed}
  }

  predicate StartFor(e: Event, grantId: string) {
    e.causation == grantId && e.typ == RunnerStarted
  }

  predicate DispatchRecorded(log: Log, grantId: string) {
    exists i :: 0 <= i < |log| && OutcomeFor(log[i], grantId)
  }

  predicate DispatchStarted(log: Log, grantId: string) {
    exists i :: 0 <= i < |log| && StartFor(log[i], grantId)
  }

  predicate EvidenceRecorded(log: Log, grantId: string) {
    exists i :: 0 <= i < |log| && log[i].typ == PromptEvidence && log[i].causation == grantId
  }

  // ---- The reaction to a grant -----------------------------------------------------------

  function NoteEvent(meta: Metadata, grant: Event, typ: EventType, names: Dispatch.Names, payload: Payload): Event {
    Event(names.eventId(typ, 1), grant.commandId, grant.id, None, grant.phase, typ, DAEMON, [meta.moderator],
          names.clock(typ, 1), None, CostOmitted, payload)
  }

  function FailureNote(meta: Metadata, grant: Event, names: Dispatch.Names, reason: string, errorClass: string): Event {
    NoteEvent(meta, grant, DispatchFailed, names, Dispatch.Diagnostic(reason, errorClass))
  }

  /** The prompt evidence has none of the council's own keys. */
  function PromptNote(meta: Metadata, grant: Event, env: Environment): Event {
    NoteEvent(meta, grant, PromptEvidence, env.names, env.evidence.(council := EMPTY_PAYLOAD.council))
  }

  function FailWith(meta: Metadata, log: Log, grant: Event, env: Environment, reason: string, errorClass: string): Log {
    Append(meta, log, FailureNote(meta, grant, env.names, reason, errorClass), env.foreign).log
  }

  /** The dispatch itself, once the prompt evidence is on the log. */
  function Handle(meta: Metadata, log: Log, grant: Event, member: string, env: Environment): Log {
    hide Dispatch.DispatchRun, ValidateSpeech, FailWith;
    if Trim(grant.commandId) == "" then FailWith(meta, log, grant, env, "selected_runner_dispatch_failed", "")
    else if env.promptBlank then FailWith(meta, log, grant, env, "selected_runner_prompt_missing", "")
    else
      var req := SelectedRequest(meta, grant, member, env.send, env.maxRetries, env.sessionTerminal, env.adapterReady);
      var (after, report) := Dispatch.DispatchRun(meta, log, req, env.names, env.adapter, env.foreign);
      if report.error.Some? then FailWith(meta, after, grant, env, "selected_runner_dispatch_failed", "") else after
  }

  function WithEvidence(meta: Metadata, log: Log, grant: Event, env: Environment): Outcome {
    if EvidenceRecorded(log, grant.id) then Outcome(log, Ok(Receipt("", 0, "", true)))
    else Append(meta, log, PromptNote(meta, grant, env), env.foreign)
  }

  function AfterGrant(meta: Metadata, log: Log, grantId: string, env: Environment): Log {
    hide Handle, FailWith, WithEvidence, SelectedMemberOf;
    match EventById(log, grantId)
    case None => log
    case Some(grant) =>
      if grant.typ != SpeakerSelected || DispatchRecorded(log, grant.id) then log
      else if DispatchStarted(log, grant.id) then
        FailWith(meta, log, grant, env, "selected_runner_dispatch_incomplete_stale", Dispatch.STALE)
      else
        var member := SelectedMemberOf(grant);
        if member.Err? then FailWith(meta, log, grant, env, "selected_member_mismatch", "")
        else if member.value == "" then FailWith(meta, log, grant, env, "selected_member_missing", "")
        else if env.blocked.Some? then FailWith(meta, log, grant, env, env.blocked.value, "")
        else
          var noted := WithEvidence(meta, log, grant, env);
          if noted.result.Err? then noted.log
          else if env.evidenceBlocked then FailWith(meta, noted.log, grant, env, "selected_runner_context_missing", "")
          else Handle(meta, noted.log, grant, member.value, env)
  }

  method ScanOutcome(log: Log, grantId: string) returns (recorded: bool, started: bool)
    ensures recorded == DispatchRecorded(log, grantId) && started == DispatchStarted(log, grantId)
  {
    recorded, started := false, false;
    for i := 0 to |log|
      invariant recorded == exists k :: 0 <= k < i && OutcomeFor(log[k], grantId)
      invariant started == exists k :: 0 <= k < i && StartFor(log[k], grantId)
    {
      recorded := recorded || OutcomeFor(log[i], grantId);
      started := started || StartFor(log[i], grantId);
    }
  }

  method FailDispatch(s: Session, grant: Event, env: Environment, reason: string, errorClass: string)
    requires s.Valid()
    modifies s
    ensures s.Valid() && s.events == FailWith(s.meta, old(s.events), grant, env, reason, errorClass)
  {
    hide Append, FailureNote;
    var _ := s.AppendEvent(FailureNote(s.meta, grant, env.names, reason, errorClass), env.foreign);
  }

  method HandleGrant(s: Session, grant: Event, member: string, env: Environment)
    requires s.Valid()
    modifies s
    ensures s.Valid() && s.events == Handle(s.meta, old(s.events), grant, member, env)
  {
    hide FailWith, Dispatch.DispatchRun, ValidateSpeech;
    if Trim(grant.commandId) == "" {
      FailDispatch(s, grant, env, "selected_runner_dispatch_failed", "");
      return;
    }
    if env.promptBlank {
      FailDispatch(s, grant, env, "selected_runner_prompt_missing", "");
      return;
    }
    var req := SelectedRequest(s.meta, grant, member, env.send, env.maxRetries, env.sessionTerminal, env.adapterReady);
    var report := Dispatch.DispatchRunner(s, req, env.names, env.adapter, env.foreign);
    if report.error.Some? {
      FailDispatch(s, grant, env, "selected_runner_dispatch_failed", "");
    }
  }

  /** Runs after every accepted or retried grant command. */
  method DispatchSelectedSpeakerAfterGrant(s: Session, grantId: string, env: Environment)
    requires s.Valid()
    modifies s
    ensures s.Valid() && s.events == AfterGrant(s.meta, old(s.events), grantId, env)
  {
    hide FailWith, Handle, Append, SelectedMemberOf, NoteEvent, DispatchRecorded, DispatchStarted;
    var found := s.FindById(grantId);
    if found == None || found.value.typ != SpeakerSelected {
      return;
    }
    var grant := found.value;
    var recorded, started := ScanOutcome(s.events, grant.id);
    if recorded {
      return;
    }
    if started {
      FailDispatch(s, grant, env, "selected_runner_dispatch_incomplete_stale", Dispatch.STALE);
      return;
    }
    var member := SelectedMemberOf(grant);
    if member.Err? {
      FailDispatch(s, grant, env, "selected_member_mismatch", "");
      return;
    }
    if member.value == "" {
      FailDispatch(s, grant, env, "selected_member_missing", "");
      return;
    }
    if env.blocked.Some? {
      FailDispatch(s, grant, env, env.blocked.value, "");
      return;
    }
    if !EvidenceRecorded(s.events, grant.id) {
      var r := s.AppendEvent(PromptNote(s.meta, grant, env), env.foreign);
      if r.Err? {
        return;
      }
    }
    if env.evidenceBlocked {
      FailDispatch(s, grant, env, "selected_runner_context_missing", "");
      return;
    }
    HandleGrant(s, grant, member.value, env);
  }

  // ---- First attempts --------------------------------------------------------------------

  /** The start of a dispatch, as opposed to a retry within it. */
  predicate FirstStart(e: Event, grantId: string) {
    StartFor(e, grantId) && e.runner.Some? && e.runner.value.attempt == 1
  }

  function FirstStarts(log: Log, grantId: string): nat {
    if log == [] then 0
    else FirstStarts(log[..|log| - 1], grantId) + if FirstStart(log[|log| - 1], grantId) then 1 else 0
  }

  lemma FirstStartsSnoc(log: Log, e: Event, grantId: string)
    ensures FirstStarts(log + [e], grantId) == FirstStarts(log, grantId) + if FirstStart(e, grantId) then 1 else 0
  {
    assert (log + [e])[..|log|] == log;
  }

  lemma {:induction false} FirstStartsPrefix(log: Log, n: nat, grantId: string)
    requires n <= |log|
    ensures FirstStarts(log[..n], grantId) <= FirstStarts(log, grantId)
  {
    hide FirstStart;
    if n < |log| {
      assert log[..|log| - 1][..n] == log[..n];
      FirstStartsPrefix(log[..|log| - 1], n, grantId);
    } else {
      assert log[..n] == log;
    }
  }

  lemma {:induction false} NoStartNoFirst(log: Log, grantId: string)
    requires !DispatchStarted(log, grantId)
    ensures FirstStarts(log, grantId) == 0
  {
    hide StartFor;
    if log != [] {
      var init := log[..|log| - 1];
      assert forall i :: 0 <= i < |init| ==> init[i] == log[i];
      assert !StartFor(log[|log| - 1], grantId);
      NoStartNoFirst(init, grantId);
    }
  }

  /** `after` extends `log` by at most `more` first starts. */
  ghost predicate AddsStarts(log: Log, after: Log, grantId: string, more: nat) {
    log <= after && FirstStarts(after, grantId) <= FirstStarts(log, grantId) + more
  }

  lemma AppendStarts(meta: Metadata, log: Log, e: Event, foreign: set<string>, grantId: string)
    ensures AddsStarts(log, Append(meta, log, e, foreign).log, grantId, if FirstStart(e, grantId) then 1 else 0)
  {
    hide Stored, AppendError, Dispatch.SameRecord;
    Dispatch.StoredIsSame(meta, log, e);
    SameStart(Stored(meta, log, e), e, grantId);
    FirstStartsSnoc(log, Stored(meta, log, e), grantId);
  }

  lemma SameStart(stored: Event, e: Event, grantId: string)
    requires Dispatch.SameRecord(stored, e)
    ensures FirstStart(stored, grantId) == FirstStart(e, grantId)
  {
  }

  lemma PutStarts(meta: Metadata, written: Dispatch.Written, e: Event, foreign: set<string>, grantId: string)
    ensures AddsStarts(written.log, Dispatch.Put(meta, written, e, foreign).log, grantId, if FirstStart(e, grantId) then 1 else 0)
  {
    hide Append, FirstStart;
    AppendStarts(meta, written.log, e, foreign, grantId);
  }

  function Share(attempt: nat): (n: nat) {
    if attempt == 1 then 1 else 0
  }

  lemma LaunchStarts(meta: Metadata, log: Log, req: Dispatch.Request, names: Dispatch.Names, attempt: nat, foreign: set<string>, grantId: string)
    ensures AddsStarts(log, Dispatch.Launch(meta, log, req, names, attempt, foreign).log, grantId, Share(attempt))
  {
    hide Dispatch.Put, Dispatch.CommandOf, Trim;
    var retry := Dispatch.RetryEvent(meta, req, names, attempt);
    var empty := Dispatch.Written(log, None);
    var first := if attempt > 1 then Dispatch.Put(meta, empty, retry, foreign) else empty;
    PutStarts(meta, empty, retry, foreign, grantId);
    PutStarts(meta, first, Dispatch.StartedEvent(meta, req, names, attempt), foreign, grantId);
  }

  /** The validator never changes the kind of event. */
  ghost predicate KeepsType(req: Dispatch.Request) {
    req.allowed == [Speech] && req.validator.Some? &&
    forall log: Log, e: Event, has: bool :: req.validator.value(log, e, has).Ok? ==> req.validator.value(log, e, has).value.typ == e.typ
  }

  lemma FinishIsSpeech(meta: Metadata, log: Log, req: Dispatch.Request, names: Dispatch.Names, attempt: nat, result: Dispatch.AdapterResult)
    requires KeepsType(req) && Dispatch.Decide(meta, log, req, names, attempt, result).Finish?
    ensures Dispatch.Decide(meta, log, req, names, attempt, result).terminal.typ == Speech
  {
    hide Dispatch.CommandOf, Trim, Dispatch.StatusOf, Dispatch.RawCost;
  }

  lemma ClosingIsNoStart(meta: Metadata, req: Dispatch.Request, names: Dispatch.Names, attempt: nat, result: Dispatch.AdapterResult,
                         ending: Dispatch.Ending, grantId: string)
    ensures ending.Discard? || ending.Fail? ==>
              !FirstStart(Dispatch.ClosingEvent(meta, req, names, attempt, result, ending), grantId)
    ensures !FirstStart(Dispatch.SucceededEvent(meta, req, names, attempt, result), grantId)
  {
    hide Dispatch.CommandOf, Trim, Dispatch.StatusOf, Dispatch.RawCost, Dispatch.FailureReason;
  }

  lemma AttemptStarts(meta: Metadata, log: Log, req: Dispatch.Request, names: Dispatch.Names, attempt: nat,
                      result: Dispatch.AdapterResult, foreign: set<string>, grantId: string)
    requires KeepsType(req)
    ensures AddsStarts(log, Dispatch.OneAttempt(meta, log, req, names, attempt, result, foreign).log, grantId, Share(attempt))
  {
    hide Dispatch.Put, Dispatch.Launch, Dispatch.Decide, Dispatch.ClosingEvent, Dispatch.SucceededEvent, KeepsType;
    LaunchStarts(meta, log, req, names, attempt, foreign, grantId);
    var launched := Dispatch.Launch(meta, log, req, names, attempt, foreign);
    var ending := Dispatch.Decide(meta, launched.log, req, names, attempt, result);
    ClosingIsNoStart(meta, req, names, attempt, result, ending, grantId);
    if ending.Finish? {
      var succeeded := Dispatch.SucceededEvent(meta, req, names, attempt, result);
      FinishIsSpeech(meta, launched.log, req, names, attempt, result);
      PutStarts(meta, launched, succeeded, foreign, grantId);
      PutStarts(meta, Dispatch.Put(meta, launched, succeeded, foreign), ending.terminal, foreign, grantId);
    } else if ending.Discard? || ending.Fail? {
      PutStarts(meta, launched, Dispatch.ClosingEvent(meta, req, names, attempt, result, ending), foreign, grantId);
    }
  }

  lemma {:induction false} AttemptsStarts(meta: Metadata, log: Log, req: Dispatch.Request, names: Dispatch.Names,
                                          adapter: nat -> Dispatch.AdapterResult, attempt: nat, ids: seq<string>,
                                          foreign: set<string>, grantId: string)
    requires KeepsType(req) && attempt >= 1
    ensures AddsStarts(log, Dispatch.Attempts(meta, log, req, names, adapter, attempt, ids, foreign).0, grantId, Share(attempt))
    decreases Dispatch.Budget(req) + 1 - attempt
  {
    hide Dispatch.OneAttempt, KeepsType, FirstStarts;
    if attempt <= Dispatch.Budget(req) {
      AttemptStarts(meta, log, req, names, attempt, adapter(attempt), foreign, grantId);
      var tried := Dispatch.OneAttempt(meta, log, req, names, attempt, adapter(attempt), foreign);
      if tried.Retrying? {
        AttemptsStarts(meta, tried.log, req, names, adapter, attempt + 1, ids + [names.invocationId(attempt)], foreign, grantId);
      }
    }
  }

  lemma SelectedKeepsType(meta: Metadata, grant: Event, member: string, env: Environment)
    ensures KeepsType(SelectedRequest(meta, grant, member, env.send, env.maxRetries, env.sessionTerminal, env.adapterReady))
  {
    hide Trim, WithDelivery, SpeakSpec;
    forall log: Log, e: Event, has: bool | ValidateSpeech(meta, member, env.send, log, e, has).Ok?
      ensures ValidateSpeech(meta, member, env.send, log, e, has).value.typ == e.typ
    {
    }
  }

  lemma FailStarts(meta: Metadata, log: Log, grant: Event, env: Environment, reason: string, errorClass: string, grantId: string)
    ensures AddsStarts(log, FailWith(meta, log, grant, env, reason, errorClass), grantId, 0)
  {
    hide Append;
    AppendStarts(meta, log, FailureNote(meta, grant, env.names, reason, errorClass), env.foreign, grantId);
  }

  lemma HandleStarts(meta: Metadata, log: Log, grant: Event, member: string, env: Environment, grantId: string)
    ensures AddsStarts(log, Handle(meta, log, grant, member, env), grantId, 1)
  {
    hide FailWith, Dispatch.Attempts, ValidateSpeech, FirstStarts, KeepsType;
    var req := SelectedRequest(meta, grant, member, env.send, env.maxRetries, env.sessionTerminal, env.adapterReady);
    SelectedKeepsType(meta, grant, member, env);
    AttemptsStarts(meta, log, req, env.names, env.adapter, 1, [], env.foreign, grantId);
    var after := Dispatch.DispatchRun(meta, log, req, env.names, env.adapter, env.foreign).0;
    FailStarts(meta, log, grant, env, "selected_runner_dispatch_failed", "", grantId);
    FailStarts(meta, log, grant, env, "selected_runner_prompt_missing", "", grantId);
    FailStarts(meta, after, grant, env, "selected_runner_dispatch_failed", "", grantId);
  }

  lemma ReactionStarts(meta: Metadata, log: Log, grantId: string, env: Environment)
    ensures AddsStarts(log, AfterGrant(meta, log, grantId, env), grantId, if DispatchStarted(log, grantId) then 0 else 1)
  {
    hide FailWith, Handle, Append, FirstStarts, SelectedMemberOf, DispatchRecorded, DispatchStarted, EvidenceRecorded;
    if EventById(log, grantId).Some? {
      var grant := EventById(log, grantId).value;
      forall reason, errorClass ensures AddsStarts(log, FailWith(meta, log, grant, env, reason, errorClass), grantId, 0) {
        FailStarts(meta, log, grant, env, reason, errorClass, grantId);
      }
      var noted := WithEvidence(meta, log, grant, env).log;
      AppendStarts(meta, log, PromptNote(meta, grant, env), env.foreign, grantId);
      FailStarts(meta, noted, grant, env, "selected_runner_context_missing", "", grantId);
      if SelectedMemberOf(grant).Ok? {
        HandleStarts(meta, noted, grant, SelectedMemberOf(grant).value, env, grantId);
      }
    }
  }

  // ---- Any number of retries and crashes -------------------------------------------------

  /** What can happen to the session: another event is recorded, or the grant command is retried
      and the reaction to it is cut short after `keep` events. */
  datatype Step = Other(e: Event) | Reaction(env: Environment, keep: nat)

  /** Nothing but the dispatcher starts runners for a grant. */
  function Advance(meta: Metadata, log: Log, grantId: string, step: Step): (after: Log) {
    match step
    case Other(e) => if StartFor(e, grantId) then log else log + [e]
    case Reaction(env, keep) =>
      var after := AfterGrant(meta, log, grantId, env);
      if |log| + keep < |after| then after[..|log| + keep] else after
  }

  /** The logs as the steps happen, one after the other. */
  ghost predicate Happens(meta: Metadata, grantId: string, logs: seq<Log>, steps: seq<Step>) {
    && |logs| == |steps| + 1
    && forall i {:trigger steps[i]} :: 0 <= i < |steps| ==> logs[i + 1] == Advance(meta, logs[i], grantId, steps[i])
  }

  lemma AdvanceStarts(meta: Metadata, log: Log, grantId: string, step: Step)
    ensures FirstStarts(Advance(meta, log, grantId, step), grantId)
            <= FirstStarts(log, grantId) + if DispatchStarted(log, grantId) then 0 else 1
  {
    hide AfterGrant, FirstStarts, DispatchStarted;
    match step {
      case Other(e) => FirstStartsSnoc(log, e, grantId);
      case Reaction(env, keep) =>
        ReactionStarts(meta, log, grantId, env);
        var after := AfterGrant(meta, log, grantId, env);
        if |log| + keep < |after| {
          FirstStartsPrefix(after, |log| + keep, grantId);
        }
    }
  }

  /** However often the grant command is retried, and wherever crashes cut the recording, a grant
      causes at most one dispatch. */
  lemma {:induction false} AtMostOneDispatch(meta: Metadata, grantId: string, logs: seq<Log>, steps: seq<Step>, n: nat)
    requires Happens(meta, grantId, logs, steps) && !DispatchStarted(logs[0], grantId) && n <= |steps|
    ensures FirstStarts(logs[n], grantId) <= 1
  {
    hide Advance, FirstStarts, DispatchStarted;
    if n == 0 {
      NoStartNoFirst(logs[0], grantId);
    } else {
      AtMostOneDispatch(meta, grantId, logs, steps, n - 1);
      AdvanceStarts(meta, logs[n - 1], grantId, steps[n - 1]);
      if !DispatchStarted(logs[n - 1], grantId) {
        NoStartNoFirst(logs[n - 1], grantId);
      }
    }
  }

  /** A recorded outcome ends the matter: every later reaction leaves the log alone. */
  lemma OutcomeIsFinal(meta: Metadata, log: Log, longer: Log, grantId: string, env: Environment)
    requires log <= longer && DispatchRecorded(log, grantId)
    ensures AfterGrant(meta, longer, grantId, env) == longer
  {
    hide OutcomeFor, EventById, FailWith, Handle, Append, SelectedMemberOf;
    var i :| 0 <= i < |log| && OutcomeFor(log[i], grantId);
    assert OutcomeFor(longer[i], grantId);
    GrantIsNamed(longer, grantId);
  }

  lemma GrantIsNamed(log: Log, grantId: string)
    ensures EventById(log, grantId).Some? ==> EventById(log, grantId).value.id == grantId
  {
  }

  /** A start that a crash left without an outcome becomes one dispatch-failed diagnostic, unless
      appending it fails; after it no reaction ever writes anything for the grant again. */
  lemma IncompleteStartIsSettled(meta: Metadata, log: Log, grantId: string, env: Environment)
    requires EventById(log, grantId).Some? && EventById(log, grantId).value.typ == SpeakerSelected
    requires DispatchStarted(log, grantId) && !DispatchRecorded(log, grantId)
    ensures var after := AfterGrant(meta, log, grantId, env);
            after == log
            || (|after| == |log| + 1 && log <= after && after[|log|].typ == DispatchFailed && OutcomeFor(after[|log|], grantId)
                && forall longer, later :: after <= longer ==> AfterGrant(meta, longer, grantId, later) == longer)
  {
    hide Append, Handle, WithEvidence, SelectedMemberOf, DispatchStarted, DispatchRecorded, Stored, Dispatch.SameRecord;
    GrantIsNamed(log, grantId);
    var grant := EventById(log, grantId).value;
    var note := FailureNote(meta, grant, env.names, "selected_runner_dispatch_incomplete_stale", Dispatch.STALE);
    var after := AfterGrant(meta, log, grantId, env);
    AppendIsPut(meta, log, note, env.foreign);
    if after != log {
      SameOutcome(Stored(meta, log, note), note, grantId);
      RecordedBy(after, |log|, grantId);
      forall longer, later | after <= longer ensures AfterGrant(meta, longer, grantId, later) == longer {
        OutcomeIsFinal(meta, after, longer, grantId, later);
      }
    }
  }

  lemma AppendIsPut(meta: Metadata, log: Log, e: Event, foreign: set<string>)
    ensures Append(meta, log, e, foreign).log == log || Append(meta, log, e, foreign).log == log + [Stored(meta, log, e)]
    ensures Dispatch.SameRecord(Stored(meta, log, e), e)
  {
    hide Stored, AppendError;
    Dispatch.StoredIsSame(meta, log, e);
  }

  lemma SameOutcome(stored: Event, e: Event, grantId: string)
    requires Dispatch.SameRecord(stored, e) && OutcomeFor(e, grantId)
    ensures OutcomeFor(stored, grantId) && stored.typ == e.typ
  {
  }

  lemma RecordedBy(log: Log, i: nat, grantId: string)
    requires i < |log| && OutcomeFor(log[i], grantId)
    ensures DispatchRecorded(log, grantId)
  {
  }
}
