/** A dispatch within a council: whatever the runner does, everything the dispatch records is
    justified by the council's own rules. */
module DispatchRuns {
  import opened Prelude
  import opened Text
  import opened Events
  import opened Channel
  import opened CouncilRuns
  import opened SelectedSpeaker
  import Council
  import Scans
  import ArgumentGraph
  import Dispatch
  import GrantDispatch
  import opened Accounting
  import DispatchAccounting

  /** A log that some run of requests leads to, in the discussion phase. */
  ghost predicate Live(meta: Metadata, log: Log) {
    Reachable(meta, log) && LatestPhase(log) == Discussion
  }

  /** What the dispatcher writes in the discussion phase. */
  predicate NoteOf(e: Event) {
    DispatchEvent(e.typ) && e.phase == Discussion && e.payload.council == EMPTY_PAYLOAD.council
  }

  lemma AppendPhase(meta: Metadata, log: Log, e: Event, foreign: set<string>)
    requires LatestPhase(log) == Discussion == e.phase
    ensures LatestPhase(Append(meta, log, e, foreign).log) == Discussion
  {
    hide AppendError, RuntimeRows, SortStrings;
  }

  lemma NoteLive(meta: Metadata, log: Log, e: Event, foreign: set<string>)
    requires Live(meta, log) && NoteOf(e)
    ensures Live(meta, Append(meta, log, e, foreign).log)
  {
    hide Reachable, Append, LatestPhase;
    ApplyReachable(meta, log, CouncilRuns.Request(DispatchNote(e), foreign));
    AppendPhase(meta, log, e, foreign);
  }

  lemma PutLive(meta: Metadata, written: Dispatch.Written, e: Event, foreign: set<string>)
    requires Live(meta, written.log) && NoteOf(e)
    ensures Live(meta, Dispatch.Put(meta, written, e, foreign).log)
  {
    hide Live, Append, NoteOf;
    NoteLive(meta, written.log, e, foreign);
  }

  lemma DispatchNotes(meta: Metadata, req: Dispatch.Request, names: Dispatch.Names, attempt: nat, result: Dispatch.AdapterResult, ending: Dispatch.Ending)
    requires req.phase == Discussion
    ensures var start, retry, succeeded := Dispatch.StartedEvent(meta, req, names, attempt), Dispatch.RetryEvent(meta, req, names, attempt),
                                           Dispatch.SucceededEvent(meta, req, names, attempt, result);
            NoteOf(start) && NoteOf(retry) && NoteOf(succeeded) && succeeded.typ == RunnerSucceeded
    ensures ending.Discard? || ending.Fail? ==>
              NoteOf(Dispatch.ClosingEvent(meta, req, names, attempt, result, ending))
  {
    hide Dispatch.CommandOf, Trim, Dispatch.StatusOf, Dispatch.RawCost, Dispatch.FailureReason;
  }

  lemma LaunchLive(meta: Metadata, log: Log, req: Dispatch.Request, names: Dispatch.Names, attempt: nat, foreign: set<string>)
    requires Live(meta, log) && req.phase == Discussion
    ensures Live(meta, Dispatch.Launch(meta, log, req, names, attempt, foreign).log)
  {
    hide Live, Dispatch.Put, Dispatch.StartedEvent, Dispatch.RetryEvent;
    DispatchNotes(meta, req, names, attempt, Dispatch.AdapterResult(false, false, false, false, "", None, "", None, None), Dispatch.Again);
    var empty := Dispatch.Written(log, None);
    var retry := Dispatch.RetryEvent(meta, req, names, attempt);
    PutLive(meta, empty, retry, foreign);
    var first := if attempt > 1 then Dispatch.Put(meta, empty, retry, foreign) else empty;
    PutLive(meta, first, Dispatch.StartedEvent(meta, req, names, attempt), foreign);
  }

  /** The speech that finishes an attempt is the event of a speak command that the council accepts
      on the log at hand, with the runner attached. */
  lemma FinishSpoken(meta: Metadata, log: Log, grant: Event, member: string, env: GrantDispatch.Environment, attempt: nat)
    returns (spec: Council.CouncilSpec, keys: RunnerKeys)
    requires var req := SelectedRequest(meta, grant, member, env.send, env.maxRetries, env.sessionTerminal, env.adapterReady);
             Dispatch.Decide(meta, log, req, env.names, attempt, env.adapter(attempt)).Finish?
    requires Trim(grant.commandId) != "" && Trim(member) == member != ""
    ensures var req := SelectedRequest(meta, grant, member, env.send, env.maxRetries, env.sessionTerminal, env.adapterReady);
            SpokenFor(meta, log, spec, keys, Dispatch.Decide(meta, log, req, env.names, attempt, env.adapter(attempt)).terminal)
  {
    hide ValidateSpeech, Dispatch.StatusOf, Dispatch.RawCost, Trim, RunnerSpeechEvent, Council.BuildEvent;
    var req := SelectedRequest(meta, grant, member, env.send, env.maxRetries, env.sessionTerminal, env.adapterReady);
    var result := env.adapter(attempt);
    var payload := if result.payload.Some? then result.payload.value else EMPTY_PAYLOAD;
    var e := Dispatch.TerminalEvent(meta, req, env.names, Speech, attempt, result, payload);
    TrimIdempotent(grant.commandId);
    TrimIdempotent(grant.id);
    var valid := ValidateSpeech(meta, member, env.send, log, e, result.payload.Some?).value;
    ValidatedIsSpoken(meta, member, env.send, log, e, result.payload.Some?);
    spec, keys := SpeakSpec(member, e), valid.payload.runner;
    SpeechKeepsId(Council.BuildEvent(meta, log, spec).value, e.id, e.runner.value, e.cost, keys);
  }

  lemma SpeechKeepsId(built: Event, id: string, runner: Runner, cost: Cost, keys: RunnerKeys)
    ensures var e := RunnerSpeechEvent(built, id, runner, cost, keys);
            e.id == id && e.runner == Some(runner) && e.cost == cost && e.phase == built.phase
  {
  }

  ghost predicate SpokenFor(meta: Metadata, log: Log, spec: Council.CouncilSpec, keys: RunnerKeys, terminal: Event) {
    && spec.action == Council.Speak && Council.BuildEvent(meta, log, spec).Ok? && terminal.runner.Some? && terminal.phase == Discussion
    && terminal == RunnerSpeechEvent(Council.BuildEvent(meta, log, spec).value, terminal.id, terminal.runner.value, terminal.cost, keys)
  }

  lemma FinishLive(meta: Metadata, log: Log, succeeded: Event, terminal: Event, spec: Council.CouncilSpec, keys: RunnerKeys, foreign: set<string>)
    requires Live(meta, log) && NoteOf(succeeded) && succeeded.typ == RunnerSucceeded && SpokenFor(meta, log, spec, keys, terminal)
    ensures Live(meta, Dispatch.Put(meta, Dispatch.Written(log, None), succeeded, foreign).log)
    ensures Live(meta, Dispatch.Put(meta, Dispatch.Put(meta, Dispatch.Written(log, None), succeeded, foreign), terminal, foreign).log)
  {
    hide Reachable, Append, LatestPhase, RunnerSpeechEvent, Council.BuildEvent;
    PutLive(meta, Dispatch.Written(log, None), succeeded, foreign);
    var noted := Append(meta, log, succeeded, foreign);
    if noted.result.Ok? {
      ApplyReachable(meta, log, CouncilRuns.Request(
        RunnerSpeech(succeeded, spec, terminal.id, terminal.runner.value, terminal.cost, keys), foreign));
      AppendPhase(meta, noted.log, terminal, foreign);
    }
  }

  lemma AttemptLive(meta: Metadata, log: Log, grant: Event, member: string, env: GrantDispatch.Environment, attempt: nat)
    requires Live(meta, log) && grant.phase == Discussion && Trim(grant.commandId) != "" && Trim(member) == member != ""
    ensures var req := SelectedRequest(meta, grant, member, env.send, env.maxRetries, env.sessionTerminal, env.adapterReady);
            Live(meta, Dispatch.OneAttempt(meta, log, req, env.names, attempt, env.adapter(attempt), env.foreign).log)
  {
    hide Live, Dispatch.Put, Dispatch.Launch, Dispatch.Decide, Dispatch.ClosingEvent, Dispatch.SucceededEvent, ValidateSpeech,
      SpokenFor, NoteOf, Trim;
    var req := SelectedRequest(meta, grant, member, env.send, env.maxRetries, env.sessionTerminal, env.adapterReady);
    var result := env.adapter(attempt);
    LaunchLive(meta, log, req, env.names, attempt, env.foreign);
    var launched := Dispatch.Launch(meta, log, req, env.names, attempt, env.foreign);
    if launched.error == None {
      var ending := Dispatch.Decide(meta, launched.log, req, env.names, attempt, result);
      DispatchNotes(meta, req, env.names, attempt, result, ending);
      if ending.Finish? {
        var spec, keys := FinishSpoken(meta, launched.log, grant, member, env, attempt);
        FinishLive(meta, launched.log, Dispatch.SucceededEvent(meta, req, env.names, attempt, result), ending.terminal, spec, keys, env.foreign);
      } else if ending.Discard? || ending.Fail? {
        PutLive(meta, launched, Dispatch.ClosingEvent(meta, req, env.names, attempt, result, ending), env.foreign);
      }
    }
  }

  lemma {:induction false} AttemptsLive(meta: Metadata, log: Log, grant: Event, member: string, env: GrantDispatch.Environment,
                                        attempt: nat, ids: seq<string>)
    requires Live(meta, log) && grant.phase == Discussion && Trim(grant.commandId) != "" && Trim(member) == member != ""
    ensures var req := SelectedRequest(meta, grant, member, env.send, env.maxRetries, env.sessionTerminal, env.adapterReady);
            Live(meta, Dispatch.Attempts(meta, log, req, env.names, env.adapter, attempt, ids, env.foreign).0)
    decreases Max(env.maxRetries, 0) + 2 - attempt
  {
    hide Live, Dispatch.OneAttempt, ValidateSpeech, Trim;
    var req := SelectedRequest(meta, grant, member, env.send, env.maxRetries, env.sessionTerminal, env.adapterReady);
    if attempt <= Dispatch.Budget(req) {
      AttemptLive(meta, log, grant, member, env, attempt);
      var tried := Dispatch.OneAttempt(meta, log, req, env.names, attempt, env.adapter(attempt), env.foreign);
      if tried.Retrying? {
        AttemptsLive(meta, tried.log, grant, member, env, attempt + 1, ids + [env.names.invocationId(attempt)]);
      }
    }
  }

  lemma FailLive(meta: Metadata, log: Log, grant: Event, env: GrantDispatch.Environment, reason: string, errorClass: string)
    requires Live(meta, log) && grant.phase == Discussion
    ensures Live(meta, GrantDispatch.FailWith(meta, log, grant, env, reason, errorClass))
  {
    hide Live, Append;
    NoteLive(meta, log, GrantDispatch.FailureNote(meta, grant, env.names, reason, errorClass), env.foreign);
  }

  lemma HandleLive(meta: Metadata, log: Log, grant: Event, member: string, env: GrantDispatch.Environment)
    requires Live(meta, log) && grant.phase == Discussion && Trim(member) == member != ""
    ensures Live(meta, GrantDispatch.Handle(meta, log, grant, member, env))
  {
    hide Live, GrantDispatch.FailWith, Dispatch.Attempts, ValidateSpeech, Trim;
    var req := SelectedRequest(meta, grant, member, env.send, env.maxRetries, env.sessionTerminal, env.adapterReady);
    FailLive(meta, log, grant, env, "selected_runner_dispatch_failed", "");
    FailLive(meta, log, grant, env, "selected_runner_prompt_missing", "");
    if Trim(grant.commandId) != "" {
      AttemptsLive(meta, log, grant, member, env, 1, []);
      var after := Dispatch.DispatchRun(meta, log, req, env.names, env.adapter, env.foreign).0;
      assert Live(meta, after);
      FailLive(meta, after, grant, env, "selected_runner_dispatch_failed", "");
    }
  }

  /** Grants are made in the discussion phase. */
  lemma GrantInDiscussion(meta: Metadata, log: Log, grantId: string)
    requires Reachable(meta, log) && EventById(log, grantId).Some? && EventById(log, grantId).value.typ == SpeakerSelected
    ensures EventById(log, grantId).value.phase == Discussion
  {
    hide Reachable, History, EventById, GrantJustified;
    ReachableHistory(meta, log);
    var grant := EventById(log, grantId).value;
    var k :| 0 <= k < |log| && log[k] == grant;
    GrantHistory(meta, log, k);
  }

  lemma GrantHistory(meta: Metadata, log: Log, k: nat)
    requires History(meta, log) && k < |log| && log[k].typ == SpeakerSelected
    ensures log[k].phase == Discussion
  {
    hide PhaseJustified, FreshCommand, HasId, CouncilMembers, Scans.RaiseStance;
    assert Justified(meta, log[..k], log[k]);
  }

  /** The reaction to a grant is itself a run of requests: whatever the runner returns, it leads from
      a reachable log in discussion to another one, so what holds of every reachable log holds of it. */
  lemma ReactionReachable(meta: Metadata, log: Log, grantId: string, env: GrantDispatch.Environment)
    requires Live(meta, log)
    ensures Live(meta, GrantDispatch.AfterGrant(meta, log, grantId, env))
  {
    hide Reachable, LatestPhase, GrantDispatch.FailWith, GrantDispatch.Handle, GrantDispatch.WithEvidence, GrantDispatch.DispatchRecorded,
      GrantDispatch.DispatchStarted, EventById, Trim, SelectedMemberOf;
    if EventById(log, grantId).Some? && EventById(log, grantId).value.typ == SpeakerSelected {
      GrantInDiscussion(meta, log, grantId);
      var grant, member := EventById(log, grantId).value, SelectedMemberOf(EventById(log, grantId).value);
      FailLive(meta, log, grant, env, "selected_runner_dispatch_incomplete_stale", Dispatch.STALE);
      FailLive(meta, log, grant, env, "selected_member_mismatch", "");
      FailLive(meta, log, grant, env, "selected_member_missing", "");
      if env.blocked.Some? {
        FailLive(meta, log, grant, env, env.blocked.value, "");
      }
      EvidenceLive(meta, log, grant, env);
      var noted := GrantDispatch.WithEvidence(meta, log, grant, env).log;
      FailLive(meta, noted, grant, env, "selected_runner_context_missing", "");
      if member.Ok? && member.value != "" {
        MemberTrimmed(grant);
        HandleLive(meta, noted, grant, member.value, env);
      }
    }
  }

  lemma EvidenceLive(meta: Metadata, log: Log, grant: Event, env: GrantDispatch.Environment)
    requires Live(meta, log) && grant.phase == Discussion
    ensures Live(meta, GrantDispatch.WithEvidence(meta, log, grant, env).log)
  {
    hide Live, Append;
    NoteLive(meta, log, GrantDispatch.PromptNote(meta, grant, env), env.foreign);
  }

  lemma MemberTrimmed(grant: Event)
    requires SelectedMemberOf(grant).Ok?
    ensures Trim(SelectedMemberOf(grant).value) == SelectedMemberOf(grant).value
  {
    hide Trim;
    TrimIdempotent(grant.payload.member);
    if |grant.to| == 1 {
      TrimIdempotent(grant.to[0]);
    }
    EmptyTrims();
  }

  lemma EmptyTrims()
    ensures Trim("") == ""
  {
  }

  // ---- The accounting of a selected speaker ----------------------------------------------

  lemma ValidatedSpeech(meta: Metadata, member: string, send: string -> Result<Sent>, log: Log, e: Event, has: bool)
    requires e.typ == Speech && ValidateSpeech(meta, member, send, log, e, has).Ok? && Trim(member) == member != ""
    ensures var valid := ValidateSpeech(meta, member, send, log, e, has).value;
            valid.typ == Speech && valid.causation == e.causation && valid.from == member && valid.id == e.id
  {
    hide Council.Transition, Trim, WithDelivery, BindReferences, VisibleEvidence, NormalizeSpeech;
  }

  lemma SelectedValidates(meta: Metadata, grant: Event, member: string, env: GrantDispatch.Environment)
    requires Trim(member) == member != ""
    ensures DispatchAccounting.SpeechValidator(
              SelectedRequest(meta, grant, member, env.send, env.maxRetries, env.sessionTerminal, env.adapterReady))
  {
    hide ValidateSpeech, Trim;
    forall log: Log, e: Event, has: bool | e.typ == Speech && ValidateSpeech(meta, member, env.send, log, e, has).Ok?
      ensures var valid := ValidateSpeech(meta, member, env.send, log, e, has).value;
              valid.typ == Speech && valid.causation == e.causation && valid.from == member && valid.id == e.id
    {
      ValidatedSpeech(meta, member, env.send, log, e, has);
    }
  }

  /** The selected speaker's dispatch, read back: on a grant that nothing has touched yet the
      accounting passes the grant exactly when the dispatch ended in a successful speech of its turn
      that, in a Discord thread, proves its delivery. */
  lemma SelectedGrantPassesExactly(meta: Metadata, echoIds: set<string>, log: Log, grant: Event, member: string, env: GrantDispatch.Environment)
    requires var req := SelectedRequest(meta, grant, member, env.send, env.maxRetries, env.sessionTerminal, env.adapterReady);
             Dispatch.DispatchRun(meta, log, req, env.names, env.adapter, env.foreign).1.error == None
    requires DispatchAccounting.WellNamed(env.names) && Trim(member) == member != ""
    requires var l := Account(echoIds, log);
             && Trim(grant.id) == grant.id != "" && grant.id in l.grantIndex && RowFor(l, grant.id) == NewRow(grant)
             && SelectedMember(grant) == member
             && forall attempt: nat :: env.names.invocationId(attempt) !in l.invocationToGrant
    ensures var req := SelectedRequest(meta, grant, member, env.send, env.maxRetries, env.sessionTerminal, env.adapterReady);
            var (after, report) := Dispatch.DispatchRun(meta, log, req, env.names, env.adapter, env.foreign);
            var last := Account(echoIds, after);
            && grant.id in last.grantIndex && report.terminal.Some?
            && (Passes(meta, RowFor(last, grant.id), last.linked)
                <==> DispatchAccounting.Spoke(report.terminal.value, Max(grant.payload.turn, 0))
                     && (NeedsDelivery(meta) ==> SpeechDelivered(meta, member, report.terminal.value)))
  {
    hide Dispatch.DispatchRun, Account, Passes, Trim, ValidateSpeech, DispatchAccounting.SpeechValidator, DispatchAccounting.WellNamed,
      DispatchAccounting.Spoke, SelectedMember, SpeechDelivered;
    SelectedValidates(meta, grant, member, env);
    var req := SelectedRequest(meta, grant, member, env.send, env.maxRetries, env.sessionTerminal, env.adapterReady);
    DispatchAccounting.GrantPassesExactly(meta, echoIds, log, req, env.names, env.adapter, env.foreign);
  }

  // ---- What the runner and the delivery returned -----------------------------------------

  /** The turn that a runner speaks for: the one its payload names, or else the current one. */
  function SpokenTurn(log: Log, payload: Payload): int {
    if payload.turn != 0 then payload.turn else Scans.CurrentTurn(log)
  }

  /** A speech has the turn that the runner returned and, in a Discord thread, proves its delivery. */
  ghost predicate Utters(meta: Metadata, log: Log, member: string, env: GrantDispatch.Environment, attempt: nat, terminal: Event) {
    var result := env.adapter(attempt);
    && result.payload.Some? && SpeechTurn(terminal) == SpokenTurn(log, result.payload.value)
    && (NeedsDelivery(meta) ==> SpeechDelivered(meta, member, terminal))
  }

  lemma BuiltTurn(meta: Metadata, log: Log, spec: Council.CouncilSpec)
    requires spec.action == Council.Speak && Council.BuildEvent(meta, log, spec).Ok?
    ensures var built := Council.BuildEvent(meta, log, spec).value;
            built.payload.turn == SpokenTurn(log, spec.payload) > 0
  {
    hide ArgumentGraph.SpeechVerdict, Scans.Granted, Scans.AlreadyPosted, Scans.CurrentTurn, CouncilMembers, Council.ActorOf, Council.CommandIdOf,
      Council.CausationOf, EventIdFor, HasId, Trim, Council.Participants;
  }

  lemma NeedsMeansRequires(meta: Metadata)
    requires NeedsDelivery(meta)
    ensures RequiresVisibleDelivery(meta)
  {
    TrimFixed("discord_thread");
    hide Trim;
  }

  lemma FixedWords()
    ensures Trim("posted") == "posted" && Trim("discord_thread") == "discord_thread" && Trim("discord") == "discord"
    ensures Trim("selected_member_profile_send") == "selected_member_profile_send"
  {
    hide Trim;
    TrimFixed("posted");
    TrimFixed("discord_thread");
    TrimFixed("discord");
    TrimFixed("selected_member_profile_send");
  }

  lemma PostedCounts(d: Delivery)
    requires d.status == "posted" && d.hasMessagePointer
    ensures DeliveryStatus(d) == "posted"
  {
    FixedWords();
    hide Trim;
  }

  /** The evidence that the daemon itself records always proves the delivery. */
  lemma EvidenceProves(meta: Metadata, member: string, speechId: string, sent: Result<Sent>)
    requires NeedsDelivery(meta) && VisibleEvidence(meta.surface.value, member, speechId, sent).Ok?
    requires Trim(member) == member && Trim(speechId) == speechId
    ensures DeliveryProves(meta, member, VisibleEvidence(meta.surface.value, member, speechId, sent).value, speechId)
  {
    hide Trim, DeliveryStatus;
    var surface, d := meta.surface.value, VisibleEvidence(meta.surface.value, member, speechId, sent).value;
    TrimIdempotent(surface.channelId);
    TrimIdempotent(surface.threadId);
    TrimIdempotent(sent.value.messageId);
    FixedWords();
    PostedCounts(d);
    assert Trim(d.references[0]) == speechId;
  }

  lemma SameDelivered(meta: Metadata, member: string, a: Event, b: Event)
    requires NeedsDelivery(meta) && a.id == b.id && a.payload == b.payload
    ensures SpeechDelivered(meta, member, a) == SpeechDelivered(meta, member, b)
  {
    hide DeliveryProves;
  }

  /** Binding keeps evidence that already refers to its speech. */
  lemma BoundEvidence(keys: RunnerKeys, d: Delivery, speechId: string)
    requires d.ownReferences
    ensures FirstDelivery(BindReferences(WithDelivery(keys, d), speechId).deliveries) == Some(d)
  {
    hide Trim;
  }

  lemma ValidUtters(meta: Metadata, member: string, send: string -> Result<Sent>, log: Log, e: Event, has: bool)
    requires e.typ == Speech && ValidateSpeech(meta, member, send, log, e, has).Ok? && Trim(member) == member && Trim(e.id) == e.id
    ensures var valid := ValidateSpeech(meta, member, send, log, e, has).value;
            && has && SpeechTurn(valid) == SpokenTurn(log, e.payload)
            && (NeedsDelivery(meta) ==> SpeechDelivered(meta, member, valid))
  {
    hide Council.BuildEvent, Trim, SpokenTurn, RequiresVisibleDelivery, VisibleEvidence, DeliveryProves, BindReferences, WithDelivery,
      NormalizeSpeech, FirstDelivery;
    BuiltTurn(meta, log, SpeakSpec(member, e));
    SameSpokenTurn(log, e.payload);
    if NeedsDelivery(meta) {
      NeedsMeansRequires(meta);
      var evidence := VisibleEvidence(meta.surface.value, member, e.id, send(e.id)).value;
      EvidenceProves(meta, member, e.id, send(e.id));
      EvidenceRefers(meta.surface.value, member, e.id, send(e.id));
      BoundEvidence(Council.BuildEvent(meta, log, SpeakSpec(member, e)).value.payload.runner, evidence, e.id);
    }
  }

  lemma EvidenceRefers(surface: Surface, member: string, speechId: string, sent: Result<Sent>)
    requires VisibleEvidence(surface, member, speechId, sent).Ok?
    ensures VisibleEvidence(surface, member, speechId, sent).value.ownReferences
  {
    hide Trim;
  }

  lemma SameSpokenTurn(log: Log, payload: Payload)
    ensures SpokenTurn(log, NormalizeSpeech(payload)) == SpokenTurn(log, payload)
  {
    hide Trim, Scans.CurrentTurn;
  }

  lemma TurnlessKeeps(meta: Metadata, log: Log, e: Event, foreign: set<string>)
    requires e.turn == None && e.payload.turn == 0
    ensures Scans.CurrentTurn(Append(meta, log, e, foreign).log) == Scans.CurrentTurn(log)
  {
    hide AppendError, Stored;
    Dispatch.StoredIsSame(meta, log, e);
    assert (log + [Stored(meta, log, e)])[..|log|] == log;
  }

  lemma LaunchKeepsTurn(meta: Metadata, log: Log, req: Dispatch.Request, names: Dispatch.Names, attempt: nat, foreign: set<string>)
    ensures Scans.CurrentTurn(Dispatch.Launch(meta, log, req, names, attempt, foreign).log) == Scans.CurrentTurn(log)
  {
    hide Append, Scans.CurrentTurn, Dispatch.CommandOf, Trim;
    var retry := Dispatch.RetryEvent(meta, req, names, attempt);
    TurnlessKeeps(meta, log, retry, foreign);
    var first := if attempt > 1 then Dispatch.Put(meta, Dispatch.Written(log, None), retry, foreign) else Dispatch.Written(log, None);
    TurnlessKeeps(meta, first.log, Dispatch.StartedEvent(meta, req, names, attempt), foreign);
  }

  lemma FinishUtters(meta: Metadata, log: Log, grant: Event, member: string, env: GrantDispatch.Environment, attempt: nat)
    requires var req := SelectedRequest(meta, grant, member, env.send, env.maxRetries, env.sessionTerminal, env.adapterReady);
             Dispatch.Decide(meta, log, req, env.names, attempt, env.adapter(attempt)).Finish?
    requires DispatchAccounting.WellNamed(env.names) && Trim(member) == member
    ensures var req := SelectedRequest(meta, grant, member, env.send, env.maxRetries, env.sessionTerminal, env.adapterReady);
            Utters(meta, log, member, env, attempt, Dispatch.Decide(meta, log, req, env.names, attempt, env.adapter(attempt)).terminal)
  {
    hide ValidateSpeech, Dispatch.StatusOf, Dispatch.RawCost, Dispatch.CommandOf, Trim, SpokenTurn, SpeechDelivered, NeedsDelivery;
    var req := SelectedRequest(meta, grant, member, env.send, env.maxRetries, env.sessionTerminal, env.adapterReady);
    var result := env.adapter(attempt);
    var payload := if result.payload.Some? then result.payload.value else EMPTY_PAYLOAD;
    var e := Dispatch.TerminalEvent(meta, req, env.names, Speech, attempt, result, payload);
    ValidUtters(meta, member, env.send, log, e, result.payload.Some?);
    if NeedsDelivery(meta) {
      var valid := ValidateSpeech(meta, member, env.send, log, e, result.payload.Some?).value;
      SameDelivered(meta, member, valid, valid.(runner := e.runner, cost := e.cost));
    }
  }

  lemma AttemptUtters(meta: Metadata, log: Log, grant: Event, member: string, env: GrantDispatch.Environment, attempt: nat)
    requires DispatchAccounting.WellNamed(env.names) && Trim(member) == member
    ensures var req := SelectedRequest(meta, grant, member, env.send, env.maxRetries, env.sessionTerminal, env.adapterReady);
            var tried := Dispatch.OneAttempt(meta, log, req, env.names, attempt, env.adapter(attempt), env.foreign);
            if tried.Retrying? then Scans.CurrentTurn(tried.log) == Scans.CurrentTurn(log)
            else tried.terminal.Some? && tried.terminal.value.typ == Speech ==> Utters(meta, log, member, env, attempt, tried.terminal.value)
  {
    hide Dispatch.Put, Dispatch.Launch, Dispatch.Decide, ValidateSpeech, Trim, Scans.CurrentTurn, SpeechTurn, SpeechDelivered, DispatchAccounting.WellNamed, Dispatch.CommandOf,
      Dispatch.StatusOf, Dispatch.RawCost, Dispatch.FailureReason;
    var req := SelectedRequest(meta, grant, member, env.send, env.maxRetries, env.sessionTerminal, env.adapterReady);
    LaunchKeepsTurn(meta, log, req, env.names, attempt, env.foreign);
    var launched := Dispatch.Launch(meta, log, req, env.names, attempt, env.foreign).log;
    if Dispatch.Decide(meta, launched, req, env.names, attempt, env.adapter(attempt)).Finish? {
      FinishUtters(meta, launched, grant, member, env, attempt);
    }
  }

  lemma {:induction false} AttemptsUtter(meta: Metadata, log: Log, grant: Event, member: string, env: GrantDispatch.Environment,
                                         attempt: nat, ids: seq<string>)
    requires DispatchAccounting.WellNamed(env.names) && Trim(member) == member
    ensures var req := SelectedRequest(meta, grant, member, env.send, env.maxRetries, env.sessionTerminal, env.adapterReady);
            var report := Dispatch.Attempts(meta, log, req, env.names, env.adapter, attempt, ids, env.foreign).1;
            report.terminal.Some? && report.terminal.value.typ == Speech ==> Utters(meta, log, member, env, report.attempts, report.terminal.value)
    decreases Max(env.maxRetries, 0) + 2 - attempt
  {
    hide Dispatch.OneAttempt, ValidateSpeech, Trim, Scans.CurrentTurn, SpeechTurn, SpeechDelivered, DispatchAccounting.WellNamed;
    var req := SelectedRequest(meta, grant, member, env.send, env.maxRetries, env.sessionTerminal, env.adapterReady);
    if attempt <= Dispatch.Budget(req) {
      AttemptUtters(meta, log, grant, member, env, attempt);
      var tried := Dispatch.OneAttempt(meta, log, req, env.names, attempt, env.adapter(attempt), env.foreign);
      if tried.Retrying? {
        AttemptsUtter(meta, tried.log, grant, member, env, attempt + 1, ids + [env.names.invocationId(attempt)]);
      }
    }
  }

  lemma RunUtters(meta: Metadata, log: Log, grant: Event, member: string, env: GrantDispatch.Environment)
    requires DispatchAccounting.WellNamed(env.names) && Trim(member) == member
    ensures var req := SelectedRequest(meta, grant, member, env.send, env.maxRetries, env.sessionTerminal, env.adapterReady);
            var report := Dispatch.DispatchRun(meta, log, req, env.names, env.adapter, env.foreign).1;
            report.terminal.Some? && report.terminal.value.typ == Speech ==> Utters(meta, log, member, env, report.attempts, report.terminal.value)
  {
    hide Dispatch.Attempts, Dispatch.Preflight, ValidateSpeech, Utters, Trim;
    AttemptsUtter(meta, log, grant, member, env, 1, []);
  }

  /** The semantic status and the turn that the runner returned are those of a success for the grant. */
  ghost predicate RunnerFulfils(log: Log, grant: Event, env: GrantDispatch.Environment, attempt: nat) {
    var result := env.adapter(attempt);
    && result.semanticStatus in {"", "succeeded"}
    && result.payload.Some? && grant.payload.turn == SpokenTurn(log, result.payload.value) > 0
  }

  /** When the dispatch of a selected speaker has ended in a recorded speech, the accounting passes the
      grant exactly when the runner's last result names no semantic status but success and speaks for the
      granted turn. This holds in Discord threads too: there a speech is only recorded with evidence that
      proves its delivery. */
  lemma SpokenGrantPassesExactly(meta: Metadata, echoIds: set<string>, log: Log, grant: Event, member: string, env: GrantDispatch.Environment)
    requires var req := SelectedRequest(meta, grant, member, env.send, env.maxRetries, env.sessionTerminal, env.adapterReady);
             var report := Dispatch.DispatchRun(meta, log, req, env.names, env.adapter, env.foreign).1;
             report.error == None && report.terminal.Some? && report.terminal.value.typ == Speech
    requires DispatchAccounting.WellNamed(env.names) && Trim(member) == member != ""
    requires var l := Account(echoIds, log);
             && Trim(grant.id) == grant.id != "" && grant.id in l.grantIndex && RowFor(l, grant.id) == NewRow(grant)
             && SelectedMember(grant) == member
             && forall attempt: nat :: env.names.invocationId(attempt) !in l.invocationToGrant
    ensures var req := SelectedRequest(meta, grant, member, env.send, env.maxRetries, env.sessionTerminal, env.adapterReady);
            var (after, report) := Dispatch.DispatchRun(meta, log, req, env.names, env.adapter, env.foreign);
            var last := Account(echoIds, after);
            && grant.id in last.grantIndex
            && (Passes(meta, RowFor(last, grant.id), last.linked) <==> RunnerFulfils(log, grant, env, report.attempts))
  {
    hide Dispatch.DispatchRun, Account, Passes, Trim, ValidateSpeech, DispatchAccounting.WellNamed, SelectedMember, SpeechTurn,
      DispatchAccounting.Reports, NewRow, RunnerFulfils, Utters, DispatchAccounting.Spoke, SpeechDelivered, DispatchAccounting.SpeechValidator;
    var req := SelectedRequest(meta, grant, member, env.send, env.maxRetries, env.sessionTerminal, env.adapterReady);
    var report := Dispatch.DispatchRun(meta, log, req, env.names, env.adapter, env.foreign).1;
    SelectedGrantPassesExactly(meta, echoIds, log, grant, member, env);
    SelectedValidates(meta, grant, member, env);
    DispatchAccounting.RunReports(meta, log, req, env.names, env.adapter, env.foreign);
    RunUtters(meta, log, grant, member, env);
    FulfilsExactly(meta, log, grant, member, env, report.attempts, report.terminal.value);
  }

  lemma FulfilsExactly(meta: Metadata, log: Log, grant: Event, member: string, env: GrantDispatch.Environment, attempt: nat, terminal: Event)
    requires terminal.typ == Speech && Utters(meta, log, member, env, attempt, terminal)
    requires DispatchAccounting.Reports(terminal, env.adapter(attempt))
    ensures RunnerFulfils(log, grant, env, attempt)
            <==> DispatchAccounting.Spoke(terminal, Max(grant.payload.turn, 0))
                 && (NeedsDelivery(meta) ==> SpeechDelivered(meta, member, terminal))
  {
    hide SpokenTurn, SpeechTurn, SpeechDelivered;
    DispatchAccounting.StatusSucceeds(terminal, env.adapter(attempt));
  }
}
