/** Runs: any requests in any order against one council session. Every event of every log that a
    run can reach is justified by the log it was recorded on; the safety results follow from that. */
module CouncilRuns {
  import opened Prelude
  import opened Text
  import opened Events
  import opened Channel
  import opened Scans
  import opened Lifecycle
  import opened ArgumentGraph
  import opened AutoSpeaker
  import opened Council
  import opened Control
  import Cursors

  // ---- Requests and runs -----------------------------------------------------------------

  predicate DispatchEvent(typ: EventType) {
    typ in {PromptEvidence, RunnerStarted, RetryAttempted, RunnerSucceeded, RunnerFailed, RunnerDiscarded, DispatchFailed}
  }

  datatype Command =
    | CouncilCommand(spec: CouncilSpec)
    | BlockCommand(control: ControlSpec)
    | ResumeCommand(control: ControlSpec)
    | CancelCommand(control: ControlSpec)
    | AckCommand(member: string, cursor: string, control: ControlSpec)
    | HeartbeatCommand(member: string, suffix: string, now: int)
    | DispatchNote(note: Event)
    | RunnerSpeech(succeeded: Event, spec: CouncilSpec, id: string, runner: Runner, cost: Cost, keys: RunnerKeys)

  /** `foreign` are the command ids that other sessions have used when the request arrives. */
  datatype Request = Request(command: Command, foreign: set<string>)

  /** What the dispatcher itself writes carries the phase of the grant it works for, and none of
      the council's own keys. */
  predicate MayNote(log: Log, note: Event) {
    DispatchEvent(note.typ) && note.phase == LatestPhase(log) && note.payload.council == EMPTY_PAYLOAD.council
    && (note.typ != DispatchFailed ==> note.phase == Discussion)
  }

  /** The speech of a runner: the event of a speak command under an id of its own, with the runner,
      its cost and the delivery evidence attached. */
  function RunnerSpeechEvent(built: Event, id: string, runner: Runner, cost: Cost, keys: RunnerKeys): Event {
    built.(id := id, runner := Some(runner), cost := cost, payload := built.payload.(runner := keys))
  }

  function Apply(meta: Metadata, log: Log, request: Request): Log {
    match request.command
    case CouncilCommand(spec) => RecordCouncil(meta, log, spec, request.foreign).log
    case BlockCommand(spec) => RecordBlock(meta, log, spec, request.foreign).log
    case ResumeCommand(spec) => RecordResume(meta, log, spec, request.foreign).log
    case CancelCommand(spec) => RecordCancel(meta, log, spec, request.foreign).log
    case AckCommand(member, cursor, spec) => RecordAck(meta, log, member, cursor, spec, request.foreign).log
    case HeartbeatCommand(member, suffix, now) => RecordHeartbeat(meta, log, member, suffix, now, request.foreign).log
    case DispatchNote(note) => if MayNote(log, note) then Append(meta, log, note, request.foreign).log else log
    case RunnerSpeech(succeeded, spec, id, runner, cost, keys) =>
      if MayNote(log, succeeded) && succeeded.typ == RunnerSucceeded && spec.action == Speak && BuildEvent(meta, log, spec).Ok?
      then
        var first := Append(meta, log, succeeded, request.foreign);
        if first.result.Ok?
        then Append(meta, first.log, RunnerSpeechEvent(BuildEvent(meta, log, spec).value, id, runner, cost, keys), request.foreign).log
        else first.log
      else log
  }

  /** The first record of a session. */
  function Opening(meta: Metadata, id: string, commandId: string, now: int): Event {
    Event(id, commandId, "", None, Created, SessionCreated, DAEMON, AllParticipants(meta), now, None, CostOmitted, EMPTY_PAYLOAD)
  }

  ghost predicate Opened(meta: Metadata, log: Log) {
    exists id, commandId, now :: log == [Opening(meta, id, commandId, now)]
  }

  /** The logs of a run: the first is a new session's, and each request leads to the next. */
  ghost predicate Run(meta: Metadata, logs: seq<Log>, requests: seq<Request>) {
    && |logs| == |requests| + 1 && Opened(meta, logs[0])
    && forall i {:trigger requests[i]} :: 0 <= i < |requests| ==> logs[i + 1] == Apply(meta, logs[i], requests[i])
  }

  /** The logs that some run leads to. */
  ghost predicate Reachable(meta: Metadata, log: Log) {
    exists logs, requests :: Run(meta, logs, requests) && logs[|requests|] == log
  }

  // ---- Justification ---------------------------------------------------------------------

  predicate DraftJustified(meta: Metadata, prior: Log, e: Event) {
    && e.phase == DraftConclusion
    && e.payload.council.draftVersion == LatestDraft(prior) + 1
    && (LatestDraft(prior) == 0 && Configured(meta) ==> LifecycleOf(meta, prior).proposeReady)
  }

  predicate VoteRequestJustified(prior: Log, e: Event) {
    && e.phase == ConsensusVote
    && e.payload.council.draftVersion == LatestDraft(prior) != 0
    && e.payload.council.consensusRound == LatestRound(prior) + 1
  }

  predicate VoteJustified(meta: Metadata, prior: Log, e: Event) {
    && e.phase == ConsensusVote
    && CouncilMember(meta, e.from)
    && e.payload.council.vote in {Approve, ApproveWithConditions, BlockVote, Abstain}
    && OpenVote(prior) == Some((e.payload.council.draftVersion, e.payload.council.consensusRound))
    && !Voted(prior, e.from, e.payload.council.draftVersion, e.payload.council.consensusRound)
  }

  predicate FinalJustified(meta: Metadata, prior: Log, e: Event) {
    && e.phase == Finalized
    && OpenVote(prior).Some?
    && VotesPass(CouncilMembers(meta), prior, OpenVote(prior).value.0, OpenVote(prior).value.1)
    && !Blank(e.payload.council.finalSummary) && e.payload.council.closeout == []
    && EvidenceWellFormed(meta, e.payload) && VisibleDiagnostics(meta, e.payload) == []
  }

  predicate PreparationJustified(meta: Metadata, prior: Log, e: Event) {
    e.phase == Preparation && MayPrepare(meta, prior)
  }

  predicate PollJustified(meta: Metadata, e: Event) {
    && e.phase == Discussion
    && e.payload.window.required == CouncilMembers(meta)
    && e.from == meta.moderator
  }

  predicate RaiseJustified(meta: Metadata, prior: Log, e: Event) {
    && e.phase == Discussion && e.payload.turn > 0
    && CouncilMember(meta, e.from)
    && (SameCommandType(prior, e.commandId, HandRaise) || WindowAccepts(prior, e.payload.turn, e.createdAt))
    && !ResponseConflict(prior, e.commandId, e.from, e.payload.turn, HandRaise)
    && ParseLinks(prior, e.payload.graph.targetLinks, false).Ok?
  }

  predicate DropJustified(meta: Metadata, prior: Log, e: Event) {
    && e.phase == Discussion && e.payload.turn > 0
    && CouncilMember(meta, e.payload.member)
    && (if e.payload.window.auto then e.from == DAEMON
        else
          && e.payload.member == e.from
          && (SameCommandType(prior, e.commandId, HandRaiseDropped) || WindowAccepts(prior, e.payload.turn, e.createdAt)))
    && !ResponseConflict(prior, e.commandId, e.payload.member, e.payload.turn, HandRaiseDropped)
  }

  predicate GrantJustified(meta: Metadata, prior: Log, e: Event) {
    && e.phase == Discussion && e.payload.turn > 0 && e.turn == Some(e.payload.turn)
    && e.from == meta.moderator
    && CouncilMember(meta, e.payload.member) && e.to == [e.payload.member]
    && !Blank(RaiseStance(prior, e.payload.member, e.payload.turn))
  }

  predicate SpeechJustified(meta: Metadata, prior: Log, e: Event) {
    && e.phase == Discussion && e.payload.turn > 0 && e.turn == Some(e.payload.turn)
    && CouncilMember(meta, e.from)
    && Granted(prior, e.from, e.payload.turn)
    && SpeechVerdict(meta, prior, e.from, e.payload.turn, e.payload).Ok?
  }

  predicate KeepsPhase(typ: EventType) {
    typ in {CursorAcknowledged, SubscriberHeartbeat} || DispatchEvent(typ)
  }

  predicate PhaseJustified(prior: Log, e: Event) {
    && (KeepsPhase(e.typ) ==> e.phase == LatestPhase(prior))
    && (!KeepsPhase(e.typ) ==> !Terminal(LatestPhase(prior)))
    && (Terminal(e.phase) ==> KeepsPhase(e.typ) || e.typ in {CouncilFinalized, CouncilUnresolved, SessionCancelled})
  }

  predicate ContentJustified(meta: Metadata, prior: Log, e: Event) {
    match e.typ
    case DraftRecorded => DraftJustified(meta, prior, e)
    case VoteRequested => VoteRequestJustified(prior, e)
    case VoteCast => VoteJustified(meta, prior, e)
    case CouncilFinalized => FinalJustified(meta, prior, e)
    case PreparationRequested => PreparationJustified(meta, prior, e)
    case HandRaiseRequested => PollJustified(meta, e)
    case HandRaise => RaiseJustified(meta, prior, e)
    case HandRaiseDropped => DropJustified(meta, prior, e)
    case SpeakerSelected => GrantJustified(meta, prior, e)
    case Speech => SpeechJustified(meta, prior, e)
    case _ => true
  }

  /** An answer to a poll is never recorded under a command id that is already in the log. */
  predicate FreshCommand(prior: Log, e: Event) {
    e.typ in {HandRaise, HandRaiseDropped} && e.commandId != "" ==> FirstWithCommand(prior, e.commandId) == None
  }

  ghost predicate Justified(meta: Metadata, prior: Log, e: Event) {
    && !HasId(prior, e.id)
    && PhaseJustified(prior, e)
    && ContentJustified(meta, prior, e)
    && FreshCommand(prior, e)
    && (e.typ == Speech ==> e.payload.runtime == Channel.Prepare(meta, prior, e).payload.runtime)
  }

  ghost predicate History(meta: Metadata, log: Log) {
    forall k :: 0 <= k < |log| ==> Justified(meta, log[..k], log[k])
  }

  lemma HistorySnoc(meta: Metadata, log: Log, e: Event)
    requires History(meta, log) && Justified(meta, log, e)
    ensures History(meta, log + [e])
  {
    hide Justified;
    var longer := log + [e];
    forall k | 0 <= k < |longer| ensures Justified(meta, longer[..k], longer[k]) {
      if k < |log| {
        assert longer[..k] == log[..k];
      } else {
        assert longer[..k] == log;
      }
    }
  }

  lemma HistoryPrefix(meta: Metadata, log: Log, n: nat)
    requires History(meta, log) && n <= |log|
    ensures History(meta, log[..n])
  {
    hide Justified;
    forall k | 0 <= k < n ensures Justified(meta, log[..n][..k], log[..n][k]) {
      assert log[..n][..k] == log[..k];
    }
  }

  // ---- Every accepted move is justified --------------------------------------------------

  /** The event that a move would write is justified. */
  predicate MoveJustified(meta: Metadata, log: Log, spec: CouncilSpec, move: Move) {
    var e := EventOf(meta, spec, move);
    ContentJustified(meta, log, e) && PhaseJustified(log, e)
  }

  lemma AttendanceDecisionJustified(meta: Metadata, log: Log, spec: CouncilSpec, move: Move)
    requires var actor, p := ActorOf(meta, spec), PayloadOf(spec);
             DecideRequestAttendance(meta, LatestPhase(log), actor, p) == Ok(move) ||
             DecideAttend(meta, LatestPhase(log), actor, p) == Ok(move) ||
             DecideLockAgenda(meta, LatestPhase(log), actor, p) == Ok(move)
    ensures MoveJustified(meta, log, spec, move)
  {
    hide CouncilMembers, CurrentTurn, Trim, CommandIdOf, ActorOf, MayPrepare,
      DraftJustified, VoteRequestJustified, VoteJustified, FinalJustified, PreparationJustified, PollJustified,
      RaiseJustified, DropJustified, GrantJustified, SpeechJustified;
  }

  lemma ReadinessDecisionJustified(meta: Metadata, log: Log, spec: CouncilSpec, move: Move)
    requires var actor, p := ActorOf(meta, spec), PayloadOf(spec);
             DecidePrepare(meta, LatestPhase(log), actor, p, MayPrepare(meta, log)) == Ok(move) ||
             DecideReady(meta, LatestPhase(log), actor, p) == Ok(move) ||
             DecideReadyPartially(meta, LatestPhase(log), actor, p) == Ok(move) ||
             DecideIntervene(meta, LatestPhase(log), actor, p) == Ok(move)
    ensures MoveJustified(meta, log, spec, move)
  {
    hide CouncilMembers, CurrentTurn, Trim, CommandIdOf, ActorOf, MayPrepare,
      DraftJustified, VoteRequestJustified, VoteJustified, FinalJustified, PollJustified, RaiseJustified,
      DropJustified, GrantJustified, SpeechJustified;
  }

  lemma PollDecisionJustified(meta: Metadata, log: Log, spec: CouncilSpec, move: Move)
    requires var actor, p := ActorOf(meta, spec), PayloadOf(spec);
             DecidePoll(meta, LatestPhase(log), actor, p, CommandIdOf(spec), spec.now, CurrentTurn(log)) == Ok(move)
    ensures MoveJustified(meta, log, spec, move)
  {
    hide CouncilMembers, CurrentTurn, Trim, CommandIdOf, ActorOf, WindowId,
      DraftJustified, VoteRequestJustified, VoteJustified, FinalJustified, PreparationJustified, RaiseJustified,
      DropJustified, GrantJustified, SpeechJustified;
  }

  lemma RaiseDecisionJustified(meta: Metadata, log: Log, spec: CouncilSpec, move: Move)
    requires var actor, p := ActorOf(meta, spec), PayloadOf(spec);
             var id, turn := CommandIdOf(spec), RequireTurn(p, CurrentTurn(log));
             var turnOr0 := if turn.Ok? then turn.value else 0;
             DecideRaise(meta, LatestPhase(log), actor, p, turn, SameCommandType(log, id, HandRaise),
                         WindowAccepts(log, turnOr0, spec.now), ResponseConflict(log, id, actor, turnOr0, HandRaise),
                         ParseLinks(log, p.graph.targetLinks, false)) == Ok(move)
    ensures MoveJustified(meta, log, spec, move)
  {
    hide CouncilMembers, CurrentTurn, Trim, CommandIdOf, ActorOf, SameCommandType, WindowAccepts, ResponseConflict, ParseLinks,
      DraftJustified, VoteRequestJustified, VoteJustified, FinalJustified, PreparationJustified, PollJustified,
      DropJustified, GrantJustified, SpeechJustified;
  }

  lemma DropDecisionJustified(meta: Metadata, log: Log, spec: CouncilSpec, move: Move)
    requires var actor, p := ActorOf(meta, spec), PayloadOf(spec);
             var id, turn := CommandIdOf(spec), RequireTurn(p, CurrentTurn(log));
             var turnOr0 := if turn.Ok? then turn.value else 0;
             DecideDrop(meta, LatestPhase(log), actor, p, turn,
                        EventByIdAndType(log, Trim(p.window.requestEventId), HandRaiseRequested),
                        SameCommandType(log, id, HandRaiseDropped), WindowAccepts(log, turnOr0, spec.now),
                        ResponseConflict(log, id, DropMember(actor, p), turnOr0, HandRaiseDropped)) == Ok(move)
    ensures MoveJustified(meta, log, spec, move)
  {
    hide CouncilMembers, CurrentTurn, Trim, CommandIdOf, ActorOf, SameCommandType, WindowAccepts, ResponseConflict, EventByIdAndType,
      DraftJustified, VoteRequestJustified, VoteJustified, FinalJustified, PreparationJustified, PollJustified,
      RaiseJustified, GrantJustified, SpeechJustified;
  }

  lemma GrantDecisionJustified(meta: Metadata, log: Log, spec: CouncilSpec, move: Move)
    requires var actor, p := ActorOf(meta, spec), PayloadOf(spec);
             var id, turn := CommandIdOf(spec), RequireTurn(p, CurrentTurn(log));
             var turnOr0 := if turn.Ok? then turn.value else 0;
             DecideGrant(meta, LatestPhase(log), actor, p, turn, AutoChoice(meta, log),
                         RaiseStance(log, GrantMember(p, AutoChoice(meta, log)), turnOr0)) == Ok(move)
    ensures MoveJustified(meta, log, spec, move)
  {
    hide CouncilMembers, CurrentTurn, Trim, CommandIdOf, ActorOf, AutoChoice, RaiseStance, NeedKeys,
      DraftJustified, VoteRequestJustified, VoteJustified, FinalJustified, PreparationJustified, PollJustified,
      RaiseJustified, DropJustified, SpeechJustified;
  }

  /** Judging an accepted speech again, as it is recorded, accepts it again. */
  lemma JudgedAgain(policy: Quality, links: Result<seq<Target>>, priorSpeeches: nat, newAxisRun: nat, selection: Option<Event>,
                    payload: Payload, turn: int)
    requires JudgeSpeech(policy, links, priorSpeeches, newAxisRun, selection, payload).Ok?
    ensures var noted := JudgeSpeech(policy, links, priorSpeeches, newAxisRun, selection, payload).value.(turn := turn);
            && noted.graph.stanceLinks == payload.graph.stanceLinks
            && JudgeSpeech(policy, links, priorSpeeches, newAxisRun, selection, noted).Ok?
  {
    hide ParseClaims, ParseContribution, OmittedNeed, Trim;
  }

  lemma VerdictKept(meta: Metadata, log: Log, actor: string, turn: int, payload: Payload)
    requires SpeechVerdict(meta, log, actor, turn, payload).Ok?
    ensures SpeechVerdict(meta, log, actor, turn, SpeechVerdict(meta, log, actor, turn, payload).value.(turn := turn)).Ok?
  {
    hide ParseLinks, PriorSpeeches, ConsecutiveNewAxis, SelectionOf, JudgeSpeech, ResolvePolicy;
    var policy := ResolvePolicy(meta).value;
    JudgedAgain(policy, ParseLinks(log, payload.graph.stanceLinks, policy.mode == QualityRequired), PriorSpeeches(log),
                ConsecutiveNewAxis(log), SelectionOf(log, turn, actor), payload, turn);
  }

  lemma SpeakDecisionJustified(meta: Metadata, log: Log, spec: CouncilSpec, move: Move)
    requires var actor, p := ActorOf(meta, spec), PayloadOf(spec);
             var id, turn := CommandIdOf(spec), RequireTurn(p, CurrentTurn(log));
             var turnOr0 := if turn.Ok? then turn.value else 0;
             DecideSpeak(meta, LatestPhase(log), actor, p, turn, Granted(log, actor, turnOr0),
                         AlreadyPosted(log, actor, turnOr0), SpeechVerdict(meta, log, actor, turnOr0, p)) == Ok(move)
    ensures MoveJustified(meta, log, spec, move)
  {
    hide CouncilMembers, CurrentTurn, Trim, CommandIdOf, ActorOf, Granted, AlreadyPosted, SpeechVerdict, Participants,
      DraftJustified, VoteRequestJustified, VoteJustified, FinalJustified, PreparationJustified, PollJustified,
      RaiseJustified, DropJustified, GrantJustified;
    var actor, turn := ActorOf(meta, spec), RequireTurn(PayloadOf(spec), CurrentTurn(log));
    if turn.Ok? {
      VerdictKept(meta, log, actor, turn.value, PayloadOf(spec));
    }
  }

  lemma DraftDecisionJustified(meta: Metadata, log: Log, spec: CouncilSpec, move: Move)
    requires var actor, p := ActorOf(meta, spec), PayloadOf(spec);
             DecidePropose(meta, LatestPhase(log), actor, p, LatestDraft(log), LifecycleOf(meta, log)) == Ok(move) ||
             DecideRevise(meta, LatestPhase(log), actor, p, LatestDraft(log)) == Ok(move)
    ensures MoveJustified(meta, log, spec, move)
  {
    hide CouncilMembers, CurrentTurn, Trim, CommandIdOf, ActorOf, LatestDraft, MissingTurns, MissingCloseoutMembers, Track,
      VoteRequestJustified, VoteJustified, FinalJustified, PreparationJustified, PollJustified, RaiseJustified,
      DropJustified, GrantJustified, SpeechJustified;
  }

  lemma VoteDecisionJustified(meta: Metadata, log: Log, spec: CouncilSpec, move: Move)
    requires var actor, p := ActorOf(meta, spec), PayloadOf(spec);
             DecideRequestVote(meta, LatestPhase(log), actor, p, LatestDraft(log), LatestRound(log)) == Ok(move) ||
             DecideVote(meta, LatestPhase(log), actor, p, OpenVote(log), OpenVote(log).Some? && Voted(log, actor, OpenVote(log).value.0, OpenVote(log).value.1)) == Ok(move)
    ensures MoveJustified(meta, log, spec, move)
  {
    hide CouncilMembers, CurrentTurn, Trim, CommandIdOf, ActorOf, LatestDraft, LatestRound, OpenVote, Voted,
      DraftJustified, FinalJustified, PreparationJustified, PollJustified, RaiseJustified, DropJustified,
      GrantJustified, SpeechJustified;
  }

  lemma ClosingDecisionJustified(meta: Metadata, log: Log, spec: CouncilSpec, move: Move)
    requires var actor, p := ActorOf(meta, spec), PayloadOf(spec);
             DecideFinalize(meta, LatestPhase(log), actor, p, LifecycleOf(meta, log), OpenVote(log),
                            OpenVote(log).Some? && VotesPass(CouncilMembers(meta), log, OpenVote(log).value.0, OpenVote(log).value.1)) == Ok(move) ||
             DecideUnresolved(meta, LatestPhase(log), actor, p, LifecycleOf(meta, log), HasBlockVote(log)) == Ok(move)
    ensures MoveJustified(meta, log, spec, move)
  {
    hide CouncilMembers, CurrentTurn, Trim, CommandIdOf, ActorOf, LifecycleOf, OpenVote, VotesPass, VisibleDiagnostics, LifecycleDiagnostics, HasBlockVote, EvidenceWellFormed,
      DraftJustified, VoteRequestJustified, VoteJustified, PreparationJustified, PollJustified, RaiseJustified,
      DropJustified, GrantJustified, SpeechJustified;
  }

  lemma TransitionJustified(meta: Metadata, log: Log, spec: CouncilSpec)
    requires Transition(meta, log, spec).Ok?
    ensures MoveJustified(meta, log, spec, Transition(meta, log, spec).value)
  {
    hide MoveJustified, DecideRequestAttendance, DecideAttend, DecideLockAgenda, DecidePrepare, DecideReady,
      DecideReadyPartially, DecideIntervene, DecidePoll, DecideRaise, DecideDrop, DecideGrant, DecideSpeak,
      DecidePropose, DecideRevise, DecideRequestVote, DecideVote, DecideFinalize, DecideUnresolved, ActorOf, PayloadOf,
      LifecycleOf, CommandIdOf, CurrentTurn, RequireTurn, AutoChoice, SpeechVerdict, RaiseStance;
    var move := Transition(meta, log, spec).value;
    match spec.action {
      case Poll => PollDecisionJustified(meta, log, spec, move);
      case RaiseHand => RaiseDecisionJustified(meta, log, spec, move);
      case DropHand => DropDecisionJustified(meta, log, spec, move);
      case Grant => GrantDecisionJustified(meta, log, spec, move);
      case Speak => SpeakDecisionJustified(meta, log, spec, move);
      case Propose => DraftDecisionJustified(meta, log, spec, move);
      case Revise => DraftDecisionJustified(meta, log, spec, move);
      case RequestVote => VoteDecisionJustified(meta, log, spec, move);
      case CastVote => VoteDecisionJustified(meta, log, spec, move);
      case Finalize => ClosingDecisionJustified(meta, log, spec, move);
      case DeclareUnresolved => ClosingDecisionJustified(meta, log, spec, move);
      case RequestAttendance => AttendanceDecisionJustified(meta, log, spec, move);
      case Attend => AttendanceDecisionJustified(meta, log, spec, move);
      case LockAgenda => AttendanceDecisionJustified(meta, log, spec, move);
      case _ => ReadinessDecisionJustified(meta, log, spec, move);
    }
  }

  // ---- Every reachable log is justified --------------------------------------------------

  /** The verdict on a speech looks at neither recipients nor runtime evidence. */
  lemma StoredSpeech(meta: Metadata, log: Log, e: Event, to: seq<string>, runtime: Option<RuntimeEvidence>)
    requires SpeechJustified(meta, log, e)
    ensures SpeechJustified(meta, log, e.(to := to, payload := e.payload.(runtime := runtime)))
  {
    hide ParseLinks, ParseClaims, CouncilMembers, Granted, SelectionOf, PriorSpeeches, ResolvePolicy, ConsecutiveNewAxis;
  }

  lemma StoredContent(meta: Metadata, log: Log, e: Event, to: seq<string>)
    requires ContentJustified(meta, log, e) && e.typ != Speech
    requires e.typ == SpeakerSelected ==> to == e.to
    ensures ContentJustified(meta, log, e.(to := to))
  {
    hide LatestDraft, LatestRound, OpenVote, Voted, VotesPass, LifecycleOf, WindowAccepts, ResponseConflict, ParseLinks,
      RaiseStance, CouncilMembers, SameCommandType, Trim, MayPrepare, VisibleDiagnostics, EvidenceWellFormed;
  }

  lemma StoredJustified(meta: Metadata, log: Log, e: Event)
    requires ContentJustified(meta, log, e) && PhaseJustified(log, e) && FreshCommand(log, e) && !HasId(log, e.id)
    ensures Justified(meta, log, Stored(meta, log, e))
  {
    hide SpeechJustified, DraftJustified, VoteRequestJustified, VoteJustified, FinalJustified, PollJustified, RaiseJustified,
      DropJustified, CouncilMembers, RuntimeRows, FirstWithCommand;
    if e.typ == Speech {
      var stored := Stored(meta, log, e);
      StoredSpeech(meta, log, e, SortStrings(e.to), stored.payload.runtime);
      assert stored == e.(to := SortStrings(e.to), payload := e.payload.(runtime := stored.payload.runtime));
      var cursor, members := Cursors.Print(|log|, e.id), CouncilMembers(meta);
      assert RuntimeRows(meta, log, e, cursor, members) == RuntimeRows(meta, log, stored, cursor, members);
    } else {
      if e.typ == SpeakerSelected {
        assert SortStrings([e.payload.member]) == [e.payload.member];
      }
      StoredContent(meta, log, e, SortStrings(e.to));
    }
  }

  lemma AppendHistory(meta: Metadata, log: Log, e: Event, foreign: set<string>)
    requires History(meta, log) && ContentJustified(meta, log, e) && PhaseJustified(log, e) && FreshCommand(log, e)
    ensures History(meta, Append(meta, log, e, foreign).log)
  {
    hide History, Justified, ContentJustified, PhaseJustified, FreshCommand, Stored, ValidEnvelope;
    if AppendError(meta, log, e, foreign) == None {
      StoredJustified(meta, log, e);
      HistorySnoc(meta, log, Stored(meta, log, e));
    }
  }

  lemma AppendIdempotentHistory(meta: Metadata, log: Log, e: Event, foreign: set<string>)
    requires History(meta, log) && ContentJustified(meta, log, e) && PhaseJustified(log, e)
    ensures History(meta, AppendIdempotent(meta, log, e, foreign).log)
  {
    hide History, ContentJustified, PhaseJustified, Append, Channel.Prepare, Equivalent;
    if e.commandId == "" || FirstWithCommand(log, e.commandId) == None {
      AppendHistory(meta, log, e, foreign);
    }
  }

  lemma CouncilHistory(meta: Metadata, log: Log, spec: CouncilSpec, foreign: set<string>)
    requires History(meta, log)
    ensures History(meta, RecordCouncil(meta, log, spec, foreign).log)
  {
    hide History, Transition, ContentJustified, PhaseJustified, AppendIdempotent, EventOf;
    if BuildEvent(meta, log, spec).Ok? {
      TransitionJustified(meta, log, spec);
      AppendIdempotentHistory(meta, log, BuildEvent(meta, log, spec).value, foreign);
    }
  }

  lemma SubmitHistory(meta: Metadata, log: Log, built: Result<Event>, foreign: set<string>)
    requires History(meta, log)
    requires built.Ok? ==> ContentJustified(meta, log, built.value) && PhaseJustified(log, built.value)
    ensures History(meta, Submit(meta, log, built, foreign).log)
  {
    hide History, ContentJustified, PhaseJustified, AppendIdempotent;
    if built.Ok? {
      AppendIdempotentHistory(meta, log, built.value, foreign);
    }
  }

  lemma BlockHistory(meta: Metadata, log: Log, spec: ControlSpec, foreign: set<string>)
    requires History(meta, log)
    ensures History(meta, RecordBlock(meta, log, spec, foreign).log)
  {
    hide History, Submit;
    SubmitHistory(meta, log, DecideBlock(meta, LatestPhase(log), spec), foreign);
  }

  lemma ResumeHistory(meta: Metadata, log: Log, spec: ControlSpec, foreign: set<string>)
    requires History(meta, log)
    ensures History(meta, RecordResume(meta, log, spec, foreign).log)
  {
    hide History, Submit, EventById;
    SubmitHistory(meta, log, DecideResume(meta, LatestPhase(log), spec, EventById(log, spec.blockedEventId)), foreign);
  }

  lemma CancelHistory(meta: Metadata, log: Log, spec: ControlSpec, foreign: set<string>)
    requires History(meta, log)
    ensures History(meta, RecordCancel(meta, log, spec, foreign).log)
  {
    hide History, AppendIdempotent, Equivalent;
    if !Terminal(LatestPhase(log)) {
      AppendIdempotentHistory(meta, log, CancelEvent(meta, spec), foreign);
    }
  }

  lemma StreamHistory(meta: Metadata, log: Log, member: string, cursor: string, spec: ControlSpec,
                      suffix: string, now: int, foreign: set<string>)
    requires History(meta, log)
    ensures History(meta, RecordAck(meta, log, member, cursor, spec, foreign).log)
    ensures History(meta, RecordHeartbeat(meta, log, member, suffix, now, foreign).log)
  {
    hide History, Submit, Append, Resolves;
    SubmitHistory(meta, log, DecideAck(meta, log, member, cursor, IdOr(spec.commandId, spec.generatedId), spec.now), foreign);
    AppendHistory(meta, log, HeartbeatEvent(meta, log, member, suffix, now), foreign);
  }

  /** A speech accepted against a log is still acceptable after a runner's success note. */
  lemma SpeechAfterNote(meta: Metadata, log: Log, note: Event, e: Event)
    requires SpeechJustified(meta, log, e) && note.typ == RunnerSucceeded
    ensures SpeechJustified(meta, log + [note], e)
  {
    hide ParseLinks, ParseClaims, CouncilMembers;
    var longer := log + [note];
    assert longer[..|log|] == log;
    var i :| 0 <= i < |log| && IsGrant(log[i], e.from, e.payload.turn);
    assert IsGrant(longer[i], e.from, e.payload.turn);
    ParseExtends(log, longer, e.payload.graph.stanceLinks, ResolvePolicy(meta).value.mode == QualityRequired);
  }

  lemma RunnerSpeechKeeps(meta: Metadata, log: Log, built: Event, id: string, runner: Runner, cost: Cost, keys: RunnerKeys)
    requires built.typ == Speech && SpeechJustified(meta, log, built)
    ensures SpeechJustified(meta, log, RunnerSpeechEvent(built, id, runner, cost, keys))
  {
    hide ParseLinks, ParseClaims, CouncilMembers, Granted, SelectionOf, PriorSpeeches;
  }

  lemma RunnerSpeechHistory(meta: Metadata, log: Log, succeeded: Event, spec: CouncilSpec, id: string, runner: Runner,
                            cost: Cost, keys: RunnerKeys, foreign: set<string>)
    requires History(meta, log)
    requires MayNote(log, succeeded) && succeeded.typ == RunnerSucceeded
    requires spec.action == Speak && BuildEvent(meta, log, spec).Ok?
    requires Append(meta, log, succeeded, foreign).result.Ok?
    ensures var e := RunnerSpeechEvent(BuildEvent(meta, log, spec).value, id, runner, cost, keys);
            History(meta, Append(meta, Append(meta, log, succeeded, foreign).log, e, foreign).log)
  {
    hide History, SpeechJustified, Transition, Stored, ValidEnvelope;
    var built := BuildEvent(meta, log, spec).value;
    AppendHistory(meta, log, succeeded, foreign);
    TransitionJustified(meta, log, spec);
    SpeakMoveType(meta, log, spec);
    RunnerSpeechKeeps(meta, log, built, id, runner, cost, keys);
    var e := RunnerSpeechEvent(built, id, runner, cost, keys);
    var longer := Append(meta, log, succeeded, foreign).log;
    assert longer == log + [Stored(meta, log, succeeded)];
    StoredKeeps(meta, log, succeeded);
    SpeechAfterNote(meta, log, Stored(meta, log, succeeded), e);
    AppendHistory(meta, longer, e, foreign);
  }

  lemma SpeakMoveType(meta: Metadata, log: Log, spec: CouncilSpec)
    requires spec.action == Speak && Transition(meta, log, spec).Ok?
    ensures Transition(meta, log, spec).value.typ == Speech && Transition(meta, log, spec).value.phase == Discussion
  {
    hide SpeechVerdict, Granted, AlreadyPosted, CurrentTurn, CouncilMembers, ActorOf, PayloadOf, CommandIdOf;
  }

  lemma StoredKeeps(meta: Metadata, log: Log, e: Event)
    ensures Stored(meta, log, e).typ == e.typ && Stored(meta, log, e).phase == e.phase && Stored(meta, log, e).id == e.id
  {
    hide RuntimeRows, SortStrings, CouncilMembers;
  }

  lemma ApplyHistory(meta: Metadata, log: Log, request: Request)
    requires History(meta, log)
    ensures History(meta, Apply(meta, log, request))
  {
    hide History, RecordCouncil, RecordBlock, RecordResume, RecordCancel, RecordAck, RecordHeartbeat, Append, BuildEvent, RunnerSpeechEvent, ContentJustified, FreshCommand;
    match request.command {
      case CouncilCommand(spec) => CouncilHistory(meta, log, spec, request.foreign);
      case BlockCommand(spec) => BlockHistory(meta, log, spec, request.foreign);
      case ResumeCommand(spec) => ResumeHistory(meta, log, spec, request.foreign);
      case CancelCommand(spec) => CancelHistory(meta, log, spec, request.foreign);
      case AckCommand(member, cursor, spec) => StreamHistory(meta, log, member, cursor, spec, "", 0, request.foreign);
      case HeartbeatCommand(member, suffix, now) =>
        StreamHistory(meta, log, member, "", ControlSpec("", "", "", "", "", "", "", 0), suffix, now, request.foreign);
      case DispatchNote(note) =>
        if MayNote(log, note) {
          NoteHistory(meta, log, note, request.foreign);
        }
      case RunnerSpeech(succeeded, spec, id, runner, cost, keys) =>
        if MayNote(log, succeeded) && succeeded.typ == RunnerSucceeded && spec.action == Speak && BuildEvent(meta, log, spec).Ok? {
          NoteHistory(meta, log, succeeded, request.foreign);
          if Append(meta, log, succeeded, request.foreign).result.Ok? {
            RunnerSpeechHistory(meta, log, succeeded, spec, id, runner, cost, keys, request.foreign);
          }
        }
    }
  }

  lemma NoteHistory(meta: Metadata, log: Log, note: Event, foreign: set<string>)
    requires History(meta, log) && MayNote(log, note)
    ensures History(meta, Append(meta, log, note, foreign).log)
  {
    hide History, Append;
    AppendHistory(meta, log, note, foreign);
  }

  lemma OpenedHistory(meta: Metadata, log: Log)
    requires Opened(meta, log)
    ensures History(meta, log)
  {
    var id, commandId, now :| log == [Opening(meta, id, commandId, now)];
    var opening := Opening(meta, id, commandId, now);
    OpeningJustified(meta, opening);
    assert [] + [opening] == log;
    hide Justified, Opening;
    HistorySnoc(meta, [], opening);
  }

  /** Whatever requests arrive, and in whatever order, in every log along the run every event was
      justified by the log it was recorded on. */
  lemma {:induction false} RunHistory(meta: Metadata, logs: seq<Log>, requests: seq<Request>, n: nat)
    requires Run(meta, logs, requests) && n <= |requests|
    ensures History(meta, logs[n])
  {
    hide History, Apply, Opened;
    if n == 0 {
      OpenedHistory(meta, logs[0]);
    } else {
      RunHistory(meta, logs, requests, n - 1);
      ApplyHistory(meta, logs[n - 1], requests[n - 1]);
    }
  }

  lemma OpeningJustified(meta: Metadata, opening: Event)
    requires opening.typ == SessionCreated && opening.phase == Created
    ensures Justified(meta, [], opening) && History(meta, [])
  {
  }

  lemma ReachableHistory(meta: Metadata, log: Log)
    requires Reachable(meta, log)
    ensures History(meta, log)
  {
    hide History, Apply, Opened;
    var logs, requests :| Run(meta, logs, requests) && logs[|requests|] == log;
    RunHistory(meta, logs, requests, |requests|);
  }

  lemma OpenedReachable(meta: Metadata, log: Log)
    requires Opened(meta, log)
    ensures Reachable(meta, log)
  {
    hide Opened;
    var requests: seq<Request> := [];
    assert Run(meta, [log], requests) && [log][|requests|] == log;
  }

  /** Another request leads on from any reachable log. */
  lemma ApplyReachable(meta: Metadata, log: Log, request: Request)
    requires Reachable(meta, log)
    ensures Reachable(meta, Apply(meta, log, request))
  {
    hide Apply, Opened;
    var logs, requests :| Run(meta, logs, requests) && logs[|requests|] == log;
    var longer, more := logs + [Apply(meta, log, request)], requests + [request];
    forall i | 0 <= i < |more| ensures longer[i + 1] == Apply(meta, longer[i], more[i]) {
      if i < |requests| {
        assert more[i] == requests[i];
      }
    }
    assert Run(meta, longer, more) && longer[|more|] == Apply(meta, log, request);
  }
}
