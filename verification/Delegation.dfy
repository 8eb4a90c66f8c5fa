/** Delegation commands: the work cycle of one assignee, and retries of commands. */
module Delegation {
  import opened Prelude
  import opened Text
  import opened Events
  import opened Channel
  import Cursors

  datatype Action =
    | Acknowledge | Message | Clarify | AnswerClarification | Update | RequestUpdate | Submit | Review
    | ReviewQuestion | ReviewAnswer | ReviewSubmit | Revise | Accept | Escalate | FlushEscalation | ResolveEscalation
    | NoAction | UnsupportedAction

  /** `artifactSources` are the files the command brings; `ingested` is what copying them comes to. */
  datatype DelegationSpec = DelegationSpec(
    action: Action, actor: string, recipients: seq<string>, commandId: string, generatedId: string, causation: string,
    payload: Payload, artifactSources: seq<string>, ingested: Result<seq<string>>, now: int)

  datatype Move = Move(typ: EventType, phase: Phase, from: string, to: seq<string>, payload: Payload)

  function CommandIdOf(spec: DelegationSpec): string {
    if Blank(spec.commandId) then spec.generatedId else spec.commandId
  }

  function ActorOf(meta: Metadata, spec: DelegationSpec): string {
    if Blank(spec.actor) then meta.moderator else Trim(spec.actor)
  }

  function DefaultRecipients(to: seq<string>, fallback: string): seq<string> {
    if to != [] then to else if fallback == "" then [] else [fallback]
  }

  function FirstNonModerator(participants: seq<string>, moderator: string): string {
    if participants == [] then moderator
    else if participants[0] != moderator then participants[0]
    else FirstNonModerator(participants[1..], moderator)
  }

  function Assignee(meta: Metadata): string {
    FirstNonModerator(meta.participants, meta.moderator)
  }

  function ResumeFor(current: Phase): Phase {
    if current == NeedsClarification then Working else current
  }

  function OrDefault(value: string, fallback: string): string {
    if Blank(value) then fallback else value
  }

  const WORKING_PHASES := {Acknowledged, Working, RevisionRequested}

  // ---- Escalations -----------------------------------------------------------------------

  predicate Batched(p: Payload) {
    p.delegation.urgency == "low" && p.delegation.batchPolicy != "never"
  }

  /** An escalation asks the user, or, when it is not urgent, joins a batch. */
  function EscalateMove(meta: Metadata, current: Phase, spec: DelegationSpec, actor: string, p: Payload): Move {
    var keys := p.delegation.(
      batch := Some(false),
      includedEventIds := if p.delegation.includedEventIds == None && spec.causation != "" then Some([spec.causation])
                          else p.delegation.includedEventIds);
    var asked := p.(priorPhase := current, resumePhase := if p.resumePhase == NoPhase then ResumeFor(current) else p.resumePhase,
                    delegation := keys);
    if !Batched(p) then Move(UserEscalationRequested, WaitingUser, actor, [USER], asked)
    else
      Move(EscalationBatched, current, actor, [meta.moderator],
           asked.(delegation := keys.(
             batchId := OrDefault(keys.batchId, EventIdFor("escbatch", CommandIdOf(spec))),
             batchAction := OrDefault(keys.batchAction, "created"),
             sourceEventId := OrDefault(keys.sourceEventId, spec.causation))))
  }

  function FlushMove(current: Phase, p: Payload): Move {
    Move(UserEscalationRequested, WaitingUser, DAEMON, [USER],
         p.(priorPhase := current, resumePhase := ResumeFor(current), delegation := p.delegation.(batch := Some(true))))
  }

  function ResolveMove(meta: Metadata, spec: DelegationSpec, escalation: Event, p: Payload): Move {
    var phase := if escalation.payload.resumePhase == NoPhase then Working else escalation.payload.resumePhase;
    Move(UserEscalationResolved, phase, USER, [meta.moderator],
         p.(resumePhase := phase, delegation := p.delegation.(escalationEventId := spec.causation)))
  }

  // ---- The transition --------------------------------------------------------------------

  function In(allowed: set<Phase>, current: Phase, move: Move): Result<Move> {
    if current in allowed then Ok(move) else Err(Conflict("phase"))
  }

  /** The decision on a command in a given phase; the log is only asked about referenced events. */
  function Transition(meta: Metadata, log: Log, current: Phase, spec: DelegationSpec, p: Payload): Result<Move> {
    var actor := ActorOf(meta, spec);
    var toModerator := DefaultRecipients(spec.recipients, meta.moderator);
    var toAssignee := DefaultRecipients(spec.recipients, Assignee(meta));
    if !PrincipalAllowed(meta, actor, false) then Err(BadPrincipal("actor"))
    else
      match spec.action
      case Acknowledge =>
        if current != Assigned then Err(Conflict("phase"))
        else if actor == meta.moderator then Err(BadPrincipal("actor"))
        else Ok(Move(AssigneeAcknowledged, Acknowledged, actor, toModerator, p))
      case Message => Ok(Move(DelegationMessage, current, actor, toModerator, p))
      case Clarify => In(WORKING_PHASES, current, Move(ClarificationRequested, NeedsClarification, actor, toModerator, p))
      case AnswerClarification =>
        if current !in {NeedsClarification, WaitingUser} then Err(Conflict("phase"))
        else if EventByIdAndType(log, spec.causation, ClarificationRequested) == None then Err(Invalid("in_reply_to"))
        else
          var to := DefaultRecipients(spec.recipients, p.delegation.assignee);
          Ok(Move(ClarificationAnswered, Working, actor, if to == [] || to[0] == "" then [Assignee(meta)] else to, p))
      case Update => In(WORKING_PHASES, current, Move(AssigneeUpdate, Working, actor, toModerator, p))
      case RequestUpdate => Ok(Move(AssigneeUpdateRequested, current, actor, toAssignee, p))
      case Submit => In(WORKING_PHASES, current, Move(WorkSubmitted, Submitted, actor, toModerator, p))
      case Review => In({Submitted}, current, Move(ReviewRequested, UnderReview, actor, toAssignee, p))
      case ReviewQuestion => In({UnderReview}, current, Move(ReviewClarificationRequested, current, actor, toAssignee, p))
      case ReviewAnswer => In({UnderReview}, current, Move(ReviewClarificationAnswered, current, actor, toModerator, p))
      case ReviewSubmit => In({UnderReview}, current, Move(ReviewSubmitted, current, actor, toModerator, p))
      case Revise => In({UnderReview}, current, Move(RevisionAsked, RevisionRequested, actor, toAssignee, p))
      case Accept => In({Submitted, UnderReview}, current, Move(WorkAccepted, Accepted, actor, SortStrings(meta.participants), p))
      case Escalate => Ok(EscalateMove(meta, current, spec, actor, p))
      case FlushEscalation => Ok(FlushMove(current, p))
      case ResolveEscalation =>
        if current != WaitingUser then Err(Conflict("phase"))
        else
          (match EventByIdAndType(log, spec.causation, UserEscalationRequested)
           case None => Err(Invalid("escalation"))
           case Some(escalation) => Ok(ResolveMove(meta, spec, escalation, p)))
      case _ => Err(Invalid("action"))
  }

  // ---- Payload checks --------------------------------------------------------------------

  function RequiredKeys(action: Action): set<RequiredKey> {
    match action
    case Acknowledge => {Understanding}
    case Clarify => {Question}
    case AnswerClarification => {Answer, Source}
    case Message => {Kind, MessageText}
    case Update => {ProgressStatus, SummaryText}
    case RequestUpdate => {ReasonText}
    case Submit => {SummaryText}
    case ReviewSubmit => {Verdict}
    case Revise => {RequiredChanges}
    case Accept => {FinalSummaryText}
    case Escalate => {Question, Urgency}
    case ResolveEscalation => {Answer}
    case _ => {}
  }

  predicate FindingsOk(findings: seq<Finding>) {
    forall i :: 0 <= i < |findings| ==> findings[i].severity in {"low", "medium", "high", "critical"} && findings[i].issue != ""
  }

  predicate PayloadOk(action: Action, p: Payload) {
    RequiredKeys(action) <= p.delegation.filled &&
    match action
    case Message => p.delegation.kind in {"note", "instruction", "scope_correction", "priority_update", "process_guidance"}
    case Update => p.delegation.progressStatus in {"working", "blocked", "partial", "testing", "ready_to_submit"}
    case ReviewSubmit =>
      p.delegation.verdict in {"accepted", "changes_requested", "rejected", "needs_clarification"}
      && !p.delegation.findingsMalformed && FindingsOk(p.delegation.findings)
    case _ => true
  }

  // ---- Recording -------------------------------------------------------------------------

  function EventOf(spec: DelegationSpec, move: Move): Event {
    Event(EventIdFor(IdPrefix(move.typ), CommandIdOf(spec)), CommandIdOf(spec), Trim(spec.causation), None, move.phase, move.typ,
          move.from, SortStrings(move.to), spec.now, None, CostOmitted, move.payload)
  }

  /** The phase in which the event at an offset was decided. */
  function PriorPhase(log: Log, offset: nat): Phase
    requires offset < |log|
  {
    if offset > 0 then log[offset - 1].phase else CachedPhase(log)
  }

  /** What the command would write if it were decided in a phase, unless it is refused. */
  function Rebuilt(meta: Metadata, log: Log, current: Phase, spec: DelegationSpec): Result<Event> {
    match Transition(meta, log, current, spec, spec.payload)
    case Err(error) => Err(error)
    case Ok(move) => if PayloadOk(spec.action, move.payload) then Ok(EventOf(spec, move)) else Err(Invalid("payload"))
  }

  /** A retry is decided again in the phase of the original and compared with it, before any phase
      gate; commands that bring files are not retried this way. */
  function Replayed(meta: Metadata, log: Log, spec: DelegationSpec): Option<Result<Receipt>> {
    if Blank(CommandIdOf(spec)) || spec.artifactSources != [] then None
    else
      match FirstWithCommand(log, CommandIdOf(spec))
      case None => None
      case Some(offset) =>
        match Rebuilt(meta, log, PriorPhase(log, offset), spec)
        case Err(_) => Some(Err(Conflict("command_id")))
        case Ok(e) => Some(if Equivalent(log[offset], e) then Retried(log, offset) else Err(Conflict("command_id")))
  }

  function WithArtifacts(spec: DelegationSpec, move: Move): Result<Move> {
    if spec.artifactSources == [] then Ok(move)
    else
      match spec.ingested
      case Err(error) => Err(error)
      case Ok(artifacts) => Ok(move.(payload := move.payload.(delegation := move.payload.delegation.(artifacts := artifacts))))
  }

  function Built(meta: Metadata, log: Log, spec: DelegationSpec): Result<Event> {
    match Transition(meta, log, LatestPhase(log), spec, spec.payload)
    case Err(error) => Err(error)
    case Ok(move) =>
      match WithArtifacts(spec, move)
      case Err(error) => Err(error)
      case Ok(full) =>
        if !PayloadOk(spec.action, full.payload) then Err(Invalid("payload"))
        else if Trim(spec.causation) != "" && !HasId(log, Trim(spec.causation)) then Err(Invalid("causation_event_id"))
        else Ok(EventOf(spec, full))
  }

  function RecordDelegation(meta: Metadata, log: Log, spec: DelegationSpec, foreign: set<string>): Outcome {
    if meta.kind != DelegationSession then Outcome(log, Err(Invalid("session_type")))
    else if spec.action == NoAction then Outcome(log, Err(Invalid("action")))
    else
      match Replayed(meta, log, spec)
      case Some(result) => Outcome(log, result)
      case None =>
        if Terminal(LatestPhase(log)) then Outcome(log, Err(Conflict("phase")))
        else
          match Built(meta, log, spec)
          case Err(error) => Outcome(log, Err(error))
          case Ok(e) => AppendIdempotent(meta, log, e, foreign)
  }

  method ReplayExistingCommand(meta: Metadata, log: Log, spec: DelegationSpec) returns (handled: Option<Result<Receipt>>)
    ensures handled == Replayed(meta, log, spec)
  {
    hide Rebuilt, Equivalent;
    if Blank(CommandIdOf(spec)) || spec.artifactSources != [] {
      return None;
    }
    for offset := 0 to |log|
      invariant forall i :: 0 <= i < offset ==> log[i].commandId != CommandIdOf(spec)
    {
      if log[offset].commandId == CommandIdOf(spec) {
        assert FirstWithCommand(log, CommandIdOf(spec)) == Some(offset);
        var rebuilt := Rebuilt(meta, log, PriorPhase(log, offset), spec);
        if rebuilt.Ok? && Equivalent(log[offset], rebuilt.value) {
          return Some(Ok(Receipt(Cursors.Print(offset, log[offset].id), offset, log[offset].id, true)));
        }
        return Some(Err(Conflict("command_id")));
      }
    }
    return None;
  }

  method RecordDelegationEvent(s: Session, spec: DelegationSpec, foreign: set<string>) returns (r: Result<Receipt>)
    requires s.Valid()
    modifies s
    ensures s.Valid()
    ensures Outcome(s.events, r) == RecordDelegation(s.meta, old(s.events), spec, foreign)
  {
    hide Replayed, Transition, PayloadOk, EventOf, AppendIdempotent;
    if s.meta.kind != DelegationSession {
      return Err(Invalid("session_type"));
    }
    if spec.action == NoAction {
      return Err(Invalid("action"));
    }
    var handled := ReplayExistingCommand(s.meta, s.events, spec);
    if handled.Some? {
      return handled.value;
    }
    if Terminal(LatestPhase(s.events)) {
      return Err(Conflict("phase"));
    }
    var move := Transition(s.meta, s.events, LatestPhase(s.events), spec, spec.payload);
    if move.Err? {
      return Err(move.error);
    }
    var full := WithArtifacts(spec, move.value);
    if full.Err? {
      return Err(full.error);
    }
    if !PayloadOk(spec.action, full.value.payload) {
      return Err(Invalid("payload"));
    }
    var cause := Trim(spec.causation);
    if cause != "" {
      var found := s.FindById(cause);
      if found == None {
        return Err(Invalid("causation_event_id"));
      }
    }
    r := s.AppendIdempotentEvent(EventOf(spec, full.value), foreign);
  }
}
