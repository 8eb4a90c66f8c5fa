/** Commands that every session understands: block, resume, cancel, cursor acknowledgement,
    subscriber heartbeat and delivery evidence. */
module Control {
  import opened Prelude
  import opened Text
  import opened Events
  import opened Channel
  import Cursors

  datatype ControlSpec = ControlSpec(
    actor: string, category: string, reason: string, cause: string, blockedEventId: string,
    commandId: string, generatedId: string, now: int)

  function IdOr(commandId: string, generatedId: string): string {
    if Blank(commandId) then generatedId else commandId
  }

  predicate Participant(meta: Metadata, member: string) {
    !Blank(member) && member in meta.participants
  }

  function AllParticipants(meta: Metadata): seq<string> {
    SortStrings(meta.participants)
  }

  function ControlEvent(meta: Metadata, spec: ControlSpec, typ: EventType, phase: Phase, causation: string, payload: Payload): Event {
    var id := IdOr(spec.commandId, spec.generatedId);
    Event(EventIdFor(IdPrefix(typ), id), id, causation, None, phase, typ, spec.actor, AllParticipants(meta), spec.now,
          None, CostOmitted, payload)
  }

  function Submit(meta: Metadata, log: Log, built: Result<Event>, foreign: set<string>): Outcome {
    match built
    case Err(error) => Outcome(log, Err(error))
    case Ok(e) => AppendIdempotent(meta, log, e, foreign)
  }

  // ---- Block and resume ------------------------------------------------------------------

  function DecideBlock(meta: Metadata, current: Phase, spec: ControlSpec): Result<Event> {
    if Terminal(current) || current == Blocked then Err(Conflict("phase"))
    else if spec.actor != meta.moderator then Err(BadPrincipal("actor"))
    else if spec.category !in {"external_dependency", "user_decision_required", "scope_conflict",
                               "policy_or_security", "budget_or_limit", "other"} then Err(Invalid("category"))
    else if Blank(spec.reason) then Err(Invalid("reason"))
    else Ok(ControlEvent(meta, spec, SessionBlocked, Blocked, "",
                         EMPTY_PAYLOAD.(category := spec.category, reason := spec.reason,
                                        priorPhase := current, resumePhase := current)))
  }

  /** `blocking` is whichever event of the log the request names: any old block will do. */
  function DecideResume(meta: Metadata, current: Phase, spec: ControlSpec, blocking: Option<Event>): Result<Event> {
    if current != Blocked then Err(Conflict("phase"))
    else if spec.actor != meta.moderator then Err(BadPrincipal("actor"))
    else if blocking == None || blocking.value.phase != Blocked then Err(Invalid("blocked_event"))
    else if blocking.value.typ == SessionBudgetExceeded then Err(Conflict("blocked_event"))
    else if blocking.value.typ !in {SessionBlocked, SecurityViolation, EscalationTimeout} then Err(Invalid("blocked_event"))
    else
      var phase := blocking.value.payload.resumePhase;
      if phase == NoPhase || !ValidPhase(meta.kind, phase) || Terminal(phase) || phase == Blocked then Err(Invalid("resume_phase"))
      else if Blank(spec.reason) then Err(Invalid("reason"))
      else Ok(ControlEvent(meta, spec, SessionResumed, phase, spec.blockedEventId,
                           EMPTY_PAYLOAD.(blockedEventId := spec.blockedEventId, reason := spec.reason, resumePhase := phase)))
  }

  function RecordBlock(meta: Metadata, log: Log, spec: ControlSpec, foreign: set<string>): Outcome {
    Submit(meta, log, DecideBlock(meta, LatestPhase(log), spec), foreign)
  }

  function RecordResume(meta: Metadata, log: Log, spec: ControlSpec, foreign: set<string>): Outcome {
    Submit(meta, log, DecideResume(meta, LatestPhase(log), spec, EventById(log, spec.blockedEventId)), foreign)
  }

  method BlockSession(s: Session, spec: ControlSpec, foreign: set<string>) returns (r: Result<Receipt>)
    requires s.Valid()
    modifies s
    ensures s.Valid()
    ensures Outcome(s.events, r) == RecordBlock(s.meta, old(s.events), spec, foreign)
  {
    var built := DecideBlock(s.meta, LatestPhase(s.events), spec);
    if built.Err? {
      return Err(built.error);
    }
    r := s.AppendIdempotentEvent(built.value, foreign);
  }

  method ResumeSession(s: Session, spec: ControlSpec, foreign: set<string>) returns (r: Result<Receipt>)
    requires s.Valid()
    modifies s
    ensures s.Valid()
    ensures Outcome(s.events, r) == RecordResume(s.meta, old(s.events), spec, foreign)
  {
    var blocking := s.FindById(spec.blockedEventId);
    var built := DecideResume(s.meta, LatestPhase(s.events), spec, blocking);
    if built.Err? {
      return Err(built.error);
    }
    r := s.AppendIdempotentEvent(built.value, foreign);
  }

  // ---- Cancel ----------------------------------------------------------------------------

  function CancelEvent(meta: Metadata, spec: ControlSpec): Event {
    ControlEvent(meta, spec, SessionCancelled, Cancelled, "",
                 EMPTY_PAYLOAD.(reason := Trim(spec.reason), cause := Trim(spec.cause)))
  }

  /** A retried cancel is answered before the phase is looked at. */
  function RecordCancel(meta: Metadata, log: Log, spec: ControlSpec, foreign: set<string>): Outcome {
    if !Participant(meta, spec.actor) || spec.actor != meta.moderator then Outcome(log, Err(BadPrincipal("actor")))
    else if Blank(spec.reason) then Outcome(log, Err(Invalid("reason")))
    else
      var e := CancelEvent(meta, spec);
      var first := FirstWithCommand(log, e.commandId);
      if first.Some? then
        Outcome(log, if Equivalent(log[first.value], e) then Retried(log, first.value) else Err(Conflict("command_id")))
      else if Terminal(LatestPhase(log)) then Outcome(log, Err(Conflict("phase")))
      else AppendIdempotent(meta, log, e, foreign)
  }

  /** The offset of the first event under a command id. */
  method FindCommand(log: Log, commandId: string) returns (first: Option<nat>)
    ensures first == FirstWithCommand(log, commandId)
  {
    for offset := 0 to |log|
      invariant forall i :: 0 <= i < offset ==> log[i].commandId != commandId
    {
      if log[offset].commandId == commandId {
        return Some(offset);
      }
    }
    return None;
  }

  method CancelSession(s: Session, spec: ControlSpec, foreign: set<string>) returns (r: Result<Receipt>)
    requires s.Valid()
    modifies s
    ensures s.Valid()
    ensures Outcome(s.events, r) == RecordCancel(s.meta, old(s.events), spec, foreign)
  {
    if !Participant(s.meta, spec.actor) || spec.actor != s.meta.moderator {
      return Err(BadPrincipal("actor"));
    }
    if Blank(spec.reason) {
      return Err(Invalid("reason"));
    }
    var e := CancelEvent(s.meta, spec);
    hide CancelEvent, Equivalent, AppendIdempotent, FirstWithCommand, Trim;
    var first := FindCommand(s.events, e.commandId);
    if first.Some? {
      var existing := s.events[first.value];
      if Equivalent(existing, e) {
        return Ok(Receipt(Cursors.Print(first.value, existing.id), first.value, existing.id, true));
      }
      return Err(Conflict("command_id"));
    }
    if Terminal(LatestPhase(s.events)) {
      return Err(Conflict("phase"));
    }
    r := s.AppendIdempotentEvent(e, foreign);
  }

  // ---- Stream bookkeeping ----------------------------------------------------------------

  function AckEvent(meta: Metadata, current: Phase, member: string, cursor: string, commandId: string, now: int): Event {
    Event(EventIdFor(IdPrefix(CursorAcknowledged) + "_" + meta.id, commandId), commandId, "", None, current, CursorAcknowledged,
          DAEMON, [member], now, None, CostOmitted, EMPTY_PAYLOAD.(member := member, cursor := cursor))
  }

  /** A cursor is good when the event at its offset has its event id. */
  predicate Resolves(log: Log, cursor: string) {
    var parsed := Cursors.Parse(cursor);
    parsed.Some? && 0 <= parsed.value.0 < |log| && log[parsed.value.0].id == parsed.value.1
  }

  function DecideAck(meta: Metadata, log: Log, member: string, cursor: string, commandId: string, now: int): Result<Event> {
    if !Participant(meta, member) then Err(BadPrincipal("member"))
    else if !Resolves(log, cursor) then Err(Invalid("cursor"))
    else Ok(AckEvent(meta, LatestPhase(log), member, cursor, commandId, now))
  }

  function RecordAck(meta: Metadata, log: Log, member: string, cursor: string, spec: ControlSpec, foreign: set<string>): Outcome {
    Submit(meta, log, DecideAck(meta, log, member, cursor, IdOr(spec.commandId, spec.generatedId), spec.now), foreign)
  }

  method AcknowledgeCursor(s: Session, member: string, cursor: string, spec: ControlSpec, foreign: set<string>)
    returns (r: Result<Receipt>)
    requires s.Valid()
    modifies s
    ensures s.Valid()
    ensures Outcome(s.events, r) == RecordAck(s.meta, old(s.events), member, cursor, spec, foreign)
  {
    if !Participant(s.meta, member) {
      return Err(BadPrincipal("member"));
    }
    if !Resolves(s.events, cursor) {
      return Err(Invalid("cursor"));
    }
    r := s.AppendIdempotentEvent(
      AckEvent(s.meta, LatestPhase(s.events), member, cursor, IdOr(spec.commandId, spec.generatedId), spec.now), foreign);
  }

  /** `suffix` is the clock reading that the daemon puts into the ids. */
  function HeartbeatEvent(meta: Metadata, log: Log, member: string, suffix: string, now: int): Event {
    var last := if log == [] then "" else Cursors.Print(|log| - 1, log[|log| - 1].id);
    Event("evt_stream_subscriber_heartbeat_" + member + "_" + suffix, "cmd_stream_subscriber_heartbeat_" + member + "_" + suffix,
          "", None, LatestPhase(log), SubscriberHeartbeat, member, [meta.moderator], now, None, CostOmitted,
          EMPTY_PAYLOAD.(member := member, cursor := last))
  }

  function RecordHeartbeat(meta: Metadata, log: Log, member: string, suffix: string, now: int, foreign: set<string>): Outcome {
    if !Participant(meta, member) then Outcome(log, Err(BadPrincipal("member")))
    else Append(meta, log, HeartbeatEvent(meta, log, member, suffix, now), foreign)
  }

  // ---- Delivery evidence -----------------------------------------------------------------

  datatype DeliveryEvidence = DeliveryEvidence(
    delivered: bool, reporter: string, escalationEvent: string, target: string, detail: string, payload: Payload,
    commandId: string, generatedId: string, now: int)

  /** Delivery evidence always waits for the user, whatever the phase was. */
  function DecideDelivery(meta: Metadata, log: Log, evidence: DeliveryEvidence): Result<Event> {
    if !Participant(meta, evidence.reporter) then Err(BadPrincipal("reporter"))
    else if EventByIdAndType(log, evidence.escalationEvent, UserEscalationRequested) == None then Err(Invalid("escalation"))
    else if evidence.target == "" || evidence.detail == "" then Err(Invalid("delivery"))
    else
      var id := IdOr(evidence.commandId, evidence.generatedId);
      var typ := if evidence.delivered then UserEscalationDelivered else UserEscalationDeliveryFailed;
      Ok(Event(EventIdFor(IdPrefix(typ), id), id, evidence.escalationEvent, None, WaitingUser, typ, evidence.reporter,
               if evidence.delivered then [USER] else [meta.moderator], evidence.now, None, CostOmitted, evidence.payload))
  }

  function RecordDelivery(meta: Metadata, log: Log, evidence: DeliveryEvidence, foreign: set<string>): Outcome {
    Submit(meta, log, DecideDelivery(meta, log, evidence), foreign)
  }

  /** An event that is no speech is appended exactly when its ids are unused and its envelope is valid. */
  lemma IdempotentExactly(meta: Metadata, log: Log, e: Event, foreign: set<string>)
    requires e.typ != Speech
    ensures var after := AppendIdempotent(meta, log, e, foreign).log;
            if (e.commandId == "" || FirstWithCommand(log, e.commandId) == None) && !HasId(log, e.id)
               && ValidEnvelope(meta, e) && (Blank(e.commandId) || Trim(e.commandId) !in foreign)
            then |after| == |log| + 1 && LatestPhase(after) == e.phase
            else after == log
  {
    hide Equivalent, FirstWithCommand, SortStrings, ValidEnvelope, HasId, Trim;
  }

  /** What is asked of a delivery report; nothing in it looks at the phase. */
  predicate DeliveryAccepted(meta: Metadata, log: Log, evidence: DeliveryEvidence, foreign: set<string>) {
    var id := IdOr(evidence.commandId, evidence.generatedId);
    var typ := if evidence.delivered then UserEscalationDelivered else UserEscalationDeliveryFailed;
    && Participant(meta, evidence.reporter)
    && EventByIdAndType(log, evidence.escalationEvent, UserEscalationRequested).Some?
    && evidence.target != "" && evidence.detail != ""
    && (id == "" || FirstWithCommand(log, id) == None)
    && !HasId(log, EventIdFor(IdPrefix(typ), id))
    && meta.kind == DelegationSession
    && (evidence.delivered || ValidRecipients(meta, [meta.moderator]))
    && (Blank(id) || Trim(id) !in foreign)
  }

  lemma DeliveryIdNotBlank(delivered: bool, id: string)
    ensures !Blank(EventIdFor(IdPrefix(if delivered then UserEscalationDelivered else UserEscalationDeliveryFailed), id))
  {
    hide CleanId, Trim;
    NotBlank(EventIdFor(IdPrefix(if delivered then UserEscalationDelivered else UserEscalationDeliveryFailed), id));
  }

  lemma ReporterAllowed(meta: Metadata, reporter: string)
    requires Participant(meta, reporter)
    ensures PrincipalAllowed(meta, reporter, true) && ValidRecipients(meta, [USER])
  {
  }

  lemma DeliveryEnvelope(meta: Metadata, log: Log, evidence: DeliveryEvidence)
    requires DecideDelivery(meta, log, evidence).Ok?
    ensures ValidEnvelope(meta, DecideDelivery(meta, log, evidence).value)
            <==> meta.kind == DelegationSession && (evidence.delivered || ValidRecipients(meta, [meta.moderator]))
  {
    hide Trim, EventIdFor, IdOr, EventByIdAndType, PrincipalAllowed, ValidRecipients, IdPrefix, Participant;
    DeliveryIdNotBlank(evidence.delivered, IdOr(evidence.commandId, evidence.generatedId));
    ReporterAllowed(meta, evidence.reporter);
  }
}
