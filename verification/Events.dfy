/** The event envelope, the payload keys the daemon reads, and the session metadata.

    A payload is a dictionary in the source. Here every key the modelled code reads is a field
    that holds what the code's accessors return for it, so an absent or ill-typed key is the
    accessor's default (`0`, `""`, `false`, `Absent`). `rest` stands for all the other keys. */
module Events {
  import opened Prelude
  import opened Text

  const DAEMON := "atn-controld"
  const USER := "user"

  // ---- Phases ----------------------------------------------------------------------------

  datatype Phase =
    | Created | Preparation | Discussion | DraftConclusion | ConsensusVote
    | Blocked | Finalized | Unresolved | Cancelled
    | Assigned | Acknowledged | Working | NeedsClarification | WaitingUser
    | Submitted | UnderReview | RevisionRequested | Accepted
    | NoPhase  // absent or not a phase name

  datatype Status = StatusOpen | StatusBlocked | StatusTerminal

  function StatusFromPhase(phase: Phase): Status {
    match phase
    case Accepted | Cancelled | Finalized | Unresolved => StatusTerminal
    case Blocked => StatusBlocked
    case _ => StatusOpen
  }

  predicate Terminal(phase: Phase) {
    StatusFromPhase(phase) == StatusTerminal
  }

  datatype SessionKind = DelegationSession | CouncilSession

  predicate ValidPhase(kind: SessionKind, phase: Phase) {
    match kind
    case CouncilSession =>
      phase in {Created, Preparation, Discussion, DraftConclusion, ConsensusVote, Blocked,
                Finalized, Unresolved, Cancelled}
    case DelegationSession =>
      phase in {Created, Assigned, Acknowledged, Working, NeedsClarification, WaitingUser, Submitted,
                UnderReview, RevisionRequested, Blocked, Accepted, Cancelled}
  }

  // ---- Event types -----------------------------------------------------------------------

  datatype EventType =
    | SessionCreated | SessionBlocked | SessionResumed | SessionCancelled
    | SessionBudgetExceeded | SecurityViolation | EscalationTimeout
    | CursorAcknowledged | SubscriberHeartbeat
    // council
    | AttendanceRequested | MemberAttended | AgendaLocked | PreparationRequested
    | MemberReady | MemberPreparedPartial | HandRaiseRequested | HandRaise | HandRaiseDropped
    | SpeakerSelected | Speech | ModeratorIntervention | DraftRecorded | VoteRequested | VoteCast
    | CouncilFinalized | CouncilUnresolved
    // selected-runner dispatch
    | PromptEvidence | RunnerStarted | RetryAttempted | RunnerSucceeded | RunnerFailed
    | RunnerDiscarded | DispatchFailed
    // delegation
    | TaskAssigned | AssigneeAcknowledged | DelegationMessage | ClarificationRequested
    | ClarificationAnswered | AssigneeUpdate | AssigneeUpdateRequested | WorkSubmitted
    | ReviewRequested | ReviewClarificationRequested | ReviewClarificationAnswered
    | ReviewSubmitted | RevisionAsked | WorkAccepted
    | UserEscalationRequested | EscalationBatched | UserEscalationResolved
    | UserEscalationDelivered | UserEscalationDeliveryFailed

  /** The identifier prefix of the event ids derived from a command. */
  function IdPrefix(typ: EventType): string {
    match typ
    case SessionBlocked => "evt_session_blocked"
    case SessionResumed => "evt_session_resumed"
    case SessionCancelled => "evt_session_cancelled"
    case CursorAcknowledged => "evt_stream_ack"
    case AttendanceRequested => "evt_attendance_requested"
    case MemberAttended => "evt_member_attended"
    case AgendaLocked => "evt_agenda_locked"
    case PreparationRequested => "evt_preparation_requested"
    case MemberReady => "evt_member_ready"
    case MemberPreparedPartial => "evt_member_prepared_partial"
    case HandRaiseRequested => "evt_hand_raise_requested"
    case HandRaise => "evt_hand_raise"
    case HandRaiseDropped => "evt_hand_raise_dropped"
    case SpeakerSelected => "evt_speaker_selected"
    case Speech => "evt_speech"
    case ModeratorIntervention => "evt_moderator_intervention"
    case DraftRecorded => "evt_draft_conclusion"
    case VoteRequested => "evt_consensus_vote_requested"
    case VoteCast => "evt_consensus_vote"
    case CouncilFinalized => "evt_council_finalized"
    case CouncilUnresolved => "evt_council_unresolved"
    case AssigneeAcknowledged => "evt_assignee_acknowledged"
    case DelegationMessage => "evt_delegation_message"
    case ClarificationRequested => "evt_clarification_requested"
    case ClarificationAnswered => "evt_clarification_answered"
    case AssigneeUpdate => "evt_assignee_update"
    case AssigneeUpdateRequested => "evt_assignee_update_requested"
    case WorkSubmitted => "evt_work_submitted"
    case ReviewRequested => "evt_review_requested"
    case ReviewClarificationRequested => "evt_review_clarification_requested"
    case ReviewClarificationAnswered => "evt_review_clarification_answered"
    case ReviewSubmitted => "evt_review_submitted"
    case RevisionAsked => "evt_revision_requested"
    case WorkAccepted => "evt_work_accepted"
    case UserEscalationRequested => "evt_user_escalation_requested"
    case EscalationBatched => "evt_escalation_batched"
    case UserEscalationResolved => "evt_user_escalation_resolved"
    case UserEscalationDelivered => "evt_user_escalation_delivered"
    case UserEscalationDeliveryFailed => "evt_user_escalation_delivery_failed"
    case _ => "evt"
  }

  predicate IdChar(c: char) {
    'a' <= c <= 'z' || 'A' <= c <= 'Z' || '0' <= c <= '9' || c == '_' || c == '-' || c == '.'
  }

  function CleanId(s: string): (r: string)
    ensures |r| == |s|
    ensures forall i :: 0 <= i < |r| ==> IdChar(r[i])
  {
    seq(|s|, i requires 0 <= i < |s| => if IdChar(s[i]) then s[i] else '_')
  }

  /** An event id made from a command id; at most eighty characters of it survive. */
  function EventIdFor(prefix: string, commandId: string): (id: string)
    ensures id != ""
  {
    var clean := CleanId(commandId);
    prefix + "_" + if |clean| > 80 then clean[..80] else clean
  }

  // ---- Payload keys ----------------------------------------------------------------------

  /** A key whose absence, or whose being of the wrong shape, the code distinguishes. */
  datatype Field<+T> = Absent | Malformed | Present(value: T)

  datatype AttendanceStatus = NoAttendance | PresentMember | Partial | Unavailable | NoResponseTimeout | OtherAttendance

  datatype Vote = NoVote | Approve | ApproveWithConditions | BlockVote | Abstain | OtherVote

  datatype TurnMode = NoMode | Relevance | Targeted | RandomMode | ModeratorDirect | RoleOrder | OtherMode

  /** What a closeout still lacks. */
  datatype CloseoutDiagnostic =
    | MissingOpening | MissingDiscussionTurn(turn: int) | MissingCloseouts(members: seq<string>)
    | MissingSynthesis | VisibleCloseout(code: string)

  datatype CouncilKeys = CouncilKeys(
    status: AttendanceStatus,
    decisionQuestion: string, successCriteria: string, outOfScopePolicy: string,
    draft: string, revisionReason: string, finalSummary: string,
    draftVersion: int, supersedes: int, consensusRound: int, vote: Vote,
    hasEvidence: bool, linkedResultOk: bool,
    selectionMode: TurnMode, selectionScore: int, stanceAssignment: string,
    closeout: seq<CloseoutDiagnostic>)

  datatype WindowKeys = WindowKeys(
    auto: bool, requestEventId: string, wantsToSpeak: Option<bool>, eligible: Option<bool>,
    intent: string, relevance: int, urgency: int,
    windowId: string, durationSec: int, openedAt: Option<int>, deadlineAt: Option<int>,
    required: seq<string>)

  datatype Claim = Claim(id: string, summary: string, kind: string)

  datatype Link = Link(targetEventId: string, targetClaimId: string, stance: string, rationale: string)

  datatype WarningCode = OrphanSpeech | RepeatedNewAxis | RuntimeNoise | OmittedTargets | OtherCode

  datatype Diagnostic = Diagnostic(code: WarningCode, missingTargets: nat)

  /** `isNoise` tells whether the speech text reads as runtime noise, `namesNewAxis` whether the
      reason text of a grant names a new axis or a missing decision dimension, and `needTargets`
      lists the claims that a grant's graph need asks for. */
  datatype GraphKeys = GraphKeys(
    speech: string, isNoise: bool,
    claims: Field<seq<Claim>>, stanceLinks: Field<seq<Link>>, targetLinks: Field<seq<Link>>,
    contribution: Field<string>, newAxisReason: string,
    hasGraphNeed: bool, needTargets: seq<string>, namesNewAxis: bool,
    diagnostics: seq<Diagnostic>)

  /** One delivery-evidence object. `hasMessagePointer` tells whether it points at a visible message,
      `hasOtherPointer` whether at a comment, a decision note or other evidence, and `ownReferences`
      whether both keys that the daemon fills with the speech's id are present. */
  datatype Delivery = Delivery(
    status: string, kind: string, platform: string, channelId: string, threadId: string,
    messageId: string, postingPath: string, senderMember: string, references: seq<string>, ownReferences: bool,
    hasMessagePointer: bool, hasOtherPointer: bool, hasFailureReason: bool, hasFollowupPointer: bool)

  datatype DeliverySlot = NoDelivery | OneDelivery(one: Delivery) | ManyDeliveries(many: seq<Delivery>)

  /** `deliveries` lists the keys surface_evidence, plugin_evidence, delivery_evidence, evidence
      in this order; `grantRefs` the keys selected_event_id, speaker_selected_event_id,
      selected_runner_event_id. */
  datatype RunnerKeys = RunnerKeys(
    deliveries: seq<DeliverySlot>, grantRefs: seq<string>, manualOrFallback: bool,
    invocationId: string, errorClass: string)

  datatype RuntimeRow = RuntimeRow(member: string, handle: string, generation: int, lastEventId: string, lastCursor: string)

  datatype RuntimeEvidence = RuntimeEvidence(speechEventId: string, coverageCursor: string, rows: seq<RuntimeRow>)

  datatype RequiredKey =
    | Understanding | Question | Answer | Source | Kind | MessageText | ProgressStatus | SummaryText
    | ReasonText | Verdict | RequiredChanges | FinalSummaryText | Urgency

  datatype Finding = Finding(severity: string, issue: string)

  /** `filled` are the required keys whose value is a non-blank string or a non-empty list. */
  datatype DelegationKeys = DelegationKeys(
    filled: set<RequiredKey>, kind: string, progressStatus: string, verdict: string,
    findings: seq<Finding>, findingsMalformed: bool, assignee: string,
    urgency: string, batchPolicy: string, batch: Option<bool>, batchId: string, batchAction: string,
    sourceEventId: string, includedEventIds: Option<seq<string>>, escalationEventId: string,
    artifacts: seq<string>)

  datatype Payload = Payload(
    turn: int, member: string, to: string, reason: string, summary: string, message: string,
    timeoutSec: int, priorPhase: Phase, resumePhase: Phase, blockedEventId: string, cursor: string,
    category: string, cause: string,
    council: CouncilKeys, window: WindowKeys, graph: GraphKeys, runner: RunnerKeys,
    delegation: DelegationKeys, runtime: Option<RuntimeEvidence>, rest: string)

  const EMPTY_PAYLOAD := Payload(
    0, "", "", "", "", "", 0, NoPhase, NoPhase, "", "", "", "",
    CouncilKeys(NoAttendance, "", "", "", "", "", "", 0, 0, 0, NoVote, false, false, NoMode, 0, "", []),
    WindowKeys(false, "", None, None, "", 0, 0, "", 0, None, None, []),
    GraphKeys("", false, Absent, Absent, Absent, Absent, "", false, [], false, []),
    RunnerKeys([], [], false, "", ""),
    DelegationKeys({}, "", "", "", [], false, "", "", "", None, "", "", "", None, "", []),
    None, "")

  // ---- Envelope --------------------------------------------------------------------------

  datatype Runner = Runner(invocationId: string, member: string, attempt: int, isRetry: bool, status: string)

  /** The raw cost field: omitted, JSON null, or an object with the numbers it carries. */
  datatype Cost = CostOmitted | CostNull | CostObject(tokensIn: Option<int>, tokensOut: Option<int>, usd: Option<real>)

  datatype Event = Event(
    id: string, commandId: string, causation: string, turn: Option<int>, phase: Phase,
    typ: EventType, from: string, to: seq<string>, createdAt: int,
    runner: Option<Runner>, cost: Cost, payload: Payload)

  type Log = seq<Event>

  // ---- Session metadata ------------------------------------------------------------------

  datatype Surface = Surface(kind: string, platform: string, channelId: string, threadId: string)

  datatype QualityMode = Compatibility | QualityWarn | QualityRequired | UnsupportedMode

  datatype Quality = Quality(
    mode: QualityMode, openingUnlinkedTurns: int, requireClaims: bool,
    requireStanceLinksAfterOpening: bool, allowNewAxisWithReason: bool, maxConsecutiveNewAxis: int)

  datatype Metadata = Metadata(
    id: string, kind: SessionKind, moderator: string, participants: seq<string>,
    surface: Option<Surface>, turnMode: TurnMode, maxDiscussionTurns: int,
    quality: Option<Quality>, linkedAuthority: bool)

  function Members(participants: seq<string>, moderator: string): (ms: seq<string>)
    ensures forall m :: m in ms <==> m in participants && m != moderator
    ensures |ms| <= |participants|
  {
    if participants == [] then []
    else
      var rest := Members(participants[1..], moderator);
      if participants[0] == moderator then rest else [participants[0]] + rest
  }

  function CouncilMembers(meta: Metadata): seq<string> {
    Members(meta.participants, meta.moderator)
  }

  predicate CouncilMember(meta: Metadata, member: string) {
    member in CouncilMembers(meta)
  }

  predicate PrincipalAllowed(meta: Metadata, principal: string, allowDaemon: bool) {
    principal != "" &&
    (principal == USER || (principal == DAEMON && allowDaemon)
     || (principal != DAEMON && principal in meta.participants))
  }

  predicate Distinct(xs: seq<string>) {
    forall i, j :: 0 <= i < j < |xs| ==> xs[i] != xs[j]
  }

  predicate DiscordThread(meta: Metadata) {
    meta.surface.Some? && meta.surface.value.kind == "discord_thread"
  }

  // ---- Envelope validation ---------------------------------------------------------------

  predicate KnownRunnerStatus(status: string) {
    status in {"started", "succeeded", "failed", "timeout", "semantic_error",
               "discarded_after_cancel", "cancelled", "interrupted"}
  }

  predicate ValidRecipients(meta: Metadata, to: seq<string>) {
    Distinct(to) &&
    forall i :: 0 <= i < |to| ==>
      to[i] != "all" && to[i] != "*" && to[i] != DAEMON && PrincipalAllowed(meta, to[i], false)
  }

  predicate ValidEnvelope(meta: Metadata, e: Event) {
    && !Blank(e.id)
    && ValidPhase(meta.kind, e.phase)
    && PrincipalAllowed(meta, e.from, true)
    && ValidRecipients(meta, e.to)
    && (e.runner.None? ==> e.cost.CostOmitted?)
    && (e.runner.Some? ==> KnownRunnerStatus(e.runner.value.status)
                           && (e.cost.CostOmitted? <==> e.typ.RunnerStarted?))
  }

  // ---- Turns -----------------------------------------------------------------------------

  /** A positive envelope turn wins over the payload's. */
  function EventTurn(e: Event): int {
    if e.turn.Some? && e.turn.value > 0 then e.turn.value else e.payload.turn
  }
}
