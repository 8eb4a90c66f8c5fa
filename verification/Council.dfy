/** Council commands: the guards, the event each accepted command writes, and the response-window
    timeout. Every decision is a function of what the log scans found; the transition runs the
    scans. */
module Council {
  import opened Prelude
  import opened Text
  import opened Events
  import opened Channel
  import opened Scans
  import opened Lifecycle
  import opened ArgumentGraph
  import opened AutoSpeaker
  import Cursors

  datatype Action =
    | RequestAttendance | Attend | LockAgenda | Prepare | Ready | ReadyPartially | Poll | RaiseHand | DropHand
    | Grant | Speak | Intervene | Propose | Revise | RequestVote | CastVote | Finalize | DeclareUnresolved
    | UnknownAction

  /** A request; `generatedId` is the command id made from the clock when none is given. */
  datatype CouncilSpec = CouncilSpec(
    action: Action, actor: string, commandId: string, generatedId: string, causation: string, payload: Payload, now: int)

  /** What an accepted action writes. */
  datatype Move = Move(typ: EventType, phase: Phase, to: seq<string>, turn: Option<int>, payload: Payload)

  function ActorOf(meta: Metadata, spec: CouncilSpec): string {
    if Blank(spec.actor) then meta.moderator else Trim(spec.actor)
  }

  function CommandIdOf(spec: CouncilSpec): string {
    if Blank(spec.commandId) then spec.generatedId else spec.commandId
  }

  function CausationOf(spec: CouncilSpec): string {
    if spec.action == DropHand && Blank(spec.causation) then Trim(spec.payload.window.requestEventId)
    else Trim(spec.causation)
  }

  /** The client's payload without the daemon's closeout diagnostics. */
  function PayloadOf(spec: CouncilSpec): Payload {
    spec.payload.(council := spec.payload.council.(closeout := []))
  }

  function WithTimeoutCheck(move: Move): Result<Move> {
    if move.payload.timeoutSec < 0 then Err(Invalid("timeout_sec")) else Ok(move)
  }

  /** The payload's turn, or the current one; it must be positive. */
  function RequireTurn(payload: Payload, current: int): Result<int> {
    var turn := if payload.turn == 0 then current else payload.turn;
    if turn <= 0 then Err(Invalid("turn")) else Ok(turn)
  }

  function Participants(meta: Metadata, actor: string): seq<string> {
    SortStrings(Members(meta.participants, actor))
  }

  // ---- Opening a council -----------------------------------------------------------------

  function DecideRequestAttendance(meta: Metadata, current: Phase, actor: string, p: Payload): Result<Move> {
    if current != Created then Err(Conflict("phase"))
    else if actor != meta.moderator then Err(BadPrincipal("actor"))
    else WithTimeoutCheck(Move(AttendanceRequested, Created, CouncilMembers(meta), None,
                               p.(window := p.window.(required := CouncilMembers(meta)))))
  }

  function DecideAttend(meta: Metadata, current: Phase, actor: string, p: Payload): Result<Move> {
    if current != Created then Err(Conflict("phase"))
    else if !CouncilMember(meta, if actor == DAEMON then p.member else actor) then Err(BadPrincipal("member"))
    else if p.council.status !in {PresentMember, Partial, Unavailable, NoResponseTimeout} then Err(Invalid("status"))
    else Ok(Move(MemberAttended, Created, [meta.moderator], None, p))
  }

  function DecideLockAgenda(meta: Metadata, current: Phase, actor: string, p: Payload): Result<Move> {
    if current != Created then Err(Conflict("phase"))
    else if actor != meta.moderator then Err(BadPrincipal("actor"))
    else if Blank(p.council.decisionQuestion) || Blank(p.council.successCriteria) || Blank(p.council.outOfScopePolicy)
    then Err(Invalid("agenda"))
    else Ok(Move(AgendaLocked, Created, CouncilMembers(meta), None, p))
  }

  function DecidePrepare(meta: Metadata, current: Phase, actor: string, p: Payload, mayPrepare: bool): Result<Move> {
    if current != Created then Err(Conflict("phase"))
    else if actor != meta.moderator then Err(BadPrincipal("actor"))
    else if !mayPrepare then Err(Conflict("attendance"))
    else WithTimeoutCheck(Move(PreparationRequested, Preparation, CouncilMembers(meta), None, p))
  }

  function DecideReady(meta: Metadata, current: Phase, actor: string, p: Payload): Result<Move> {
    if current != Preparation then Err(Conflict("phase"))
    else if !CouncilMember(meta, actor) then Err(BadPrincipal("actor"))
    else if Blank(p.summary) then Err(Invalid("summary"))
    else Ok(Move(MemberReady, Preparation, [meta.moderator], None, p))
  }

  function DecideReadyPartially(meta: Metadata, current: Phase, actor: string, p: Payload): Result<Move> {
    if current != Preparation then Err(Conflict("phase"))
    else if !CouncilMember(meta, if actor == DAEMON then p.member else actor) then Err(BadPrincipal("member"))
    else if Blank(p.reason) then Err(Invalid("reason"))
    else Ok(Move(MemberPreparedPartial, Preparation, [meta.moderator], None, p))
  }

  // ---- Raising hands ---------------------------------------------------------------------

  function IntText(n: int): string {
    if n < 0 then "-" + Cursors.Decimal(-n) else Cursors.Decimal(n)
  }

  function WindowId(meta: Metadata, turn: int, eventId: string): string {
    "rw_" + meta.id + "_" + IntText(turn) + "_" + eventId
  }

  function DecidePoll(meta: Metadata, current: Phase, actor: string, p: Payload, commandId: string, now: int, currentTurn: int): Result<Move> {
    if current !in {Preparation, Discussion} then Err(Conflict("phase"))
    else if actor != meta.moderator then Err(BadPrincipal("actor"))
    else
      var turn := if p.turn == 0 then currentTurn + 1 else p.turn;
      var keys := p.window.(
        windowId := WindowId(meta, turn, EventIdFor(IdPrefix(HandRaiseRequested), commandId)),
        durationSec := DEFAULT_WINDOW_SEC, openedAt := Some(now),
        deadlineAt := Some(now + DEFAULT_WINDOW_SEC * SECOND), required := CouncilMembers(meta));
      WithTimeoutCheck(Move(HandRaiseRequested, Discussion, CouncilMembers(meta), Some(turn), p.(turn := turn, window := keys)))
  }

  function DecideRaise(meta: Metadata, current: Phase, actor: string, p: Payload, turn: Result<int>,
                       retry: bool, accepts: bool, conflict: bool, links: Result<seq<Target>>): Result<Move> {
    if current != Discussion then Err(Conflict("phase"))
    else if !CouncilMember(meta, actor) then Err(BadPrincipal("actor"))
    else if turn.Err? then Err(turn.error)
    else if !retry && !accepts then Err(Conflict("response_window"))
    else if p.window.wantsToSpeak == Some(false) then Err(Invalid("wants_to_speak"))
    else if conflict then Err(Conflict("hand_raise_response"))
    else if links.Err? then Err(links.error)
    else
      var wants := if p.window.wantsToSpeak == None then Some(true) else p.window.wantsToSpeak;
      Ok(Move(HandRaise, Discussion, [meta.moderator], Some(turn.value),
              p.(turn := turn.value, window := p.window.(wantsToSpeak := wants))))
  }

  predicate AutoDrop(actor: string, p: Payload) {
    actor == DAEMON && p.window.auto
  }

  function DropMember(actor: string, p: Payload): string {
    if AutoDrop(actor, p) then Trim(p.member) else actor
  }

  function DecideDrop(meta: Metadata, current: Phase, actor: string, p: Payload, turn: Result<int>,
                      request: Option<Event>, retry: bool, accepts: bool, conflict: bool): Result<Move> {
    var member := DropMember(actor, p);
    if current != Discussion then Err(Conflict("phase"))
    else if !CouncilMember(meta, member) then Err(BadPrincipal("member"))
    else if !AutoDrop(actor, p) && p.window.auto then Err(Invalid("auto"))
    else if turn.Err? then Err(turn.error)
    else if Blank(p.reason) then Err(Invalid("reason"))
    else if Blank(p.window.requestEventId) || request == None || request.value.payload.turn != turn.value
    then Err(Invalid("request_event_id"))
    else if !p.window.auto && !retry && !accepts then Err(Conflict("response_window"))
    else if conflict then Err(Conflict("hand_raise_response"))
    else Ok(Move(HandRaiseDropped, Discussion, [meta.moderator], Some(turn.value),
                 p.(turn := turn.value, member := member, window := p.window.(wantsToSpeak := Some(false)))))
  }

  // ---- Granting and speaking -------------------------------------------------------------

  function NeedKeys(targets: seq<Target>): seq<string> {
    if targets == [] then []
    else
      var t := targets[0];
      (if t.claimId == "" then [] else [t.eventId + "/" + t.claimId]) + NeedKeys(targets[1..])
  }

  /** The payload of a grant whose speaker was chosen automatically. */
  function AutoGrantPayload(p: Payload, choice: Choice): Payload {
    var mode := if p.council.selectionMode == NoMode then Relevance else p.council.selectionMode;
    var withScore := p.(council := p.council.(selectionMode := mode, selectionScore := choice.score),
                        reason := if Blank(p.reason) then "auto ARGUE score" else p.reason);
    if choice.targets == [] then withScore
    else
      var asks := choice.intent in {"", "synthesis", "synthesize"};
      withScore.(graph := withScore.graph.(hasGraphNeed := true, needTargets := if asks then NeedKeys(choice.targets) else []))
  }

  function ExplicitMember(p: Payload): string {
    if Blank(p.member) then Trim(p.to) else Trim(p.member)
  }

  predicate WantsAutoChoice(p: Payload) {
    ExplicitMember(p) == "" && p.window.auto
  }

  function GrantMember(p: Payload, choice: Result<Choice>): string {
    if WantsAutoChoice(p) && choice.Ok? then choice.value.member else ExplicitMember(p)
  }

  function DecideGrant(meta: Metadata, current: Phase, actor: string, p: Payload, turn: Result<int>,
                       choice: Result<Choice>, stance: string): Result<Move> {
    var member := GrantMember(p, choice);
    if current != Discussion then Err(Conflict("phase"))
    else if actor != meta.moderator then Err(BadPrincipal("actor"))
    else if !Blank(p.member) && !Blank(p.to) && Trim(p.member) != Trim(p.to) then Err(Invalid("member"))
    else if WantsAutoChoice(p) && choice.Err? then Err(choice.error)
    else if !CouncilMember(meta, member) then Err(BadPrincipal("member"))
    else if turn.Err? then Err(turn.error)
    else
      var p1 := if WantsAutoChoice(p) then AutoGrantPayload(p, choice.value) else p;
      var mode := if p1.council.selectionMode != NoMode then p1.council.selectionMode
                  else if meta.turnMode != NoMode then meta.turnMode else ModeratorDirect;
      if mode == OtherMode then Err(Invalid("selection_mode"))
      else if meta.turnMode != NoMode && mode != meta.turnMode && Blank(p1.reason) then Err(Invalid("reason"))
      else if Blank(stance) then Err(Invalid("stance_assignment"))
      else Ok(Move(SpeakerSelected, Discussion, [member], Some(turn.value),
                   p1.(turn := turn.value, member := member,
                       council := p1.council.(selectionMode := mode, stanceAssignment := Trim(stance)))))
  }

  function DecideSpeak(meta: Metadata, current: Phase, actor: string, p: Payload, turn: Result<int>,
                       granted: bool, posted: bool, verdict: Result<Payload>): Result<Move> {
    if current != Discussion then Err(Conflict("phase"))
    else if !CouncilMember(meta, actor) then Err(BadPrincipal("actor"))
    else if turn.Err? then Err(turn.error)
    else if !granted then Err(Conflict("speaker_selected"))
    else if Blank(p.graph.speech) then Err(Invalid("speech"))
    else if posted then Err(Conflict("visible_delivery_echo"))
    else if verdict.Err? then Err(verdict.error)
    else Ok(Move(Speech, Discussion, Participants(meta, actor), Some(turn.value), verdict.value.(turn := turn.value)))
  }

  function DecideIntervene(meta: Metadata, current: Phase, actor: string, p: Payload): Result<Move> {
    var member := if !Blank(p.member) then p.member else p.to;
    if current != Discussion then Err(Conflict("phase"))
    else if actor != meta.moderator then Err(BadPrincipal("actor"))
    else if !CouncilMember(meta, member) then Err(BadPrincipal("member"))
    else if Blank(p.reason) || Blank(p.message) then Err(Invalid("intervention"))
    else Ok(Move(ModeratorIntervention, Discussion, [member], None, p.(member := member)))
  }

  // ---- Drafts and votes ------------------------------------------------------------------

  function DecidePropose(meta: Metadata, current: Phase, actor: string, p: Payload, latestDraft: int, report: Report): Result<Move> {
    if current != Discussion then Err(Conflict("phase"))
    else if actor != meta.moderator then Err(BadPrincipal("actor"))
    else if Blank(p.council.draft) then Err(Invalid("draft"))
    else if latestDraft != 0 then Err(Conflict("draft_version"))
    else if report.configured && !report.proposeReady then Err(Conflict("discussion_lifecycle"))
    else Ok(Move(DraftRecorded, DraftConclusion, CouncilMembers(meta), None,
                 p.(council := p.council.(draftVersion := 1))))
  }

  function DecideRevise(meta: Metadata, current: Phase, actor: string, p: Payload, latestDraft: int): Result<Move> {
    if current !in {DraftConclusion, ConsensusVote} then Err(Conflict("phase"))
    else if actor != meta.moderator then Err(BadPrincipal("actor"))
    else if latestDraft == 0 then Err(Conflict("draft_version"))
    else if Blank(p.council.draft) || Blank(p.council.revisionReason) then Err(Invalid("revision"))
    else Ok(Move(DraftRecorded, DraftConclusion, CouncilMembers(meta), None,
                 p.(council := p.council.(supersedes := latestDraft, draftVersion := latestDraft + 1))))
  }

  function DecideRequestVote(meta: Metadata, current: Phase, actor: string, p: Payload, latestDraft: int, latestRound: int): Result<Move> {
    if current != DraftConclusion then Err(Conflict("phase"))
    else if actor != meta.moderator then Err(BadPrincipal("actor"))
    else
      var draft := if p.council.draftVersion == 0 then latestDraft else p.council.draftVersion;
      if draft == 0 || draft != latestDraft then Err(Conflict("draft_version"))
      else WithTimeoutCheck(Move(VoteRequested, ConsensusVote, CouncilMembers(meta), None,
                                 p.(council := p.council.(draftVersion := draft, consensusRound := latestRound + 1))))
  }

  function DecideVote(meta: Metadata, current: Phase, actor: string, p: Payload, open: Option<(int, int)>, voted: bool): Result<Move> {
    if current != ConsensusVote then Err(Conflict("phase"))
    else if !CouncilMember(meta, actor) then Err(BadPrincipal("actor"))
    else if open == None then Err(Conflict("consensus_vote_requested"))
    else if p.council.draftVersion != 0 && p.council.draftVersion != open.value.0 then Err(Conflict("draft_version"))
    else if voted then Err(Conflict("vote"))
    else if p.council.vote !in {Approve, ApproveWithConditions, BlockVote, Abstain} then Err(Invalid("vote"))
    else if Blank(p.reason) then Err(Invalid("reason"))
    else Ok(Move(VoteCast, ConsensusVote, [meta.moderator], None,
                 p.(council := p.council.(draftVersion := open.value.0, consensusRound := open.value.1))))
  }

  // ---- Closing ---------------------------------------------------------------------------

  function TurnDiagnostics(turns: seq<int>): (r: seq<CloseoutDiagnostic>)
    ensures |r| == |turns|
  {
    seq(|turns|, i requires 0 <= i < |turns| => MissingDiscussionTurn(turns[i]))
  }

  /** What the lifecycle still lacks at closeout. */
  function LifecycleDiagnostics(report: Report): seq<CloseoutDiagnostic> {
    if !report.configured then []
    else
      (if report.openingId == "" then [MissingOpening] else [])
      + TurnDiagnostics(report.missingTurns)
      + if report.missingCloseouts == [] then [] else [MissingCloseouts(report.missingCloseouts)]
  }

  function SurfaceEvidence(p: Payload): Option<Delivery> {
    if |p.runner.deliveries| > 0 && p.runner.deliveries[0].OneDelivery? then Some(p.runner.deliveries[0].one) else None
  }

  predicate HasSurfaceKey(p: Payload) {
    |p.runner.deliveries| > 0 && !p.runner.deliveries[0].NoDelivery?
  }

  predicate EvidenceWellFormed(meta: Metadata, p: Payload) {
    DiscordThread(meta) && HasSurfaceKey(p) ==>
      SurfaceEvidence(p).Some? && Trim(SurfaceEvidence(p).value.status) in {"posted", "failed", "pending_followup"}
  }

  function StatusDiagnostics(d: Delivery): seq<CloseoutDiagnostic> {
    var status := Trim(d.status);
    if status == "posted" then
      if d.hasMessagePointer then [] else [VisibleCloseout("missing_final_message_id")]
    else if status == "failed" && d.hasFailureReason then [VisibleCloseout("visible_closeout_failed")]
    else if status == "pending_followup" && d.hasFollowupPointer then [VisibleCloseout("visible_closeout_pending_followup")]
    else [VisibleCloseout("missing_visible_closeout_proof")]
  }

  function ThreadDiagnostics(expected: string, observed: string): seq<CloseoutDiagnostic> {
    if expected == "" || observed == expected then []
    else if observed == "" then [VisibleCloseout("missing_thread_binding")]
    else [VisibleCloseout("exact_thread_mismatch")]
  }

  /** What is wrong with the proof that the closeout is visible in the configured thread. */
  function VisibleDiagnostics(meta: Metadata, p: Payload): seq<CloseoutDiagnostic> {
    if !DiscordThread(meta) then []
    else
      match SurfaceEvidence(p)
      case None => [VisibleCloseout("missing_visible_closeout_proof")]
      case Some(d) => StatusDiagnostics(d) + ThreadDiagnostics(Trim(meta.surface.value.threadId), Trim(d.threadId))
  }

  /** Every member has a vote in the round, and none blocks. */
  predicate VotesPass(members: seq<string>, log: Log, draft: int, round: int) {
    forall m :: m in members ==> VoteOf(log, m, draft, round) !in {NoVote, BlockVote}
  }

  function DecideFinalize(meta: Metadata, current: Phase, actor: string, p: Payload, report: Report,
                          open: Option<(int, int)>, votesPass: bool): Result<Move> {
    if current != ConsensusVote then Err(Conflict("phase"))
    else if actor != meta.moderator then Err(BadPrincipal("actor"))
    else if open == None then Err(Conflict("consensus_vote_requested"))
    else if !votesPass then Err(Conflict("vote"))
    else if Blank(p.council.finalSummary) then Err(Invalid("final_summary"))
    else if !EvidenceWellFormed(meta, p) then Err(Invalid("surface_evidence"))
    else if LifecycleDiagnostics(report) + VisibleDiagnostics(meta, p) != [] then Err(Conflict("closeout_diagnostics"))
    else if meta.linkedAuthority && !p.council.linkedResultOk then Err(Invalid("linked_authority_result"))
    else Ok(Move(CouncilFinalized, Finalized, CouncilMembers(meta), None, p))
  }

  function DecideUnresolved(meta: Metadata, current: Phase, actor: string, p: Payload, report: Report, blocked: bool): Result<Move> {
    if current !in {Discussion, DraftConclusion, ConsensusVote} then Err(Conflict("phase"))
    else if actor != meta.moderator then Err(BadPrincipal("actor"))
    else if Blank(p.reason) then Err(Invalid("reason"))
    else if current == ConsensusVote && !blocked && !p.council.hasEvidence then Err(Conflict("evidence"))
    else
      var diagnostics := LifecycleDiagnostics(report) + [MissingSynthesis] + VisibleDiagnostics(meta, p);
      Ok(Move(CouncilUnresolved, Unresolved, CouncilMembers(meta), None,
              p.(council := p.council.(closeout := diagnostics))))
  }

  // ---- The transition --------------------------------------------------------------------

  /** The decision on a request, as a function of the log. */
  function Transition(meta: Metadata, log: Log, spec: CouncilSpec): Result<Move> {
    var current, actor, id, p := LatestPhase(log), ActorOf(meta, spec), CommandIdOf(spec), PayloadOf(spec);
    var turn := RequireTurn(p, CurrentTurn(log));
    var turnOr0 := if turn.Ok? then turn.value else 0;
    if Terminal(current) then Err(Conflict("phase"))
    else
      match spec.action
      case RequestAttendance => DecideRequestAttendance(meta, current, actor, p)
      case Attend => DecideAttend(meta, current, actor, p)
      case LockAgenda => DecideLockAgenda(meta, current, actor, p)
      case Prepare => DecidePrepare(meta, current, actor, p, MayPrepare(meta, log))
      case Ready => DecideReady(meta, current, actor, p)
      case ReadyPartially => DecideReadyPartially(meta, current, actor, p)
      case Poll => DecidePoll(meta, current, actor, p, id, spec.now, CurrentTurn(log))
      case RaiseHand =>
        DecideRaise(meta, current, actor, p, turn, SameCommandType(log, id, HandRaise),
                    WindowAccepts(log, turnOr0, spec.now), ResponseConflict(log, id, actor, turnOr0, HandRaise),
                    ParseLinks(log, p.graph.targetLinks, false))
      case DropHand =>
        DecideDrop(meta, current, actor, p, turn,
                   EventByIdAndType(log, Trim(p.window.requestEventId), HandRaiseRequested),
                   SameCommandType(log, id, HandRaiseDropped), WindowAccepts(log, turnOr0, spec.now),
                   ResponseConflict(log, id, DropMember(actor, p), turnOr0, HandRaiseDropped))
      case Grant =>
        var choice := AutoChoice(meta, log);
        DecideGrant(meta, current, actor, p, turn, choice, RaiseStance(log, GrantMember(p, choice), turnOr0))
      case Speak =>
        DecideSpeak(meta, current, actor, p, turn, Granted(log, actor, turnOr0), AlreadyPosted(log, actor, turnOr0),
                    SpeechVerdict(meta, log, actor, turnOr0, p))
      case Intervene => DecideIntervene(meta, current, actor, p)
      case Propose => DecidePropose(meta, current, actor, p, LatestDraft(log), LifecycleOf(meta, log))
      case Revise => DecideRevise(meta, current, actor, p, LatestDraft(log))
      case RequestVote => DecideRequestVote(meta, current, actor, p, LatestDraft(log), LatestRound(log))
      case CastVote =>
        var open := OpenVote(log);
        DecideVote(meta, current, actor, p, open, open.Some? && Voted(log, actor, open.value.0, open.value.1))
      case Finalize =>
        var open := OpenVote(log);
        DecideFinalize(meta, current, actor, p, LifecycleOf(meta, log), open,
                       open.Some? && VotesPass(CouncilMembers(meta), log, open.value.0, open.value.1))
      case DeclareUnresolved => DecideUnresolved(meta, current, actor, p, LifecycleOf(meta, log), HasBlockVote(log))
      case UnknownAction => Err(Invalid("action"))
  }

  /** The event envelope around a move. */
  function EventOf(meta: Metadata, spec: CouncilSpec, move: Move): Event {
    Event(EventIdFor(IdPrefix(move.typ), CommandIdOf(spec)), CommandIdOf(spec), CausationOf(spec), move.turn,
          move.phase, move.typ, ActorOf(meta, spec), move.to, spec.now, None, CostOmitted, move.payload)
  }

  function BuildEvent(meta: Metadata, log: Log, spec: CouncilSpec): Result<Event> {
    match Transition(meta, log, spec)
    case Err(error) => Err(error)
    case Ok(move) =>
      if CausationOf(spec) != "" && !HasId(log, CausationOf(spec)) then Err(Invalid("causation_event_id"))
      else Ok(EventOf(meta, spec, move))
  }

  /** The whole effect of a council command. */
  function RecordCouncil(meta: Metadata, log: Log, spec: CouncilSpec, foreign: set<string>): Outcome {
    match BuildEvent(meta, log, spec)
    case Err(error) => Outcome(log, Err(error))
    case Ok(e) => AppendIdempotent(meta, log, e, foreign)
  }

  method CheckVotes(meta: Metadata, log: Log, open: Option<(int, int)>) returns (pass: bool)
    ensures pass == (open.Some? && VotesPass(CouncilMembers(meta), log, open.value.0, open.value.1))
  {
    if open == None {
      return false;
    }
    var votes := TallyVotes(log, open.value.0, open.value.1);
    var members := CouncilMembers(meta);
    for i := 0 to |members|
      invariant VotesPass(members[..i], log, open.value.0, open.value.1)
    {
      var vote := if members[i] in votes then votes[members[i]] else NoVote;
      assert vote == VoteOf(log, members[i], open.value.0, open.value.1);
      if vote == NoVote || vote == BlockVote {
        assert members[i] in members;
        return false;
      }
      assert members[..i + 1] == members[..i] + [members[i]];
    }
    assert members[..|members|] == members;
    return true;
  }

  method RaiseTransition(meta: Metadata, log: Log, spec: CouncilSpec, actor: string, p: Payload, turn: Result<int>)
    returns (r: Result<Move>)
    requires spec.action == RaiseHand && !Terminal(LatestPhase(log))
    requires actor == ActorOf(meta, spec) && p == PayloadOf(spec) && turn == RequireTurn(p, CurrentTurn(log))
    ensures r == Transition(meta, log, spec)
  {
    var id, turnOr0 := CommandIdOf(spec), if turn.Ok? then turn.value else 0;
    var retry := ScanSameCommandType(log, id, HandRaise);
    var accepts := CheckWindowAccepts(log, turnOr0, spec.now);
    var conflict := ScanResponseConflict(log, id, actor, turnOr0, HandRaise);
    var links := ParseArgumentTargetLinks(log, p.graph.targetLinks, false);
    return DecideRaise(meta, LatestPhase(log), actor, p, turn, retry, accepts, conflict, links);
  }

  method DropTransition(meta: Metadata, log: Log, spec: CouncilSpec, actor: string, p: Payload, turn: Result<int>)
    returns (r: Result<Move>)
    requires spec.action == DropHand && !Terminal(LatestPhase(log))
    requires actor == ActorOf(meta, spec) && p == PayloadOf(spec) && turn == RequireTurn(p, CurrentTurn(log))
    ensures r == Transition(meta, log, spec)
  {
    var id, turnOr0 := CommandIdOf(spec), if turn.Ok? then turn.value else 0;
    var request := EventByIdAndType(log, Trim(p.window.requestEventId), HandRaiseRequested);
    var retry := ScanSameCommandType(log, id, HandRaiseDropped);
    var accepts := CheckWindowAccepts(log, turnOr0, spec.now);
    var conflict := ScanResponseConflict(log, id, DropMember(actor, p), turnOr0, HandRaiseDropped);
    return DecideDrop(meta, LatestPhase(log), actor, p, turn, request, retry, accepts, conflict);
  }

  method CheckWindowAccepts(log: Log, turn: int, now: int) returns (ok: bool)
    ensures ok == WindowAccepts(log, turn, now)
  {
    var window := ScanLatestWindow(log, turn);
    if turn <= 0 || window == None {
      return true;
    }
    if now > window.value.deadline {
      return false;
    }
    var report := AccountWindow([], log, now, turn);
    return report.state == WindowOpen;
  }

  method SpeakTransition(meta: Metadata, log: Log, spec: CouncilSpec, actor: string, p: Payload, turn: Result<int>)
    returns (r: Result<Move>)
    requires spec.action == Speak && !Terminal(LatestPhase(log))
    requires actor == ActorOf(meta, spec) && p == PayloadOf(spec) && turn == RequireTurn(p, CurrentTurn(log))
    ensures r == Transition(meta, log, spec)
  {
    var turnOr0 := if turn.Ok? then turn.value else 0;
    var granted := ScanGranted(log, actor, turnOr0);
    var posted := ScanAlreadyPosted(log, actor, turnOr0);
    var verdict := ValidateSpeech(meta, log, actor, turnOr0, p);
    return DecideSpeak(meta, LatestPhase(log), actor, p, turn, granted, posted, verdict);
  }

  method CouncilTransition(meta: Metadata, log: Log, spec: CouncilSpec) returns (r: Result<Move>)
    ensures r == Transition(meta, log, spec)
  {
    var current, actor, p := LatestPhase(log), ActorOf(meta, spec), PayloadOf(spec);
    if Terminal(current) {
      return Err(Conflict("phase"));
    }
    var currentTurn := ScanCurrentTurn(log);
    var turn := RequireTurn(p, currentTurn);
    match spec.action {
      case RequestAttendance => r := DecideRequestAttendance(meta, current, actor, p);
      case Attend => r := DecideAttend(meta, current, actor, p);
      case LockAgenda => r := DecideLockAgenda(meta, current, actor, p);
      case Prepare =>
        var mayPrepare := CheckAttendance(meta, log);
        r := DecidePrepare(meta, current, actor, p, mayPrepare);
      case Ready => r := DecideReady(meta, current, actor, p);
      case ReadyPartially => r := DecideReadyPartially(meta, current, actor, p);
      case Poll => r := DecidePoll(meta, current, actor, p, CommandIdOf(spec), spec.now, currentTurn);
      case RaiseHand => r := RaiseTransition(meta, log, spec, actor, p, turn);
      case DropHand => r := DropTransition(meta, log, spec, actor, p, turn);
      case Grant =>
        var choice := AutoCouncilSpeaker(meta, log);
        var stance := ScanRaiseStance(log, GrantMember(p, choice), if turn.Ok? then turn.value else 0);
        r := DecideGrant(meta, current, actor, p, turn, choice, stance);
      case Speak => r := SpeakTransition(meta, log, spec, actor, p, turn);
      case Intervene => r := DecideIntervene(meta, current, actor, p);
      case Propose =>
        var draft := ScanLatestDraft(log);
        var report := DiscussionLifecycle(meta, log);
        r := DecidePropose(meta, current, actor, p, draft, report);
      case Revise =>
        var draft := ScanLatestDraft(log);
        r := DecideRevise(meta, current, actor, p, draft);
      case RequestVote =>
        var draft := ScanLatestDraft(log);
        var round := ScanLatestRound(log);
        r := DecideRequestVote(meta, current, actor, p, draft, round);
      case CastVote =>
        var open := ScanOpenVote(log);
        var voted := false;
        if open.Some? {
          voted := ScanVoted(log, actor, open.value.0, open.value.1);
        }
        r := DecideVote(meta, current, actor, p, open, voted);
      case Finalize =>
        var report := DiscussionLifecycle(meta, log);
        var open := ScanOpenVote(log);
        var pass := CheckVotes(meta, log, open);
        r := DecideFinalize(meta, current, actor, p, report, open, pass);
      case DeclareUnresolved =>
        var report := DiscussionLifecycle(meta, log);
        var blocked := ScanBlockVote(log);
        r := DecideUnresolved(meta, current, actor, p, report, blocked);
      case UnknownAction => r := Err(Invalid("action"));
    }
  }

  method RecordCouncilEvent(s: Session, spec: CouncilSpec, foreign: set<string>) returns (r: Result<Receipt>)
    requires s.Valid()
    modifies s
    ensures s.Valid()
    ensures Outcome(s.events, r) == RecordCouncil(s.meta, old(s.events), spec, foreign)
  {
    var move := CouncilTransition(s.meta, s.events, spec);
    if move.Err? {
      return Err(move.error);
    }
    if CausationOf(spec) != "" {
      var cause := s.FindById(CausationOf(spec));
      if cause == None {
        return Err(Invalid("causation_event_id"));
      }
    }
    r := s.AppendIdempotentEvent(EventOf(s.meta, spec, move.value), foreign);
  }

  // ---- Response-window timeout -----------------------------------------------------------

  function TimeoutCommandId(meta: Metadata, turn: int, member: string): string {
    "cmd_response_window_timeout_" + meta.id + "_" + IntText(turn) + "_" + member
  }

  /** The drop that the daemon records for a member who did not answer in time. */
  function TimeoutDrop(meta: Metadata, turn: int, member: string, window: Window, now: int): CouncilSpec {
    CouncilSpec(DropHand, DAEMON, TimeoutCommandId(meta, turn, member), "", "",
      EMPTY_PAYLOAD.(turn := turn, member := member, reason := "response window timeout",
        window := EMPTY_PAYLOAD.window.(requestEventId := window.eventId, windowId := window.id, auto := true)), now)
  }

  /** Drops every listed member in turn, stopping at the first refusal. */
  function DropAll(meta: Metadata, log: Log, turn: int, members: seq<string>, window: Window, now: int, foreign: set<string>):
      (Log, Result<nat>)
    decreases |members|
  {
    hide RecordCouncil;
    if members == [] then (log, Ok(0))
    else
      var outcome := RecordCouncil(meta, log, TimeoutDrop(meta, turn, members[0], window, now), foreign);
      match outcome.result
      case Err(error) => (outcome.log, Err(error))
      case Ok(_) =>
        var (rest, count) := DropAll(meta, outcome.log, turn, members[1..], window, now, foreign);
        (rest, if count.Ok? then Ok(count.value + 1) else count)
  }

  function WindowTimeout(meta: Metadata, log: Log, turn: int, now: int, foreign: set<string>): (Log, Result<nat>) {
    var window := LatestWindow(log, turn);
    if turn <= 0 then (log, Err(Invalid("turn")))
    else if window == None || now < window.value.deadline then (log, Err(Conflict("response_window")))
    else
      var missing := WindowAccounting(CouncilMembers(meta), log, now, turn).missing;
      DropAll(meta, log, turn, missing, window.value, now, foreign)
  }

  lemma {:induction false} DropAllStep(meta: Metadata, log: Log, turn: int, members: seq<string>, window: Window,
                                       now: int, foreign: set<string>, n: nat)
    requires n < |members| && DropAll(meta, log, turn, members[..n], window, now, foreign).1.Ok?
    ensures var before := DropAll(meta, log, turn, members[..n], window, now, foreign);
            var outcome := RecordCouncil(meta, before.0, TimeoutDrop(meta, turn, members[n], window, now), foreign);
            if outcome.result.Ok?
            then DropAll(meta, log, turn, members[..n + 1], window, now, foreign) == (outcome.log, Ok(before.1.value + 1))
            else DropAll(meta, log, turn, members, window, now, foreign) == (outcome.log, Err(outcome.result.error))
    decreases |members|
  {
    hide RecordCouncil;
    if n == 0 {
      assert members[..1] == [members[0]];
    } else {
      var first := RecordCouncil(meta, log, TimeoutDrop(meta, turn, members[0], window, now), foreign);
      assert members[..n][0] == members[0] && members[..n][1..] == members[1..][..n - 1];
      assert members[..n + 1][0] == members[0] && members[..n + 1][1..] == members[1..][..n];
      DropAllStep(meta, first.log, turn, members[1..], window, now, foreign, n - 1);
    }
  }

  /** The sweep of one turn: one drop command after another, each reading the log afresh. */
  method RecordWindowTimeout(s: Session, turn: int, now: int, foreign: set<string>) returns (r: Result<nat>)
    requires s.Valid()
    modifies s
    ensures s.Valid()
    ensures (s.events, r) == WindowTimeout(s.meta, old(s.events), turn, now, foreign)
  {
    hide RecordCouncil, TimeoutDrop;
    if turn <= 0 {
      return Err(Invalid("turn"));
    }
    var window := ScanLatestWindow(s.events, turn);
    if window == None || now < window.value.deadline {
      return Err(Conflict("response_window"));
    }
    var report := AccountWindow(CouncilMembers(s.meta), s.events, now, turn);
    var missing, count := report.missing, 0;
    hide LatestWindow, WindowAccounting;
    for i := 0 to |missing|
      invariant s.Valid() && count >= 0
      invariant DropAll(s.meta, old(s.events), turn, missing[..i], window.value, now, foreign) == (s.events, Ok(count))
    {
      DropAllStep(s.meta, old(s.events), turn, missing, window.value, now, foreign, i);
      var dropped := RecordCouncilEvent(s, TimeoutDrop(s.meta, turn, missing[i], window.value, now), foreign);
      if dropped.Err? {
        return Err(dropped.error);
      }
      count := count + 1;
    }
    assert missing[..|missing|] == missing;
    return Ok(count);
  }
}
