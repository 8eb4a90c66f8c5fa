/** A two-person council and the requests of one of its sessions, from the preparation to the
    finalization. What each request records is worked out from what its decision looks at. */
module CouncilScript {
  import opened Prelude
  import opened Text
  import opened Events
  import opened Channel
  import opened Scans
  import opened Lifecycle
  import opened ArgumentGraph
  import opened AutoSpeaker
  import opened Council
  import opened ShortIds

  function Required(): Quality {
    Quality(QualityRequired, 1, false, false, true, 1)
  }

  /** Moderator and one member, one discussion turn, no surface to deliver to. */
  function Duo(): Metadata {
    Metadata("s", CouncilSession, "mod", ["mod", "amy"], None, NoMode, 1, Some(Required()), false)
  }

  function Ask(action: Action, actor: string, c: char, payload: Payload): CouncilSpec {
    CouncilSpec(action, actor, [c], "", "", payload, 0)
  }

  /** The log after one more request. */
  function Then(log: Log, spec: CouncilSpec): Log {
    RecordCouncil(Duo(), log, spec, {}).log
  }

  lemma DuoParts()
    ensures CouncilMembers(Duo()) == ["amy"] && CouncilMember(Duo(), "amy") && Participants(Duo(), "amy") == ["mod"]
    ensures Duo().moderator == "mod" && Duo().kind == CouncilSession && Duo().turnMode == NoMode && Duo().surface == None
    ensures Configured(Duo()) && Duo().maxDiscussionTurns == 1 && !Duo().linkedAuthority
    ensures ResolvePolicy(Duo()) == Ok(Required()) && Required().mode == QualityRequired && Required().openingUnlinkedTurns == 1
    ensures PrincipalAllowed(Duo(), "mod", true) && PrincipalAllowed(Duo(), "amy", true)
    ensures ValidRecipients(Duo(), ["mod"]) && ValidRecipients(Duo(), ["amy"])
  {
    var all := ["mod", "amy"];
    assert all[1..] == ["amy"] && ["amy"][1..] == [];
    assert Members([], "mod") == [] == Members([], "amy");
    assert "amy" in ["amy"] && all[0] == "mod" && all[1] == "amy";
    SortsOne("mod");
  }

  lemma Words()
    ensures Trim("") == "" && Trim("mod") == "mod" && Trim("amy") == "amy" && Trim("cost") == "cost" && Trim("yes") == "yes"
  {
    TrimFixed("mod");
    TrimFixed("amy");
    TrimFixed("cost");
    TrimFixed("yes");
  }

  lemma AskParts(action: Action, actor: string, c: char, payload: Payload)
    requires actor in {"mod", "amy"} && IdChar(c) && payload.council.closeout == [] && action != DropHand
    ensures var spec := Ask(action, actor, c, payload);
            && ActorOf(Duo(), spec) == actor && CommandIdOf(spec) == [c] && PayloadOf(spec) == payload && CausationOf(spec) == ""
            && spec.action == action && spec.now == 0
  {
    Words();
    LetterTrims(c);
    hide Trim;
  }

  /** The types of the events that the script writes. */
  predicate Scripted(typ: EventType) {
    typ in {PreparationRequested, HandRaiseRequested, HandRaise, SpeakerSelected, Speech, DraftRecorded, VoteRequested, VoteCast,
            CouncilFinalized}
  }

  lemma PrefixStarts(typ: EventType)
    requires Scripted(typ)
    ensures IdPrefix(typ) != "" && IdPrefix(typ)[0] == 'e'
  {
  }

  lemma EnvelopeOk(actor: string, c: char, spec: CouncilSpec, move: Council.Move)
    requires ActorOf(Duo(), spec) == actor && CommandIdOf(spec) == [c] && actor in {"mod", "amy"}
    requires move.to in {["mod"], ["amy"]} && ValidPhase(CouncilSession, move.phase) && Scripted(move.typ)
    ensures ValidEnvelope(Duo(), EventOf(Duo(), spec, move))
  {
    hide Trim, CommandIdOf, ActorOf, IdPrefix, CleanId, PrincipalAllowed, ValidRecipients, Duo, ValidPhase;
    DuoParts();
    PrefixStarts(move.typ);
    var e := EventOf(Duo(), spec, move);
    assert e.id[0] == 'e';
    NotBlank(e.id);
  }

  /** What an event keeps of the move it records. */
  predicate Carries(e: Event, actor: string, move: Council.Move) {
    && e.typ == move.typ && e.phase == move.phase && e.turn == move.turn && e.from == actor && e.to == move.to && e.runner == None
    && Trim(e.id) == e.id != "" && e.createdAt == 0 && e.payload.turn == move.payload.turn && e.payload.member == move.payload.member
    && e.payload.reason == move.payload.reason && e.payload.council == move.payload.council
    && e.payload.window == move.payload.window && e.payload.graph == move.payload.graph && e.payload.runner == move.payload.runner
  }

  /** One event more, and it records the move. */
  ghost predicate Adds(log: Log, longer: Log, actor: string, move: Council.Move) {
    |longer| == |log| + 1 && log <= longer && Carries(longer[|log|], actor, move)
  }

  /** An accepted request under a new letter adds its event. */
  lemma Accepted(log: Log, letters: string, action: Action, actor: string, c: char, payload: Payload, move: Council.Move)
    requires Lettered(log, letters) && c !in letters && IdChar(c)
    requires actor in {"mod", "amy"} && payload.council.closeout == [] && action != DropHand
    requires Transition(Duo(), log, Ask(action, actor, c, payload)) == Ok(move)
    requires move.to in {["mod"], ["amy"]} && ValidPhase(CouncilSession, move.phase) && Scripted(move.typ)
    ensures Adds(log, Then(log, Ask(action, actor, c, payload)), actor, move)
    ensures Lettered(Then(log, Ask(action, actor, c, payload)), letters + [c])
  {
    hide Trim, EventIdFor, Transition, ValidEnvelope, AppendIdempotent, Lettered, ActorOf, CommandIdOf, CausationOf, PayloadOf, Duo,
      ValidPhase, Stored, Carries, FirstWithCommand, HasId, Ask;
    var spec := Ask(action, actor, c, payload);
    AskParts(action, actor, c, payload);
    EnvelopeOk(actor, c, spec, move);
    var e := EventOf(Duo(), spec, move);
    NewLetterRecorded(Duo(), log, letters, c, IdPrefix(move.typ), e);
    StoredCarries(log, spec, actor, c, move);
  }

  lemma IdIsTrimmed(typ: EventType, c: char)
    requires IdChar(c) && Scripted(typ)
    ensures var id := EventIdFor(IdPrefix(typ), [c]);
            Trim(id) == id != ""
  {
    hide IdPrefix, Trim;
    PrefixStarts(typ);
    IdEnds(IdPrefix(typ), c);
    TrimFixed(EventIdFor(IdPrefix(typ), [c]));
  }

  lemma StoredCarries(log: Log, spec: CouncilSpec, actor: string, c: char, move: Council.Move)
    requires ActorOf(Duo(), spec) == actor && move.to in {["mod"], ["amy"]} && spec.now == 0 && CommandIdOf(spec) == [c] && IdChar(c)
    requires Scripted(move.typ)
    ensures Carries(Stored(Duo(), log, EventOf(Duo(), spec, move)), actor, move)
  {
    hide Trim, EventIdFor, IdPrefix, ActorOf, CommandIdOf, CausationOf, RuntimeRows, CouncilMembers, Duo, SortStrings;
    IdIsTrimmed(move.typ, c);
    SortsOne("mod");
    SortsOne("amy");
  }

  // ---- One turn --------------------------------------------------------------------------

  function PollPayload(t: int): Payload {
    EMPTY_PAYLOAD.(turn := t)
  }

  function RaisePayload(t: int, relevance: int): Payload {
    EMPTY_PAYLOAD.(turn := t, reason := "cost", window := EMPTY_PAYLOAD.window.(relevance := relevance))
  }

  function GrantPayload(t: int): Payload {
    EMPTY_PAYLOAD.(turn := t, member := "amy")
  }

  function PollMove(c: char, t: int): Council.Move {
    Council.Move(HandRaiseRequested, Discussion, ["amy"], Some(t),
                 PollPayload(t).(window := EMPTY_PAYLOAD.window.(
                   windowId := WindowId(Duo(), t, EventIdFor(IdPrefix(HandRaiseRequested), [c])), durationSec := DEFAULT_WINDOW_SEC,
                   openedAt := Some(0), deadlineAt := Some(DEFAULT_WINDOW_SEC * SECOND), required := ["amy"])))
  }

  function RaiseMove(t: int, relevance: int): Council.Move {
    Council.Move(HandRaise, Discussion, ["mod"], Some(t),
                 RaisePayload(t, relevance).(window := RaisePayload(t, relevance).window.(wantsToSpeak := Some(true))))
  }

  function GrantMove(t: int): Council.Move {
    Council.Move(SpeakerSelected, Discussion, ["amy"], Some(t),
                 GrantPayload(t).(council := EMPTY_PAYLOAD.council.(selectionMode := ModeratorDirect, stanceAssignment := "cost")))
  }

  function SpeakMove(t: int, speech: Payload): Council.Move {
    Council.Move(Speech, Discussion, ["mod"], Some(t), speech)
  }

  // What each decision looks at.

  lemma PollIsDecided(meta: Metadata, log: Log, spec: CouncilSpec)
    requires spec.action == Poll && !Terminal(LatestPhase(log))
    ensures Transition(meta, log, spec)
            == DecidePoll(meta, LatestPhase(log), ActorOf(meta, spec), PayloadOf(spec), CommandIdOf(spec), spec.now, CurrentTurn(log))
  {
    hide ActorOf, CommandIdOf, PayloadOf, CurrentTurn, LatestPhase, DecidePoll;
  }

  lemma RaiseIsDecided(meta: Metadata, log: Log, spec: CouncilSpec)
    requires spec.action == RaiseHand && !Terminal(LatestPhase(log)) && PayloadOf(spec).turn > 0
    ensures var p, actor, id := PayloadOf(spec), ActorOf(meta, spec), CommandIdOf(spec);
            Transition(meta, log, spec)
            == DecideRaise(meta, LatestPhase(log), actor, p, Ok(p.turn), SameCommandType(log, id, HandRaise),
                           WindowAccepts(log, p.turn, spec.now), ResponseConflict(log, id, actor, p.turn, HandRaise),
                           ParseLinks(log, p.graph.targetLinks, false))
  {
    hide ActorOf, CommandIdOf, PayloadOf, CurrentTurn, LatestPhase, DecideRaise, WindowAccepts, ResponseConflict, SameCommandType, ParseLinks;
  }

  lemma GrantIsDecided(meta: Metadata, log: Log, spec: CouncilSpec)
    requires spec.action == Grant && !Terminal(LatestPhase(log)) && PayloadOf(spec).turn > 0
    ensures var p, actor, choice := PayloadOf(spec), ActorOf(meta, spec), AutoChoice(meta, log);
            Transition(meta, log, spec)
            == DecideGrant(meta, LatestPhase(log), actor, p, Ok(p.turn), choice, RaiseStance(log, GrantMember(p, choice), p.turn))
  {
    hide ActorOf, CommandIdOf, PayloadOf, CurrentTurn, LatestPhase, DecideGrant, AutoChoice, GrantMember, RaiseStance;
  }

  lemma SpeakIsDecided(meta: Metadata, log: Log, spec: CouncilSpec)
    requires spec.action == Speak && !Terminal(LatestPhase(log)) && PayloadOf(spec).turn > 0
    ensures var p, actor := PayloadOf(spec), ActorOf(meta, spec);
            Transition(meta, log, spec)
            == DecideSpeak(meta, LatestPhase(log), actor, p, Ok(p.turn), Granted(log, actor, p.turn), AlreadyPosted(log, actor, p.turn),
                           SpeechVerdict(meta, log, actor, p.turn, p))
  {
    hide ActorOf, CommandIdOf, PayloadOf, CurrentTurn, LatestPhase, DecideSpeak, Granted, AlreadyPosted, SpeechVerdict;
  }

  lemma PollDecision(c: char, t: int, current: Phase, currentTurn: int)
    requires current in {Preparation, Discussion} && t > 0
    ensures DecidePoll(Duo(), current, "mod", PollPayload(t), [c], 0, currentTurn) == Ok(PollMove(c, t))
  {
    DuoParts();
    hide CouncilMembers, Duo, EventIdFor, WindowId;
  }

  lemma PollAccepted(log: Log, c: char, t: int)
    requires LatestPhase(log) in {Preparation, Discussion} && t > 0 && IdChar(c)
    ensures Transition(Duo(), log, Ask(Poll, "mod", c, PollPayload(t))) == Ok(PollMove(c, t))
  {
    hide Trim, ActorOf, CommandIdOf, PayloadOf, Duo, CurrentTurn, LatestPhase, Ask, Transition, DecidePoll, PollMove;
    AskParts(Poll, "mod", c, PollPayload(t));
    PollDecision(c, t, LatestPhase(log), CurrentTurn(log));
    PollIsDecided(Duo(), log, Ask(Poll, "mod", c, PollPayload(t)));
  }

  lemma {:induction false} SilentLog(log: Log, t: int)
    requires forall i :: 0 <= i < |log| ==> !IsResponse(log[i], t)
    ensures Responders(log, t) == {}
  {
    hide IsResponse, Responder;
    if log != [] {
      assert !IsResponse(log[|log| - 1], t);
      SilentLog(log[..|log| - 1], t);
    }
  }

  /** Nobody drops out and nothing is said by a runner. */
  ghost predicate Plain(log: Log) {
    forall i :: 0 <= i < |log| ==> log[i].typ != HandRaiseDropped && log[i].runner == None
  }

  lemma WindowOpensFor(log: Log, c: char, t: int)
    requires log != [] && Carries(log[|log| - 1], "mod", PollMove(c, t)) && t > 0
    requires forall i :: 0 <= i < |log| ==> !IsResponse(log[i], t)
    ensures WindowAccepts(log, t, 0)
  {
    hide EventIdFor, WindowId, Responders, AutoDrops, Duo;
    SilentLog(log, t);
    assert LatestWindow(log, t) == Some(WindowOf(log[|log| - 1]));
    assert ["amy"][1..] == [];
    assert MissingFrom(["amy"], {}) == ["amy"];
  }

  /** Only drops stand in the way of a raise. */
  lemma NoConflict(log: Log, commandId: string, t: int)
    requires Plain(log)
    ensures !ResponseConflict(log, commandId, "amy", t, HandRaise)
  {
    hide Trim;
  }

  lemma RaiseDecision(t: int, relevance: int, retry: bool, accepts: bool)
    requires retry || accepts
    ensures DecideRaise(Duo(), Discussion, "amy", RaisePayload(t, relevance), Ok(t), retry, accepts, false, Ok([])) == Ok(RaiseMove(t, relevance))
  {
    DuoParts();
    hide Duo, CouncilMember;
  }

  lemma RaiseAccepted(log: Log, c: char, t: int, relevance: int)
    requires LatestPhase(log) == Discussion && t > 0 && IdChar(c) && WindowAccepts(log, t, 0) && Plain(log)
    ensures Transition(Duo(), log, Ask(RaiseHand, "amy", c, RaisePayload(t, relevance))) == Ok(RaiseMove(t, relevance))
  {
    hide Trim, ActorOf, CommandIdOf, PayloadOf, Duo, WindowAccepts, ResponseConflict, SameCommandType, CurrentTurn,
      LatestPhase, Ask, Plain, Transition, DecideRaise, RaiseMove;
    AskParts(RaiseHand, "amy", c, RaisePayload(t, relevance));
    NoConflict(log, [c], t);
    RaiseDecision(t, relevance, SameCommandType(log, [c], HandRaise), true);
    RaiseIsDecided(Duo(), log, Ask(RaiseHand, "amy", c, RaisePayload(t, relevance)));
  }

  lemma GrantNamesAmy(t: int, choice: Result<Choice>)
    ensures !WantsAutoChoice(GrantPayload(t)) && GrantMember(GrantPayload(t), choice) == "amy"
  {
    Words();
    hide Trim;
  }

  lemma GrantDecision(t: int, choice: Result<Choice>)
    ensures DecideGrant(Duo(), Discussion, "mod", GrantPayload(t), Ok(t), choice, "cost") == Ok(GrantMove(t))
  {
    hide Trim, Duo, CouncilMember, AutoGrantPayload, GrantMember, WantsAutoChoice;
    Words();
    DuoParts();
    GrantNamesAmy(t, choice);
  }

  lemma GrantAccepted(log: Log, c: char, t: int)
    requires LatestPhase(log) == Discussion && t > 0 && IdChar(c) && RaiseStance(log, "amy", t) == "cost"
    ensures Transition(Duo(), log, Ask(Grant, "mod", c, GrantPayload(t))) == Ok(GrantMove(t))
  {
    hide Trim, ActorOf, CommandIdOf, PayloadOf, Duo, CurrentTurn, LatestPhase, Ask, RaiseStance, AutoChoice, GrantMember,
      Transition, DecideGrant, GrantMove;
    AskParts(Grant, "mod", c, GrantPayload(t));
    GrantNamesAmy(t, AutoChoice(Duo(), log));
    GrantDecision(t, AutoChoice(Duo(), log));
    GrantIsDecided(Duo(), log, Ask(Grant, "mod", c, GrantPayload(t)));
  }

  lemma StanceIsCost(log: Log, t: int, relevance: int)
    requires log != [] && Carries(log[|log| - 1], "amy", RaiseMove(t, relevance))
    ensures RaiseStance(log, "amy", t) == "cost"
  {
    Words();
    hide Trim;
  }

  /** A speech by the member that the council's rules accept as it stands. */
  ghost predicate Speakable(speech: Payload, t: int, speeches: nat, newAxisRun: nat) {
    && speech.turn == t > 0 && speech.council.closeout == [] && !Blank(speech.graph.speech)
    && speech.graph.stanceLinks == Absent
    && forall grant: Event :: grant.payload.graph == EMPTY_PAYLOAD.graph ==>
         JudgeSpeech(Required(), Ok([]), speeches, newAxisRun, Some(grant), speech) == Ok(speech)
  }

  lemma NoneAlreadyPosted(log: Log, t: int)
    requires Plain(log)
    ensures !AlreadyPosted(log, "amy", t)
  {
    hide Trim;
  }

  lemma VerdictIs(log: Log, t: int, speech: Payload)
    requires Speakable(speech, t, PriorSpeeches(log), ConsecutiveNewAxis(log))
    requires SelectionOf(log, t, "amy").Some? && SelectionOf(log, t, "amy").value.payload.graph == EMPTY_PAYLOAD.graph
    ensures SpeechVerdict(Duo(), log, "amy", t, speech) == Ok(speech)
  {
    DuoParts();
    hide Duo, PriorSpeeches, ConsecutiveNewAxis, SelectionOf, JudgeSpeech, Trim, Required, ResolvePolicy;
  }

  lemma SpeakDecision(t: int, speech: Payload)
    requires speech.turn == t && !Blank(speech.graph.speech)
    ensures DecideSpeak(Duo(), Discussion, "amy", speech, Ok(t), true, false, Ok(speech)) == Ok(SpeakMove(t, speech))
  {
    DuoParts();
    hide Trim, Duo, CouncilMember, Participants;
  }

  lemma SpeakAccepted(log: Log, c: char, t: int, speech: Payload)
    requires LatestPhase(log) == Discussion && IdChar(c) && Plain(log) && Granted(log, "amy", t)
    requires Speakable(speech, t, PriorSpeeches(log), ConsecutiveNewAxis(log))
    requires SelectionOf(log, t, "amy").Some? && SelectionOf(log, t, "amy").value.payload.graph == EMPTY_PAYLOAD.graph
    ensures Transition(Duo(), log, Ask(Speak, "amy", c, speech)) == Ok(SpeakMove(t, speech))
  {
    assert speech.turn == t > 0 && !Blank(speech.graph.speech) && speech.council.closeout == [];
    hide Trim, ActorOf, CommandIdOf, PayloadOf, Duo, CurrentTurn, LatestPhase, Ask, SpeechVerdict, Granted, AlreadyPosted,
      Plain, Speakable, PriorSpeeches, ConsecutiveNewAxis, SelectionOf, Transition, DecideSpeak, SpeakMove;
    AskParts(Speak, "amy", c, speech);
    VerdictIs(log, t, speech);
    NoneAlreadyPosted(log, t);
    SpeakDecision(t, speech);
    SpeakIsDecided(Duo(), log, Ask(Speak, "amy", c, speech));
  }

  lemma GrantIsSelection(log: Log, t: int)
    requires log != [] && Carries(log[|log| - 1], "mod", GrantMove(t))
    ensures Granted(log, "amy", t) && SelectionOf(log, t, "amy") == Some(log[|log| - 1])
    ensures SelectionOf(log, t, "amy").value.payload.graph == EMPTY_PAYLOAD.graph
  {
    assert IsGrant(log[|log| - 1], "amy", t);
  }

  /** A log of the script: one-letter ids, plain, with so many speeches and no new axis. */
  ghost predicate StandsAt(log: Log, letters: string, phase: Phase, speeches: nat) {
    && Lettered(log, letters) && Plain(log) && LatestPhase(log) == phase
    && PriorSpeeches(log) == speeches && ConsecutiveNewAxis(log) == 0
  }

  lemma AddsStands(log: Log, longer: Log, letters: string, c: char, actor: string, move: Council.Move, phase: Phase, speeches: nat)
    requires StandsAt(log, letters, phase, speeches) && Adds(log, longer, actor, move) && Lettered(longer, letters + [c])
    requires move.typ != HandRaiseDropped && move.payload.graph.contribution != Present(NEW_AXIS)
    ensures StandsAt(longer, letters + [c], move.phase, speeches + if move.typ == Speech then 1 else 0)
  {
    hide Lettered;
    assert longer[..|longer| - 1] == log;
  }

  /** The four requests of one turn: the poll, the raise, the grant and the speech. */
  function PollSpec(c: char, t: int): CouncilSpec {
    Ask(Poll, "mod", c, PollPayload(t))
  }

  function RaiseSpec(c: char, t: int, relevance: int): CouncilSpec {
    Ask(RaiseHand, "amy", c, RaisePayload(t, relevance))
  }

  function GrantSpec(c: char, t: int): CouncilSpec {
    Ask(Grant, "mod", c, GrantPayload(t))
  }

  function SpeechSpec(c: char, speech: Payload): CouncilSpec {
    Ask(Speak, "amy", c, speech)
  }

  lemma PollAdds(log: Log, letters: string, phase: Phase, speeches: nat, c: char, t: int)
    requires StandsAt(log, letters, phase, speeches) && phase in {Preparation, Discussion} && t > 0 && IdChar(c) && c !in letters
    ensures Adds(log, Then(log, PollSpec(c, t)), "mod", PollMove(c, t))
    ensures StandsAt(Then(log, PollSpec(c, t)), letters + [c], Discussion, speeches)
  {
    hide Then, Transition, Lettered, Plain, LatestPhase, PriorSpeeches, ConsecutiveNewAxis, Ask, Carries, Adds, Duo, WindowId, EventIdFor;
    PollAccepted(log, c, t);
    Accepted(log, letters, Poll, "mod", c, PollPayload(t), PollMove(c, t));
    hide StandsAt;
    AddsStands(log, Then(log, PollSpec(c, t)), letters, c, "mod", PollMove(c, t), phase, speeches);
  }

  lemma RaiseAdds(log: Log, letters: string, speeches: nat, p: char, c: char, t: int, relevance: int)
    requires StandsAt(log, letters, Discussion, speeches) && t > 0 && IdChar(c) && c !in letters
    requires log != [] && Carries(log[|log| - 1], "mod", PollMove(p, t))
    requires forall i :: 0 <= i < |log| ==> !IsResponse(log[i], t)
    ensures Adds(log, Then(log, RaiseSpec(c, t, relevance)), "amy", RaiseMove(t, relevance))
    ensures StandsAt(Then(log, RaiseSpec(c, t, relevance)), letters + [c], Discussion, speeches)
  {
    hide Then, Transition, Lettered, Plain, LatestPhase, PriorSpeeches, ConsecutiveNewAxis, Ask, Carries, Adds, Duo, WindowAccepts,
      IsResponse, WindowId, EventIdFor;
    WindowOpensFor(log, p, t);
    RaiseAccepted(log, c, t, relevance);
    Accepted(log, letters, RaiseHand, "amy", c, RaisePayload(t, relevance), RaiseMove(t, relevance));
    hide StandsAt;
    AddsStands(log, Then(log, RaiseSpec(c, t, relevance)), letters, c, "amy", RaiseMove(t, relevance), Discussion, speeches);
  }

  lemma GrantAdds(log: Log, letters: string, speeches: nat, c: char, t: int, relevance: int)
    requires StandsAt(log, letters, Discussion, speeches) && t > 0 && IdChar(c) && c !in letters
    requires log != [] && Carries(log[|log| - 1], "amy", RaiseMove(t, relevance))
    ensures Adds(log, Then(log, GrantSpec(c, t)), "mod", GrantMove(t))
    ensures StandsAt(Then(log, GrantSpec(c, t)), letters + [c], Discussion, speeches)
  {
    hide Then, Transition, Lettered, Plain, LatestPhase, PriorSpeeches, ConsecutiveNewAxis, Ask, Carries, Adds, Duo, RaiseStance;
    StanceIsCost(log, t, relevance);
    GrantAccepted(log, c, t);
    Accepted(log, letters, Grant, "mod", c, GrantPayload(t), GrantMove(t));
    hide StandsAt;
    AddsStands(log, Then(log, GrantSpec(c, t)), letters, c, "mod", GrantMove(t), Discussion, speeches);
  }

  lemma SpeechAdds(log: Log, letters: string, speeches: nat, c: char, t: int, speech: Payload)
    requires StandsAt(log, letters, Discussion, speeches) && IdChar(c) && c !in letters
    requires log != [] && Carries(log[|log| - 1], "mod", GrantMove(t))
    requires Speakable(speech, t, speeches, 0) && speech.graph.contribution != Present(NEW_AXIS)
    ensures Adds(log, Then(log, SpeechSpec(c, speech)), "amy", SpeakMove(t, speech))
    ensures StandsAt(Then(log, SpeechSpec(c, speech)), letters + [c], Discussion, speeches + 1)
  {
    assert speech.council.closeout == [];
    hide Then, Transition, Lettered, Plain, LatestPhase, PriorSpeeches, ConsecutiveNewAxis, Ask, Carries, Adds, Duo, Granted, SelectionOf,
      Speakable;
    GrantIsSelection(log, t);
    SpeakAccepted(log, c, t, speech);
    Accepted(log, letters, Speak, "amy", c, speech, SpeakMove(t, speech));
    hide StandsAt;
    AddsStands(log, Then(log, SpeechSpec(c, speech)), letters, c, "amy", SpeakMove(t, speech), Discussion, speeches);
  }

  // ---- Preparing and closing -------------------------------------------------------------

  function Keys(keys: CouncilKeys): Payload {
    EMPTY_PAYLOAD.(council := keys)
  }

  const NO_KEYS := EMPTY_PAYLOAD.council

  function PrepareSpec(c: char): CouncilSpec {
    Ask(Action.Prepare, "mod", c, EMPTY_PAYLOAD)
  }

  function ProposeSpec(c: char): CouncilSpec {
    Ask(Propose, "mod", c, Keys(NO_KEYS.(draft := "yes")))
  }

  function VoteRequestSpec(c: char): CouncilSpec {
    Ask(RequestVote, "mod", c, EMPTY_PAYLOAD)
  }

  function VoteSpec(c: char): CouncilSpec {
    Ask(CastVote, "amy", c, Keys(NO_KEYS.(vote := Approve)).(reason := "yes"))
  }

  function FinalizeSpec(c: char): CouncilSpec {
    Ask(Finalize, "mod", c, Keys(NO_KEYS.(finalSummary := "yes")))
  }

  function PrepareMove(): Council.Move {
    Council.Move(PreparationRequested, Preparation, ["amy"], None, EMPTY_PAYLOAD)
  }

  function ProposeMove(): Council.Move {
    Council.Move(DraftRecorded, DraftConclusion, ["amy"], None, Keys(NO_KEYS.(draft := "yes", draftVersion := 1)))
  }

  function VoteRequestMove(): Council.Move {
    Council.Move(VoteRequested, ConsensusVote, ["amy"], None, Keys(NO_KEYS.(draftVersion := 1, consensusRound := 1)))
  }

  function VoteMove(): Council.Move {
    Council.Move(VoteCast, ConsensusVote, ["mod"], None,
                 Keys(NO_KEYS.(vote := Approve, draftVersion := 1, consensusRound := 1)).(reason := "yes"))
  }

  function FinalizeMove(): Council.Move {
    Council.Move(CouncilFinalized, Finalized, ["amy"], None, Keys(NO_KEYS.(finalSummary := "yes")))
  }

  lemma ClosingIsDecided(meta: Metadata, log: Log, spec: CouncilSpec)
    requires !Terminal(LatestPhase(log))
    ensures var p, actor, current := PayloadOf(spec), ActorOf(meta, spec), LatestPhase(log);
            Transition(meta, log, spec)
            == match spec.action
               case Prepare => DecidePrepare(meta, current, actor, p, MayPrepare(meta, log))
               case Propose => DecidePropose(meta, current, actor, p, LatestDraft(log), LifecycleOf(meta, log))
               case RequestVote => DecideRequestVote(meta, current, actor, p, LatestDraft(log), LatestRound(log))
               case CastVote =>
                 DecideVote(meta, current, actor, p, OpenVote(log),
                            OpenVote(log).Some? && Voted(log, actor, OpenVote(log).value.0, OpenVote(log).value.1))
               case Finalize =>
                 DecideFinalize(meta, current, actor, p, LifecycleOf(meta, log), OpenVote(log),
                                OpenVote(log).Some? && VotesPass(CouncilMembers(meta), log, OpenVote(log).value.0, OpenVote(log).value.1))
               case _ => Transition(meta, log, spec)
  {
    hide ActorOf, CommandIdOf, PayloadOf, CurrentTurn, LatestPhase, DecidePrepare, DecidePropose, DecideRequestVote, DecideVote,
      DecideFinalize, MayPrepare, LatestDraft, LatestRound, LifecycleOf, OpenVote, Voted, VotesPass, RequireTurn;
  }

  lemma PrepareDecision()
    ensures DecidePrepare(Duo(), Created, "mod", EMPTY_PAYLOAD, true) == Ok(PrepareMove())
  {
    hide Duo;
    DuoParts();
  }

  lemma ProposeDecision(report: Report)
    requires report.proposeReady
    ensures DecidePropose(Duo(), Discussion, "mod", Keys(NO_KEYS.(draft := "yes")), 0, report) == Ok(ProposeMove())
  {
    hide Trim, Duo;
    Words();
    DuoParts();
  }

  lemma VoteRequestDecision()
    ensures DecideRequestVote(Duo(), DraftConclusion, "mod", EMPTY_PAYLOAD, 1, 0) == Ok(VoteRequestMove())
  {
    hide Duo;
    DuoParts();
  }

  lemma VoteDecision()
    ensures DecideVote(Duo(), ConsensusVote, "amy", Keys(NO_KEYS.(vote := Approve)).(reason := "yes"), Some((1, 1)), false) == Ok(VoteMove())
  {
    hide Trim, Duo, CouncilMember;
    Words();
    DuoParts();
  }

  /** Without a surface no evidence is asked for. */
  lemma NothingToShow(p: Payload)
    ensures EvidenceWellFormed(Duo(), p) && VisibleDiagnostics(Duo(), p) == []
  {
    hide Duo, SurfaceEvidence, Trim;
    DuoParts();
  }

  lemma FinalizeDecision(report: Report)
    requires LifecycleDiagnostics(report) == []
    ensures DecideFinalize(Duo(), ConsensusVote, "mod", Keys(NO_KEYS.(finalSummary := "yes")), report, Some((1, 1)), true) == Ok(FinalizeMove())
  {
    hide Trim, Duo, LifecycleDiagnostics, EvidenceWellFormed, VisibleDiagnostics;
    Words();
    DuoParts();
    NothingToShow(Keys(NO_KEYS.(finalSummary := "yes")));
  }

  lemma PrepareAdds(log: Log, letters: string, speeches: nat, c: char)
    requires StandsAt(log, letters, Created, speeches) && IdChar(c) && c !in letters
    ensures Adds(log, Then(log, PrepareSpec(c)), "mod", PrepareMove())
    ensures StandsAt(Then(log, PrepareSpec(c)), letters + [c], Preparation, speeches)
  {
    hide Then, Transition, Lettered, Plain, LatestPhase, PriorSpeeches, ConsecutiveNewAxis, Ask, Carries, Adds, Duo, ActorOf, PayloadOf,
      DecidePrepare, CommandIdOf, CausationOf;
    assert MayPrepare(Duo(), log) by {
      DuoParts();
    }
    AskParts(Action.Prepare, "mod", c, EMPTY_PAYLOAD);
    ClosingIsDecided(Duo(), log, PrepareSpec(c));
    PrepareDecision();
    Accepted(log, letters, Action.Prepare, "mod", c, EMPTY_PAYLOAD, PrepareMove());
    hide StandsAt;
    AddsStands(log, Then(log, PrepareSpec(c)), letters, c, "mod", PrepareMove(), Created, speeches);
  }

  lemma ProposeAdds(log: Log, letters: string, speeches: nat, c: char)
    requires StandsAt(log, letters, Discussion, speeches) && IdChar(c) && c !in letters
    requires LatestDraft(log) == 0 && LifecycleOf(Duo(), log).proposeReady
    ensures Adds(log, Then(log, ProposeSpec(c)), "mod", ProposeMove())
    ensures StandsAt(Then(log, ProposeSpec(c)), letters + [c], DraftConclusion, speeches)
  {
    hide Then, Transition, Lettered, Plain, LatestPhase, PriorSpeeches, ConsecutiveNewAxis, Ask, Carries, Adds, Duo, ActorOf, PayloadOf,
      DecidePropose, CommandIdOf, CausationOf, LifecycleOf, LatestDraft;
    var payload := Keys(NO_KEYS.(draft := "yes"));
    AskParts(Propose, "mod", c, payload);
    ClosingIsDecided(Duo(), log, ProposeSpec(c));
    ProposeDecision(LifecycleOf(Duo(), log));
    Accepted(log, letters, Propose, "mod", c, payload, ProposeMove());
    hide StandsAt;
    AddsStands(log, Then(log, ProposeSpec(c)), letters, c, "mod", ProposeMove(), Discussion, speeches);
  }

  lemma VoteRequestAdds(log: Log, letters: string, speeches: nat, c: char)
    requires StandsAt(log, letters, DraftConclusion, speeches) && IdChar(c) && c !in letters
    requires LatestDraft(log) == 1 && LatestRound(log) == 0
    ensures Adds(log, Then(log, VoteRequestSpec(c)), "mod", VoteRequestMove())
    ensures StandsAt(Then(log, VoteRequestSpec(c)), letters + [c], ConsensusVote, speeches)
  {
    hide Then, Transition, Lettered, Plain, LatestPhase, PriorSpeeches, ConsecutiveNewAxis, Ask, Carries, Adds, Duo, ActorOf, PayloadOf,
      DecideRequestVote, CommandIdOf, CausationOf, LifecycleOf, LatestDraft, LatestRound;
    AskParts(RequestVote, "mod", c, EMPTY_PAYLOAD);
    ClosingIsDecided(Duo(), log, VoteRequestSpec(c));
    VoteRequestDecision();
    Accepted(log, letters, RequestVote, "mod", c, EMPTY_PAYLOAD, VoteRequestMove());
    hide StandsAt;
    AddsStands(log, Then(log, VoteRequestSpec(c)), letters, c, "mod", VoteRequestMove(), DraftConclusion, speeches);
  }

  lemma VoteAdds(log: Log, letters: string, speeches: nat, c: char)
    requires StandsAt(log, letters, ConsensusVote, speeches) && IdChar(c) && c !in letters
    requires OpenVote(log) == Some((1, 1)) && !Voted(log, "amy", 1, 1)
    ensures Adds(log, Then(log, VoteSpec(c)), "amy", VoteMove())
    ensures StandsAt(Then(log, VoteSpec(c)), letters + [c], ConsensusVote, speeches)
  {
    hide Then, Transition, Lettered, Plain, LatestPhase, PriorSpeeches, ConsecutiveNewAxis, Ask, Carries, Adds, Duo, ActorOf, PayloadOf,
      DecideVote, CommandIdOf, CausationOf, LifecycleOf, OpenVote, Voted;
    var payload := Keys(NO_KEYS.(vote := Approve)).(reason := "yes");
    AskParts(CastVote, "amy", c, payload);
    ClosingIsDecided(Duo(), log, VoteSpec(c));
    VoteDecision();
    Accepted(log, letters, CastVote, "amy", c, payload, VoteMove());
    hide StandsAt;
    AddsStands(log, Then(log, VoteSpec(c)), letters, c, "amy", VoteMove(), ConsensusVote, speeches);
  }

  lemma FinalizeAdds(log: Log, letters: string, speeches: nat, c: char)
    requires StandsAt(log, letters, ConsensusVote, speeches) && IdChar(c) && c !in letters
    requires OpenVote(log) == Some((1, 1)) && VotesPass(["amy"], log, 1, 1) && LifecycleDiagnostics(LifecycleOf(Duo(), log)) == []
    ensures Adds(log, Then(log, FinalizeSpec(c)), "mod", FinalizeMove())
    ensures StandsAt(Then(log, FinalizeSpec(c)), letters + [c], Finalized, speeches)
  {
    hide Then, Transition, Lettered, Plain, LatestPhase, PriorSpeeches, ConsecutiveNewAxis, Ask, Carries, Adds, Duo, ActorOf, PayloadOf,
      DecideFinalize, CommandIdOf, CausationOf, LifecycleOf, OpenVote, VotesPass, LifecycleDiagnostics, CouncilMembers;
    var payload := Keys(NO_KEYS.(finalSummary := "yes"));
    DuoParts();
    AskParts(Finalize, "mod", c, payload);
    ClosingIsDecided(Duo(), log, FinalizeSpec(c));
    FinalizeDecision(LifecycleOf(Duo(), log));
    Accepted(log, letters, Finalize, "mod", c, payload, FinalizeMove());
    hide StandsAt;
    AddsStands(log, Then(log, FinalizeSpec(c)), letters, c, "mod", FinalizeMove(), ConsensusVote, speeches);
  }

  // ---- What the scans find ---------------------------------------------------------------

  /** No draft, no vote request and no ballot yet. */
  ghost predicate Undrafted(log: Log) {
    forall i :: 0 <= i < |log| ==>
      log[i].typ !in {DraftRecorded, VoteRequested, VoteCast} && log[i].payload.council.consensusRound == 0
  }

  ghost predicate NoResponse(log: Log, t: int) {
    forall i :: 0 <= i < |log| ==> !IsResponse(log[i], t)
  }

  lemma AddsQuiet(log: Log, longer: Log, actor: string, move: Council.Move, t: int)
    requires Adds(log, longer, actor, move)
    ensures Undrafted(log) && move.typ !in {DraftRecorded, VoteRequested, VoteCast} && move.payload.council.consensusRound == 0
            ==> Undrafted(longer)
    ensures NoResponse(log, t) && (move.payload.turn != t || move.typ !in {HandRaise, HandRaiseDropped}) ==> NoResponse(longer, t)
  {
  }

  lemma {:induction false} UndraftedScans(log: Log)
    requires Undrafted(log)
    ensures LatestDraft(log) == 0 && LatestRound(log) == 0 && !Voted(log, "amy", 1, 1)
  {
    if log != [] {
      UndraftedScans(log[..|log| - 1]);
    }
  }

  /** A whole turn in which the member raises, is granted and speaks. */
  lemma TurnHeld(log: Log, letters: string, phase: Phase, speeches: nat, t: int, p: char, r: char, g: char, s: char, relevance: int, speech: Payload)
    requires StandsAt(log, letters, phase, speeches) && phase in {Preparation, Discussion} && NoResponse(log, t) && t > 0
    requires IdChar(p) && IdChar(r) && IdChar(g) && IdChar(s)
    requires p !in letters && r !in letters + [p] && g !in letters + [p] + [r] && s !in letters + [p] + [r] + [g]
    requires Speakable(speech, t, speeches, 0) && speech.graph.contribution != Present(NEW_AXIS)
    ensures var polled := Then(log, PollSpec(p, t));
            var raised := Then(polled, RaiseSpec(r, t, relevance));
            var granted := Then(raised, GrantSpec(g, t));
            var spoken := Then(granted, SpeechSpec(s, speech));
            && Adds(log, polled, "mod", PollMove(p, t)) && Adds(polled, raised, "amy", RaiseMove(t, relevance))
            && Adds(raised, granted, "mod", GrantMove(t)) && Adds(granted, spoken, "amy", SpeakMove(t, speech))
            && StandsAt(raised, letters + [p] + [r], Discussion, speeches)
            && StandsAt(granted, letters + [p] + [r] + [g], Discussion, speeches)
            && StandsAt(spoken, letters + [p] + [r] + [g] + [s], Discussion, speeches + 1)
  {
    hide Then, StandsAt, PollSpec, RaiseSpec, GrantSpec, SpeechSpec, Carries, PollMove, RaiseMove, GrantMove, SpeakMove, Speakable;
    var polled := Then(log, PollSpec(p, t));
    PollAdds(log, letters, phase, speeches, p, t);
    assert NoResponse(polled, t) by {
      PollIsNoResponse(p, t);
      AddsQuiet(log, polled, "mod", PollMove(p, t), t);
    }
    var raised := Then(polled, RaiseSpec(r, t, relevance));
    RaiseAdds(polled, letters + [p], speeches, p, r, t, relevance);
    var granted := Then(raised, GrantSpec(g, t));
    GrantAdds(raised, letters + [p] + [r], speeches, g, t, relevance);
    SpeechAdds(granted, letters + [p] + [r] + [g], speeches, s, t, speech);
  }

  lemma PollIsNoResponse(p: char, t: int)
    ensures PollMove(p, t).typ == HandRaiseRequested
  {
  }

  lemma FirstStands(e: Event, t: int)
    requires e.typ == SessionCreated && e.phase == Created && e.runner == None && e.commandId == "o" && e.id == "o"
    requires e.payload.council.consensusRound == 0
    ensures StandsAt([e], "o", Created, 0) && Undrafted([e]) && NoResponse([e], t)
  {
    assert [e][..0] == [];
  }

  // ---- What the lifecycle and the vote come to -------------------------------------------

  lemma OpeningTracked(log: Log, longer: Log, p: char, t: int)
    requires Adds(log, longer, "mod", PollMove(p, t))
    ensures Track(Duo(), longer).openingId != ""
  {
    assert longer[..|longer| - 1] == log;
    hide WindowId, EventIdFor;
  }

  lemma GrantTracked(log: Log, longer: Log, t: int)
    requires Adds(log, longer, "mod", GrantMove(t)) && t > 0
    ensures ("amy", t) in Track(Duo(), longer).granted
  {
    assert longer[..|longer| - 1] == log;
    Words();
    hide Trim;
  }

  lemma SpeechTracked(log: Log, longer: Log, t: int, speech: Payload)
    requires Adds(log, longer, "amy", SpeakMove(t, speech)) && t > 0 && ("amy", t) in Track(Duo(), log).granted
    ensures var tracked := Track(Duo(), longer);
            if t == 1 then 1 in tracked.turns else "amy" in tracked.closeoutIndex
  {
    assert longer[..|longer| - 1] == log;
    Words();
    DuoParts();
    hide Trim, CouncilMember;
  }

  lemma ReadyToPropose(log: Log)
    requires var tracked := Track(Duo(), log);
             tracked.openingId != "" && 1 in tracked.turns && "amy" in tracked.closeoutIndex
    ensures LifecycleOf(Duo(), log).proposeReady
  {
    DuoParts();
    hide Track;
    var tracked := Track(Duo(), log);
    assert MissingTurns(1, tracked.turns) == [] by {
      assert MissingTurns(0, tracked.turns) == [];
    }
    assert MissingCloseoutMembers(["amy"], tracked.closeoutIndex) == [] by {
      assert ["amy"][1..] == [];
    }
  }

  lemma DraftScans(log: Log, longer: Log)
    requires Undrafted(log) && Adds(log, longer, "mod", ProposeMove())
    ensures LatestDraft(longer) == 1 && LatestRound(longer) == 0
  {
    UndraftedScans(log);
    assert longer[..|longer| - 1] == log;
  }

  lemma VoteScans(log: Log, proposed: Log, requested: Log, balloted: Log)
    requires Undrafted(log) && Adds(log, proposed, "mod", ProposeMove()) && Adds(proposed, requested, "mod", VoteRequestMove())
    requires Adds(requested, balloted, "amy", VoteMove())
    ensures OpenVote(balloted) == Some((1, 1)) && VotesPass(["amy"], balloted, 1, 1)
  {
    assert balloted[..|balloted| - 1] == requested;
  }

  lemma OpenedScans(log: Log, proposed: Log, requested: Log)
    requires Undrafted(log) && Adds(log, proposed, "mod", ProposeMove()) && Adds(proposed, requested, "mod", VoteRequestMove())
    ensures OpenVote(requested) == Some((1, 1)) && !Voted(requested, "amy", 1, 1)
  {
  }
}
