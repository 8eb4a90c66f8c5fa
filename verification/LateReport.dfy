/** A delegation that is escalated and cancelled, and a late report on the escalation. */
module LateReport {
  import opened Prelude
  import opened Text
  import opened Events
  import opened Channel
  import opened ShortIds
  import Control
  import Delegation

  function First(): Metadata {
    Metadata("one", DelegationSession, "mod", ["mod", "amy"], None, NoMode, 0, None, false)
  }

  function FirstOpening(): Event {
    Event("o", "o", "", None, Created, SessionCreated, DAEMON, ["amy", "mod"], 0, None, CostOmitted, EMPTY_PAYLOAD)
  }

  function AskUser(): Payload {
    EMPTY_PAYLOAD.(delegation := EMPTY_PAYLOAD.delegation.(filled := {Question, RequiredKey.Urgency}, urgency := "high"))
  }

  function EscalateSpec(): Delegation.DelegationSpec {
    Delegation.DelegationSpec(Delegation.Escalate, "amy", [], "e", "", "", AskUser(), [], Ok([]), 1)
  }

  function CancelSpec(): Control.ControlSpec {
    Control.ControlSpec("mod", "", "done", "", "", "c", "", 2)
  }

  function Report(): Control.DeliveryEvidence {
    Control.DeliveryEvidence(true, "amy", EscalationId(), "phone", "sms", EMPTY_PAYLOAD, "r", "", 4)
  }

  function EscalationId(): string {
    EventIdFor(IdPrefix(UserEscalationRequested), "e")
  }

  function Escalation(): Event {
    Delegation.EventOf(EscalateSpec(), Delegation.EscalateMove(First(), Created, EscalateSpec(), "amy", AskUser()))
  }

  function Cancellation(): Event {
    Control.CancelEvent(First(), CancelSpec())
  }

  function Log1(): Log {
    [FirstOpening(), Stored(First(), [FirstOpening()], Escalation())]
  }

  function Log2(): Log {
    Log1() + [Stored(First(), Log1(), Cancellation())]
  }

  lemma Names()
    ensures Trim("") == "" && Trim("amy") == "amy" && Trim("mod") == "mod" && Trim("done") == "done"
    ensures Trim("e") == "e" && Trim("c") == "c" && Trim("r") == "r"
    ensures "mod" in First().participants && "amy" in First().participants
  {
    TrimFixed("amy");
    TrimFixed("mod");
    TrimFixed("done");
    TrimFixed("e");
    TrimFixed("c");
    TrimFixed("r");
    assert First().participants[1] == "amy";
  }

  lemma EscalationParts()
    ensures Escalation().commandId == "e" && Escalation().id == EscalationId() && Escalation().typ == UserEscalationRequested
    ensures Escalation().phase == WaitingUser && Escalation().from == "amy" && Escalation().to == [USER]
    ensures Escalation().runner == None && Escalation().cost == CostOmitted
  {
    Names();
    SortsOne(USER);
    hide Trim, EventIdFor, IdPrefix, First, SortStrings;
  }

  lemma IdsNotBlank()
    ensures !Blank(EscalationId()) && !Blank(EventIdFor(IdPrefix(SessionCancelled), "c"))
  {
    IdEnds(IdPrefix(UserEscalationRequested), 'e');
    IdEnds(IdPrefix(SessionCancelled), 'c');
    hide Trim;
    NotBlank(EscalationId());
    NotBlank(EventIdFor(IdPrefix(SessionCancelled), "c"));
  }

  lemma EscalationIsValid()
    ensures ValidEnvelope(First(), Escalation())
  {
    EscalationParts();
    IdsNotBlank();
    Names();
    hide Trim, EventIdFor, Escalation, EscalationId;
  }

  lemma EscalationBuilt()
    ensures Delegation.Built(First(), [FirstOpening()], EscalateSpec()) == Ok(Escalation())
  {
    Names();
    hide Trim, EventIdFor, SortStrings, Delegation.EventOf, IdPrefix, EventByIdAndType, HasId;
  }

  lemma Starts()
    ensures Lettered([FirstOpening()], "o") && LatestPhase([FirstOpening()]) == Created
  {
  }

  lemma SpecParts()
    ensures Delegation.CommandIdOf(EscalateSpec()) == "e" && EscalateSpec().artifactSources == []
    ensures EscalateSpec().action == Delegation.Escalate && First().kind == DelegationSession
    ensures CancelSpec().actor == "mod" == First().moderator && CancelSpec().reason == "done"
  {
    Names();
    hide Trim;
  }

  lemma EscalationAppends(log: Log)
    requires FirstWithCommand(log, "e") == None && LatestPhase(log) == Created
    requires Delegation.Built(First(), log, EscalateSpec()) == Ok(Escalation())
    ensures Delegation.RecordDelegation(First(), log, EscalateSpec(), {}) == AppendIdempotent(First(), log, Escalation(), {})
  {
    SpecParts();
    hide Trim, EventIdFor, Delegation.Built, Delegation.Rebuilt, Escalation, AppendIdempotent, FirstWithCommand, First, FirstOpening, EscalateSpec,
      Delegation.CommandIdOf;
  }

  lemma Escalated()
    ensures Delegation.RecordDelegation(First(), [FirstOpening()], EscalateSpec(), {}).log == Log1() && Lettered(Log1(), "oe")
  {
    Starts();
    EscalationParts();
    EscalationIsValid();
    EscalationBuilt();
    hide Delegation.RecordDelegation, EventIdFor, Escalation, AppendIdempotent, FirstWithCommand, Stored, Lettered, ValidEnvelope,
      First, FirstOpening, EscalateSpec, Delegation.Built, LatestPhase;
    LetterIsFresh([FirstOpening()], "o", 'e', "");
    EscalationAppends([FirstOpening()]);
    NewLetterRecorded(First(), [FirstOpening()], "o", 'e', IdPrefix(UserEscalationRequested), Escalation());
    assert [FirstOpening()] + [Stored(First(), [FirstOpening()], Escalation())] == Log1();
    assert "o" + ['e'] == "oe";
  }

  lemma BothSorted()
    ensures SortStrings(["mod", "amy"]) == ["amy", "mod"] && ValidRecipients(First(), ["amy", "mod"])
  {
    assert ["mod", "amy"][1..] == ["amy"] && ["amy"][1..] == [];
    assert Less("amy", "mod");
    assert First().participants[1] == "amy";
  }

  lemma CancellationParts()
    ensures Cancellation().commandId == "c" && Cancellation().id == EventIdFor(IdPrefix(SessionCancelled), "c")
    ensures Cancellation().phase == Cancelled && Cancellation().typ == SessionCancelled && Cancellation().from == "mod"
    ensures Cancellation().to == ["amy", "mod"] && Cancellation().runner == None && Cancellation().cost == CostOmitted
  {
    Names();
    BothSorted();
    hide Trim, EventIdFor, SortStrings, IdPrefix;
  }

  lemma CancellationIsValid()
    ensures ValidEnvelope(First(), Cancellation())
  {
    CancellationParts();
    IdsNotBlank();
    Names();
    BothSorted();
    hide Trim, EventIdFor, Cancellation, ValidRecipients, SortStrings;
  }

  lemma Waits()
    ensures |Log1()| == 2 && LatestPhase(Log1()) == WaitingUser && Log1()[1].id == EscalationId()
    ensures Log1()[1].typ == UserEscalationRequested
  {
    EscalationParts();
    StoredOther(First(), [FirstOpening()], Escalation());
    hide Escalation, EventIdFor, SortStrings, Stored, First, FirstOpening, EscalationId;
  }

  lemma CancelAccepted(log: Log)
    requires FirstWithCommand(log, "c") == None && LatestPhase(log) == WaitingUser
    ensures Control.RecordCancel(First(), log, CancelSpec(), {}) == AppendIdempotent(First(), log, Cancellation(), {})
  {
    Names();
    SpecParts();
    CancellationParts();
    hide Trim, EventIdFor, Control.CancelEvent, AppendIdempotent, FirstWithCommand, First, CancelSpec;
  }

  lemma Stopped()
    ensures Control.RecordCancel(First(), Log1(), CancelSpec(), {}).log == Log2() && Lettered(Log2(), "oec")
  {
    Escalated();
    Waits();
    CancellationParts();
    CancellationIsValid();
    hide Control.RecordCancel, EventIdFor, Log1, Cancellation, AppendIdempotent, FirstWithCommand, Lettered, ValidEnvelope, Stored,
      First, CancelSpec, LatestPhase, EscalationId;
    LetterIsFresh(Log1(), "oe", 'c', "");
    CancelAccepted(Log1());
    NewLetterRecorded(First(), Log1(), "oe", 'c', IdPrefix(SessionCancelled), Cancellation());
    assert "oe" + ['c'] == "oec";
  }

  lemma PhaseOfSnoc(log: Log, e: Event)
    ensures LatestPhase(log + [e]) == e.phase
  {
  }

  lemma Ends()
    ensures Terminal(LatestPhase(Log2()))
  {
    CancellationParts();
    hide Log1, Cancellation, Stored, EventIdFor, First, SortStrings, LatestPhase, IdPrefix;
    StoredOther(First(), Log1(), Cancellation());
    PhaseOfSnoc(Log1(), Stored(First(), Log1(), Cancellation()));
  }

  lemma FoundInPlace(log: Log, id: string, typ: EventType)
    requires |log| == 3 && log[1].id == id && log[1].typ == typ
    ensures EventByIdAndType(log, id, typ).Some?
  {
    var two := log[..2];
    assert two[..1] + [two[1]] == two;
    assert EventByIdAndType(two, id, typ).Some?;
  }

  lemma EscalationFound()
    ensures EventByIdAndType(Log2(), EscalationId(), UserEscalationRequested).Some?
  {
    Waits();
    hide Log1, EventIdFor, Cancellation, Stored, EventByIdAndType, First, EscalationId;
    assert Log2()[1] == Log1()[1];
    FoundInPlace(Log2(), EscalationId(), UserEscalationRequested);
  }

  lemma ReportParts()
    ensures Control.IdOr(Report().commandId, Report().generatedId) == "r" && Report().delivered
    ensures Control.Participant(First(), Report().reporter) && Report().escalationEvent == EscalationId()
    ensures Report().target != "" && Report().detail != "" && First().kind == DelegationSession && !Blank("r")
  {
    Names();
    hide Trim, EscalationId;
  }

  /** The report is late, and acceptable. */
  lemma ReportAccepted()
    ensures Terminal(LatestPhase(Log2())) && Control.DeliveryAccepted(First(), Log2(), Report(), {})
  {
    hide Log1, Cancellation, Escalation, CancelSpec;
    ReportParts();
    Stopped();
    Ends();
    EscalationFound();
    hide Trim, EventIdFor, Log2, FirstWithCommand, Lettered, HasId, EventByIdAndType, IdPrefix, ValidRecipients, First, Report,
      EscalationId, Control.Participant, Control.IdOr, Control.RecordCancel, LatestPhase;
    LetterIsFresh(Log2(), "oec", 'r', IdPrefix(UserEscalationDelivered));
  }
}
