/** Speeches that are recorded and yet do not count: the two-person council has granted its member two
    turns, nothing has been dispatched for either, and the reaction to a grant gets a speech for the first
    turn from the runner. */
module RefusedSpeech {
  import opened Prelude
  import opened Text
  import opened Events
  import opened Channel
  import opened Scans
  import opened Accounting
  import opened ShortIds
  import opened CouncilScript
  import opened CouncilRuns
  import opened FullCouncil
  import opened SelectedSpeaker
  import opened GrantDispatch
  import ArgumentGraph
  import AutoSpeaker
  import AccountingSafety
  import Council
  import CouncilSafety
  import Dispatch
  import DispatchAccounting
  import DispatchRuns
  import StatusReaders

  /** One-digit event ids, by type. */
  function RunId(typ: EventType): string {
    match typ
    case PromptEvidence => "1"
    case RunnerStarted => "2"
    case RunnerSucceeded => "3"
    case Speech => "4"
    case _ => "5"
  }

  /** The runner says "yes" to the first turn and reports success under the semantic status. */
  function Reply(status: string): Dispatch.AdapterResult {
    Dispatch.AdapterResult(false, true, false, false, "", Some(Speech), status, Some(OpeningSpeech()), None)
  }

  function NoThread(id: string): Result<Sent> {
    Err(Invalid("surface"))
  }

  function Env(status: string): Environment {
    Environment(None, false, EMPTY_PAYLOAD, false, 0, false, true, NoThread,
                Dispatch.Names((typ: EventType, attempt: nat) => RunId(typ), (attempt: nat) => "run", (typ: EventType, attempt: nat) => 0),
                (attempt: nat) => Reply(status), {})
  }

  // ---- The log before the dispatch -------------------------------------------------------

  function PolledTwice(): Log {
    Then(FullCouncil.Granted(), PollSpec('t', 2))
  }

  function RaisedTwice(): Log {
    Then(PolledTwice(), RaiseSpec('u', 2, 0))
  }

  function GrantedTwice(): Log {
    Then(RaisedTwice(), GrantSpec('v', 2))
  }

  /** The grant of a turn, the first or the second. */
  function Grant(t: int): Event {
    var log := if t == 1 then FullCouncil.Granted() else GrantedTwice();
    if log == [] then Opening(Duo(), "", "", 0) else log[|log| - 1]
  }

  function Letter(t: int): char {
    if t == 1 then 'g' else 'v'
  }

  function Req(t: int, s: string): Dispatch.Request {
    SelectedRequest(Duo(), Grant(t), "amy", Env(s).send, 0, false, true)
  }

  /** Nothing that the dispatcher or a speaker writes. */
  ghost predicate Undispatched(log: Log) {
    forall i :: 0 <= i < |log| ==> !DispatchEvent(log[i].typ) && log[i].typ != Speech
  }

  lemma AddsUndispatched(log: Log, longer: Log, actor: string, move: Council.Move)
    requires Adds(log, longer, actor, move) && Undispatched(log) && !DispatchEvent(move.typ) && move.typ != Speech
    ensures Undispatched(longer)
  {
    hide DispatchEvent;
  }

  lemma MoveTypes(c: char, t: int, relevance: int)
    ensures PrepareMove().typ == PreparationRequested && PollMove(c, t).typ == HandRaiseRequested
    ensures RaiseMove(t, relevance).typ == HandRaise && GrantMove(t).typ == SpeakerSelected
    ensures PollMove(c, t).payload.turn == t == RaiseMove(t, relevance).payload.turn && GrantMove(t).payload.turn == t
    ensures PollMove(c, t).phase == RaiseMove(t, relevance).phase == GrantMove(t).phase == Discussion
  {
  }

  lemma StartUndispatched()
    ensures Undispatched(Start())
  {
    hide Duo;
  }

  /** The second turn is granted although the first one is still waiting for its speech. */
  lemma SecondGrant()
    ensures Adds(FullCouncil.Granted(), PolledTwice(), "mod", PollMove('t', 2)) && Adds(PolledTwice(), RaisedTwice(), "amy", RaiseMove(2, 0))
    ensures Adds(RaisedTwice(), GrantedTwice(), "mod", GrantMove(2)) && StandsAt(GrantedTwice(), "opqrgtuv", Discussion, 0)
  {
    hide Prepared, Polled, Raised, FullCouncil.Granted, Spoken, Then, StandsAt, PollSpec, RaiseSpec, GrantSpec, Carries, Undrafted,
      NoResponse, PollMove, RaiseMove, GrantMove, SpeakMove, OpeningSpeech, Duo;
    FirstTurn();
    MoveTypes('t', 2, 0);
    assert NoResponse(FullCouncil.Granted(), 2) by {
      SilentPrefix(FullCouncil.Granted(), Spoken(), 2);
    }
    PollAdds(FullCouncil.Granted(), "opqrg", Discussion, 0, 't', 2);
    AddsQuiet(FullCouncil.Granted(), PolledTwice(), "mod", PollMove('t', 2), 2);
    TurnRaised(PolledTwice());
    assert "opqrg" + ['t'] + ['u'] + ['v'] == "opqrgtuv";
  }

  lemma SilentPrefix(log: Log, longer: Log, t: int)
    requires log <= longer && NoResponse(longer, t)
    ensures NoResponse(log, t)
  {
    hide IsResponse;
    assert forall i :: 0 <= i < |log| ==> log[i] == longer[i];
  }

  lemma TurnRaised(log: Log)
    requires log != [] && Carries(log[|log| - 1], "mod", PollMove('t', 2)) && NoResponse(log, 2)
    requires StandsAt(log, "opqrg" + ['t'], Discussion, 0)
    ensures var raised := Then(log, RaiseSpec('u', 2, 0));
            var granted := Then(raised, GrantSpec('v', 2));
            && Adds(log, raised, "amy", RaiseMove(2, 0)) && Adds(raised, granted, "mod", GrantMove(2))
            && StandsAt(granted, "opqrg" + ['t'] + ['u'] + ['v'], Discussion, 0)
  {
    hide Then, StandsAt, PollSpec, RaiseSpec, GrantSpec, Carries, PollMove, RaiseMove, GrantMove, IsResponse;
    RaiseAdds(log, "opqrg" + ['t'], 0, 't', 'u', 2, 0);
    GrantAdds(Then(log, RaiseSpec('u', 2, 0)), "opqrg" + ['t'] + ['u'], 0, 'v', 2, 0);
  }

  lemma GrantedTwiceReachable()
    ensures Reachable(Duo(), GrantedTwice())
  {
    hide Reachable, Then, FullCouncil.Granted, PollSpec, RaiseSpec, GrantSpec;
    FirstTurnReachable();
    ThenReachable(FullCouncil.Granted(), PollSpec('t', 2));
    ThenReachable(PolledTwice(), RaiseSpec('u', 2, 0));
    ThenReachable(RaisedTwice(), GrantSpec('v', 2));
  }

  lemma NothingDispatched()
    ensures Undispatched(FullCouncil.Granted()) && Undispatched(GrantedTwice())
  {
    hide Prepared, Polled, Raised, FullCouncil.Granted, Spoken, PolledTwice, RaisedTwice, GrantedTwice, StandsAt, Adds, Undrafted,
      NoResponse, Undispatched, PollMove, RaiseMove, PrepareMove, GrantMove, SpeakMove, Start, OpeningSpeech;
    PreparedStage();
    FirstTurn();
    SecondGrant();
    StartUndispatched();
    MoveTypes('q', 1, AutoSpeaker.FLOOR);
    MoveTypes('t', 2, 0);
    AddsUndispatched(Start(), Prepared(), "mod", PrepareMove());
    AddsUndispatched(Prepared(), Polled(), "mod", PollMove('q', 1));
    AddsUndispatched(Polled(), Raised(), "amy", RaiseMove(1, AutoSpeaker.FLOOR));
    AddsUndispatched(Raised(), FullCouncil.Granted(), "mod", GrantMove(1));
    AddsUndispatched(FullCouncil.Granted(), PolledTwice(), "mod", PollMove('t', 2));
    AddsUndispatched(PolledTwice(), RaisedTwice(), "amy", RaiseMove(2, 0));
    AddsUndispatched(RaisedTwice(), GrantedTwice(), "mod", GrantMove(2));
  }

  lemma LastAdded(log: Log, longer: Log, letters: string, phase: Phase, speeches: nat, actor: string, move: Council.Move)
    requires Adds(log, longer, actor, move) && StandsAt(longer, letters, phase, speeches)
    ensures var last := longer[|longer| - 1];
            |letters| > 0 && longer == log + [last] && Carries(last, actor, move) && last.commandId == [letters[|letters| - 1]]
  {
    hide Carries, Plain, LatestPhase, ArgumentGraph.PriorSpeeches, ArgumentGraph.ConsecutiveNewAxis;
  }

  lemma FirstGrantCarries()
    ensures FullCouncil.Granted() == Raised() + [Grant(1)] && Carries(Grant(1), "mod", GrantMove(1)) && Grant(1).commandId == "g"
  {
    hide Raised, FullCouncil.Granted, GrantedTwice, Spoken, Undrafted, NoResponse, PollMove, RaiseMove, GrantMove, SpeakMove, Carries,
      OpeningSpeech, StandsAt, Adds, Duo;
    FirstTurn();
    LastAdded(Raised(), FullCouncil.Granted(), "opqrg", Discussion, 0, "mod", GrantMove(1));
    assert "opqrg"[4] == 'g';
  }

  lemma SecondGrantCarries()
    ensures GrantedTwice() == RaisedTwice() + [Grant(2)] && Carries(Grant(2), "mod", GrantMove(2)) && Grant(2).commandId == "v"
  {
    hide FullCouncil.Granted, PolledTwice, RaisedTwice, GrantedTwice, PollMove, RaiseMove, GrantMove, Carries, StandsAt, Adds, Duo;
    SecondGrant();
    LastAdded(RaisedTwice(), GrantedTwice(), "opqrgtuv", Discussion, 0, "mod", GrantMove(2));
    assert "opqrgtuv"[7] == 'v';
  }

  lemma GrantCarries(t: int)
    requires t in {1, 2}
    ensures Carries(Grant(t), "mod", GrantMove(t)) && Grant(t).commandId == [Letter(t)]
  {
    hide Raised, FullCouncil.Granted, RaisedTwice, GrantedTwice, Grant, GrantMove, Carries;
    FirstGrantCarries();
    SecondGrantCarries();
  }

  lemma CarriedGrant(e: Event, t: int)
    requires Carries(e, "mod", GrantMove(t))
    ensures e.typ == SpeakerSelected && e.phase == Discussion && e.payload.member == "amy" && e.to == ["amy"] && e.payload.turn == t
    ensures Trim(e.id) == e.id != "" && e.payload.graph == EMPTY_PAYLOAD.graph && SelectedMemberOf(e) == Ok("amy") && SelectedMember(e) == "amy"
  {
    hide Trim;
    Words();
  }

  lemma GrantParts(t: int)
    requires t in {1, 2}
    ensures var grant := Grant(t);
            && grant.typ == SpeakerSelected && grant.phase == Discussion && grant.payload.member == "amy" && grant.to == ["amy"]
            && grant.payload.turn == t && Trim(grant.id) == grant.id != "" && grant.payload.graph == EMPTY_PAYLOAD.graph
            && SelectedMemberOf(grant) == Ok("amy") && SelectedMember(grant) == "amy" && grant.commandId == [Letter(t)]
  {
    hide Grant, Trim, Carries, GrantMove, Letter, SelectedMemberOf, SelectedMember;
    GrantCarries(t);
    CarriedGrant(Grant(t), t);
  }

  lemma GrantThere(t: int)
    requires t in {1, 2}
    ensures exists i :: 0 <= i < |GrantedTwice()| && GrantedTwice()[i] == Grant(t)
  {
    hide FullCouncil.Granted, Raised, PolledTwice, RaisedTwice, GrantedTwice, Grant, Carries, GrantMove, PollMove, RaiseMove, StandsAt;
    FirstGrantCarries();
    SecondGrantCarries();
    SecondGrant();
    if t == 1 {
      assert GrantedTwice()[|Raised()|] == Grant(t);
    } else {
      assert GrantedTwice()[|RaisedTwice()|] == Grant(t);
    }
  }

  lemma GrantedTwiceUnique()
    ensures UniqueIds(GrantedTwice())
  {
    hide GrantedTwice, Reachable, History, UniqueIds, Duo;
    GrantedTwiceReachable();
    ReachableHistory(Duo(), GrantedTwice());
    CouncilSafety.HistoryUniqueIds(Duo(), GrantedTwice());
  }

  lemma GrantFound(t: int)
    requires t in {1, 2}
    ensures EventById(GrantedTwice(), Grant(t).id) == Some(Grant(t))
  {
    hide Grant, GrantedTwice, UniqueIds, EventById;
    GrantThere(t);
    GrantedTwiceUnique();
    var i :| 0 <= i < |GrantedTwice()| && GrantedTwice()[i] == Grant(t);
    EventByIdAt(GrantedTwice(), i);
  }

  lemma NothingRecorded(log: Log, grantId: string)
    requires Undispatched(log)
    ensures !DispatchRecorded(log, grantId) && !DispatchStarted(log, grantId) && !EvidenceRecorded(log, grantId)
  {
  }

  // ---- Appending -------------------------------------------------------------------------

  lemma DigitIsFresh(log: Log, letters: string, c: char)
    requires Lettered(log, letters) && c !in letters
    ensures !HasId(log, [c])
  {
    forall i | 0 <= i < |log| ensures log[i].id != [c] {
      assert letters[i] != c;
    }
  }

  lemma Appends(log: Log, e: Event)
    requires !HasId(log, e.id) && ValidEnvelope(Duo(), e)
    ensures Append(Duo(), log, e, {}).log == log + [Stored(Duo(), log, e)] && Append(Duo(), log, e, {}).result.Ok?
    ensures forall id :: HasId(log + [Stored(Duo(), log, e)], id) <==> HasId(log, id) || id == e.id
  {
    hide ValidEnvelope, Stored, Duo, Trim;
    Dispatch.StoredIsSame(Duo(), log, e);
    var longer := log + [Stored(Duo(), log, e)];
    forall id ensures HasId(longer, id) <==> HasId(log, id) || id == e.id {
      assert longer[|log|].id == e.id;
      if HasId(log, id) {
        var i :| 0 <= i < |log| && log[i].id == id;
        assert longer[i].id == id;
      }
    }
  }

  /** A runner's or daemon's event with an id of one digit is well formed. */
  lemma DigitEnvelope(e: Event)
    requires e.id in {"1", "2", "3", "4"} && e.phase == Discussion && e.from in {DAEMON, "amy"} && e.to == ["mod"]
    requires e.runner == None ==> e.cost == CostOmitted
    requires e.runner.Some? ==> KnownRunnerStatus(e.runner.value.status) && (e.cost.CostOmitted? <==> e.typ.RunnerStarted?)
    ensures ValidEnvelope(Duo(), e)
  {
    hide Duo, ValidRecipients, Trim;
    DuoParts();
    assert !IsSpace(e.id[0]);
    NotBlank(e.id);
  }

  // ---- The events of the dispatch --------------------------------------------------------

  function Note(t: int, s: string): Event {
    PromptNote(Duo(), Grant(t), Env(s))
  }

  function Noted(t: int, s: string): Log {
    GrantedTwice() + [Stored(Duo(), GrantedTwice(), Note(t, s))]
  }

  function Start1(t: int, s: string): Event {
    Dispatch.StartedEvent(Duo(), Req(t, s), Env(s).names, 1)
  }

  function Launched(t: int, s: string): Log {
    Noted(t, s) + [Stored(Duo(), Noted(t, s), Start1(t, s))]
  }

  function Success(t: int, s: string): Event {
    Dispatch.SucceededEvent(Duo(), Req(t, s), Env(s).names, 1, Reply(s))
  }

  function Succeeded(t: int, s: string): Log {
    Launched(t, s) + [Stored(Duo(), Launched(t, s), Success(t, s))]
  }

  /** The event that the runner proposes, and what the validator makes of it. */
  function Proposal(t: int, s: string): Event {
    Dispatch.TerminalEvent(Duo(), Req(t, s), Env(s).names, Speech, 1, Reply(s), OpeningSpeech())
  }

  function Uttered(t: int, s: string): Event {
    Proposal(t, s).(to := ["mod"], turn := Some(1), payload := OpeningSpeech())
  }

  function Ended(t: int, s: string): Log {
    Succeeded(t, s) + [Stored(Duo(), Succeeded(t, s), Uttered(t, s))]
  }

  lemma ReqParts(t: int, s: string)
    requires t in {1, 2}
    ensures Dispatch.CommandOf(Req(t, s)) == [Letter(t)] && Trim(Req(t, s).causation) == Grant(t).id && Req(t, s).member == "amy" && Req(t, s).phase == Discussion
    ensures Req(t, s).allowed == [Speech] && Dispatch.Budget(Req(t, s)) == 1 && Dispatch.Preflight(Duo(), Req(t, s)) && Duo().moderator == "mod"
  {
    hide Grant, Trim, ValidateSpeech, Duo;
    GrantParts(t);
    Words();
    LetterTrims(Letter(t));
    DuoParts();
    AmyTakesPart();
  }

  lemma AmyTakesPart()
    ensures "amy" in Duo().participants
  {
    assert Duo().participants[1] == "amy";
  }

  lemma PromptNoteIs(meta: Metadata, grant: Event, env: Environment)
    ensures var note := PromptNote(meta, grant, env);
            && note.id == env.names.eventId(PromptEvidence, 1) && note.phase == grant.phase && note.from == DAEMON
            && note.to == [meta.moderator] && note.runner == None && note.cost == CostOmitted && note.typ == PromptEvidence
  {
  }

  lemma NamesAre(s: string)
    ensures var names := Env(s).names;
            && names.eventId(PromptEvidence, 1) == "1" && names.eventId(RunnerStarted, 1) == "2" && names.eventId(RunnerSucceeded, 1) == "3"
            && names.eventId(Speech, 1) == "4" && names.invocationId(1) == "run" && names.clock(Speech, 1) == 0
  {
    hide Reply;
  }

  lemma NoteIs(t: int, s: string)
    requires t in {1, 2}
    ensures Note(t, s).id == "1" && Note(t, s).phase == Discussion && Note(t, s).from == DAEMON && Note(t, s).to == ["mod"] && Note(t, s).runner == None
    ensures Note(t, s).cost == CostOmitted && Note(t, s).typ == PromptEvidence
  {
    hide Grant, Env, Letter, SelectedMember, SelectedMemberOf, Trim, Duo, PromptNote, ArgumentGraph.ResolvePolicy,
      CouncilMembers, CouncilMember, PrincipalAllowed, ValidRecipients, Required;
    NamesAre(s);
    GrantParts(t);
    DuoParts();
    PromptNoteIs(Duo(), Grant(t), Env(s));
  }

  function RunStatus(s: string): (status: string)
    ensures KnownRunnerStatus(status)
  {
    Dispatch.StatusOf(Speech, Reply(s))
  }

  lemma StatusesAre(s: string)
    ensures Dispatch.StatusOf(RunnerSucceeded, Reply(s)) == RunStatus(s)
    ensures Dispatch.RawCost(Reply(s)) == CostNull
  {
  }

  lemma RunnerEventsAre(t: int, s: string)
    requires t in {1, 2}
    ensures Start1(t, s).id == "2" && Start1(t, s).phase == Discussion && Start1(t, s).from == DAEMON && Start1(t, s).to == ["mod"]
    ensures Start1(t, s).typ == RunnerStarted && Start1(t, s).runner == Some(Runner("run", "amy", 1, false, "started")) && Start1(t, s).cost == CostOmitted
    ensures Success(t, s).id == "3" && Success(t, s).phase == Discussion && Success(t, s).from == DAEMON && Success(t, s).to == ["mod"]
    ensures Success(t, s).typ == RunnerSucceeded && Success(t, s).runner == Some(Runner("run", "amy", 1, false, RunStatus(s))) && Success(t, s).cost == CostNull
  {
    hide Grant, Trim, Req, Duo, Dispatch.CommandOf, OpeningSpeech, Dispatch.StatusOf, Reply, Dispatch.RawCost;
    ReqParts(t, s);
    StatusesAre(s);
  }

  lemma ProposalIs(t: int, s: string)
    requires t in {1, 2}
    ensures Proposal(t, s).id == "4" && Proposal(t, s).phase == Discussion && Proposal(t, s).from == "amy" && Proposal(t, s).to == ["mod"]
    ensures Proposal(t, s).typ == Speech && Proposal(t, s).runner == Some(Runner("run", "amy", 1, false, RunStatus(s))) && Proposal(t, s).cost == CostNull
    ensures Proposal(t, s).commandId == [Letter(t)] && Proposal(t, s).causation == Grant(t).id && Proposal(t, s).turn == None
    ensures Proposal(t, s).payload == OpeningSpeech() && Proposal(t, s).createdAt == 0
  {
    hide Grant, Trim, Req, Duo, Dispatch.CommandOf, OpeningSpeech, Dispatch.StatusOf, Reply, Dispatch.RawCost;
    ReqParts(t, s);
    StatusesAre(s);
  }

  lemma TwiceLettered()
    ensures Lettered(GrantedTwice(), "opqrgtuv")
  {
    hide FullCouncil.Granted, PolledTwice, RaisedTwice, GrantedTwice, Adds, StandsAt, PollMove, RaiseMove, GrantMove, Lettered;
    SecondGrant();
    StandsLettered(GrantedTwice(), "opqrgtuv");
  }

  lemma DigitFits(c: char)
    requires '1' <= c <= '4'
    ensures !HasId(GrantedTwice(), [c])
  {
    hide GrantedTwice, HasId, Lettered;
    TwiceLettered();
    DigitIsFresh(GrantedTwice(), "opqrgtuv", c);
  }

  lemma FreshIds(t: int, s: string)
    requires t in {1, 2}
    ensures Append(Duo(), GrantedTwice(), Note(t, s), {}).log == Noted(t, s) && Append(Duo(), GrantedTwice(), Note(t, s), {}).result.Ok?
    ensures !HasId(Noted(t, s), "2") && !HasId(Noted(t, s), "3") && !HasId(Noted(t, s), "4")
  {
    hide GrantedTwice, Note, Duo, Stored, HasId, Append, ValidEnvelope, Grant;
    NoteIs(t, s);
    DigitFits('1');
    DigitFits('2');
    DigitFits('3');
    DigitFits('4');
    assert ['1'] == "1" && ['2'] == "2" && ['3'] == "3" && ['4'] == "4";
    DigitEnvelope(Note(t, s));
    Appends(GrantedTwice(), Note(t, s));
  }

  lemma StandsLettered(log: Log, letters: string)
    requires StandsAt(log, letters, Discussion, 0)
    ensures Lettered(log, letters)
  {
  }

  lemma FirstLaunch(meta: Metadata, log: Log, req: Dispatch.Request, names: Dispatch.Names)
    ensures Dispatch.Launch(meta, log, req, names, 1, {})
            == Dispatch.Put(meta, Dispatch.Written(log, None), Dispatch.StartedEvent(meta, req, names, 1), {})
  {
    hide Dispatch.Put, Dispatch.StartedEvent, Dispatch.RetryEvent;
  }

  lemma StartAppends(t: int, s: string)
    requires t in {1, 2}
    ensures Append(Duo(), Noted(t, s), Start1(t, s), {}).log == Launched(t, s) && Append(Duo(), Noted(t, s), Start1(t, s), {}).result.Ok?
    ensures !HasId(Launched(t, s), "3") && !HasId(Launched(t, s), "4")
  {
    hide Noted, Req, Env, Duo, Stored, HasId, Append, ValidEnvelope, Start1, GrantedTwice, Note;
    FreshIds(t, s);
    RunnerEventsAre(t, s);
    DigitEnvelope(Start1(t, s));
    Appends(Noted(t, s), Start1(t, s));
  }

  lemma Launches(t: int, s: string)
    requires t in {1, 2}
    ensures Dispatch.Launch(Duo(), Noted(t, s), Req(t, s), Env(s).names, 1, {}) == Dispatch.Written(Launched(t, s), None)
    ensures !HasId(Launched(t, s), "3") && !HasId(Launched(t, s), "4")
  {
    hide Noted, Launched, Req, Env, Duo, HasId, Append, Dispatch.StartedEvent, Dispatch.Launch;
    FirstLaunch(Duo(), Noted(t, s), Req(t, s), Env(s).names);
    StartAppends(t, s);
  }

  lemma Succeeds(t: int, s: string)
    requires t in {1, 2}
    ensures Append(Duo(), Launched(t, s), Success(t, s), {}).log == Succeeded(t, s) && Append(Duo(), Launched(t, s), Success(t, s), {}).result.Ok?
    ensures !HasId(Succeeded(t, s), "4")
  {
    hide Launched, Noted, Success, Duo, Stored, HasId, Append, ValidEnvelope, Start1, Dispatch.Launch, Req, Env, Reply, RunStatus;
    Launches(t, s);
    RunnerEventsAre(t, s);
    DigitEnvelope(Success(t, s));
    Appends(Launched(t, s), Success(t, s));
  }

  lemma Utters(t: int, s: string)
    requires t in {1, 2}
    ensures Append(Duo(), Succeeded(t, s), Uttered(t, s), {}).log == Ended(t, s) && Append(Duo(), Succeeded(t, s), Uttered(t, s), {}).result.Ok?
  {
    hide Succeeded, Proposal, Duo, Stored, HasId, Append, ValidEnvelope, OpeningSpeech;
    Succeeds(t, s);
    ProposalIs(t, s);
    DigitEnvelope(Uttered(t, s));
    Appends(Succeeded(t, s), Uttered(t, s));
  }

  // ---- The validator ---------------------------------------------------------------------

  /** The first turn may be spoken for. */
  ghost predicate MaySpeak(log: Log) {
    && LatestPhase(log) == Discussion && ArgumentGraph.PriorSpeeches(log) == 0 && ArgumentGraph.ConsecutiveNewAxis(log) == 0
    && Scans.Granted(log, "amy", 1) && ArgumentGraph.SelectionOf(log, 1, "amy") == Some(Grant(1))
  }

  lemma StillSpeaks(log: Log, e: Event)
    requires MaySpeak(log) && e.typ != Speech && e.phase == Discussion && (e.typ == SpeakerSelected ==> e.payload.turn != 1)
    ensures MaySpeak(log + [e])
  {
    hide Grant;
    assert (log + [e])[..|log|] == log;
    var i :| 0 <= i < |log| && IsGrant(log[i], "amy", 1);
    assert IsGrant((log + [e])[i], "amy", 1);
  }

  lemma MoveKeeps(log: Log, longer: Log, actor: string, move: Council.Move)
    requires MaySpeak(log) && Adds(log, longer, actor, move) && move.phase == Discussion && move.payload.turn != 1 && move.typ != Speech
    ensures MaySpeak(longer)
  {
    hide MaySpeak;
    assert longer == log + [longer[|log|]];
    StillSpeaks(log, longer[|log|]);
  }

  lemma StoredNote(log: Log, e: Event)
    requires e.typ != Speech
    ensures Stored(Duo(), log, e).typ == e.typ && Stored(Duo(), log, e).phase == e.phase
  {
    hide Duo, SortStrings;
  }

  lemma GrantedMaySpeak()
    ensures MaySpeak(FullCouncil.Granted())
  {
    hide Raised, FullCouncil.Granted, Spoken, GrantedTwice, Duo, Carries, Adds, GrantMove, PollMove, RaiseMove, SpeakMove, Undrafted, NoResponse;
    FirstTurn();
    FirstGrantCarries();
    GrantIsSelection(FullCouncil.Granted(), 1);
  }

  lemma GrantedTwiceMaySpeak()
    ensures MaySpeak(GrantedTwice())
  {
    hide FullCouncil.Granted, PolledTwice, RaisedTwice, GrantedTwice, MaySpeak, StandsAt, Adds, PollMove, RaiseMove, GrantMove;
    GrantedMaySpeak();
    SecondGrant();
    MoveTypes('t', 2, 0);
    MoveKeeps(FullCouncil.Granted(), PolledTwice(), "mod", PollMove('t', 2));
    MoveKeeps(PolledTwice(), RaisedTwice(), "amy", RaiseMove(2, 0));
    MoveKeeps(RaisedTwice(), GrantedTwice(), "mod", GrantMove(2));
  }

  lemma LaunchedMaySpeak(t: int, s: string)
    requires t in {1, 2}
    ensures MaySpeak(Launched(t, s))
  {
    hide GrantedTwice, Note, Start1, Duo, Stored, MaySpeak;
    GrantedTwiceMaySpeak();
    NoteIs(t, s);
    RunnerEventsAre(t, s);
    StoredNote(GrantedTwice(), Note(t, s));
    StillSpeaks(GrantedTwice(), Stored(Duo(), GrantedTwice(), Note(t, s)));
    StoredNote(Noted(t, s), Start1(t, s));
    StillSpeaks(Noted(t, s), Stored(Duo(), Noted(t, s), Start1(t, s)));
  }

  lemma {:induction false} NoSpeechNoPost(log: Log, turn: int)
    requires ArgumentGraph.PriorSpeeches(log) == 0
    ensures !AlreadyPosted(log, "amy", turn)
  {
    hide Trim;
    if log != [] {
      NoSpeechNoPost(log[..|log| - 1], turn);
    }
  }

  lemma SpeakTransition(log: Log, spec: Council.CouncilSpec)
    requires MaySpeak(log) && spec.action == Council.Speak
    requires Council.ActorOf(Duo(), spec) == "amy" && Council.PayloadOf(spec) == OpeningSpeech()
    ensures Council.Transition(Duo(), log, spec) == Ok(SpeakMove(1, OpeningSpeech()))
  {
    hide Council.Transition, Council.ActorOf, Council.PayloadOf, Council.CommandIdOf, Duo, OpeningSpeech, Grant, ArgumentGraph.PriorSpeeches,
      ArgumentGraph.ConsecutiveNewAxis, ArgumentGraph.SelectionOf, Scans.Granted, AlreadyPosted, LatestPhase, Speakable, SpeakMove,
      ArgumentGraph.SpeechVerdict, Council.DecideSpeak;
    GrantParts(1);
    OpeningSpeakable();
    OpeningParts();
    VerdictIs(log, 1, OpeningSpeech());
    NoSpeechNoPost(log, 1);
    SpeakDecision(1, OpeningSpeech());
    SpeakIsDecided(Duo(), log, spec);
  }

  lemma OpeningParts()
    ensures OpeningSpeech().turn == 1 && !Blank(OpeningSpeech().graph.speech) && OpeningSpeech().council.closeout == []
    ensures NormalizeSpeech(OpeningSpeech()) == OpeningSpeech()
  {
    Words();
    hide Trim;
  }

  lemma CauseIsThere(t: int, s: string)
    requires t in {1, 2}
    ensures HasId(Launched(t, s), Grant(t).id)
  {
    hide GrantedTwice, Grant, Note, Start1, Duo, Stored;
    GrantThere(t);
    var i :| 0 <= i < |GrantedTwice()| && GrantedTwice()[i] == Grant(t);
    assert Launched(t, s)[i] == Grant(t);
  }

  lemma SpecIs(t: int, e: Event)
    requires e.commandId == [Letter(t)] && e.payload == OpeningSpeech() && Trim(e.causation) == e.causation != "" && e.createdAt == 0
    ensures var spec := SpeakSpec("amy", e);
            && spec.action == Council.Speak && Council.ActorOf(Duo(), spec) == "amy" && Council.PayloadOf(spec) == OpeningSpeech()
            && Council.CausationOf(spec) == e.causation
  {
    Words();
    OpeningParts();
    LetterTrims(Letter(t));
    hide Trim, NormalizeSpeech, Duo, OpeningSpeech;
    assert OpeningSpeech().council.closeout == [];
  }

  lemma SpeechBuilt(t: int, s: string)
    requires t in {1, 2}
    ensures var built := Council.BuildEvent(Duo(), Launched(t, s), SpeakSpec("amy", Proposal(t, s)));
            && built.Ok? && built.value.phase == Discussion && built.value.from == "amy" && built.value.to == ["mod"]
            && built.value.turn == Some(1) && built.value.payload == OpeningSpeech()
  {
    hide Launched, Proposal, Duo, Trim, Council.Transition, Council.ActorOf, Council.PayloadOf, Council.CausationOf, Council.CommandIdOf,
      HasId, SpeakSpec, OpeningSpeech, MaySpeak, EventIdFor, Grant;
    GrantParts(t);
    ProposalIs(t, s);
    SpecIs(t, Proposal(t, s));
    LaunchedMaySpeak(t, s);
    SpeakTransition(Launched(t, s), SpeakSpec("amy", Proposal(t, s)));
    CauseIsThere(t, s);
  }

  /** Where nothing has to be delivered, the speech is recorded as it was built. */
  lemma UnsentValid(meta: Metadata, send: string -> Result<Sent>, log: Log, e: Event)
    requires Council.BuildEvent(meta, log, SpeakSpec("amy", e)).Ok? && meta.surface == None
    requires Council.BuildEvent(meta, log, SpeakSpec("amy", e)).value.payload.runner.deliveries == []
    ensures var built := Council.BuildEvent(meta, log, SpeakSpec("amy", e)).value;
            ValidateSpeech(meta, "amy", send, log, e, true)
            == Ok(e.(phase := built.phase, from := built.from, to := built.to, turn := built.turn, payload := built.payload))
  {
    hide Council.BuildEvent, SpeakSpec, Trim;
  }

  lemma SpeechValid(t: int, s: string)
    requires t in {1, 2}
    ensures ValidateSpeech(Duo(), "amy", Env(s).send, Launched(t, s), Proposal(t, s), true) == Ok(Uttered(t, s))
  {
    hide Launched, Proposal, Duo, Council.BuildEvent, SpeakSpec, Trim, ValidateSpeech, Env, RunStatus, Grant, Letter;
    SpeechBuilt(t, s);
    ProposalIs(t, s);
    DuoParts();
    UnsentValid(Duo(), Env(s).send, Launched(t, s), Proposal(t, s));
  }

  lemma ReqValidates(t: int, s: string, log: Log, e: Event)
    ensures Req(t, s).validator.Some? && Req(t, s).validator.value(log, e, true) == ValidateSpeech(Duo(), "amy", Env(s).send, log, e, true)
  {
    hide ValidateSpeech, Grant, Duo, Trim;
  }

  lemma SuccessFinishes(meta: Metadata, log: Log, req: Dispatch.Request, names: Dispatch.Names, result: Dispatch.AdapterResult, terminal: Event)
    requires !result.discarded && !result.cancelled && !result.err && result.ok && result.semanticType == Some(Speech)
    requires req.allowed == [Speech] && Dispatch.SuccessTerminal(meta, log, req, names, 1, Speech, result) == Ok(terminal)
    ensures Dispatch.Decide(meta, log, req, names, 1, result) == Dispatch.Finish(terminal)
  {
    hide Dispatch.SuccessTerminal, Dispatch.Retryable;
  }

  lemma SuccessIs(t: int, s: string)
    requires t in {1, 2}
    ensures Dispatch.SuccessTerminal(Duo(), Launched(t, s), Req(t, s), Env(s).names, 1, Speech, Reply(s)) == Ok(Uttered(t, s))
  {
    hide Launched, Dispatch.TerminalEvent, Duo, ValidateSpeech, OpeningSpeech, Req, Env, RunStatus, Grant, Letter;
    ProposalIs(t, s);
    SpeechValid(t, s);
    ReqValidates(t, s, Launched(t, s), Proposal(t, s));
  }

  lemma Finishes(t: int, s: string)
    requires t in {1, 2}
    ensures Dispatch.Decide(Duo(), Launched(t, s), Req(t, s), Env(s).names, 1, Reply(s)) == Dispatch.Finish(Uttered(t, s))
  {
    hide Launched, Duo, OpeningSpeech, Req, Dispatch.Budget, Env, Uttered, Dispatch.SuccessTerminal, Dispatch.Decide, Dispatch.Preflight,
      Dispatch.CommandOf, Grant;
    ReqParts(t, s);
    SuccessIs(t, s);
    SuccessFinishes(Duo(), Launched(t, s), Req(t, s), Env(s).names, Reply(s), Uttered(t, s));
  }

  lemma AttemptEnds(t: int, s: string)
    requires t in {1, 2}
    ensures Dispatch.OneAttempt(Duo(), Noted(t, s), Req(t, s), Env(s).names, 1, Reply(s), {}) == Dispatch.Ended(Ended(t, s), Some(Uttered(t, s)), None)
  {
    hide Noted, Launched, Succeeded, Ended, Uttered, Dispatch.Launch, Dispatch.Decide, Append, Req, Env, Duo, Reply, Dispatch.SucceededEvent;
    Launches(t, s);
    Finishes(t, s);
    Succeeds(t, s);
    Utters(t, s);
  }

  lemma RunEnds(t: int, s: string)
    requires t in {1, 2}
    ensures Dispatch.DispatchRun(Duo(), Noted(t, s), Req(t, s), Env(s).names, Env(s).adapter, {})
            == (Ended(t, s), Dispatch.Report(1, ["run"], Some(Uttered(t, s)), None, false))
  {
    hide Noted, Ended, Uttered, Dispatch.OneAttempt, Dispatch.Preflight, Dispatch.Budget, Req, Duo, Reply;
    ReqParts(t, s);
    AttemptEnds(t, s);
    assert [] + ["run"] == ["run"];
  }

  // ---- The verdict -----------------------------------------------------------------------

  /** What the accounting looks at. */
  predicate Booked(typ: EventType) {
    typ in {SpeakerSelected, RunnerStarted, RunnerSucceeded, Speech, RunnerFailed, RunnerDiscarded, DispatchFailed}
  }

  /** On the books as a row that nothing has touched. */
  ghost predicate Listed(l: Books, e: Event) {
    e.id in l.grantIndex && RowFor(l, e.id) == NewRow(e)
  }

  lemma NoteLists(l: Books, e: Event, listed: Event)
    requires e.typ == SpeakerSelected || !Booked(e.typ)
    requires if listed == e then e.typ == SpeakerSelected else Listed(l, listed) && listed.id != e.id
    ensures Listed(Accounting.Note(l, {}, e), listed)
  {
    hide NewRow, NoteStarted, NoteSucceeded, NoteTerminal, NoteRunnerless, NoteRunnerSpeech;
  }

  lemma NoteNoRuns(l: Books, e: Event)
    requires e.typ == SpeakerSelected || !Booked(e.typ)
    ensures Accounting.Note(l, {}, e).invocationToGrant == l.invocationToGrant
  {
    hide NewRow, NoteStarted, NoteSucceeded, NoteTerminal, NoteRunnerless, NoteRunnerSpeech, Wired;
  }

  /** Grants alone are rows that nothing has touched. */
  lemma {:induction false} GrantsBooked(log: Log, i: nat)
    requires UniqueIds(log) && forall k :: 0 <= k < |log| && Booked(log[k].typ) ==> log[k].typ == SpeakerSelected
    requires i < |log| && log[i].typ == SpeakerSelected
    ensures Listed(Account({}, log), log[i])
  {
    hide Listed, Accounting.Note, Booked;
    var init, last := log[..|log| - 1], log[|log| - 1];
    if i < |init| {
      GrantsBooked(init, i);
      assert log[i].id != last.id;
    }
    NoteLists(Account({}, init), last, log[i]);
  }

  lemma {:induction false} NoRuns(log: Log)
    requires forall k :: 0 <= k < |log| && Booked(log[k].typ) ==> log[k].typ == SpeakerSelected
    ensures Account({}, log).invocationToGrant == map[]
  {
    hide Accounting.Note, Booked;
    if log != [] {
      NoRuns(log[..|log| - 1]);
      NoteNoRuns(Account({}, log[..|log| - 1]), log[|log| - 1]);
    }
  }

  lemma TwiceUnbooked(i: nat)
    requires i < |GrantedTwice()| && Booked(GrantedTwice()[i].typ)
    ensures GrantedTwice()[i].typ == SpeakerSelected
  {
    hide GrantedTwice;
    NothingDispatched();
  }

  lemma NotedBooks(t: int, s: string)
    requires t in {1, 2}
    ensures var l := Account({}, Noted(t, s));
            Grant(t).id in l.grantIndex && RowFor(l, Grant(t).id) == NewRow(Grant(t)) && l.invocationToGrant == map[]
  {
    hide Grant, Note, Duo, Stored, Account, NewRow, Booked, GrantedTwice, UniqueIds, Letter, SelectedMember, SelectedMemberOf, Trim;
    GrantParts(t);
    GrantThere(t);
    GrantedTwiceUnique();
    forall i: nat | i < |GrantedTwice()| && Booked(GrantedTwice()[i].typ) ensures GrantedTwice()[i].typ == SpeakerSelected {
      TwiceUnbooked(i);
    }
    var i :| 0 <= i < |GrantedTwice()| && GrantedTwice()[i] == Grant(t);
    GrantsBooked(GrantedTwice(), i);
    NoRuns(GrantedTwice());
    NoteIs(t, s);
    StoredNote(GrantedTwice(), Note(t, s));
    AccountingSafety.AccountSnoc({}, GrantedTwice(), Stored(Duo(), GrantedTwice(), Note(t, s)));
  }

  lemma RunIsNamed(s: string)
    ensures DispatchAccounting.WellNamed(Env(s).names)
  {
    TrimFixed("run");
    forall typ: EventType ensures Trim(RunId(typ)) == RunId(typ) {
      TrimFixed(RunId(typ));
    }
    hide Trim;
  }

  lemma FulfilsWhen(t: int, s: string)
    requires t in {1, 2}
    ensures DispatchRuns.RunnerFulfils(Noted(t, s), Grant(t), Env(s), 1) <==> t == 1 && s in {"", "succeeded"}
  {
    hide Grant, Noted, Scans.CurrentTurn, SelectedMember, SelectedMemberOf, Trim, Letter;
    GrantParts(t);
  }

  lemma GrantJudged(t: int, s: string)
    requires t in {1, 2}
    ensures var l := Account({}, Ended(t, s));
            && Grant(t).id in l.grantIndex
            && (Passes(Duo(), RowFor(l, Grant(t).id), l.linked) <==> t == 1 && s in {"", "succeeded"})
  {
    hide Noted, Ended, Uttered, Dispatch.DispatchRun, Duo, Account, NewRow, Passes, Grant, Trim, DispatchAccounting.WellNamed, SelectedMember,
      DispatchRuns.RunnerFulfils, Letter, Reply;
    RunEnds(t, s);
    NotedBooks(t, s);
    RunIsNamed(s);
    GrantParts(t);
    Words();
    UtteredSpeech(t, s);
    FulfilsWhen(t, s);
    DispatchRuns.SpokenGrantPassesExactly(Duo(), {}, Noted(t, s), Grant(t), "amy", Env(s));
  }

  lemma UtteredSpeech(t: int, s: string)
    requires t in {1, 2}
    ensures Uttered(t, s).typ == Speech && Uttered(t, s).causation == Grant(t).id
  {
    hide Proposal, OpeningSpeech, Grant;
    ProposalIs(t, s);
  }

  lemma EvidenceIs(t: int, s: string)
    requires t in {1, 2}
    ensures WithEvidence(Duo(), GrantedTwice(), Grant(t), Env(s)).log == Noted(t, s)
    ensures WithEvidence(Duo(), GrantedTwice(), Grant(t), Env(s)).result.Ok?
  {
    hide GrantedTwice, Grant, Duo, Noted, Append, PromptNote, EvidenceRecorded, Undispatched;
    FreshIds(t, s);
    NothingDispatched();
    NothingRecorded(GrantedTwice(), Grant(t).id);
  }

  lemma HandleIs(t: int, s: string)
    requires t in {1, 2}
    ensures GrantDispatch.Handle(Duo(), Noted(t, s), Grant(t), "amy", Env(s)) == Ended(t, s)
  {
    hide GrantedTwice, Grant, Duo, Ended, Noted, Dispatch.DispatchRun, Trim, Uttered, ValidateSpeech;
    GrantParts(t);
    LetterTrims(Letter(t));
    RunEnds(t, s);
  }

  lemma ReactionIs(t: int, s: string)
    requires t in {1, 2}
    ensures AfterGrant(Duo(), GrantedTwice(), Grant(t).id, Env(s)) == Ended(t, s)
  {
    hide GrantedTwice, Raised, Grant, Duo, EventById, Ended, Noted, DispatchRecorded, DispatchStarted, EvidenceRecorded,
      SelectedMemberOf, Undispatched, WithEvidence, GrantDispatch.Handle, Trim;
    GrantFound(t);
    GrantParts(t);
    NothingDispatched();
    NothingRecorded(GrantedTwice(), Grant(t).id);
    EvidenceIs(t, s);
    HandleIs(t, s);
  }

  predicate EndsInSpeech(log: Log, member: string, cause: string) {
    log != [] && log[|log| - 1].typ == Speech && log[|log| - 1].from == member && log[|log| - 1].causation == cause
  }

  /** Both turns are granted and nothing is dispatched yet. The reaction to either grant gets from the
      runner a successful "yes" to the first turn, under any semantic status. It always leads to a reachable
      log that ends in the member's speech for the grant. The accounting passes the grant when it is the
      first one and the status is that of a success; so it refuses a speech that answers the wrong grant,
      and one that the runner itself calls failed. */
  lemma SpokenAndJudged(t: int, s: string)
    requires t in {1, 2}
    ensures Reachable(Duo(), GrantedTwice()) && EventById(GrantedTwice(), Grant(t).id) == Some(Grant(t))
    ensures Grant(t).typ == SpeakerSelected && Grant(t).payload.turn == t && Reply(s).ok && Reply(s).payload == Some(OpeningSpeech())
    ensures AfterGrant(Duo(), GrantedTwice(), Grant(t).id, Env(s)) == Ended(t, s) && Reachable(Duo(), Ended(t, s))
    ensures EndsInSpeech(Ended(t, s), "amy", Grant(t).id)
    ensures var l := StatusReaders.AccountOf(Duo(), Ended(t, s));
            && Grant(t).id in l.grantIndex
            && (Passes(Duo(), RowFor(l, Grant(t).id), l.linked) <==> t == 1 && s in {"", "succeeded"})
  {
    hide GrantedTwice, Grant, Duo, AfterGrant, Account, Passes, Reachable, Stored, Succeeded, Uttered, StatusReaders.AccountOf, EventById,
      OpeningSpeech, Letter, SelectedMember, SelectedMemberOf, Ended;
    ReactionIs(t, s);
    GrantFound(t);
    GrantParts(t);
    GrantJudged(t, s);
    GrantedTwiceReachable();
    InDiscussion();
    DispatchRuns.ReactionReachable(Duo(), GrantedTwice(), Grant(t).id, Env(s));
    LastIsUttered(t, s);
    StatusReaders.EchoesNeverDecide(Duo(), {}, Ended(t, s), Grant(t).id);
  }

  lemma InDiscussion()
    ensures LatestPhase(GrantedTwice()) == Discussion
  {
    hide GrantedTwice;
    GrantedTwiceMaySpeak();
  }

  lemma LastIsUttered(t: int, s: string)
    requires t in {1, 2}
    ensures EndsInSpeech(Ended(t, s), "amy", Grant(t).id)
  {
    hide Succeeded, Proposal, Duo, OpeningSpeech, Grant, RuntimeRows, SortStrings, CouncilMembers;
    ProposalIs(t, s);
  }
}
