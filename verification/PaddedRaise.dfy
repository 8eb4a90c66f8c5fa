/** A run in which a settled turn takes another raise, because its command id is padded. */
module PaddedRaise {
  import opened Prelude
  import opened Text
  import opened Events
  import opened Channel
  import opened Scans
  import opened Council
  import opened CouncilRuns
  import opened ResponseWindows
  import opened ShortIds
  import opened CouncilScript
  import opened FullCouncil
  import ArgumentGraph
  import AutoSpeaker

  /** The member's raise of the first turn again, its command id padded with a blank. */
  function Again(): CouncilSpec {
    CouncilSpec(RaiseHand, "amy", "r ", "", "", RaisePayload(1, 0), 0)
  }

  lemma PaddedIdTrims()
    ensures Trim("r ") == "r" && !Blank("r ")
  {
    assert "r "[..1] == "r";
    assert TrimLeft("r ") == "r ";
    assert TrimRight("r ") == TrimRight("r") == "r";
  }

  lemma AgainParts()
    ensures ActorOf(Duo(), Again()) == "amy" && CommandIdOf(Again()) == "r " && PayloadOf(Again()) == RaisePayload(1, 0)
    ensures CausationOf(Again()) == "" && Again().action == RaiseHand && Again().now == 0 && RaisePayload(1, 0).turn == 1
    ensures RaisePayload(1, 0).graph.targetLinks == Absent
  {
    Words();
    PaddedIdTrims();
    hide Trim;
  }

  // ---- The turn is settled ---------------------------------------------------------------

  lemma PollOpens(polled: Log)
    requires polled != [] && Carries(polled[|polled| - 1], "mod", PollMove('q', 1))
    ensures LatestWindow(polled, 1).Some?
  {
    hide Duo, WindowId, EventIdFor;
  }

  lemma AmyAnswers(e: Event)
    requires Carries(e, "amy", RaiseMove(1, AutoSpeaker.FLOOR))
    ensures e.typ == HandRaise && IsResponse(e, 1) && Responder(e) == "amy" && !OpensWindow(e, 1)
  {
    Words();
    hide Trim;
  }

  lemma SettledByRaise(polled: Log, raised: Log)
    requires polled != [] && Carries(polled[|polled| - 1], "mod", PollMove('q', 1))
    requires Adds(polled, raised, "amy", RaiseMove(1, AutoSpeaker.FLOOR))
    ensures Settled(Duo(), raised, 1) && raised[|polled|].typ == HandRaise
  {
    hide Duo, CouncilMembers, PollMove, RaiseMove, Carries, Responder, IsResponse, OpensWindow;
    DuoParts();
    PollOpens(polled);
    AmyAnswers(raised[|polled|]);
    assert raised[..|raised| - 1] == polled;
    assert "amy" in Responders(raised, 1);
    assert ["amy"][1..] == [];
  }

  lemma RaisedStands()
    ensures StandsAt(Raised(), "opqr", Discussion, 0) && Settled(Duo(), Raised(), 1)
    ensures |Raised()| == 4 && Raised()[3].typ == HandRaise && Raised()[3].commandId == "r"
  {
    hide Prepared, Polled, Raised, Duo, StandsAt, Settled, Undrafted, NoResponse, PollMove, RaiseMove, GrantMove, SpeakMove, Carries,
      OpeningSpeech, Spoken, FullCouncil.Granted;
    FirstTurn();
    SettledByRaise(Polled(), Raised());
    LettersOf(Raised(), "opqr");
  }

  lemma LettersOf(log: Log, letters: string)
    requires StandsAt(log, letters, Discussion, 0)
    ensures Lettered(log, letters) && Plain(log) && LatestPhase(log) == Discussion && |log| == |letters|
    ensures forall i :: 0 <= i < |log| ==> log[i].commandId == [letters[i]]
  {
    hide Plain, LatestPhase, ArgumentGraph.PriorSpeeches, ArgumentGraph.ConsecutiveNewAxis;
  }

  // ---- And takes the raise again ---------------------------------------------------------

  lemma AgainAccepted(log: Log)
    requires StandsAt(log, "opqr", Discussion, 0) && |log| == 4 && log[3].typ == HandRaise && log[3].commandId == "r"
    ensures Transition(Duo(), log, Again()) == Ok(RaiseMove(1, 0))
  {
    hide Duo, Again, Transition, DecideRaise, RaiseMove, WindowAccepts, ResponseConflict, ActorOf, PayloadOf, CommandIdOf, Trim, StandsAt,
      LatestPhase, Plain, RaisePayload, Lettered;
    LettersOf(log, "opqr");
    AgainParts();
    PaddedIdTrims();
    NoConflict(log, "r ", 1);
    assert SameCommandType(log, "r ", HandRaise);
    RaiseDecision(1, 0, true, WindowAccepts(log, 1, 0));
    RaiseIsDecided(Duo(), log, Again());
  }

  lemma PaddedId()
    ensures var id := EventIdFor(IdPrefix(HandRaise), "r ");
            id != "" && id[|id| - 1] == '_'
  {
    assert CleanId("r ") == "r_";
  }

  lemma PaddedIdIsFresh(log: Log)
    requires Lettered(log, "opqr")
    ensures FirstWithCommand(log, "r ") == None && !HasId(log, EventIdFor(IdPrefix(HandRaise), "r "))
  {
    hide IdPrefix, EventIdFor;
    PaddedId();
    assert '_' !in "opqr";
    forall i | 0 <= i < |log| ensures log[i].commandId != "r " {
      assert |log[i].commandId| == 1;
    }
  }

  lemma AgainEnvelope()
    ensures ValidEnvelope(Duo(), EventOf(Duo(), Again(), RaiseMove(1, 0)))
  {
    hide Trim, CleanId, Duo, PrincipalAllowed, ValidRecipients, Again, ActorOf, CommandIdOf, CausationOf, PayloadOf, IdPrefix;
    DuoParts();
    AgainParts();
    PrefixStarts(HandRaise);
    var e := EventOf(Duo(), Again(), RaiseMove(1, 0));
    assert e.id[0] == 'e';
    NotBlank(e.id);
  }

  lemma AgainRecorded(log: Log)
    requires StandsAt(log, "opqr", Discussion, 0) && |log| == 4 && log[3].typ == HandRaise && log[3].commandId == "r"
    ensures var e := EventOf(Duo(), Again(), RaiseMove(1, 0));
            RecordCouncil(Duo(), log, Again(), {}).log == log + [e.(to := SortStrings(e.to))]
  {
    hide Duo, Again, Transition, RaiseMove, ActorOf, PayloadOf, CommandIdOf, CausationOf, StandsAt, Lettered, Plain, ValidEnvelope,
      EventIdFor, HasId, FirstWithCommand, SortStrings, RaisePayload;
    LettersOf(log, "opqr");
    AgainParts();
    AgainAccepted(log);
    AgainEnvelope();
    PaddedIdIsFresh(log);
    RaiseTyp();
  }

  lemma RaiseTyp()
    ensures RaiseMove(1, 0).typ == HandRaise && RaiseMove(1, 0).payload.turn == 1
  {
  }

  /** A whole run: prepare, poll, raise, and the raise again under the padded id. The log in which
      the turn is settled is reachable, and the last request adds another answer to it. */
  lemma SettledTurnTakesPaddedRaise()
    ensures Reachable(Duo(), Raised()) && Settled(Duo(), Raised(), 1)
    ensures var after := Apply(Duo(), Raised(), CouncilRuns.Request(CouncilCommand(Again()), {}));
            |after| == |Raised()| + 1 && Raised() <= after && ParticipantAnswer(after[|Raised()|], 1)
            && SameCommandType(Raised(), after[|Raised()|].commandId, HandRaise)
  {
    hide RecordCouncil, Settled, Raised, RaiseMove, Reachable, Duo, StandsAt, ActorOf, CommandIdOf, CausationOf, EventIdFor, IdPrefix, Trim,
      SortStrings;
    FirstTurnReachable();
    RaisedStands();
    AgainRecorded(Raised());
    AgainParts();
    RaiseTyp();
    PaddedIdTrims();
    assert Raised()[3].commandId == Trim("r ");
  }
}
