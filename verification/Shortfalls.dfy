/** Where the code falls short of what its guards suggest: for each such case a log that one session
    really reaches. */
module Shortfalls {
  import opened Prelude
  import opened Text
  import opened Events
  import opened Channel
  import opened Scans
  import opened Lifecycle
  import opened ArgumentGraph
  import opened AutoSpeaker
  import opened CouncilScript
  import opened CouncilRuns
  import opened FullCouncil
  import opened GraphSafety
  import opened StatusReaders
  import Council
  import Echoes
  import Verdict

  // ---- A padded contribution type --------------------------------------------------------

  lemma StandsPlain(log: Log, letters: string, phase: Phase, speeches: nat)
    requires StandsAt(log, letters, phase, speeches)
    ensures Plain(log) && PriorSpeeches(log) == speeches
  {
  }

  lemma LastIsPadded(log: Log, longer: Log)
    requires PriorSpeeches(log) == 1 && Adds(log, longer, "amy", SpeakMove(2, PaddedSpeech()))
    ensures SomePadded(Required(), longer)
  {
    PaddedTextTrims();
    hide Trim, PriorSpeeches;
    assert longer[..|log|] == log;
    assert PaddedNewAxis(Required(), longer[..|log|], longer[|log|]);
  }

  /** In quality_required mode the speech that answers the second grant is accepted, although it has no
      links and its contribution type is padded; the status reader then calls it an orphan. */
  lemma PaddedNewAxisReadsAsOrphan()
    ensures Reachable(Duo(), SpokenAgain()) && ResolvePolicy(Duo()) == Ok(Required()) && Required().mode == QualityRequired
    ensures Adds(GrantedAgain(), SpokenAgain(), "amy", SpeakMove(2, PaddedSpeech()))
    ensures SomePadded(Required(), SpokenAgain()) && JudgementOf(Duo(), Required(), SpokenAgain()).orphans != []
  {
    hide GrantedAgain, SpokenAgain, Duo, Required, Reachable, StandsAt, Adds, SomePadded, Echoes.VisibleEchoIds, Judge, ResolvePolicy,
      SpeakMove, PaddedSpeech;
    SecondTurnReachable();
    SecondTurn();
    DuoParts();
    StandsPlain(GrantedAgain(), "opqrgstuv", Discussion, 1);
    StandsPlain(SpokenAgain(), "opqrgstuvw", Discussion, 2);
    LastIsPadded(GrantedAgain(), SpokenAgain());
    NoRunnersNoEchoes(Duo(), SpokenAgain());
    QualityStatusSound(Duo(), Required(), SpokenAgain(), []);
  }

  // ---- A raise at the floor --------------------------------------------------------------

  function MoveTurn(move: Council.Move): int {
    Max(if move.turn.Some? then move.turn.value else 0, move.payload.turn)
  }

  lemma TurnSnoc(log: Log, longer: Log, actor: string, move: Council.Move)
    requires Adds(log, longer, actor, move)
    ensures CurrentTurn(longer) == Max(CurrentTurn(log), MoveTurn(move))
  {
    assert longer[..|longer| - 1] == log;
  }

  lemma MoveTurns(c: char, relevance: int)
    ensures MoveTurn(PrepareMove()) == 0 && MoveTurn(PollMove(c, 1)) == 1 == MoveTurn(RaiseMove(1, relevance))
    ensures PollMove(c, 1).typ == HandRaiseRequested
  {
    hide Council.WindowId, EventIdFor, Duo;
  }

  lemma {:induction false} NobodySpoke(log: Log)
    requires PriorSpeeches(log) == 0
    ensures LatestSpeaker(log) == ""
  {
    if log != [] {
      NobodySpoke(log[..|log| - 1]);
    }
  }

  lemma OnlyResponse(log: Log, polled: Log, raised: Log, e: Event)
    requires NoResponse(log, 1) && Adds(log, polled, "mod", PollMove('q', 1)) && Adds(polled, raised, "amy", RaiseMove(1, FLOOR))
    requires e in raised && e.typ == HandRaise && e.payload.turn == 1
    ensures e == raised[|polled|]
  {
    MoveTurns('q', FLOOR);
    hide PollMove, RaiseMove;
    forall i | 0 <= i < |polled| ensures raised[i].typ != HandRaise || raised[i].payload.turn != 1 {
      assert raised[i] == polled[i] && (i < |log| ==> polled[i] == log[i] && !IsResponse(log[i], 1));
    }
  }

  lemma FloorRaise(e: Event)
    requires Carries(e, "amy", RaiseMove(1, FLOOR))
    ensures e.typ == HandRaise && e.from == "amy" && e.payload.turn == 1 && e.payload.graph.targetLinks == Absent
    ensures e.payload.window == EMPTY_PAYLOAD.window.(relevance := FLOOR, wantsToSpeak := Some(true))
  {
  }

  lemma NoIntentNoBonus()
    ensures IntentBonus("") == 0
  {
  }

  lemma FloorScore(log: Log, e: Event)
    requires e.payload.graph.targetLinks == Absent
    requires e.payload.window == EMPTY_PAYLOAD.window.(relevance := FLOOR, wantsToSpeak := Some(true))
    ensures Score(log, e) == FLOOR
  {
    Words();
    NoIntentNoBonus();
    hide Trim, IntentBonus;
  }

  lemma FloorEligible(e: Event)
    requires e.typ == HandRaise && e.from == "amy" && e.payload.turn == 1
    requires e.payload.window == EMPTY_PAYLOAD.window.(relevance := FLOOR, wantsToSpeak := Some(true))
    ensures Eligible(Duo(), 1, e)
  {
    DuoParts();
    hide Duo, CouncilMember;
  }

  lemma StartHasNoTurn()
    ensures CurrentTurn(Start()) == 0
  {
    hide Duo;
    assert Start()[..0] == [];
  }

  lemma RaisedTurn()
    ensures CurrentTurn(Raised()) == 1
  {
    hide Prepared, Polled, Raised, StandsAt, Adds, Undrafted, NoResponse, CurrentTurn, PollMove, RaiseMove, PrepareMove, Start, MoveTurn,
      OpeningSpeech;
    PreparedStage();
    FirstTurn();
    StartHasNoTurn();
    MoveTurns('q', FLOOR);
    TurnSnoc(Start(), Prepared(), "mod", PrepareMove());
    TurnSnoc(Prepared(), Polled(), "mod", PollMove('q', 1));
    TurnSnoc(Polled(), Raised(), "amy", RaiseMove(1, FLOOR));
  }

  lemma RaisedScores()
    ensures |Raised()| > 0 && Eligible(Duo(), 1, Raised()[|Raised()| - 1]) && Raised()[|Raised()| - 1].from == "amy"
    ensures forall e :: e in Raised() && Eligible(Duo(), 1, e) ==> Score(Raised(), e) == FLOOR
  {
    hide Prepared, Polled, Raised, StandsAt, Undrafted, NoResponse, PollMove, RaiseMove, Score, Carries, Duo, OpeningSpeech;
    FirstTurn();
    var raise := Raised()[|Polled()|];
    FloorRaise(raise);
    FloorScore(Raised(), raise);
    FloorEligible(raise);
    forall e | e in Raised() && Eligible(Duo(), 1, e) ensures Score(Raised(), e) == FLOOR {
      OnlyResponse(Prepared(), Polled(), Raised(), e);
    }
  }

  /** The only raise of the turn is eligible, and its relevance puts its score at the floor. The automatic
      selection succeeds, names nobody, and so the grant that relies on it is refused. */
  lemma FloorRaiseNamesNobody()
    ensures Reachable(Duo(), Raised()) && QualityAware(Required()) && ResolvePolicy(Duo()) == Ok(Required())
    ensures Candidates(Duo(), Raised()) != []
    ensures AutoChoice(Duo(), Raised()).Ok? && AutoChoice(Duo(), Raised()).value.member == ""
    ensures Council.Transition(Duo(), Raised(), Ask(Council.Grant, "mod", 'g', PollPayload(1).(window := EMPTY_PAYLOAD.window.(auto := true))))
            == Err(BadPrincipal("member"))
  {
    hide Raised, Duo, Reachable, StandsAt, Adds, CurrentTurn, Score, Eligible, LatestSpeaker, Council.Transition, ResolvePolicy, Ask,
      AutoChoice, Candidates, RaiseMove, GrantMove, SpeakMove, PollMove;
    FirstTurnReachable();
    FirstTurn();
    DuoParts();
    RaisedTurn();
    RaisedScores();
    StandsPlain(Raised(), "opqr", Discussion, 0);
    NobodySpoke(Raised());
    ChosenNobody(Raised());
    AutoGrantRefused(Raised(), "opqr");
  }

  lemma ChosenNobody(log: Log)
    requires CurrentTurn(log) == 1 && LatestSpeaker(log) == ""
    requires log != [] && Eligible(Duo(), 1, log[|log| - 1]) && log[|log| - 1].from == "amy"
    requires forall e :: e in log && Eligible(Duo(), 1, e) ==> Score(log, e) == FLOOR
    ensures Candidates(Duo(), log) != [] && AutoChoice(Duo(), log).Ok? && AutoChoice(Duo(), log).value.member == ""
  {
    DuoParts();
    hide Duo, CurrentTurn, Score, Eligible, LatestSpeaker, BestOf;
    assert log[|log| - 1] in Candidates(Duo(), log);
    QualityAwareSelection(Duo(), log);
  }

  lemma AutoGrantRefused(log: Log, letters: string)
    requires StandsAt(log, letters, Discussion, 0) && AutoChoice(Duo(), log).Ok? && AutoChoice(Duo(), log).value.member == ""
    ensures Council.Transition(Duo(), log, Ask(Council.Grant, "mod", 'g', PollPayload(1).(window := EMPTY_PAYLOAD.window.(auto := true))))
            == Err(BadPrincipal("member"))
  {
    hide Duo, AutoChoice, Council.Transition, RaiseStance, CouncilMember, Trim, Plain, Council.ActorOf, Council.PayloadOf,
      Council.CommandIdOf, Ask;
    var payload := PollPayload(1).(window := EMPTY_PAYLOAD.window.(auto := true));
    Words();
    DuoParts();
    NobodyIsNoMember();
    AskParts(Council.Grant, "mod", 'g', payload);
    GrantIsDecided(Duo(), log, Ask(Council.Grant, "mod", 'g', payload));
  }

  lemma NobodyIsNoMember()
    ensures !CouncilMember(Duo(), "")
  {
    DuoParts();
    hide Duo, CouncilMembers;
  }

  // ---- A closeout without proof ----------------------------------------------------------

  lemma ClosedWithoutEvidence(balloted: Log, closed: Log)
    requires Adds(balloted, closed, "mod", FinalizeMove())
    ensures closed[|balloted|].typ == CouncilFinalized && !Council.HasSurfaceKey(closed[|balloted|].payload)
  {
  }

  /** The council is finalized with no word about its visible closeout, and from then on its lifecycle
      status says that the proof is missing. */
  lemma FinalizedWithoutProof()
    ensures Reachable(Duo(), Concluded()) && Concluded() != [] && Concluded()[|Concluded()| - 1].typ == CouncilFinalized
    ensures Verdict.Judge(LifecycleOf(Duo(), Concluded()), Verdict.LastTerminal(Concluded())) == Verdict.EndedWithout(Verdict.ProofMissing)
  {
    hide Balloted, Concluded, Duo, Reachable, Adds, LifecycleOf, Verdict.LastTerminal, Verdict.Judge, FinalizeMove, Council.HasSurfaceKey,
      Verdict.ProofOf;
    ClosingReachable();
    Closing();
    DuoParts();
    AddsOne(Balloted(), Concluded(), "mod", FinalizeMove());
    ClosedWithoutEvidence(Balloted(), Concluded());
    Verdict.FinalizedVerdictExactly(Duo(), Concluded(), |Balloted()|);
  }

  lemma AddsOne(log: Log, longer: Log, actor: string, move: Council.Move)
    requires Adds(log, longer, actor, move)
    ensures |longer| == |log| + 1
  {
  }
}
