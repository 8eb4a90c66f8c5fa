/** One session of the two-person council, request by request. On the way the only raise scores at the
    selection's floor, a speech is accepted that the status reader calls an orphan, and at the end the
    council is finalized without any evidence of a visible closeout. */
module FullCouncil {
  import opened Prelude
  import opened Text
  import opened Events
  import opened Channel
  import opened Scans
  import opened Lifecycle
  import opened ArgumentGraph
  import opened AutoSpeaker
  import opened ShortIds
  import opened CouncilScript
  import opened CouncilRuns
  import Council
  import CouncilSafety

  function Start(): Log {
    [Opening(Duo(), "o", "o", 0)]
  }

  function OpeningSpeech(): Payload {
    EMPTY_PAYLOAD.(turn := 1, graph := EMPTY_PAYLOAD.graph.(speech := "yes"))
  }

  /** A speech that opens a new axis without links, its contribution type padded with a space. */
  function PaddedSpeech(): Payload {
    EMPTY_PAYLOAD.(turn := 2, graph := EMPTY_PAYLOAD.graph.(
      speech := "yes", contribution := Present(" new_axis"), newAxisReason := "cost"))
  }

  // ---- The requests ----------------------------------------------------------------------

  function Prepared(): Log {
    Then(Start(), PrepareSpec('p'))
  }

  function Polled(): Log {
    Then(Prepared(), PollSpec('q', 1))
  }

  /** The first raise asks to speak with the lowest relevance that selection can still count. */
  function Raised(): Log {
    Then(Polled(), RaiseSpec('r', 1, FLOOR))
  }

  function Granted(): Log {
    Then(Raised(), GrantSpec('g', 1))
  }

  function Spoken(): Log {
    Then(Granted(), SpeechSpec('s', OpeningSpeech()))
  }

  function PolledAgain(): Log {
    Then(Spoken(), PollSpec('t', 2))
  }

  function RaisedAgain(): Log {
    Then(PolledAgain(), RaiseSpec('u', 2, 0))
  }

  function GrantedAgain(): Log {
    Then(RaisedAgain(), GrantSpec('v', 2))
  }

  function SpokenAgain(): Log {
    Then(GrantedAgain(), SpeechSpec('w', PaddedSpeech()))
  }

  function Proposed(): Log {
    Then(SpokenAgain(), ProposeSpec('x'))
  }

  function VoteOpened(): Log {
    Then(Proposed(), VoteRequestSpec('y'))
  }

  function Balloted(): Log {
    Then(VoteOpened(), VoteSpec('z'))
  }

  function Concluded(): Log {
    Then(Balloted(), FinalizeSpec('f'))
  }

  // ---- Every log of the session is reachable ---------------------------------------------

  lemma ThenReachable(log: Log, spec: Council.CouncilSpec)
    requires Reachable(Duo(), log)
    ensures Reachable(Duo(), Then(log, spec))
  {
    hide Reachable, Duo, Council.RecordCouncil;
    ApplyReachable(Duo(), log, CouncilRuns.Request(CouncilCommand(spec), {}));
  }

  lemma StartReachable()
    ensures Reachable(Duo(), Start())
  {
    hide Reachable, Opening, Duo;
    assert Opened(Duo(), Start());
    OpenedReachable(Duo(), Start());
  }

  lemma FirstTurnReachable()
    ensures Reachable(Duo(), Raised()) && Reachable(Duo(), Granted()) && Reachable(Duo(), Spoken())
  {
    hide Reachable, Then, Start, PrepareSpec, PollSpec, RaiseSpec, GrantSpec, SpeechSpec, OpeningSpeech;
    StartReachable();
    ThenReachable(Start(), PrepareSpec('p'));
    ThenReachable(Prepared(), PollSpec('q', 1));
    ThenReachable(Polled(), RaiseSpec('r', 1, FLOOR));
    ThenReachable(Raised(), GrantSpec('g', 1));
    ThenReachable(Granted(), SpeechSpec('s', OpeningSpeech()));
  }

  lemma SecondTurnReachable()
    ensures Reachable(Duo(), SpokenAgain())
  {
    FirstTurnReachable();
    hide Reachable, Then, Spoken, PollSpec, RaiseSpec, GrantSpec, SpeechSpec, PaddedSpeech;
    ThenReachable(Spoken(), PollSpec('t', 2));
    ThenReachable(PolledAgain(), RaiseSpec('u', 2, 0));
    ThenReachable(RaisedAgain(), GrantSpec('v', 2));
    ThenReachable(GrantedAgain(), SpeechSpec('w', PaddedSpeech()));
  }

  lemma ClosingReachable()
    ensures Reachable(Duo(), Balloted()) && Reachable(Duo(), Concluded())
  {
    SecondTurnReachable();
    hide Reachable, Then, SpokenAgain, ProposeSpec, VoteRequestSpec, VoteSpec, FinalizeSpec;
    ThenReachable(SpokenAgain(), ProposeSpec('x'));
    ThenReachable(Proposed(), VoteRequestSpec('y'));
    ThenReachable(VoteOpened(), VoteSpec('z'));
    ThenReachable(Balloted(), FinalizeSpec('f'));
  }

  // ---- What each request records ---------------------------------------------------------

  lemma StartStage()
    ensures StandsAt(Start(), "o", Created, 0) && Undrafted(Start()) && NoResponse(Start(), 1) && NoResponse(Start(), 2) && |Start()| == 1
  {
    hide Duo, StandsAt, Undrafted, NoResponse;
    FirstStands(Opening(Duo(), "o", "o", 0), 1);
    FirstStands(Opening(Duo(), "o", "o", 0), 2);
  }

  lemma PreparedStage()
    ensures Adds(Start(), Prepared(), "mod", PrepareMove()) && StandsAt(Prepared(), "op", Preparation, 0)
    ensures Undrafted(Prepared()) && NoResponse(Prepared(), 1) && NoResponse(Prepared(), 2)
  {
    StartStage();
    hide Start, Then, StandsAt, PrepareSpec, Adds, Undrafted, NoResponse;
    PrepareAdds(Start(), "o", 0, 'p');
    assert "o" + ['p'] == "op";
    AddsQuiet(Start(), Prepared(), "mod", PrepareMove(), 1);
    AddsQuiet(Start(), Prepared(), "mod", PrepareMove(), 2);
  }

  lemma OpeningSpeakable()
    ensures Speakable(OpeningSpeech(), 1, 0, 0) && OpeningSpeech().graph.contribution == Absent
  {
    Words();
    hide Trim;
  }

  lemma PaddedTextTrims()
    ensures Trim(" new_axis") == NEW_AXIS != " new_axis"
  {
    TrimFixed(NEW_AXIS);
    assert " new_axis"[1..] == NEW_AXIS;
    assert |" new_axis"| != |NEW_AXIS|;
  }

  lemma PaddedSpeakable()
    ensures Speakable(PaddedSpeech(), 2, 1, 0) && PaddedSpeech().graph.contribution != Present(NEW_AXIS)
  {
    Words();
    PaddedTextTrims();
    hide Trim;
  }

  /** What a turn leaves behind. */
  lemma TurnIsQuiet(log: Log, polled: Log, raised: Log, granted: Log, spoken: Log, p: char, t: int, relevance: int, speech: Payload, u: int)
    requires Adds(log, polled, "mod", PollMove(p, t)) && Adds(polled, raised, "amy", RaiseMove(t, relevance))
    requires Adds(raised, granted, "mod", GrantMove(t)) && Adds(granted, spoken, "amy", SpeakMove(t, speech))
    requires Undrafted(log) && speech.turn == t && speech.council.consensusRound == 0
    ensures Undrafted(spoken) && (u != t && NoResponse(log, u) ==> NoResponse(spoken, u))
  {
    hide Adds, Undrafted, NoResponse, Council.WindowId, EventIdFor, Duo;
    AddsQuiet(log, polled, "mod", PollMove(p, t), u);
    AddsQuiet(polled, raised, "amy", RaiseMove(t, relevance), u);
    AddsQuiet(raised, granted, "mod", GrantMove(t), u);
    AddsQuiet(granted, spoken, "amy", SpeakMove(t, speech), u);
  }

  lemma FirstTurn()
    ensures Adds(Prepared(), Polled(), "mod", PollMove('q', 1)) && Adds(Polled(), Raised(), "amy", RaiseMove(1, FLOOR))
    ensures Adds(Raised(), Granted(), "mod", GrantMove(1)) && Adds(Granted(), Spoken(), "amy", SpeakMove(1, OpeningSpeech()))
    ensures StandsAt(Raised(), "opqr", Discussion, 0) && StandsAt(Granted(), "opqrg", Discussion, 0) && StandsAt(Spoken(), "opqrgs", Discussion, 1)
    ensures Undrafted(Spoken()) && NoResponse(Spoken(), 2) && NoResponse(Prepared(), 1)
  {
    PreparedStage();
    OpeningSpeakable();
    hide Prepared, Then, StandsAt, PollSpec, RaiseSpec, GrantSpec, SpeechSpec, Adds, Undrafted, NoResponse, OpeningSpeech, Speakable,
      PollMove, RaiseMove, GrantMove, SpeakMove;
    TurnHeld(Prepared(), "op", Preparation, 0, 1, 'q', 'r', 'g', 's', FLOOR, OpeningSpeech());
    assert "op" + ['q'] + ['r'] == "opqr" && "opqr" + ['g'] == "opqrg" && "opqrg" + ['s'] == "opqrgs";
    FirstSpeechTurn();
    TurnIsQuiet(Prepared(), Polled(), Raised(), Granted(), Spoken(), 'q', 1, FLOOR, OpeningSpeech(), 2);
  }

  lemma FirstSpeechTurn()
    ensures OpeningSpeech().turn == 1 && OpeningSpeech().council.consensusRound == 0
    ensures PaddedSpeech().turn == 2 && PaddedSpeech().council.consensusRound == 0
  {
  }

  lemma SecondTurn()
    ensures Adds(Spoken(), PolledAgain(), "mod", PollMove('t', 2)) && Adds(PolledAgain(), RaisedAgain(), "amy", RaiseMove(2, 0))
    ensures Adds(RaisedAgain(), GrantedAgain(), "mod", GrantMove(2)) && Adds(GrantedAgain(), SpokenAgain(), "amy", SpeakMove(2, PaddedSpeech()))
    ensures StandsAt(GrantedAgain(), "opqrgstuv", Discussion, 1) && StandsAt(SpokenAgain(), "opqrgstuvw", Discussion, 2)
    ensures Undrafted(SpokenAgain())
  {
    FirstTurn();
    PaddedSpeakable();
    hide Spoken, Then, StandsAt, PollSpec, RaiseSpec, GrantSpec, SpeechSpec, Adds, Undrafted, NoResponse, PaddedSpeech, Speakable,
      PollMove, RaiseMove, GrantMove, SpeakMove;
    TurnHeld(Spoken(), "opqrgs", Discussion, 1, 2, 't', 'u', 'v', 'w', 0, PaddedSpeech());
    assert "opqrgs" + ['t'] + ['u'] + ['v'] == "opqrgstuv" && "opqrgstuv" + ['w'] == "opqrgstuvw";
    FirstSpeechTurn();
    TurnIsQuiet(Spoken(), PolledAgain(), RaisedAgain(), GrantedAgain(), SpokenAgain(), 't', 2, 0, PaddedSpeech(), 2);
  }

  // ---- The closing -----------------------------------------------------------------------

  lemma SessionTracked()
    ensures LifecycleOf(Duo(), SpokenAgain()).proposeReady
  {
    FirstTurn();
    SecondTurn();
    hide Prepared, Polled, Raised, Granted, Spoken, PolledAgain, RaisedAgain, GrantedAgain, SpokenAgain, StandsAt, Undrafted, NoResponse,
      Carries, Track, LifecycleOf, Progress, OpeningSpeech, PaddedSpeech, Duo;
    OpeningTracked(Prepared(), Polled(), 'q', 1);
    GrantTracked(Raised(), Granted(), 1);
    SpeechTracked(Granted(), Spoken(), 1, OpeningSpeech());
    GrantTracked(RaisedAgain(), GrantedAgain(), 2);
    SpeechTracked(GrantedAgain(), SpokenAgain(), 2, PaddedSpeech());
    TrackProgress(Duo(), Polled(), SpokenAgain());
    TrackProgress(Duo(), Spoken(), SpokenAgain());
    ProgressKeeps(Track(Duo(), Polled()), Track(Duo(), SpokenAgain()));
    ProgressKeeps(Track(Duo(), Spoken()), Track(Duo(), SpokenAgain()));
    ReadyToPropose(SpokenAgain());
  }

  lemma ProgressKeeps(a: Tracker, b: Tracker)
    requires Progress(a, b)
    ensures (a.openingId != "" ==> b.openingId != "") && a.turns <= b.turns
  {
  }

  lemma VoteOpens()
    ensures Adds(SpokenAgain(), Proposed(), "mod", ProposeMove()) && Adds(Proposed(), VoteOpened(), "mod", VoteRequestMove())
    ensures StandsAt(VoteOpened(), "opqrgstuvw" + ['x'] + ['y'], ConsensusVote, 2)
  {
    hide SpokenAgain, Then, StandsAt, Adds, Undrafted, LifecycleOf, LatestDraft, LatestRound, ProposeSpec, VoteRequestSpec,
      ProposeMove, VoteRequestMove, Duo, Voted;
    SecondTurn();
    SessionTracked();
    UndraftedScans(SpokenAgain());
    ProposeAdds(SpokenAgain(), "opqrgstuvw", 2, 'x');
    DraftScans(SpokenAgain(), Proposed());
    VoteRequestAdds(Proposed(), "opqrgstuvw" + ['x'], 2, 'y');
  }

  lemma MemberVotes()
    ensures Adds(VoteOpened(), Balloted(), "amy", VoteMove())
    ensures StandsAt(Balloted(), "opqrgstuvw" + ['x'] + ['y'] + ['z'], ConsensusVote, 2)
    ensures OpenVote(Balloted()) == Some((1, 1)) && Council.VotesPass(["amy"], Balloted(), 1, 1)
  {
    hide SpokenAgain, Proposed, VoteOpened, Then, StandsAt, Adds, Undrafted, OpenVote, VoteSpec, ProposeMove, VoteRequestMove, VoteMove,
      Duo, Council.VotesPass, Voted;
    SecondTurn();
    VoteOpens();
    OpenedScans(SpokenAgain(), Proposed(), VoteOpened());
    VoteAdds(VoteOpened(), "opqrgstuvw" + ['x'] + ['y'], 2, 'z');
    VoteScans(SpokenAgain(), Proposed(), VoteOpened(), Balloted());
  }

  lemma Closing()
    ensures Adds(Balloted(), Concluded(), "mod", FinalizeMove())
  {
    hide Balloted, Then, StandsAt, Adds, OpenVote, FinalizeSpec, FinalizeMove, Duo, Council.VotesPass, Reachable, LifecycleOf,
      Council.LifecycleDiagnostics;
    MemberVotes();
    ClosingReachable();
    CouncilSafety.LifecycleNeverBlocksFinalize(Duo(), Balloted());
    FinalizeAdds(Balloted(), "opqrgstuvw" + ['x'] + ['y'] + ['z'], 2, 'f');
  }
}
