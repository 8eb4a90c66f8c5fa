/** What every reachable council log guarantees. */
module CouncilSafety {
  import opened Prelude
  import opened Text
  import opened Events
  import opened Channel
  import opened Scans
  import opened Lifecycle
  import opened CouncilRuns
  import Council

  // ---- Terminal phases absorb ------------------------------------------------------------

  lemma PhaseStep(meta: Metadata, log: Log, j: nat)
    requires History(meta, log) && 0 < j < |log|
    ensures Terminal(log[j - 1].phase) ==> log[j].phase == log[j - 1].phase && KeepsPhase(log[j].typ)
  {
    hide ContentJustified, FreshCommand, HasId, Terminal, KeepsPhase;
    assert Justified(meta, log[..j], log[j]);
    assert log[..j][|log[..j]| - 1] == log[j - 1];
  }

  /** Once a terminal phase is reached it stays, and only bookkeeping follows it. */
  lemma {:induction false} TerminalAbsorbs(meta: Metadata, log: Log, i: nat, j: nat)
    requires History(meta, log) && i < j < |log| && Terminal(log[i].phase)
    ensures log[j].phase == log[i].phase && KeepsPhase(log[j].typ)
  {
    hide History, Terminal, KeepsPhase;
    if i + 1 < j {
      TerminalAbsorbs(meta, log, i, j - 1);
    }
    PhaseStep(meta, log, j);
  }

  predicate ClosesCouncil(e: Event) {
    e.typ in {CouncilFinalized, CouncilUnresolved, SessionCancelled}
  }

  /** A council is closed at most once, and its cached phase never differs from its log. */
  lemma ClosedOnce(meta: Metadata, log: Log, i: nat, j: nat)
    requires Reachable(meta, log) && i < |log| && j < |log|
    requires Terminal(log[i].phase) && ClosesCouncil(log[j]) && i != j
    ensures j < i
    ensures CachedPhase(log) == LatestPhase(log)
  {
    hide Justified;
    ReachableHistory(meta, log);
    if i < j {
      TerminalAbsorbs(meta, log, i, j);
    }
    CachedIsLatest(meta, log);
  }

  lemma {:induction false} CachedIsLatest(meta: Metadata, log: Log)
    requires History(meta, log)
    ensures CachedPhase(log) == LatestPhase(log)
  {
    hide ContentJustified, FreshCommand, HasId;
    if log != [] {
      var init := log[..|log| - 1];
      HistoryPrefix(meta, log, |log| - 1);
      CachedIsLatest(meta, init);
      assert Justified(meta, log[..|log| - 1], log[|log| - 1]);
    }
  }

  /** Event ids never repeat. */
  lemma HistoryUniqueIds(meta: Metadata, log: Log)
    requires History(meta, log)
    ensures UniqueIds(log)
  {
    hide ContentJustified, FreshCommand, PhaseJustified;
    forall i, j | 0 <= i < j < |log| ensures log[i].id != log[j].id {
      assert Justified(meta, log[..j], log[j]);
      assert log[..j][i] == log[i];
    }
  }

  // ---- Drafts ----------------------------------------------------------------------------

  function DraftCount(log: Log): nat {
    if log == [] then 0 else DraftCount(log[..|log| - 1]) + if log[|log| - 1].typ == DraftRecorded then 1 else 0
  }

  lemma DraftIsNext(meta: Metadata, log: Log, k: nat)
    requires History(meta, log) && k < |log|
    ensures log[k].typ == DraftRecorded ==> DraftOf(log[k]) == LatestDraft(log[..k]) + 1
  {
    hide LifecycleOf, PhaseJustified, FreshCommand, HasId, LatestDraft;
    assert Justified(meta, log[..k], log[k]);
  }

  /** The k-th draft carries version k, whatever was blocked and resumed in between. */
  lemma {:induction false} DraftsAreNumbered(meta: Metadata, log: Log)
    requires History(meta, log)
    ensures LatestDraft(log) == DraftCount(log)
  {
    hide History, LatestRound, OpenVote;
    if log != [] {
      HistoryPrefix(meta, log, |log| - 1);
      DraftsAreNumbered(meta, log[..|log| - 1]);
      DraftIsNext(meta, log, |log| - 1);
    }
  }

  /** A log with a draft has the opening, every discussion turn and every closeout. */
  lemma {:induction false} DraftMeansReady(meta: Metadata, log: Log)
    requires History(meta, log) && Configured(meta) && LatestDraft(log) > 0
    ensures LifecycleOf(meta, log).proposeReady
  {
    hide LifecycleOf, PhaseJustified, FreshCommand, HasId, Configured;
    var init, e := log[..|log| - 1], log[|log| - 1];
    HistoryPrefix(meta, log, |log| - 1);
    assert Justified(meta, init, e);
    if LatestDraft(init) > 0 {
      DraftMeansReady(meta, init);
    }
    ReadinessMonotone(meta, init, log);
  }

  // ---- Votes -----------------------------------------------------------------------------

  /** The open vote request is the last one, and no draft follows it. */
  ghost predicate OpenedAt(log: Log, r: nat) {
    && r < |log| && log[r].typ == VoteRequested
    && OpenVote(log) == Some((log[r].payload.council.draftVersion, log[r].payload.council.consensusRound))
    && forall i :: r < i < |log| ==> log[i].typ != DraftRecorded && log[i].typ != VoteRequested
  }

  lemma {:induction false} OpenVoteAt(log: Log) returns (r: nat)
    requires OpenVote(log).Some?
    ensures OpenedAt(log, r)
  {
    if log[|log| - 1].typ == VoteRequested {
      r := |log| - 1;
    } else {
      r := OpenVoteAt(log[..|log| - 1]);
    }
  }

  lemma {:induction false} LatestDraftFlat(log: Log, n: nat)
    requires n <= |log|
    requires forall i :: n <= i < |log| ==> log[i].typ != DraftRecorded
    ensures LatestDraft(log) == LatestDraft(log[..n])
  {
    if n < |log| {
      assert log[..|log| - 1][..n] == log[..n];
      LatestDraftFlat(log[..|log| - 1], n);
    } else {
      assert log[..n] == log;
    }
  }

  lemma {:induction false} VoteAt(log: Log, member: string, draft: int, round: int) returns (j: nat)
    requires VoteOf(log, member, draft, round) != NoVote
    ensures j < |log| && IsVote(log[j], draft, round) && log[j].from == member
    ensures log[j].payload.council.vote == VoteOf(log, member, draft, round)
  {
    if IsVote(log[|log| - 1], draft, round) && log[|log| - 1].from == member {
      j := |log| - 1;
    } else {
      j := VoteAt(log[..|log| - 1], member, draft, round);
    }
  }

  lemma VoteIsFirst(meta: Metadata, log: Log, j: nat)
    requires History(meta, log) && j < |log| && log[j].typ == VoteCast
    ensures !Voted(log[..j], log[j].from, log[j].payload.council.draftVersion, log[j].payload.council.consensusRound)
  {
    hide PhaseJustified, FreshCommand, HasId, OpenVote;
    assert Justified(meta, log[..j], log[j]);
  }

  /** Nobody votes twice in a round. */
  lemma OneVotePerRound(meta: Metadata, log: Log, i: nat, j: nat)
    requires History(meta, log) && i < |log| && j < |log|
    requires log[i].typ == VoteCast && log[i].from == log[j].from
    requires IsVote(log[j], log[i].payload.council.draftVersion, log[i].payload.council.consensusRound)
    ensures i == j
  {
    hide History;
    if i < j {
      assert log[..j][i] == log[i];
      VoteIsFirst(meta, log, j);
    } else if j < i {
      assert log[..i][j] == log[j];
      VoteIsFirst(meta, log, i);
    }
  }

  /** The ballot of one member: exactly one in the whole log, after the request and before the
      finalization, and not a block. */
  ghost predicate SoleBallot(log: Log, r: nat, k: nat, member: string, draft: int, round: int) {
    exists j :: r < j < k <= |log| && IsVote(log[j], draft, round) && log[j].from == member
      && log[j].payload.council.vote in {Approve, ApproveWithConditions, Abstain}
      && forall i :: 0 <= i < |log| && IsVote(log[i], draft, round) && log[i].from == member ==> i == j
  }

  /** The request at `r` entitles the event at `k` to finalize. */
  ghost predicate Mandate(meta: Metadata, log: Log, r: nat, k: nat) {
    && r < k <= |log| && log[r].typ == VoteRequested
    && var draft, round := log[r].payload.council.draftVersion, log[r].payload.council.consensusRound;
    && (exists i :: 0 <= i < r && log[i].typ == DraftRecorded && DraftOf(log[i]) == draft)
    && (forall i :: 0 <= i < |log| && log[i].typ == DraftRecorded ==> i < r && DraftOf(log[i]) <= draft)
    && (forall i :: 0 <= i < r ==> log[i].payload.council.consensusRound < round)
    && (forall m :: m in CouncilMembers(meta) ==> SoleBallot(log, r, k, m, draft, round))
  }

  lemma {:induction false} LatestDraftExists(log: Log)
    requires LatestDraft(log) > 0
    ensures exists i :: 0 <= i < |log| && log[i].typ == DraftRecorded && DraftOf(log[i]) == LatestDraft(log)
  {
    var init := log[..|log| - 1];
    if LatestDraft(init) == LatestDraft(log) {
      LatestDraftExists(init);
      var i :| 0 <= i < |init| && init[i].typ == DraftRecorded && DraftOf(init[i]) == LatestDraft(init);
      assert log[i] == init[i];
    } else {
      assert DraftOf(log[|log| - 1]) == LatestDraft(log);
    }
  }

  lemma VoteHistory(meta: Metadata, log: Log, j: nat)
    requires History(meta, log) && j < |log| && log[j].typ == VoteCast
    ensures VoteJustified(meta, log[..j], log[j])
  {
    hide PhaseJustified, FreshCommand, HasId, VoteJustified;
    assert Justified(meta, log[..j], log[j]);
  }

  lemma {:induction false} BallotFound(meta: Metadata, log: Log, r: nat, k: nat, member: string)
    requires History(meta, log) && k < |log| && OpenedAt(log[..k], r)
    requires VoteOf(log[..k], member, log[r].payload.council.draftVersion, log[r].payload.council.consensusRound) !in {NoVote, BlockVote}
    requires forall i :: 0 <= i < r ==> log[i].payload.council.consensusRound < log[r].payload.council.consensusRound
    ensures SoleBallot(log, r, k, member, log[r].payload.council.draftVersion, log[r].payload.council.consensusRound)
  {
    hide History, OpenVote, Voted, VoteOf;
    var draft, round := log[r].payload.council.draftVersion, log[r].payload.council.consensusRound;
    var j := VoteAt(log[..k], member, draft, round);
    assert log[..k][j] == log[j];
    VoteHistory(meta, log, j);
    forall i | 0 <= i < |log| && IsVote(log[i], draft, round) && log[i].from == member ensures i == j {
      OneVotePerRound(meta, log, i, j);
    }
  }

  lemma NoDraftAfterFinal(meta: Metadata, log: Log, k: nat, i: nat)
    requires History(meta, log) && k < i < |log| && log[k].typ == CouncilFinalized
    ensures log[i].typ != DraftRecorded
  {
    hide FreshCommand, HasId, OpenVote, Council.VotesPass;
    assert Justified(meta, log[..k], log[k]);
    TerminalAbsorbs(meta, log, k, i);
  }

  lemma RequestHistory(meta: Metadata, log: Log, r: nat)
    requires History(meta, log) && r < |log| && log[r].typ == VoteRequested
    ensures VoteRequestJustified(log[..r], log[r])
  {
    hide PhaseJustified, FreshCommand, HasId, VoteRequestJustified;
    assert Justified(meta, log[..r], log[r]);
  }

  /** A vote request outdoes every draft and every round before it. */
  lemma RequestIsLatest(meta: Metadata, log: Log, r: nat)
    requires History(meta, log) && r < |log| && log[r].typ == VoteRequested
    ensures exists i :: 0 <= i < r && log[i].typ == DraftRecorded && DraftOf(log[i]) == log[r].payload.council.draftVersion
    ensures forall i :: 0 <= i < r ==> DraftOf(log[i]) <= log[r].payload.council.draftVersion
    ensures forall i :: 0 <= i < r ==> log[i].payload.council.consensusRound < log[r].payload.council.consensusRound
  {
    hide History, LatestDraft, LatestRound;
    RequestHistory(meta, log, r);
    LatestDraftExists(log[..r]);
    forall i | 0 <= i < r
      ensures DraftOf(log[i]) <= log[r].payload.council.draftVersion
      ensures log[i].payload.council.consensusRound < log[r].payload.council.consensusRound
    {
      assert log[..r][i] == log[i];
    }
  }

  lemma DraftsPrecedeRequest(meta: Metadata, log: Log, r: nat, k: nat, i: nat)
    requires History(meta, log) && k < |log| && log[k].typ == CouncilFinalized && OpenedAt(log[..k], r)
    requires i < |log| && log[i].typ == DraftRecorded
    ensures i < r
  {
    hide History, OpenVote;
    if i > k {
      NoDraftAfterFinal(meta, log, k, i);
    }
    assert i < k ==> log[..k][i] == log[i];
    assert log[..k][r] == log[r];
  }

  lemma FinalVotesPass(meta: Metadata, log: Log, k: nat)
    requires History(meta, log) && k < |log| && log[k].typ == CouncilFinalized
    ensures FinalJustified(meta, log[..k], log[k])
  {
    hide PhaseJustified, FreshCommand, HasId, FinalJustified;
    assert Justified(meta, log[..k], log[k]);
  }

  lemma MandateFound(meta: Metadata, log: Log, k: nat)
    requires History(meta, log) && k < |log| && log[k].typ == CouncilFinalized
    ensures exists r: nat :: Mandate(meta, log, r, k)
  {
    hide History, OpenVote, VoteOf, CouncilMembers;
    FinalVotesPass(meta, log, k);
    var r := OpenVoteAt(log[..k]);
    assert log[..k][r] == log[r];
    RequestIsLatest(meta, log, r);
    forall i | 0 <= i < |log| && log[i].typ == DraftRecorded ensures i < r {
      DraftsPrecedeRequest(meta, log, r, k, i);
    }
    forall m | m in CouncilMembers(meta)
      ensures SoleBallot(log, r, k, m, log[r].payload.council.draftVersion, log[r].payload.council.consensusRound)
    {
      BallotFound(meta, log, r, k, m);
    }
    assert Mandate(meta, log, r, k);
  }

  /** If a reachable log is finalized, some vote request names the highest draft, no draft ever
      follows it, its round is larger than every earlier one, and each member has exactly one
      ballot for it, cast between the request and the finalization, that is not a block. */
  lemma FinalizeSafety(meta: Metadata, log: Log, k: nat)
    requires Reachable(meta, log) && k < |log| && log[k].typ == CouncilFinalized
    ensures exists r: nat :: Mandate(meta, log, r, k)
  {
    hide History, Reachable, Mandate;
    ReachableHistory(meta, log);
    MandateFound(meta, log, k);
  }

  /** While a vote is open the lifecycle part of the finalize check cannot fail. */
  lemma LifecycleNeverBlocksFinalize(meta: Metadata, log: Log)
    requires Reachable(meta, log) && OpenVote(log).Some?
    ensures Council.LifecycleDiagnostics(LifecycleOf(meta, log)) == []
  {
    hide PhaseJustified, FreshCommand, HasId, Reachable, Justified;
    ReachableHistory(meta, log);
    var r := OpenVoteAt(log);
    OpenVoteNeedsDraft(meta, log, r);
    if Configured(meta) {
      DraftMeansReady(meta, log);
    }
  }

  lemma RequestNeedsDraft(meta: Metadata, log: Log, r: nat)
    requires History(meta, log) && r < |log| && log[r].typ == VoteRequested
    ensures LatestDraft(log[..r]) > 0
  {
    hide History, LatestRound, LatestDraft;
    RequestHistory(meta, log, r);
  }

  lemma OpenVoteNeedsDraft(meta: Metadata, log: Log, r: nat)
    requires History(meta, log) && OpenedAt(log, r)
    ensures LatestDraft(log) > 0
  {
    hide History, OpenVote, LatestDraft;
    RequestNeedsDraft(meta, log, r);
    LatestDraftFlat(log, r);
  }

  // ---- Speaking --------------------------------------------------------------------------

  ghost predicate SpeaksAfter(log: Log, h: nat, g: nat, k: nat) {
    && h < g < k < |log|
    && IsRaiseBy(log[h], log[k].from, log[k].payload.turn) && StanceOf(log[h]) != ""
    && log[g].typ == SpeakerSelected && log[g].payload.turn == log[k].payload.turn
    && log[g].payload.member == log[k].from && log[g].to == [log[k].from]
  }

  lemma {:induction false} RaiseAt(log: Log, member: string, turn: int) returns (h: nat)
    requires RaiseStance(log, member, turn) != ""
    ensures h < |log| && IsRaiseBy(log[h], member, turn) && StanceOf(log[h]) != ""
  {
    if IsRaiseBy(log[|log| - 1], member, turn) {
      h := |log| - 1;
    } else {
      h := RaiseAt(log[..|log| - 1], member, turn);
    }
  }

  lemma GrantBefore(meta: Metadata, log: Log, k: nat) returns (g: nat)
    requires History(meta, log) && k < |log| && log[k].typ == Speech
    ensures g < k && IsGrant(log[g], log[k].from, log[k].payload.turn)
  {
    hide PhaseJustified, FreshCommand, HasId, ArgumentGraph.SpeechVerdict;
    assert Justified(meta, log[..k], log[k]);
    hide Justified, History;
    g :| 0 <= g < k && IsGrant(log[..k][g], log[k].from, log[k].payload.turn);
    assert log[..k][g] == log[g];
  }

  lemma RaiseBefore(meta: Metadata, log: Log, g: nat) returns (h: nat)
    requires History(meta, log) && g < |log| && log[g].typ == SpeakerSelected
    ensures h < g && IsRaiseBy(log[h], log[g].payload.member, log[g].payload.turn) && StanceOf(log[h]) != ""
    ensures log[g].to == [log[g].payload.member]
  {
    hide PhaseJustified, FreshCommand, HasId, RaiseStance, Trim, StanceOf, IsRaiseBy;
    assert Justified(meta, log[..g], log[g]);
    hide Justified, History;
    BlankIsNotStance(log[..g], log[g].payload.member, log[g].payload.turn);
    h := RaiseAt(log[..g], log[g].payload.member, log[g].payload.turn);
    assert log[..g][h] == log[h];
  }

  /** Every speech follows a grant of its turn to its speaker, and that grant follows a raise with
      a stance by the same member for the same turn. */
  lemma SpeechFollowsGrantFollowsRaise(meta: Metadata, log: Log, k: nat)
    requires Reachable(meta, log) && k < |log| && log[k].typ == Speech
    ensures exists h: nat, g: nat :: SpeaksAfter(log, h, g, k)
  {
    hide Reachable, History, Trim, StanceOf;
    ReachableHistory(meta, log);
    var g := GrantBefore(meta, log, k);
    var h := RaiseBefore(meta, log, g);
    assert SpeaksAfter(log, h, g, k);
  }

  lemma BlankIsNotStance(log: Log, member: string, turn: int)
    requires !Blank(RaiseStance(log, member, turn))
    ensures RaiseStance(log, member, turn) != ""
  {
    assert Trim("") == "";
  }

  // ---- The attendance gate ---------------------------------------------------------------

  ghost predicate AttendedBetween(meta: Metadata, log: Log, a: nat, i: nat, member: string) {
    && a < i < |log| && log[a].typ == AttendanceRequested && log[i].typ == MemberAttended
    && (if log[i].payload.member == "" then log[i].from else log[i].payload.member) == member
    && log[i].payload.council.status in {PresentMember, Partial, Unavailable, NoResponseTimeout}
  }

  ghost predicate Accounted(meta: Metadata, log: Log, member: string) {
    exists a: nat, i: nat :: AttendedBetween(meta, log, a, i, member)
  }

  ghost predicate GateInv(meta: Metadata, log: Log, att: Attendance) {
    && (att.requested ==> exists a :: 0 <= a < |log| && log[a].typ == AttendanceRequested)
    && (forall m :: m in att.attended ==> Accounted(meta, log, m))
    && (att.agendaAfter ==> exists g: nat :: AgendaAt(meta, log, g))
  }

  /** An agenda locked when every member had accounted for their attendance. */
  ghost predicate AgendaAt(meta: Metadata, log: Log, g: nat) {
    && g < |log| && log[g].typ == AgendaLocked
    && forall m :: m in CouncilMembers(meta) ==> Accounted(meta, log[..g], m)
  }

  lemma AttendedGrows(meta: Metadata, log: Log, longer: Log, m: string)
    requires log <= longer && Accounted(meta, log, m)
    ensures Accounted(meta, longer, m)
  {
    var a: nat, i: nat :| AttendedBetween(meta, log, a, i, m);
    assert AttendedBetween(meta, longer, a, i, m);
  }

  lemma AttendedStep(meta: Metadata, log: Log, m: string)
    requires log != [] && GateInv(meta, log[..|log| - 1], AttendanceOf(meta, log[..|log| - 1]))
    requires m in AttendanceOf(meta, log).attended
    ensures Accounted(meta, log, m)
  {
    hide CouncilMembers, AgendaAt;
    var init, e := log[..|log| - 1], log[|log| - 1];
    var before := AttendanceOf(meta, init);
    if m in before.attended {
      AttendedGrows(meta, init, log, m);
    } else {
      var a :| 0 <= a < |init| && init[a].typ == AttendanceRequested;
      assert log[a] == init[a];
      assert AttendedBetween(meta, log, a, |log| - 1, m);
    }
  }

  lemma AgendaStep(meta: Metadata, log: Log)
    requires log != [] && GateInv(meta, log[..|log| - 1], AttendanceOf(meta, log[..|log| - 1]))
    requires AttendanceOf(meta, log).agendaAfter
    ensures exists g: nat :: AgendaAt(meta, log, g)
  {
    hide CouncilMembers, AttendedBetween;
    var init := log[..|log| - 1];
    var before := AttendanceOf(meta, init);
    if before.agendaAfter {
      var g: nat :| AgendaAt(meta, init, g);
      assert init[..g] == log[..g] && init[g] == log[g];
      assert AgendaAt(meta, log, g);
    } else {
      var members := CouncilMembers(meta);
      forall m | m in members ensures Accounted(meta, log[..|log| - 1], m) {
        assert m !in MissingFrom(members, before.attended);
      }
      assert AgendaAt(meta, log, |log| - 1);
    }
  }

  lemma {:induction false} GateHolds(meta: Metadata, log: Log)
    ensures GateInv(meta, log, AttendanceOf(meta, log))
  {
    hide CouncilMembers, MissingFrom, Accounted, AgendaAt;
    if log != [] {
      var init, att := log[..|log| - 1], AttendanceOf(meta, log);
      GateHolds(meta, init);
      if AttendanceOf(meta, init).requested {
        var a :| 0 <= a < |init| && init[a].typ == AttendanceRequested;
        assert log[a] == init[a];
      }
      forall m | m in att.attended ensures Accounted(meta, log, m) {
        AttendedStep(meta, log, m);
      }
      if att.agendaAfter {
        AgendaStep(meta, log);
      }
    }
  }

  lemma PreparedWhenAllowed(meta: Metadata, log: Log, k: nat)
    requires History(meta, log) && k < |log| && log[k].typ == PreparationRequested
    ensures MayPrepare(meta, log[..k])
  {
    hide PhaseJustified, FreshCommand, HasId, MayPrepare;
    assert Justified(meta, log[..k], log[k]);
  }

  /** A council bound to a Discord thread is prepared only after its attendance was requested,
      every member accounted for it, and an agenda was then locked. */
  lemma PreparationWaitsForAttendance(meta: Metadata, log: Log, k: nat)
    requires Reachable(meta, log) && k < |log| && log[k].typ == PreparationRequested && DiscordThread(meta)
    ensures exists g: nat :: g < k && AgendaAt(meta, log, g)
  {
    hide Reachable, History, AttendanceOf, CouncilMembers, AttendedBetween;
    ReachableHistory(meta, log);
    PreparedWhenAllowed(meta, log, k);
    GateHolds(meta, log[..k]);
    var g: nat :| AgendaAt(meta, log[..k], g);
    assert log[..k][..g] == log[..g] && log[..k][g] == log[g];
    assert AgendaAt(meta, log, g);
  }
}
