/** The completion verdict that the lifecycle status gives on a council, against the guard that let
    it finalize. */
module Verdict {
  import opened Prelude
  import opened Text
  import opened Events
  import opened Channel
  import opened Lifecycle
  import opened CouncilRuns
  import opened CouncilSafety
  import Council
  import Scans

  /** How far the last terminal event proves that the closeout is visible. */
  datatype Proof = NotTerminal | ProofMissing | ProofPosted | ProofFailed | ProofPending | ProofUnproven

  function SurfaceProof(d: Delivery): Proof {
    var status := Trim(d.status);
    if status == "posted" && d.hasMessagePointer then ProofPosted
    else if status == "failed" && d.hasFailureReason then ProofFailed
    else if status == "pending_followup" && d.hasFollowupPointer then ProofPending
    else ProofUnproven
  }

  /** Recorded closeout diagnostics override what the evidence says of itself. */
  function Overridden(proof: Proof, diagnostics: seq<CloseoutDiagnostic>): Proof
    decreases |diagnostics|
  {
    if diagnostics == [] then proof
    else
      var next := match diagnostics[0]
                  case VisibleCloseout(code) =>
                    if code == "visible_closeout_failed" then ProofFailed
                    else if code == "visible_closeout_pending_followup" then if proof == ProofFailed then proof else ProofPending
                    else if code in {"missing_visible_closeout_proof", "missing_thread_binding", "exact_thread_mismatch"}
                            && proof != ProofFailed && proof != ProofPending then ProofUnproven
                    else proof
                  case _ => proof;
      Overridden(next, diagnostics[1..])
  }

  function ProofOf(p: Payload): Proof {
    if !Council.HasSurfaceKey(p) then ProofMissing
    else
      Overridden(if Council.SurfaceEvidence(p).Some? then SurfaceProof(Council.SurfaceEvidence(p).value) else ProofUnproven,
                 p.council.closeout)
  }

  /** The last finalization or declaration that the council is unresolved. */
  function LastTerminal(log: Log): (e: Option<Event>)
    ensures e.Some? ==> e.value in log && e.value.typ in {CouncilFinalized, CouncilUnresolved}
  {
    if log == [] then None
    else if log[|log| - 1].typ in {CouncilFinalized, CouncilUnresolved} then Some(log[|log| - 1])
    else LastTerminal(log[..|log| - 1])
  }

  predicate HasSynthesis(e: Event) {
    if e.typ == CouncilFinalized then !Blank(e.payload.council.finalSummary) else !Blank(e.payload.reason)
  }

  datatype Completion =
    | NotConfigured | OpeningMissing | DiscussionPending | CloseoutPending | SynthesisPending
    | EndedUnresolved | EndedFinalized | EndedWithout(proof: Proof)

  function Judge(report: Report, terminal: Option<Event>): Completion {
    if !report.configured then NotConfigured
    else if report.openingId == "" then OpeningMissing
    else if report.missingTurns != [] then DiscussionPending
    else if report.missingCloseouts != [] then CloseoutPending
    else if terminal == None || !HasSynthesis(terminal.value) then SynthesisPending
    else if terminal.value.typ == CouncilUnresolved then EndedUnresolved
    else if ProofOf(terminal.value.payload) == ProofPosted then EndedFinalized
    else EndedWithout(ProofOf(terminal.value.payload))
  }

  method ScanTerminal(log: Log) returns (terminal: Option<Event>)
    ensures terminal == LastTerminal(log)
  {
    terminal := None;
    for i := 0 to |log|
      invariant terminal == LastTerminal(log[..i])
    {
      assert log[..i + 1][..i] == log[..i];
      if log[i].typ in {CouncilFinalized, CouncilUnresolved} {
        terminal := Some(log[i]);
      }
    }
    assert log[..|log|] == log;
  }

  method LifecycleCompletionVerdict(meta: Metadata, log: Log) returns (verdict: Completion)
    ensures verdict == Judge(LifecycleOf(meta, log), LastTerminal(log))
  {
    var report := DiscussionLifecycle(meta, log);
    var terminal := ScanTerminal(log);
    return Judge(report, terminal);
  }

  // ---- What a finalization proves --------------------------------------------------------

  lemma {:induction false} LastTerminalAt(log: Log, k: nat)
    requires k < |log| && log[k].typ in {CouncilFinalized, CouncilUnresolved}
    requires forall i :: k < i < |log| ==> log[i].typ !in {CouncilFinalized, CouncilUnresolved}
    ensures LastTerminal(log) == Some(log[k])
  {
    if k < |log| - 1 {
      LastTerminalAt(log[..|log| - 1], k);
    }
  }

  lemma NoneAfterFinal(meta: Metadata, log: Log, k: nat)
    requires History(meta, log) && k < |log| && log[k].typ == CouncilFinalized
    ensures forall i :: k < i < |log| ==> log[i].typ !in {CouncilFinalized, CouncilUnresolved}
  {
    hide History, FinalJustified;
    FinalVotesPass(meta, log, k);
    FinalPhase(meta, log[..k], log[k]);
    forall i | k < i < |log| ensures log[i].typ !in {CouncilFinalized, CouncilUnresolved} {
      TerminalAbsorbs(meta, log, k, i);
    }
  }

  lemma FinalPhase(meta: Metadata, prior: Log, e: Event)
    requires FinalJustified(meta, prior, e)
    ensures e.phase == Finalized && !Blank(e.payload.council.finalSummary) && e.payload.council.closeout == []
    ensures Council.EvidenceWellFormed(meta, e.payload) && Council.VisibleDiagnostics(meta, e.payload) == []
  {
    hide Scans.OpenVote, Council.VotesPass, Council.EvidenceWellFormed, Council.VisibleDiagnostics, Trim;
  }

  lemma FinalMeansReady(meta: Metadata, log: Log, k: nat)
    requires History(meta, log) && Configured(meta) && k < |log| && log[k].typ == CouncilFinalized
    ensures LifecycleOf(meta, log).proposeReady
  {
    hide History, LifecycleOf, Mandate, Scans.LatestDraft, FinalJustified;
    FinalVotesPass(meta, log, k);
    VotedOn(meta, log[..k], log[k]);
    var r := OpenVoteAt(log[..k]);
    HistoryPrefix(meta, log, k);
    OpenVoteNeedsDraft(meta, log[..k], r);
    DraftMeansReady(meta, log[..k]);
    ReadinessMonotone(meta, log[..k], log);
  }

  lemma VotedOn(meta: Metadata, prior: Log, e: Event)
    requires FinalJustified(meta, prior, e)
    ensures Scans.OpenVote(prior).Some?
  {
    hide Council.VotesPass, Council.EvidenceWellFormed, Council.VisibleDiagnostics, Trim;
  }

  /** A thread-bound finalization passes its guard only with posted evidence. */
  lemma ThreadProof(meta: Metadata, p: Payload)
    requires DiscordThread(meta) && Council.VisibleDiagnostics(meta, p) == [] && p.council.closeout == []
    ensures ProofOf(p) == ProofPosted
  {
    hide Trim;
  }

  /** The status calls a finalized council with a configured lifecycle complete exactly when the
      finalization carries posted evidence. In a thread-bound council it always does; elsewhere the
      finalize guard asks for none, and without it the verdict says that the proof is missing. */
  lemma FinalizedVerdictExactly(meta: Metadata, log: Log, k: nat)
    requires Reachable(meta, log) && Configured(meta) && k < |log| && log[k].typ == CouncilFinalized
    ensures var verdict := Judge(LifecycleOf(meta, log), LastTerminal(log));
            && (verdict == EndedFinalized <==> ProofOf(log[k].payload) == ProofPosted)
            && (verdict != EndedFinalized ==> verdict == EndedWithout(ProofOf(log[k].payload)))
            && (DiscordThread(meta) ==> verdict == EndedFinalized)
            && (!Council.HasSurfaceKey(log[k].payload) ==> verdict == EndedWithout(ProofMissing))
  {
    hide Reachable, History, FinalJustified, LastTerminal, Trim, Council.VisibleDiagnostics, Council.EvidenceWellFormed;
    ReachableHistory(meta, log);
    FinalVotesPass(meta, log, k);
    FinalPhase(meta, log[..k], log[k]);
    NoneAfterFinal(meta, log, k);
    LastTerminalAt(log, k);
    FinalMeansReady(meta, log, k);
    if DiscordThread(meta) {
      ThreadProof(meta, log[k].payload);
    }
  }
}
