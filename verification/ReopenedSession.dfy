/** A run in which a late delivery report reopens a cancelled delegation while another is open. */
module ReopenedSession {
  import opened Prelude
  import opened Events
  import opened Channel
  import opened Sessions
  import opened LateReport
  import Control
  import CouncilRuns
  import Delegation

  function Second(): Metadata {
    First().(id := "two")
  }

  function SecondOpening(): Event {
    FirstOpening().(id := "p", commandId := "p", createdAt := 3)
  }

  const STEPS: seq<Step> :=
    [Begin(First(), FirstOpening(), []), Decide,
     Do("one", DelegationCommand(EscalateSpec(), {})),
     Do("one", SessionRequest(CouncilRuns.Request(CouncilRuns.CancelCommand(CancelSpec()), {}))),
     Begin(Second(), SecondOpening(), ["one"]), ReadOne, Decide]

  lemma RunStep(n: nat)
    requires n < |STEPS|
    ensures Run(STEPS[..n + 1]) == Next(Run(STEPS[..n]), STEPS[n])
  {
    hide Next;
    assert STEPS[..n + 1][..n] == STEPS[..n];
  }

  lemma FirstOpens()
    ensures Run(STEPS[..2]) == Store(map["one" := Sessions.Stored(First(), [FirstOpening()])], None)
  {
    hide Perform, FirstOpening, EscalateSpec, CancelSpec, Run;
    RunStep(0);
    RunStep(1);
    assert Run(STEPS[..0]) == EMPTY_STORE by {
      NoSteps();
    }
  }

  lemma NoSteps()
    ensures Run(STEPS[..0]) == EMPTY_STORE
  {
    assert STEPS[..0] == [];
  }

  lemma Does(store: Store, id: string, command: Command, log: Log)
    requires id in store.sessions && !command.DeliveryReport?
    requires Perform(store.sessions[id].meta, store.sessions[id].log, command) == log
    ensures Next(store, Do(id, command)) == store.(sessions := store.sessions[id := store.sessions[id].(log := log)])
  {
    hide Perform;
  }

  lemma FirstEnds()
    ensures Run(STEPS[..4]) == Store(map["one" := Sessions.Stored(First(), Log2())], None)
  {
    FirstOpens();
    Escalated();
    Stopped();
    hide Run, Log1, Log2, First, FirstOpening, EscalateSpec, CancelSpec, Next, Control.RecordCancel, Delegation.RecordDelegation;
    RunStep(2);
    RunStep(3);
    Does(Run(STEPS[..2]), "one", DelegationCommand(EscalateSpec(), {}), Log1());
    Does(Run(STEPS[..3]), "one", SessionRequest(CouncilRuns.Request(CouncilRuns.CancelCommand(CancelSpec()), {})), Log2());
  }

  lemma SecondOpens()
    ensures Run(STEPS) == Store(map["one" := Sessions.Stored(First(), Log2()), "two" := Sessions.Stored(Second(), [SecondOpening()])], None)
  {
    FirstEnds();
    Ends();
    hide Run, Perform, Log2, SecondOpening, FirstOpening, EscalateSpec, CancelSpec, LatestPhase, Seen, First;
    RunStep(4);
    RunStep(5);
    RunStep(6);
    assert STEPS[..7] == STEPS;
    SeesTerminal(Read("one", LatestPhase(Log2())));
  }

  lemma SeesTerminal(read: Read)
    requires Terminal(read.phase)
    ensures Seen([] + [read]) == NoneActive
  {
    assert ([] + [read])[..0] == [];
  }

  /** A delegation is opened, escalated and cancelled, and then a second one is opened. A late report
      on the escalation of the first is accepted, and with it both sessions are open. */
  lemma LateReportReopens()
    ensures var store := Run(STEPS);
            && "one" in store.sessions && "two" in store.sessions && store.sessions["one"].meta == First()
            && !Open(store.sessions["one"]) && Open(store.sessions["two"])
            && var after := Perform(First(), store.sessions["one"].log, DeliveryReport(Report(), {}));
            && |after| == |store.sessions["one"].log| + 1 && LatestPhase(after) == WaitingUser
            && !Safe(store.(sessions := store.sessions["one" := store.sessions["one"].(log := after)]))
  {
    SecondOpens();
    ReportAccepted();
    hide Run, Log2, Safe, Control.DeliveryAccepted, Control.RecordDelivery, First, Report;
    DeliveryReopensExactly(First(), Log2(), Report(), {});
    DeliveryBreaksSafety(Run(STEPS), "one", "two", Report(), {});
  }
}
