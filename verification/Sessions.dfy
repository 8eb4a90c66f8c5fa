/** The data home: many sessions, of which at most one is ever open. New sessions are created one at
    a time, but the search for an active session observed the others while their commands go on. */
module Sessions {
  import opened Prelude
  import opened Text
  import opened Events
  import opened Channel
  import CouncilRuns
  import Council
  import Control
  import Delegation

  // ---- The search for an active session --------------------------------------------------

  /** What the search saw of one session when it got to it. */
  datatype Read = Read(id: string, phase: Phase)

  datatype Search = NoneActive | Active(read: Read) | SeveralActive

  function Seen(observed: seq<Read>): Search {
    if observed == [] then NoneActive
    else
      var earlier, read := Seen(observed[..|observed| - 1]), observed[|observed| - 1];
      if earlier == SeveralActive || Terminal(read.phase) then earlier
      else if earlier == NoneActive then Active(read)
      else SeveralActive
  }

  lemma {:induction false} SeveralStays(observed: seq<Read>, n: nat)
    requires n <= |observed| && Seen(observed[..n]) == SeveralActive
    ensures Seen(observed) == SeveralActive
    decreases |observed|
  {
    if n < |observed| {
      assert observed[..|observed| - 1][..n] == observed[..n];
      SeveralStays(observed[..|observed| - 1], n);
    } else {
      assert observed[..n] == observed;
    }
  }

  method FindActiveSession(observed: seq<Read>) returns (found: Search)
    ensures found == Seen(observed)
  {
    found := NoneActive;
    for i := 0 to |observed|
      invariant found == Seen(observed[..i]) != SeveralActive
    {
      assert observed[..i + 1][..i] == observed[..i];
      if Terminal(observed[i].phase) {
        continue;
      }
      if found != NoneActive {
        SeveralStays(observed, i + 1);
        return SeveralActive;
      }
      found := Active(observed[i]);
    }
    assert observed[..|observed|] == observed;
  }

  /** The search finds nothing exactly when every session it read was terminal at that moment, and
      several exactly when two observed were not. */
  lemma {:induction false} SeenExactly(observed: seq<Read>)
    ensures Seen(observed) == NoneActive <==> forall i :: 0 <= i < |observed| ==> Terminal(observed[i].phase)
    ensures Seen(observed) == SeveralActive
            <==> exists i, j :: 0 <= i < j < |observed| && !Terminal(observed[i].phase) && !Terminal(observed[j].phase)
  {
    hide Terminal;
    if observed != [] {
      var init, last := observed[..|observed| - 1], |observed| - 1;
      SeenExactly(init);
      assert forall i :: 0 <= i < |init| ==> init[i] == observed[i];
      if Seen(init) == SeveralActive {
        var i, j :| 0 <= i < j < |init| && !Terminal(init[i].phase) && !Terminal(init[j].phase);
        assert !Terminal(observed[i].phase) && !Terminal(observed[j].phase);
      } else if Seen(init) != NoneActive && !Terminal(observed[last].phase) {
        var i :| 0 <= i < |init| && !Terminal(init[i].phase);
        assert !Terminal(observed[i].phase) && !Terminal(observed[last].phase);
      }
    }
  }

  // ---- Commands on one session -----------------------------------------------------------

  datatype Command =
    | SessionRequest(request: CouncilRuns.Request)  // council commands, block, resume, cancel, stream bookkeeping
    | DelegationCommand(spec: Delegation.DelegationSpec, foreign: set<string>)
    | DeliveryReport(evidence: Control.DeliveryEvidence, foreign: set<string>)

  function Perform(meta: Metadata, log: Log, command: Command): Log {
    match command
    case SessionRequest(request) => CouncilRuns.Apply(meta, log, request)
    case DelegationCommand(spec, foreign) => Delegation.RecordDelegation(meta, log, spec, foreign).log
    case DeliveryReport(evidence, foreign) => Control.RecordDelivery(meta, log, evidence, foreign).log
  }

  lemma RequestAbsorbed(meta: Metadata, log: Log, request: CouncilRuns.Request)
    requires Terminal(LatestPhase(log))
    ensures Terminal(LatestPhase(CouncilRuns.Apply(meta, log, request)))
  {
    hide Terminal, Append, Council.RecordCouncil, Council.BuildEvent, Control.RecordBlock, Control.RecordResume, Control.RecordCancel,
      Control.RecordAck, Control.RecordHeartbeat, CouncilRuns.RunnerSpeechEvent;
    match request.command {
      case CouncilCommand(spec) => CouncilAbsorbed(meta, log, spec, request.foreign);
      case BlockCommand(spec) => ControlAbsorbed(meta, log, spec, request.foreign);
      case ResumeCommand(spec) => ControlAbsorbed(meta, log, spec, request.foreign);
      case CancelCommand(spec) => ControlAbsorbed(meta, log, spec, request.foreign);
      case AckCommand(member, cursor, spec) => AckAbsorbed(meta, log, member, cursor, spec, request.foreign);
      case HeartbeatCommand(member, suffix, now) => HeartbeatAbsorbed(meta, log, member, suffix, now, request.foreign);
      case DispatchNote(note) =>
        if CouncilRuns.MayNote(log, note) {
          AppendAbsorbed(meta, log, note, request.foreign);
        }
      case RunnerSpeech(_, spec, _, _, _, _) => CouncilAbsorbed(meta, log, spec, request.foreign);
    }
  }

  lemma CouncilAbsorbed(meta: Metadata, log: Log, spec: Council.CouncilSpec, foreign: set<string>)
    requires Terminal(LatestPhase(log))
    ensures Council.BuildEvent(meta, log, spec).Err? && Council.RecordCouncil(meta, log, spec, foreign).log == log
  {
  }

  lemma ControlAbsorbed(meta: Metadata, log: Log, spec: Control.ControlSpec, foreign: set<string>)
    requires Terminal(LatestPhase(log))
    ensures Control.RecordBlock(meta, log, spec, foreign).log == log && Control.RecordResume(meta, log, spec, foreign).log == log
    ensures Control.RecordCancel(meta, log, spec, foreign).log == log
  {
    hide EventById, FirstWithCommand, Equivalent, AppendIdempotent, Control.CancelEvent;
  }

  lemma AppendAbsorbed(meta: Metadata, log: Log, e: Event, foreign: set<string>)
    requires e.phase == LatestPhase(log)
    ensures LatestPhase(Append(meta, log, e, foreign).log) == LatestPhase(log)
    ensures LatestPhase(AppendIdempotent(meta, log, e, foreign).log) == LatestPhase(log)
  {
    hide AppendError, Equivalent, FirstWithCommand, RuntimeRows, SortStrings;
  }

  lemma AckAbsorbed(meta: Metadata, log: Log, member: string, cursor: string, spec: Control.ControlSpec, foreign: set<string>)
    ensures LatestPhase(Control.RecordAck(meta, log, member, cursor, spec, foreign).log) == LatestPhase(log)
  {
    hide AppendIdempotent, Control.Resolves;
    AppendAbsorbed(meta, log, Control.AckEvent(meta, LatestPhase(log), member, cursor, Control.IdOr(spec.commandId, spec.generatedId), spec.now), foreign);
  }

  lemma HeartbeatAbsorbed(meta: Metadata, log: Log, member: string, suffix: string, now: int, foreign: set<string>)
    ensures LatestPhase(Control.RecordHeartbeat(meta, log, member, suffix, now, foreign).log) == LatestPhase(log)
  {
    hide Append;
    AppendAbsorbed(meta, log, Control.HeartbeatEvent(meta, log, member, suffix, now), foreign);
  }

  lemma DelegationAbsorbed(meta: Metadata, log: Log, spec: Delegation.DelegationSpec, foreign: set<string>)
    requires Terminal(LatestPhase(log))
    ensures Delegation.RecordDelegation(meta, log, spec, foreign).log == log
  {
    hide Delegation.Replayed, Delegation.Built, AppendIdempotent;
  }

  /** No command but a delivery report ever leads out of a terminal phase. */
  lemma TerminalStays(meta: Metadata, log: Log, command: Command)
    requires Terminal(LatestPhase(log)) && !command.DeliveryReport?
    ensures Terminal(LatestPhase(Perform(meta, log, command)))
  {
    hide CouncilRuns.Apply, Delegation.RecordDelegation, Terminal;
    match command {
      case SessionRequest(request) => RequestAbsorbed(meta, log, request);
      case DelegationCommand(spec, foreign) => DelegationAbsorbed(meta, log, spec, foreign);
    }
  }

  /** A delivery report on a terminal session reopens it exactly when it meets the demands on any
      report: the reporter takes part in a delegation, the escalation is on the log, target and
      detail are given, and command and event ids are unused. */
  lemma DeliveryReopensExactly(meta: Metadata, log: Log, evidence: Control.DeliveryEvidence, foreign: set<string>)
    requires Terminal(LatestPhase(log))
    ensures var after := Control.RecordDelivery(meta, log, evidence, foreign).log;
            && (!Terminal(LatestPhase(after)) <==> Control.DeliveryAccepted(meta, log, evidence, foreign))
            && (Control.DeliveryAccepted(meta, log, evidence, foreign) ==> |after| == |log| + 1 && LatestPhase(after) == WaitingUser)
            && (!Control.DeliveryAccepted(meta, log, evidence, foreign) ==> after == log)
  {
    hide EventByIdAndType, Trim, Control.IdOr, EventIdFor, ValidEnvelope, HasId, FirstWithCommand, ValidRecipients, Blank,
      Control.Participant, AppendIdempotent, IdPrefix;
    if Control.DecideDelivery(meta, log, evidence).Ok? {
      Control.DeliveryEnvelope(meta, log, evidence);
      Control.IdempotentExactly(meta, log, Control.DecideDelivery(meta, log, evidence).value, foreign);
    }
  }

  // ---- The store -------------------------------------------------------------------------

  datatype Stored = Stored(meta: Metadata, log: Log)

  predicate Open(session: Stored) {
    !Terminal(LatestPhase(session.log))
  }

  /** A new-session command under way: the directory entries still to be read, and what the others
      looked like when they were. */
  datatype Creation = Creation(meta: Metadata, opening: Event, todo: seq<string>, observed: seq<Read>)

  datatype Store = Store(sessions: map<string, Stored>, creation: Option<Creation>)

  const EMPTY_STORE := Store(map[], None)

  /** One atomic step: a command on a session, the start of a creation, which lists the directory,
      the reading of one listed session, or the decision on the creation. */
  datatype Step =
    | Do(session: string, command: Command)
    | Begin(meta: Metadata, opening: Event, listing: seq<string>)
    | ReadOne
    | Decide

  /** Delivery reports come in only while their session is open. */
  predicate Allowed(session: Stored, command: Command) {
    command.DeliveryReport? ==> Open(session)
  }

  function Next(store: Store, step: Step): Store {
    match step
    case Do(id, command) =>
      if id !in store.sessions || !Allowed(store.sessions[id], command) then store
      else
        var session := store.sessions[id];
        store.(sessions := store.sessions[id := session.(log := Perform(session.meta, session.log, command))])
    case Begin(meta, opening, listing) =>
      if store.creation.Some? || meta.id in store.sessions || exists id :: id in store.sessions && id !in listing then store
      else store.(creation := Some(Creation(meta, opening, listing, [])))
    case ReadOne =>
      if store.creation == None || store.creation.value.todo == [] then store
      else
        var c := store.creation.value;
        var id := c.todo[0];
        var observed := if id in store.sessions then c.observed + [Read(id, LatestPhase(store.sessions[id].log))] else c.observed;
        store.(creation := Some(c.(todo := c.todo[1..], observed := observed)))
    case Decide =>
      if store.creation == None || store.creation.value.todo != [] then store
      else
        var c := store.creation.value;
        if Seen(c.observed) == NoneActive && c.meta.id !in store.sessions
        then Store(store.sessions[c.meta.id := Stored(c.meta, [c.opening])], None)
        else store.(creation := None)
  }

  function Run(steps: seq<Step>): Store {
    if steps == [] then EMPTY_STORE else Next(Run(steps[..|steps| - 1]), steps[|steps| - 1])
  }

  /** At most one session is open, and while a creation has met no open session, every session it
      has passed is still terminal. */
  ghost predicate Safe(store: Store) {
    && (forall a, b :: a in store.sessions && b in store.sessions && Open(store.sessions[a]) && Open(store.sessions[b]) ==> a == b)
    && (store.creation.Some? && Seen(store.creation.value.observed) == NoneActive ==>
          forall id :: id in store.sessions && id !in store.creation.value.todo ==> !Open(store.sessions[id]))
  }

  lemma DoSafe(store: Store, id: string, command: Command)
    requires Safe(store)
    ensures Safe(Next(store, Do(id, command)))
  {
    hide Perform, Terminal, Seen;
    if id in store.sessions && Allowed(store.sessions[id], command) {
      var before, after := store.sessions[id], Next(store, Do(id, command)).sessions[id];
      if !Open(before) {
        TerminalStays(before.meta, before.log, command);
      }
      assert Open(after) ==> Open(before);
    }
  }

  lemma ReadSafe(store: Store)
    requires Safe(store)
    ensures Safe(Next(store, ReadOne))
  {
    hide Terminal;
    if store.creation.Some? && store.creation.value.todo != [] {
      var c := store.creation.value;
      var id := c.todo[0];
      assert c.todo == [id] + c.todo[1..];
      if id in store.sessions {
        var read := Read(id, LatestPhase(store.sessions[id].log));
        assert (c.observed + [read])[..|c.observed|] == c.observed;
      }
    }
  }

  lemma StepSafe(store: Store, step: Step)
    requires Safe(store)
    ensures Safe(Next(store, step))
  {
    hide Perform, Terminal;
    match step {
      case Do(id, command) => DoSafe(store, id, command);
      case ReadOne => ReadSafe(store);
      case Begin(_, _, _) =>
      case Decide =>
    }
  }

  lemma {:induction false} RunSafe(steps: seq<Step>)
    ensures Safe(Run(steps))
  {
    hide Next, Safe;
    if steps == [] {
      EmptySafe();
    } else {
      RunSafe(steps[..|steps| - 1]);
      StepSafe(Run(steps[..|steps| - 1]), steps[|steps| - 1]);
    }
  }

  lemma EmptySafe()
    ensures Safe(EMPTY_STORE)
  {
  }

  /** At no moment of any interleaving are two sessions open. */
  lemma AtMostOneOpen(steps: seq<Step>, a: string, b: string)
    requires a in Run(steps).sessions && b in Run(steps).sessions
    requires Open(Run(steps).sessions[a]) && Open(Run(steps).sessions[b])
    ensures a == b
  {
    hide Run, Open;
    RunSafe(steps);
  }

  /** The guard on delivery reports is needed: on a terminal session an acceptable one makes a second
      open session next to any open one. */
  lemma DeliveryBreaksSafety(store: Store, terminal: string, other: string, evidence: Control.DeliveryEvidence, foreign: set<string>)
    requires terminal in store.sessions && other in store.sessions && terminal != other
    requires !Open(store.sessions[terminal]) && Open(store.sessions[other])
    requires var session := store.sessions[terminal];
             Control.DeliveryAccepted(session.meta, session.log, evidence, foreign)
    ensures var session := store.sessions[terminal];
            !Safe(store.(sessions := store.sessions[terminal :=
                           session.(log := Perform(session.meta, session.log, DeliveryReport(evidence, foreign)))]))
  {
    hide Control.RecordDelivery, Control.DeliveryAccepted;
    var session := store.sessions[terminal];
    DeliveryReopensExactly(session.meta, session.log, evidence, foreign);
    var after := store.sessions[terminal := session.(log := Perform(session.meta, session.log, DeliveryReport(evidence, foreign)))];
    assert Open(after[terminal]) && Open(after[other]);
  }
}
