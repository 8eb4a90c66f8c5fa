/** Retried delegation commands: same command, same answer, same log. */
module DelegationRetries {
  import opened Prelude
  import opened Text
  import opened Events
  import opened Channel
  import opened Delegation
  import Cursors

  lemma {:induction false} FirstWithCommandExtends(log: Log, longer: Log, commandId: string)
    requires log <= longer && FirstWithCommand(log, commandId).Some?
    ensures FirstWithCommand(longer, commandId) == FirstWithCommand(log, commandId)
  {
    if |log| < |longer| {
      FirstWithCommandExtends(log, longer[..|longer| - 1], commandId);
    } else {
      assert log == longer;
    }
  }

  /** A decision that a shorter log allowed, a longer one allows in the same phase, alike. */
  lemma TransitionExtends(meta: Metadata, log: Log, longer: Log, current: Phase, spec: DelegationSpec)
    requires log <= longer && Transition(meta, log, current, spec, spec.payload).Ok?
    ensures Transition(meta, longer, current, spec, spec.payload) == Transition(meta, log, current, spec, spec.payload)
  {
    hide EscalateMove, FlushMove, ResolveMove, DefaultRecipients, Assignee, ActorOf, PrincipalAllowed, EventByIdAndType;
    if spec.action == AnswerClarification {
      EventByIdAndTypeExtends(log, longer, spec.causation, ClarificationRequested);
    } else if spec.action == ResolveEscalation {
      EventByIdAndTypeExtends(log, longer, spec.causation, UserEscalationRequested);
    }
  }

  lemma NoDelegationSpeech(meta: Metadata, log: Log, current: Phase, spec: DelegationSpec)
    requires Transition(meta, log, current, spec, spec.payload).Ok?
    ensures Transition(meta, log, current, spec, spec.payload).value.typ != Speech
  {
    hide DefaultRecipients, Assignee, ActorOf, PrincipalAllowed, EventByIdAndType, CommandIdOf, Trim;
  }

  /** The same request as it arrives again, at another time. */
  function Again(spec: DelegationSpec, now: int): DelegationSpec {
    spec.(now := now)
  }

  lemma RebuiltAgain(meta: Metadata, log: Log, longer: Log, current: Phase, spec: DelegationSpec, now: int)
    requires log <= longer && Rebuilt(meta, log, current, spec).Ok?
    ensures Rebuilt(meta, longer, current, Again(spec, now)).Ok?
    ensures Rebuilt(meta, longer, current, Again(spec, now)).value == Rebuilt(meta, log, current, spec).value.(createdAt := now)
  {
    hide PayloadOk, Transition;
    TransitionExtends(meta, log, longer, current, spec);
    TransitionIgnoresTime(meta, longer, current, spec, now);
  }

  lemma TransitionIgnoresTime(meta: Metadata, log: Log, current: Phase, spec: DelegationSpec, now: int)
    ensures Transition(meta, log, current, Again(spec, now), spec.payload) == Transition(meta, log, current, spec, spec.payload)
  {
    hide DefaultRecipients, Assignee, PrincipalAllowed, EventByIdAndType, Trim, OrDefault, FlushMove, EventIdFor, Blank;
  }

  /** What an artifact-free command that was appended has written. */
  lemma AppendedIs(meta: Metadata, log: Log, spec: DelegationSpec, foreign: set<string>)
    requires spec.artifactSources == [] && CommandIdOf(spec) != ""
    requires RecordDelegation(meta, log, spec, foreign).log != log
    ensures Rebuilt(meta, log, LatestPhase(log), spec).Ok?
    ensures var e := Rebuilt(meta, log, LatestPhase(log), spec).value;
            && RecordDelegation(meta, log, spec, foreign).log == log + [e]
            && FirstWithCommand(log, CommandIdOf(spec)) == None && e.commandId == CommandIdOf(spec)
            && meta.kind == DelegationSession && spec.action != NoAction
  {
    hide PayloadOk, Transition, AppendError, Equivalent, FirstWithCommand, Trim, HasId, CommandIdOf, Replayed;
    NoDelegationSpeech(meta, log, LatestPhase(log), spec);
    SortIdempotent(Transition(meta, log, LatestPhase(log), spec, spec.payload).value.to);
  }

  /** An artifact-free command that was once recorded can be resubmitted at any time after any
      extension of the log, a terminal one included: the caller is told the original offset and
      cursor, and the log is left alone. */
  lemma ResubmissionAnswers(meta: Metadata, log: Log, spec: DelegationSpec, foreign: set<string>, longer: Log, now: int, others: set<string>)
    requires log != [] && spec.artifactSources == [] && !Blank(CommandIdOf(spec))
    requires RecordDelegation(meta, log, spec, foreign).log != log
    requires RecordDelegation(meta, log, spec, foreign).log <= longer
    ensures RecordDelegation(meta, longer, Again(spec, now), others)
            == Outcome(longer, Ok(Receipt(Cursors.Print(|log|, longer[|log|].id), |log|, longer[|log|].id, true)))
  {
    hide Rebuilt, FirstWithCommand, Trim, Built, AppendIdempotent;
    EmptyIsBlank();
    AppendedIs(meta, log, spec, foreign);
    var id, e := CommandIdOf(spec), Rebuilt(meta, log, LatestPhase(log), spec).value;
    FirstInSnoc(log, e);
    FirstWithCommandExtends(log + [e], longer, id);
    assert longer[|log|] == e && longer[..|log|] == log;
    assert PriorPhase(longer, |log|) == LatestPhase(log);
    RebuiltAgain(meta, log, longer, LatestPhase(log), spec, now);
  }

  lemma EmptyIsBlank()
    ensures Blank("")
  {
  }

  lemma FirstInSnoc(log: Log, e: Event)
    requires FirstWithCommand(log, e.commandId) == None
    ensures FirstWithCommand(log + [e], e.commandId) == Some(|log|)
  {
    assert (log + [e])[..|log|] == log;
  }

  /** Reusing a recorded command id never writes. Without artifacts the answer is the original's
      offset exactly when the command, decided in the phase of the original, is equivalent to it,
      and a conflict otherwise. */
  lemma ReuseNeverWrites(meta: Metadata, log: Log, spec: DelegationSpec, foreign: set<string>)
    requires !Blank(CommandIdOf(spec)) && FirstWithCommand(log, CommandIdOf(spec)).Some?
    ensures RecordDelegation(meta, log, spec, foreign).log == log
    ensures meta.kind == DelegationSession && spec.action != NoAction && spec.artifactSources == [] ==>
              var offset := FirstWithCommand(log, CommandIdOf(spec)).value;
              var rebuilt := Rebuilt(meta, log, PriorPhase(log, offset), spec);
              RecordDelegation(meta, log, spec, foreign).result
              == if rebuilt.Ok? && Equivalent(log[offset], rebuilt.value) then Retried(log, offset) else Err(Conflict("command_id"))
  {
    hide Rebuilt, PayloadOk, Transition, AppendError, Equivalent, Trim, HasId, PriorPhase;
    EmptyIsBlank();
    if Built(meta, log, spec).Ok? {
      BuiltCommand(meta, log, spec);
    }
  }

  lemma BuiltCommand(meta: Metadata, log: Log, spec: DelegationSpec)
    requires Built(meta, log, spec).Ok?
    ensures Built(meta, log, spec).value.commandId == CommandIdOf(spec)
  {
    hide Transition, PayloadOk, Trim, CommandIdOf, HasId;
  }
}
