/** What the accounting guarantees about any log. */
module AccountingSafety {
  import opened Prelude
  import opened Text
  import opened Events
  import opened Accounting
  import Channel

  ghost predicate Included(a: seq<string>, b: seq<string>) {
    forall x :: x in a ==> x in b
  }

  /** A row only gains evidence. */
  ghost predicate RowGrows(a: GrantRow, b: GrantRow) {
    && a.selectedId == b.selectedId && a.member == b.member && a.turn == b.turn && (a.started ==> b.started)
    && Included(a.starts, b.starts) && Included(a.succeeded, b.succeeded) && Included(a.invocations, b.invocations)
    && Included(a.speeches, b.speeches) && Included(a.failures, b.failures) && Included(a.discards, b.discards)
    && Included(a.dispatchFailures, b.dispatchFailures)
  }

  /** Books only gain rows and evidence, and no linked speech is replaced. */
  ghost predicate LedgerGrows(a: Ledger, b: Ledger) {
    && |a.rows| <= |b.rows|
    && (forall n :: 0 <= n < |a.rows| ==> RowGrows(a.rows[n], b.rows[n]))
    && (forall id :: id in a.linked ==> id in b.linked && b.linked[id] == a.linked[id])
  }

  lemma RowNotes(row: GrantRow, e: Event)
    ensures e.runner.Some? ==> RowGrows(row, Started(row, e)) && RowGrows(row, Succeeded(row, e))
    ensures RowGrows(row, WithTerminal(row, e))
    ensures RowGrows(row, row.(speeches := AppendUnique(row.speeches, e.id)))
    ensures RowGrows(row, row)
  {
    hide Trim, TerminalStatus;
  }

  /** Books that differ in at most one row, which grows. */
  lemma OneRowGrows(a: Ledger, b: Ledger, n: nat, row: GrantRow)
    requires n < |a.rows| && RowGrows(a.rows[n], row) && b.rows == a.rows[n := row]
    requires forall id :: id in a.linked ==> id in b.linked && b.linked[id] == a.linked[id]
    ensures LedgerGrows(a, b)
  {
    hide RowGrows;
    forall k | 0 <= k < |a.rows| ensures RowGrows(a.rows[k], b.rows[k]) {
      if k != n {
        RowNotesItself(a.rows[k]);
      }
    }
  }

  lemma RowNotesItself(row: GrantRow)
    ensures RowGrows(row, row)
  {
  }

  lemma SameBooksGrow(a: Ledger, b: Ledger)
    requires a.rows <= b.rows && b.linked == a.linked
    ensures LedgerGrows(a, b)
  {
    hide RowGrows;
    forall k | 0 <= k < |a.rows| ensures RowGrows(a.rows[k], b.rows[k]) {
      RowNotesItself(a.rows[k]);
    }
  }

  lemma StartedGrows(l: Books, e: Event)
    ensures LedgerGrows(l, NoteStarted(l, e)) && NoteStarted(l, e).linked == l.linked
  {
    hide RowGrows, Match, AppendUnique, LedgerGrows, Started;
    var id, later := MatchIn(l, e), NoteStarted(l, e);
    if id == "" || e.runner == None || !MemberFits(RowFor(l, id), e) {
      SameBooksGrow(l, later);
    } else {
      RowNotes(RowFor(l, id), e);
      OneRowGrows(l, later, l.grantIndex[id], Started(RowFor(l, id), e));
    }
  }

  lemma SucceededGrows(l: Books, e: Event)
    ensures LedgerGrows(l, NoteSucceeded(l, e)) && NoteSucceeded(l, e).linked == l.linked
  {
    hide RowGrows, Match, AppendUnique, LedgerGrows, Succeeded;
    var id, later := MatchIn(l, e), NoteSucceeded(l, e);
    if later.rows == l.rows {
      SameBooksGrow(l, later);
    } else {
      RowNotes(RowFor(l, id), e);
      OneRowGrows(l, later, l.grantIndex[id], Succeeded(RowFor(l, id), e));
    }
  }

  lemma TerminalGrows(l: Books, e: Event)
    requires e.typ in {RunnerFailed, RunnerDiscarded, DispatchFailed}
    ensures LedgerGrows(l, NoteTerminal(l, e)) && NoteTerminal(l, e).linked == l.linked
  {
    hide RowGrows, Match, LedgerGrows, WithTerminal, CountTerminal;
    var id, later := MatchIn(l, e), NoteTerminal(l, e);
    if id == "" {
      SameBooksGrow(l, later);
    } else {
      RowNotes(RowFor(l, id), e);
      OneRowGrows(l, later, l.grantIndex[id], WithTerminal(RowFor(l, id), e));
    }
  }

  lemma SpeechGrows(l: Books, e: Event)
    requires e.id !in l.linked
    ensures LedgerGrows(l, NoteRunnerSpeech(l, e))
    ensures forall id :: id in NoteRunnerSpeech(l, e).linked ==> id in l.linked || id == e.id
  {
    hide RowGrows, Match, LedgerGrows, AppendUnique, LinkMatches;
    var id, later := MatchIn(l, e), NoteRunnerSpeech(l, e);
    if later.rows == l.rows && later.linked == l.linked {
      SameBooksGrow(l, later);
    } else {
      RowNotes(RowFor(l, id), e);
      OneRowGrows(l, later, l.grantIndex[id], RowFor(l, id).(speeches := AppendUnique(RowFor(l, id).speeches, e.id)));
    }
  }

  lemma NoteGrows(l: Books, echoIds: set<string>, e: Event)
    requires e.id !in l.linked
    ensures LedgerGrows(l, Note(l, echoIds, e))
    ensures forall id :: id in Note(l, echoIds, e).linked ==> id in l.linked || id == e.id
  {
    hide NoteStarted, NoteSucceeded, NoteTerminal, NoteRunnerSpeech, LedgerGrows, NewRow;
    match e.typ {
      case RunnerStarted => StartedGrows(l, e);
      case RunnerSucceeded => SucceededGrows(l, e);
      case RunnerFailed => TerminalGrows(l, e);
      case RunnerDiscarded => TerminalGrows(l, e);
      case DispatchFailed => TerminalGrows(l, e);
      case Speech =>
        if e.runner.Some? {
          SpeechGrows(l, e);
        } else {
          SameBooksGrow(l, Note(l, echoIds, e));
        }
      case _ => SameBooksGrow(l, Note(l, echoIds, e));
    }
  }

  /** Linked speeches are recorded under their own ids. */
  lemma {:induction false} LinkedAreRecorded(echoIds: set<string>, log: Log)
    requires Channel.UniqueIds(log)
    ensures forall id :: id in Account(echoIds, log).linked ==> Channel.HasId(log, id)
  {
    hide Note, LedgerGrows;
    if log != [] {
      var init, e := log[..|log| - 1], log[|log| - 1];
      assert forall k :: 0 <= k < |init| ==> init[k] == log[k];
      LinkedAreRecorded(echoIds, init);
      assert e.id !in Account(echoIds, init).linked;
      NoteGrows(Account(echoIds, init), echoIds, e);
      forall id | id in Account(echoIds, log).linked ensures Channel.HasId(log, id) {
        if id in Account(echoIds, init).linked {
          var k :| 0 <= k < |init| && init[k].id == id;
          assert log[k].id == id;
        } else {
          assert log[|log| - 1].id == id;
        }
      }
    }
  }

  /** Every extension of a log only adds evidence to its grants. */
  lemma {:induction false} AccountGrows(echoIds: set<string>, log: Log, longer: Log)
    requires log <= longer && Channel.UniqueIds(longer)
    ensures LedgerGrows(Account(echoIds, log), Account(echoIds, longer))
  {
    hide Note, LedgerGrows;
    if |log| < |longer| {
      var init, e := longer[..|longer| - 1], longer[|longer| - 1];
      assert forall k :: 0 <= k < |init| ==> init[k] == longer[k];
      AccountGrows(echoIds, log, init);
      LinkedAreRecorded(echoIds, init);
      assert e.id !in Account(echoIds, init).linked;
      NoteGrows(Account(echoIds, init), echoIds, e);
      GrowsTransitively(Account(echoIds, log), Account(echoIds, init), Account(echoIds, longer));
    } else {
      assert log == longer;
      SameBooksGrow(Account(echoIds, log), Account(echoIds, longer));
    }
  }

  lemma GrowsTransitively(a: Ledger, b: Ledger, c: Ledger)
    requires LedgerGrows(a, b) && LedgerGrows(b, c)
    ensures LedgerGrows(a, c)
  {
    forall n | 0 <= n < |a.rows| ensures RowGrows(a.rows[n], c.rows[n]) {
      assert RowGrows(a.rows[n], b.rows[n]) && RowGrows(b.rows[n], c.rows[n]);
    }
  }

  /** Once a failure, discard or dispatch failure is linked to a grant, no extension of the log
      makes that grant pass, nor the session, whatever counts as an echo then. */
  lemma FailureSticks(meta: Metadata, echoIds: set<string>, laterEchoIds: set<string>, log: Log, longer: Log, n: nat)
    requires log <= longer && Channel.UniqueIds(longer)
    requires n < |Account(echoIds, log).rows| && TerminallyFailed(Account(echoIds, log).rows[n])
    ensures var later := Account(laterEchoIds, longer);
            n < |later.rows| && later.rows[n].selectedId == Account(echoIds, log).rows[n].selectedId
            && !Passes(meta, later.rows[n], later.linked) && !SessionPasses(meta, later)
  {
    hide Account, NeedsDelivery;
    AccountGrows(echoIds, log, longer);
    EchoesOnlyCount(echoIds, laterEchoIds, longer);
    var row, later := Account(echoIds, log).rows[n], Account(laterEchoIds, longer).rows[n];
    assert RowGrows(row, later);
    assert row.failures != [] ==> row.failures[0] in later.failures;
    assert row.discards != [] ==> row.discards[0] in later.discards;
    assert row.dispatchFailures != [] ==> row.dispatchFailures[0] in later.dispatchFailures;
  }

  // ---- Runnerless speeches only count ----------------------------------------------------

  predicate Runnerless(e: Event) {
    e.typ == Speech && e.runner == None
  }

  function WithoutRunnerless(log: Log): Log {
    if log == [] then []
    else WithoutRunnerless(log[..|log| - 1]) + if Runnerless(log[|log| - 1]) then [] else [log[|log| - 1]]
  }

  /** Books that agree on everything but the counters. */
  predicate SameEvidence(a: Ledger, b: Ledger) {
    a.rows == b.rows && a.grantIndex == b.grantIndex && a.invocationToGrant == b.invocationToGrant && a.linked == b.linked
    && a.succeededInvocations == b.succeededInvocations
  }

  lemma StartedSameEvidence(a: Books, b: Books, e: Event)
    requires SameEvidence(a, b)
    ensures SameEvidence(NoteStarted(a, e), NoteStarted(b, e))
  {
    hide Started, AppendUnique, Match, MemberFits;
  }

  lemma SucceededSameEvidence(a: Books, b: Books, e: Event)
    requires SameEvidence(a, b)
    ensures SameEvidence(NoteSucceeded(a, e), NoteSucceeded(b, e))
  {
    hide Succeeded, AppendUnique, Match, MemberFits;
  }

  lemma TerminalSameEvidence(a: Books, b: Books, e: Event)
    requires SameEvidence(a, b) && e.typ in {RunnerFailed, RunnerDiscarded, DispatchFailed}
    ensures SameEvidence(NoteTerminal(a, e), NoteTerminal(b, e))
  {
    hide WithTerminal, AppendUnique, Match, CountTerminal;
  }

  lemma SpeechSameEvidence(a: Books, b: Books, e: Event)
    requires SameEvidence(a, b)
    ensures SameEvidence(NoteRunnerSpeech(a, e), NoteRunnerSpeech(b, e))
  {
    hide LinkMatches, AppendUnique, Match;
  }

  lemma SelectedSameEvidence(a: Books, b: Books, e: Event)
    requires SameEvidence(a, b)
    ensures SameEvidence(NoteSelected(a, e), NoteSelected(b, e))
  {
    hide NewRow;
  }

  lemma RunnerlessSameEvidence(a: Books, b: Books, echoIds: set<string>, e: Event)
    requires SameEvidence(a, b)
    ensures SameEvidence(NoteRunnerless(a, echoIds, e), b) && SameEvidence(b, a)
  {
  }

  lemma NoteSameEvidence(a: Books, b: Books, echoIds: set<string>, otherIds: set<string>, e: Event)
    requires SameEvidence(a, b)
    ensures SameEvidence(Note(a, echoIds, e), Note(b, otherIds, e))
    ensures Runnerless(e) ==> SameEvidence(Note(a, echoIds, e), b)
  {
    hide NoteStarted, NoteSucceeded, NoteTerminal, NoteRunnerSpeech, NoteSelected, NoteRunnerless, SameEvidence;
    match e.typ {
      case SpeakerSelected => SelectedSameEvidence(a, b, e);
      case RunnerStarted => StartedSameEvidence(a, b, e);
      case RunnerSucceeded => SucceededSameEvidence(a, b, e);
      case RunnerFailed => TerminalSameEvidence(a, b, e);
      case RunnerDiscarded => TerminalSameEvidence(a, b, e);
      case DispatchFailed => TerminalSameEvidence(a, b, e);
      case Speech =>
        SpeechSameEvidence(a, b, e);
        RunnerlessSameEvidence(a, b, echoIds, e);
        RunnerlessSameEvidence(b, NoteRunnerless(a, echoIds, e), otherIds, e);
        RunnerlessSameEvidence(NoteRunnerless(b, otherIds, e), NoteRunnerless(a, echoIds, e), {}, e);
      case _ =>
    }
  }

  lemma {:induction false} EchoesOnlyCount(echoIds: set<string>, otherIds: set<string>, log: Log)
    ensures SameEvidence(Account(echoIds, log), Account(otherIds, log))
  {
    hide Note;
    if log != [] {
      EchoesOnlyCount(echoIds, otherIds, log[..|log| - 1]);
      NoteSameEvidence(Account(echoIds, log[..|log| - 1]), Account(otherIds, log[..|log| - 1]), echoIds, otherIds, log[|log| - 1]);
    }
  }

  lemma AccountSnoc(echoIds: set<string>, log: Log, e: Event)
    ensures Account(echoIds, log + [e]) == Note(Account(echoIds, log), echoIds, e)
  {
    hide Note;
    assert (log + [e])[..|log|] == log;
  }

  lemma {:induction false} RunnerlessOnlyCount(echoIds: set<string>, log: Log)
    ensures SameEvidence(Account(echoIds, log), Account({}, WithoutRunnerless(log)))
  {
    hide Note, SameEvidence;
    if log == [] {
      NothingIsSame();
    } else {
      var init, e := log[..|log| - 1], log[|log| - 1];
      RunnerlessOnlyCount(echoIds, init);
      NoteSameEvidence(Account(echoIds, init), Account({}, WithoutRunnerless(init)), echoIds, {}, e);
      AccountSnoc({}, WithoutRunnerless(init), e);
      assert Runnerless(e) ==> WithoutRunnerless(log) == WithoutRunnerless(init);
    }
  }

  lemma NothingIsSame()
    ensures SameEvidence(NO_LEDGER, NO_LEDGER)
  {
  }

  /** Logs that differ only in their runnerless speeches, however many are inserted or deleted, have
      the same grant rows and the same verdicts. */
  lemma RunnerlessSpeechesChangeNothing(meta: Metadata, echoIds: set<string>, otherIds: set<string>, log: Log, other: Log)
    requires WithoutRunnerless(log) == WithoutRunnerless(other)
    ensures Account(echoIds, log).rows == Account(otherIds, other).rows
    ensures forall row :: Passes(meta, row, Account(echoIds, log).linked) == Passes(meta, row, Account(otherIds, other).linked)
    ensures SessionPasses(meta, Account(echoIds, log)) == SessionPasses(meta, Account(otherIds, other))
  {
    hide Account, Passes, WithoutRunnerless;
    RunnerlessOnlyCount(echoIds, log);
    RunnerlessOnlyCount(otherIds, other);
  }
}
