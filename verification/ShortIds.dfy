/** Logs whose events have one-letter command ids. In the concrete runs of the other modules such
    ids make it plain that nothing is a retry and no event id repeats. */
module ShortIds {
  import opened Prelude
  import opened Text
  import opened Events
  import opened Channel

  /** Every event was written under a letter of its own, and its event id ends in it. */
  ghost predicate Lettered(log: Log, letters: string) {
    |letters| == |log| &&
    forall i :: 0 <= i < |log| ==>
      log[i].commandId == [letters[i]] && log[i].id != "" && log[i].id[|log[i].id| - 1] == letters[i]
  }

  lemma IdEnds(prefix: string, c: char)
    requires IdChar(c)
    ensures var id := EventIdFor(prefix, [c]);
            id == prefix + "_" + [c]
  {
    assert CleanId([c]) == [c];
  }

  lemma LetterIsFresh(log: Log, letters: string, c: char, prefix: string)
    requires Lettered(log, letters) && c !in letters && IdChar(c)
    ensures FirstWithCommand(log, [c]) == None && !HasId(log, EventIdFor(prefix, [c]))
  {
    IdEnds(prefix, c);
    forall i | 0 <= i < |log| ensures log[i].commandId != [c] {
      assert letters[i] != c;
    }
    forall i | 0 <= i < |log| ensures log[i].id != EventIdFor(prefix, [c]) {
      assert letters[i] != c;
    }
  }

  lemma LetterTrims(c: char)
    requires IdChar(c)
    ensures Trim([c]) == [c] && !Blank([c])
  {
    TrimFixed([c]);
  }

  lemma StoredOther(meta: Metadata, log: Log, e: Event)
    requires e.typ != Speech
    ensures Stored(meta, log, e) == e.(to := SortStrings(e.to))
  {
  }

  lemma LetteredSnoc(log: Log, letters: string, c: char, e: Event)
    requires Lettered(log, letters) && e.commandId == [c] && e.id != "" && e.id[|e.id| - 1] == c
    ensures Lettered(log + [e], letters + [c])
  {
  }

  /** A valid event under a new letter is recorded. */
  lemma NewLetterRecorded(meta: Metadata, log: Log, letters: string, c: char, prefix: string, e: Event)
    requires Lettered(log, letters) && c !in letters && IdChar(c)
    requires e.commandId == [c] && e.id == EventIdFor(prefix, [c]) && ValidEnvelope(meta, e)
    ensures AppendIdempotent(meta, log, e, {}).log == log + [Stored(meta, log, e)]
    ensures Lettered(log + [Stored(meta, log, e)], letters + [c])
  {
    hide ValidEnvelope, FirstWithCommand, HasId, SortStrings, RuntimeRows, Equivalent, Lettered, EventIdFor, Trim;
    LetterIsFresh(log, letters, c, prefix);
    IdEnds(prefix, c);
    LetteredSnoc(log, letters, c, Stored(meta, log, e));
  }
}
