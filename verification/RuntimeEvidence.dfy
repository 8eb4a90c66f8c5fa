/** The runtime evidence stamped on speeches, and the check whether a selected speaker's runtime has
    to be rehydrated. */
module RuntimeEvidence {
  import opened Prelude
  import opened Text
  import opened Events
  import opened Channel
  import opened CouncilRuns
  import opened Membership
  import Cursors

  // ---- The rehydrate decision ------------------------------------------------------------

  predicate CursorResolves(log: Log, cursor: string) {
    Cursors.Parse(cursor).Some? && 0 <= Cursors.Parse(cursor).value.0 < |log|
    && Trim(log[Cursors.Parse(cursor).value.0].id) == Trim(Cursors.Parse(cursor).value.1)
  }

  predicate IdResolves(log: Log, id: string) {
    Trim(id) != "" && exists i :: 0 <= i < |log| && Trim(log[i].id) == Trim(id)
  }

  /** The member's first row in some evidence. */
  function MemberRow(rows: seq<RuntimeRow>, member: string): (row: Option<RuntimeRow>)
    ensures row.Some? ==> row.value in rows && Trim(row.value.member) == member
    ensures row.None? ==> forall r :: r in rows ==> Trim(r.member) != member
  {
    if rows == [] then None
    else if Trim(rows[0].member) == member then Some(rows[0])
    else MemberRow(rows[1..], member)
  }

  function EvidenceEventId(evidence: RuntimeEvidence, row: RuntimeRow, e: Event): string {
    if Trim(row.lastEventId) != "" then Trim(row.lastEventId)
    else if Trim(evidence.speechEventId) != "" then Trim(evidence.speechEventId)
    else e.id
  }

  /** Is the row unusable, so that the runtime must be rehydrated? */
  predicate RowBroken(log: Log, evidence: RuntimeEvidence, row: RuntimeRow, e: Event) {
    var cursor, id := Trim(row.lastCursor), EvidenceEventId(evidence, row, e);
    || cursor == "" || Trim(row.handle) == "" || row.generation <= 0
    || Cursors.Parse(cursor) == None || !CursorResolves(log, cursor) || !IdResolves(log, id)
    || Trim(id) != Trim(Cursors.Parse(cursor).value.1)
  }

  /** Looks back from `n`: the latest evidence with a row for the member decides; evidence without
      any such row calls for rehydration too. */
  function NeedsRehydrateFrom(log: Log, n: nat, grantId: string, member: string, seen: bool): bool
    requires n <= |log|
  {
    if n == 0 then seen
    else
      var e := log[n - 1];
      if Trim(e.id) == Trim(grantId) || e.payload.runtime == None then NeedsRehydrateFrom(log, n - 1, grantId, member, seen)
      else
        var evidence := e.payload.runtime.value;
        match MemberRow(evidence.rows, member)
        case Some(row) => RowBroken(log, evidence, row, e)
        case None => NeedsRehydrateFrom(log, n - 1, grantId, member, true)
  }

  /** `flagged` is whether the grant itself asks for rehydration. */
  function NeedsRehydrate(log: Log, grantId: string, member: string, flagged: bool): bool {
    flagged || (Trim(member) != "" && NeedsRehydrateFrom(log, |log|, grantId, Trim(member), false))
  }

  method SelectedRunnerRehydrate(log: Log, grantId: string, member: string, flagged: bool) returns (required: bool)
    ensures required == NeedsRehydrate(log, grantId, member, flagged)
  {
    hide RowBroken, MemberRow, TrimLeft, TrimRight, Trim;
    if flagged {
      return true;
    }
    var id := Trim(member);
    if id == "" {
      return false;
    }
    var i, seen := |log|, false;
    while i > 0
      invariant 0 <= i <= |log|
      invariant NeedsRehydrateFrom(log, |log|, grantId, id, false) == NeedsRehydrateFrom(log, i, grantId, id, seen)
    {
      i := i - 1;
      var e := log[i];
      if Trim(e.id) != Trim(grantId) && e.payload.runtime.Some? {
        seen := true;
        var row := MemberRow(e.payload.runtime.value.rows, id);
        if row.Some? {
          return RowBroken(log, e.payload.runtime.value, row.value, e);
        }
      }
    }
    return seen;
  }

  // ---- What reachable logs carry ---------------------------------------------------------

  /** Ids print into cursors and trim to themselves, as ids made from commands do. */
  predicate ProperIds(log: Log) {
    |log| <= Cursors.OFFSET_LIMIT
    && forall k :: 0 <= k < |log| ==> log[k].id != "" && '\n' !in log[k].id && Trim(log[k].id) == log[k].id
  }

  /** Only the daemon's stamp on speeches fills the evidence key. */
  predicate OnlySpeechesStamped(log: Log) {
    forall k :: 0 <= k < |log| && log[k].typ != Speech ==> log[k].payload.runtime == None
  }

  /** The stamp of the event at `k`: one row per member, all pointing at the speech itself. */
  predicate Stamp(meta: Metadata, log: Log, k: nat, evidence: RuntimeEvidence)
    requires k < |log|
  {
    && evidence.speechEventId == log[k].id && evidence.coverageCursor == Cursors.Print(k, log[k].id)
    && |evidence.rows| == |CouncilMembers(meta)|
    && forall i :: 0 <= i < |evidence.rows| ==>
         evidence.rows[i] == RuntimeRow(CouncilMembers(meta)[i], Handle(meta.id, CouncilMembers(meta)[i]), 1,
                                        log[k].id, Cursors.Print(k, log[k].id))
  }

  predicate Stamped(meta: Metadata, log: Log) {
    forall k :: 0 <= k < |log| ==>
      (log[k].typ != Speech ==> log[k].payload.runtime == None)
      && (log[k].typ == Speech ==> log[k].payload.runtime.Some? && Stamp(meta, log, k, log[k].payload.runtime.value))
  }

  lemma {:induction false} RowGenerationOne(rows: seq<RuntimeRow>, member: string, handle: string)
    requires forall i :: 0 <= i < |rows| ==> rows[i].generation == 1
    ensures RowGeneration(rows, member, handle) in {0, 1}
  {
    if rows != [] {
      RowGenerationOne(rows[1..], member, handle);
    }
  }

  lemma {:induction false} GenerationIsOne(meta: Metadata, log: Log, member: string, handle: string)
    requires Stamped(meta, log)
    ensures Generation(log, member, handle) == 1
  {
    hide Handle, CouncilMembers, Cursors.Print;
    if log != [] {
      var init, e := log[..|log| - 1], log[|log| - 1];
      StampedPrefix(meta, log, |log| - 1);
      GenerationIsOne(meta, init, member, handle);
      if e.payload.runtime.Some? {
        RowGenerationOne(e.payload.runtime.value.rows, member, handle);
      }
    }
  }

  lemma StampedPrefix(meta: Metadata, log: Log, n: nat)
    requires Stamped(meta, log) && n <= |log|
    ensures Stamped(meta, log[..n])
  {
    hide Handle, CouncilMembers, Cursors.Print;
    forall k | 0 <= k < n
      ensures (log[..n][k].typ != Speech ==> log[..n][k].payload.runtime == None)
              && (log[..n][k].typ == Speech ==> log[..n][k].payload.runtime.Some? && Stamp(meta, log[..n], k, log[..n][k].payload.runtime.value))
    {
      assert log[..n][k] == log[k];
    }
  }

  lemma StampIsPrepared(meta: Metadata, prior: Log, e: Event)
    requires Stamped(meta, prior) && e.typ == Speech && e.payload.runtime == Channel.Prepare(meta, prior, e).payload.runtime
    ensures e.payload.runtime.Some? && Stamp(meta, prior + [e], |prior|, e.payload.runtime.value)
  {
    hide Handle, CouncilMembers, Cursors.Print;
    forall member, handle ensures Generation(prior, member, handle) == 1 {
      GenerationIsOne(meta, prior, member, handle);
    }
  }

  /** In every reachable log each speech carries a row per member that points at the speech itself
      and has generation one. */
  lemma {:induction false} HistoryStamped(meta: Metadata, log: Log)
    requires History(meta, log) && OnlySpeechesStamped(log)
    ensures Stamped(meta, log)
  {
    hide ContentJustified, PhaseJustified, FreshCommand, HasId, Stamp, Channel.Prepare;
    if log != [] {
      var init, e := log[..|log| - 1], log[|log| - 1];
      HistoryPrefix(meta, log, |log| - 1);
      HistoryStamped(meta, init);
      assert Justified(meta, init, e);
      assert log == init + [e];
      StampGrows(meta, init, e);
      if e.typ == Speech {
        StampIsPrepared(meta, init, e);
      }
    }
  }

  lemma StampGrows(meta: Metadata, log: Log, e: Event)
    requires Stamped(meta, log)
    ensures forall k :: 0 <= k < |log| ==>
              (log[k].typ != Speech ==> log[k].payload.runtime == None)
              && (log[k].typ == Speech ==> log[k].payload.runtime.Some? && Stamp(meta, log + [e], k, log[k].payload.runtime.value))
  {
    hide Handle, CouncilMembers, Cursors.Print;
  }

  lemma ProperCursor(log: Log, k: nat)
    requires ProperIds(log) && k < |log|
    ensures Cursors.Parse(Cursors.Print(k, log[k].id)) == Some((k, log[k].id))
    ensures Trim(Cursors.Print(k, log[k].id)) == Cursors.Print(k, log[k].id) != ""
  {
    var id := log[k].id;
    Cursors.ParsePrint(k, id);
    var cursor := Cursors.Print(k, id);
    assert cursor[0] == 'c' && cursor[|cursor| - 1] == id[|id| - 1];
    TrimFixed(cursor);
  }

  /** Every row of every speech resolves to that very speech, at generation one. */
  lemma EvidenceResolves(meta: Metadata, log: Log, k: nat, i: nat)
    requires Reachable(meta, log) && OnlySpeechesStamped(log) && ProperIds(log)
    requires k < |log| && log[k].typ == Speech && i < |CouncilMembers(meta)|
    ensures log[k].payload.runtime.Some? && i < |log[k].payload.runtime.value.rows|
    ensures var row := log[k].payload.runtime.value.rows[i];
            && row.member == CouncilMembers(meta)[i] && row.generation == 1
            && Cursors.Parse(row.lastCursor) == Some((k, log[k].id))
    ensures forall member, handle :: Generation(log, member, handle) == 1
  {
    hide Reachable, History, CouncilMembers, Handle, Cursors.Parse, Cursors.Print, Generation, ProperIds;
    ReachableHistory(meta, log);
    HistoryStamped(meta, log);
    ProperCursor(log, k);
    forall member, handle ensures Generation(log, member, handle) == 1 {
      GenerationIsOne(meta, log, member, handle);
    }
  }

  lemma HandleIsNotBlank(sessionId: string, member: string)
    ensures Trim(Handle(sessionId, member)) != ""
  {
    var h := Handle(sessionId, member);
    assert h[0] == 'p';
    if Trim(h) == "" {
      assert TrimLeft(h) == h;
      TrimRightKeeps(h);
    }
  }

  lemma {:induction false} TrimRightKeeps(s: string)
    requires s != "" && !IsSpace(s[0])
    ensures TrimRight(s) != ""
  {
    if |s| > 1 && IsSpace(s[|s| - 1]) {
      TrimRightKeeps(s[..|s| - 1]);
    }
  }

  lemma RowIsSound(meta: Metadata, log: Log, k: nat, row: RuntimeRow)
    requires Stamped(meta, log) && ProperIds(log) && k < |log| && log[k].typ == Speech
    requires row in log[k].payload.runtime.value.rows
    ensures !RowBroken(log, log[k].payload.runtime.value, row, log[k])
  {
    hide Trim, Handle, CouncilMembers, Cursors.Parse, Cursors.Print;
    ProperCursor(log, k);
    HandleIsNotBlank(meta.id, row.member);
  }

  lemma StampHasMember(meta: Metadata, log: Log, k: nat, member: string)
    requires Stamped(meta, log) && k < |log| && log[k].typ == Speech && CouncilMember(meta, member) && Trim(member) == member
    ensures MemberRow(log[k].payload.runtime.value.rows, member).Some?
  {
    hide Trim, Handle, Cursors.Print;
    var i :| 0 <= i < |CouncilMembers(meta)| && CouncilMembers(meta)[i] == member;
    assert log[k].payload.runtime.value.rows[i] in log[k].payload.runtime.value.rows;
  }

  lemma {:induction false} NeverBroken(meta: Metadata, log: Log, n: nat, grantId: string, member: string)
    requires Stamped(meta, log) && ProperIds(log) && n <= |log| && CouncilMember(meta, member) && Trim(member) == member
    ensures !NeedsRehydrateFrom(log, n, grantId, member, false)
  {
    hide RowBroken, Stamped, ProperIds, Trim, CouncilMember;
    if n > 0 {
      var e := log[n - 1];
      NeverBroken(meta, log, n - 1, grantId, member);
      if e.payload.runtime.Some? {
        StampedSpeech(meta, log, n - 1);
        StampHasMember(meta, log, n - 1, member);
        RowIsSound(meta, log, n - 1, MemberRow(e.payload.runtime.value.rows, member).value);
      }
    }
  }

  lemma StampedSpeech(meta: Metadata, log: Log, k: nat)
    requires Stamped(meta, log) && k < |log| && log[k].payload.runtime.Some?
    ensures log[k].typ == Speech
  {
  }

  /** A grant to a council member that does not itself ask for rehydration never requires it. */
  lemma MembersNeverRehydrate(meta: Metadata, log: Log, grantId: string, member: string)
    requires Reachable(meta, log) && OnlySpeechesStamped(log) && ProperIds(log)
    requires CouncilMember(meta, member) && Trim(member) == member
    ensures !NeedsRehydrate(log, grantId, member, false)
  {
    hide Reachable, History, NeedsRehydrateFrom, Stamped, ProperIds, CouncilMember, Trim;
    ReachableHistory(meta, log);
    HistoryStamped(meta, log);
    NeverBroken(meta, log, |log|, grantId, member);
  }
}
