/** The speeches quoted to a selected speaker: gathered backwards from the grant, then reversed in
    place. */
module PromptWindow {
  import opened Prelude
  import opened Text
  import opened Events

  predicate Quoted(e: Event, member: string) {
    e.typ == Speech && (member == "" || Trim(e.from) == Trim(member))
  }

  /** The quotable speeches of a log in order. */
  function Speeches(log: Log, member: string): (found: Log)
    ensures |found| <= |log|
  {
    if log == [] then []
    else
      var e := log[|log| - 1];
      Speeches(log[..|log| - 1], member) + if Quoted(e, member) then [e] else []
  }

  /** The last `limit` of them, or all when there is no limit. */
  function Latest(speeches: Log, limit: int): Log {
    if 0 < limit < |speeches| then speeches[|speeches| - limit..] else speeches
  }

  /** The offset of the first event with this id, or the length of the log. */
  function FirstAt(log: Log, id: string): (n: nat)
    ensures n <= |log| && (n < |log| ==> log[n].id == id) && forall i :: 0 <= i < n ==> log[i].id != id
  {
    if log == [] || log[0].id == id then 0 else 1 + FirstAt(log[1..], id)
  }

  /** The speeches to quote for a grant: the latest ones before it, oldest first. */
  function Window(log: Log, grantId: string, limit: int, member: string): Log {
    var position := FirstAt(log, grantId);
    if position == |log| then [] else Latest(Speeches(log[..position], member), limit)
  }

  function Reversed(s: Log): (r: Log)
    ensures |r| == |s|
    ensures forall i :: 0 <= i < |s| ==> r[i] == s[|s| - 1 - i]
  {
    seq(|s|, i requires 0 <= i < |s| => s[|s| - 1 - i])
  }

  method ReverseInPlace(a: array<Event>, count: nat)
    requires count <= a.Length
    modifies a
    ensures a[..count] == Reversed(old(a[..count]))
  {
    var left, right := 0, count - 1;
    while left < right
      invariant 0 <= left <= count && left + right == count - 1 && left <= right + 1
      invariant forall k :: 0 <= k < left ==> a[k] == old(a[count - 1 - k]) && a[count - 1 - k] == old(a[k])
      invariant forall k :: left <= k <= right ==> a[k] == old(a[k])
    {
      a[left], a[right] := a[right], a[left];
      left, right := left + 1, right - 1;
    }
  }

  lemma SpeechesSnoc(log: Log, e: Event, member: string)
    ensures Speeches(log + [e], member) == Speeches(log, member) + if Quoted(e, member) then [e] else []
  {
    assert (log + [e])[..|log|] == log;
  }

  lemma {:induction false} SpeechesConcat(a: Log, b: Log, member: string)
    ensures Speeches(a + b, member) == Speeches(a, member) + Speeches(b, member)
  {
    hide Quoted;
    if b == [] {
      assert a + b == a;
    } else {
      var init, last := b[..|b| - 1], b[|b| - 1];
      assert a + b == (a + init) + [last];
      SpeechesSnoc(a + init, last, member);
      SpeechesConcat(a, init, member);
    }
  }

  lemma SpeechesCons(e: Event, log: Log, member: string)
    ensures Speeches([e] + log, member) == (if Quoted(e, member) then [e] else []) + Speeches(log, member)
  {
    hide Quoted;
    SpeechesConcat([e], log, member);
    SpeechesSnoc([], e, member);
    assert [] + [e] == [e];
  }

  lemma ReversedCons(e: Event, s: Log)
    ensures Reversed([e] + s) == Reversed(s) + [e]
  {
  }

  lemma ReversedTwice(s: Log)
    ensures Reversed(Reversed(s)) == s
  {
  }

  /** A scan that stopped at `i` has gathered the latest speeches. */
  lemma GatheredIsLatest(before: Log, i: nat, limit: int, member: string)
    requires i <= |before|
    requires i == 0 || (limit > 0 && |Speeches(before[i..], member)| == limit)
    requires limit > 0 ==> |Speeches(before[i..], member)| <= limit
    ensures Speeches(before[i..], member) == Latest(Speeches(before, member), limit)
  {
    hide Speeches;
    SpeechesConcat(before[..i], before[i..], member);
    assert before == before[..i] + before[i..];
    if i == 0 {
      assert before[i..] == before;
    }
  }

  lemma GatherStep(before: Log, i: nat, member: string)
    requires i < |before|
    ensures Reversed(Speeches(before[i..], member))
            == Reversed(Speeches(before[i + 1..], member)) + if Quoted(before[i], member) then [before[i]] else []
  {
    hide Speeches, Quoted;
    SpeechesCons(before[i], before[i + 1..], member);
    assert before[i..] == [before[i]] + before[i + 1..];
    ReversedCons(before[i], Speeches(before[i + 1..], member));
    assert [] + Speeches(before[i + 1..], member) == Speeches(before[i + 1..], member);
  }

  /** Backwards from the end, until the cap is reached. */
  method Gather(before: Log, limit: int, member: string) returns (found: array<Event>, count: nat, ghost i: nat)
    requires before != []
    ensures fresh(found) && count <= found.Length && i <= |before|
    ensures found[..count] == Reversed(Speeches(before[i..], member))
    ensures i == 0 || (limit > 0 && count == limit)
    ensures limit > 0 ==> count <= limit
  {
    hide Speeches, Quoted, Reversed;
    found := new Event[|before|](_ => before[0]);
    var k := |before|;
    count := 0;
    NothingGathered(before, member);
    while k > 0 && (limit <= 0 || count < limit)
      invariant 0 <= k <= |before| && count <= |before| - k && (limit > 0 ==> count <= limit)
      invariant found[..count] == Reversed(Speeches(before[k..], member))
    {
      k := k - 1;
      GatherStep(before, k, member);
      if Quoted(before[k], member) {
        found[count] := before[k];
        count := count + 1;
        assert found[..count] == found[..count - 1] + [before[k]];
      }
    }
    i := k;
  }

  lemma NothingGathered(before: Log, member: string)
    ensures Reversed(Speeches(before[|before|..], member)) == []
  {
    assert before[|before|..] == [];
  }

  /** Gathers backwards with a cap, and puts the result back into log order. */
  method SourcesBeforeSelected(log: Log, grantId: string, limit: int, member: string) returns (prior: Log)
    ensures prior == Window(log, grantId, limit, member)
  {
    hide Speeches, Quoted;
    var position := 0;
    while position < |log| && log[position].id != grantId
      invariant 0 <= position <= |log|
      invariant forall i :: 0 <= i < position ==> log[i].id != grantId
    {
      position := position + 1;
    }
    assert position == FirstAt(log, grantId);
    hide FirstAt;
    if position == |log| || position == 0 {
      NoSpeeches(log, limit, member);
      return [];
    }
    var before := log[..position];
    var found, count, i := Gather(before, limit, member);
    ReverseInPlace(found, count);
    prior := found[..count];
    ReversedTwice(Speeches(before[i..], member));
    GatheredIsLatest(before, i, limit, member);
  }

  lemma NoSpeeches(log: Log, limit: int, member: string)
    ensures Latest(Speeches(log[..0], member), limit) == []
  {
  }

  /** The window quotes only speeches from before the grant, at most `limit` of them. */
  lemma WindowPrecedesGrant(log: Log, grantId: string, limit: int, member: string, e: Event)
    requires e in Window(log, grantId, limit, member)
    ensures exists i :: 0 <= i < FirstAt(log, grantId) && log[i] == e && Quoted(e, member)
    ensures limit > 0 ==> |Window(log, grantId, limit, member)| <= limit
  {
    hide Quoted;
    var before := log[..FirstAt(log, grantId)];
    SpeechesAreQuoted(before, member, e);
    var i :| 0 <= i < |before| && before[i] == e;
    assert log[i] == e;
  }

  lemma {:induction false} SpeechesAreQuoted(log: Log, member: string, e: Event)
    requires e in Speeches(log, member)
    ensures e in log && Quoted(e, member)
  {
    hide Quoted;
    if e != log[|log| - 1] || !Quoted(e, member) {
      SpeechesAreQuoted(log[..|log| - 1], member, e);
    }
  }
}
