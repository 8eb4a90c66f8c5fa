/** Which members a new council accepts. */
module Membership {
  import opened Prelude
  import opened Text
  import opened Events

  predicate Reserved(principal: string) {
    principal == USER || principal == DAEMON
  }

  function AddMember(moderator: string, members: seq<string>, raw: string): Result<seq<string>> {
    var member := Trim(raw);
    if member == "" || Reserved(member) || member == moderator || member in members then Err(BadPrincipal("members"))
    else Ok(members + [member])
  }

  function Canonicalize(moderator: string, raw: seq<string>): Result<seq<string>> {
    if raw == [] then Ok([])
    else
      match Canonicalize(moderator, raw[..|raw| - 1])
      case Err(error) => Err(error)
      case Ok(members) => AddMember(moderator, members, raw[|raw| - 1])
  }

  lemma {:induction false} CanonicalizeFailsEarly(moderator: string, raw: seq<string>, n: nat)
    requires n <= |raw| && Canonicalize(moderator, raw[..n]).Err?
    ensures Canonicalize(moderator, raw) == Canonicalize(moderator, raw[..n])
    decreases |raw|
  {
    if n < |raw| {
      assert raw[..|raw| - 1][..n] == raw[..n];
      CanonicalizeFailsEarly(moderator, raw[..|raw| - 1], n);
    } else {
      assert raw[..n] == raw;
    }
  }

  function CanonicalMembers(moderator: string, raw: seq<string>): Result<seq<string>> {
    if raw == [] then Err(BadPrincipal("members"))
    else
      var members := Canonicalize(moderator, raw);
      if members.Ok? && Reserved(moderator) then Err(BadPrincipal("moderator")) else members
  }

  method CanonicalCouncilMembers(moderator: string, raw: seq<string>) returns (r: Result<seq<string>>)
    ensures r == CanonicalMembers(moderator, raw)
  {
    if raw == [] {
      return Err(BadPrincipal("members"));
    }
    var seen: set<string>, members: seq<string> := {}, [];
    for i := 0 to |raw|
      invariant Canonicalize(moderator, raw[..i]) == Ok(members)
      invariant forall m :: m in seen <==> m in members
    {
      assert raw[..i + 1][..i] == raw[..i];
      if Canonicalize(moderator, raw[..i + 1]).Err? {
        CanonicalizeFailsEarly(moderator, raw, i + 1);
      }
      var member := Trim(raw[i]);
      if member == "" || Reserved(member) || member == moderator || member in seen {
        return Err(BadPrincipal("members"));
      }
      seen, members := seen + {member}, members + [member];
    }
    assert raw[..|raw|] == raw;
    if Reserved(moderator) {
      return Err(BadPrincipal("moderator"));
    }
    return Ok(members);
  }

  predicate GoodMember(moderator: string, raw: string) {
    !Blank(raw) && !Reserved(Trim(raw)) && Trim(raw) != moderator
  }

  predicate DistinctTrims(raw: seq<string>) {
    forall i, j :: 0 <= i < j < |raw| ==> Trim(raw[i]) != Trim(raw[j])
  }

  lemma {:induction false} CanonicalizeExactly(moderator: string, raw: seq<string>)
    ensures Canonicalize(moderator, raw).Ok?
            <==> (DistinctTrims(raw) && forall i :: 0 <= i < |raw| ==> GoodMember(moderator, raw[i]))
    ensures Canonicalize(moderator, raw).Ok? ==>
              var members := Canonicalize(moderator, raw).value;
              |members| == |raw| && forall i :: 0 <= i < |raw| ==> members[i] == Trim(raw[i])
  {
    hide Trim;
    if raw != [] {
      var init, last := raw[..|raw| - 1], raw[|raw| - 1];
      CanonicalizeExactly(moderator, init);
      assert raw == init + [last];
      if DistinctTrims(raw) && forall i :: 0 <= i < |raw| ==> GoodMember(moderator, raw[i]) {
        assert forall i :: 0 <= i < |init| ==> init[i] == raw[i];
        assert DistinctTrims(init);
        assert GoodMember(moderator, last);
      } else if Canonicalize(moderator, raw).Ok? {
        var members := Canonicalize(moderator, init).value;
        forall i | 0 <= i < |init| ensures Trim(raw[i]) != Trim(last) {
          assert members[i] in members;
        }
      }
    }
  }

  /** What the other modules need of a member list: non-empty, distinct, trimmed, not blank. */
  predicate Canonical(meta: Metadata) {
    CouncilMembers(meta) != [] && Distinct(CouncilMembers(meta))
    && forall m :: m in CouncilMembers(meta) ==> m != "" && Trim(m) == m
  }

  lemma {:induction false} MembersKept(members: seq<string>, moderator: string)
    requires moderator !in members
    ensures Members(members, moderator) == members
  {
    if members != [] {
      MembersKept(members[1..], moderator);
    }
  }

  /** Member lists are accepted exactly when they are non-empty and, once trimmed, name distinct
      principals other than the moderator and the reserved ones; a council created with the result
      has exactly those members. */
  lemma CreationIsCanonical(meta: Metadata, raw: seq<string>)
    ensures CanonicalMembers(meta.moderator, raw).Ok?
            <==> (raw != [] && !Reserved(meta.moderator) && DistinctTrims(raw)
                  && forall i :: 0 <= i < |raw| ==> GoodMember(meta.moderator, raw[i]))
    ensures CanonicalMembers(meta.moderator, raw).Ok?
            && meta.participants == [meta.moderator] + CanonicalMembers(meta.moderator, raw).value
            ==> CouncilMembers(meta) == CanonicalMembers(meta.moderator, raw).value && Canonical(meta)
  {
    CanonicalizeExactly(meta.moderator, raw);
    if CanonicalMembers(meta.moderator, raw).Ok? {
      var members := CanonicalMembers(meta.moderator, raw).value;
      forall i | 0 <= i < |members| ensures Trim(members[i]) == members[i] && members[i] != meta.moderator {
        TrimIdempotent(raw[i]);
      }
      MembersKept(members, meta.moderator);
      assert ([meta.moderator] + members)[1..] == members;
    }
  }
}
