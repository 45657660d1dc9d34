/**
 The pattern evaluator.  Every step is a loop over candidate posits and partial
 bindings; the whole is proved to return the relation of the pattern, whichever access
 path supplied the candidates.
 */
module Evaluation {
  import opened Prelude
  import opened Sequences
  import opened Times
  import opened Constructs
  import opened Effect
  import opened Bindings
  import opened Matching
  import opened Patterns
  import opened JoinOrder
  import opened LatestPatterns
  import opened IndexAccess

  datatype Access = Bitmap | FullScan

  // -------------------------------------------------------- bitmap candidates

  /** The posit variable narrows the candidates unless the reduction must come first. */
  predicate UsesPosit(p: PositPattern, b: Binding) {
    p.posit.Some? && (p.cutoff.None? || p.latest) && p.posit.value in b
  }

  predicate UsesSet(p: PositPattern, b: Binding) {
    p.appearances.binding.Some? && p.appearances.binding.value in b
  }

  predicate FreeMember(s: Snapshot, m: Member, b: Binding) {
    RoleConstraintOf(s, m.role, b).Unconstrained? && ThingConstraintOf(m.thing, b).None?
  }

  /** The input pins down nothing but the posit variable. */
  predicate OnlyPositBound(s: Snapshot, p: PositPattern, b: Binding) {
    UsesPosit(p, b) && !UsesSet(p, b) && forall m :: m in p.appearances.members ==> FreeMember(s, m, b)
  }

  /** Every posit that could contribute a row is in the posting. */
  ghost predicate SoundPosting(s: Snapshot, p: PositPattern, b: Binding, recalled: Binding, posting: set<Thing>) {
    forall id :: id in s.posits && Contributes(s, p, b, recalled, s.posits[id]) ==> id in posting
  }

  ghost predicate Contributes(s: Snapshot, p: PositPattern, b: Binding, recalled: Binding, q: Posit) {
    var ctx := Context(s.roleNames, recalled);
    if p.cutoff.Some? && !p.latest then MatchesStructurally(ctx, p, b, q) else OnPosit(ctx, p, q, b) != []
  }

  lemma ContributesMatches(s: Snapshot, p: PositPattern, b: Binding, recalled: Binding, q: Posit)
    requires Contributes(s, p, b, recalled, q)
    ensures MatchesStructurally(Context(s.roleNames, recalled), p, b, q)
  {
    hide OwnMatches;
  }

  lemma SoundFromMatch(s: Snapshot, p: PositPattern, b: Binding, recalled: Binding, posting: set<Thing>)
    requires forall id :: id in s.posits && MatchesStructurally(Context(s.roleNames, recalled), p, b, s.posits[id]) ==> id in posting
    ensures SoundPosting(s, p, b, recalled, posting)
  {
    hide MatchesStructurally;
    hide Contributes;
    forall id | id in s.posits && Contributes(s, p, b, recalled, s.posits[id]) ensures id in posting {
      ContributesMatches(s, p, b, recalled, s.posits[id]);
    }
  }

  method IndexedRole(s: Snapshot, slot: RoleSlot, b: Binding) returns (found: Result<RoleConstraint, QueryError>)
    ensures found.Ok? ==> found.value == RoleConstraintOf(s, slot, b)
    ensures found.Err? <==> slot.RoleVariable? && slot.name in b && !b[slot.name].RoleValue?
  {
    match slot {
      case AnyRole => return Ok(Unconstrained);
      case NamedRole(name) =>
        return Ok(if name in s.rolesByName then OnlyRole(s.rolesByName[name]) else NoRole);
      case RoleVariable(name) =>
        if name !in b {
          return Ok(Unconstrained);
        }
        if !b[name].RoleValue? {
          return Err(VariableDomain(name));
        }
        return Ok(OnlyRole(b[name].role));
    }
  }

  /** A Thing slot whose bound names are bound to identities. */
  ghost predicate IdentitySlot(slot: ThingSlot, b: Binding) {
    && AllBound(slot, b)
    && (slot.ThingVariable? && slot.name in b ==> b[slot.name].Identity?())
    && (slot.OneOf? ==> forall i :: 0 <= i < |slot.names| ==> b[slot.names[i]].Identity?())
  }

  method IndexedThings(slot: ThingSlot, b: Binding) returns (found: Result<Option<set<Thing>>, QueryError>)
    ensures found.Ok? ==> found.value == ThingConstraintOf(slot, b)
    ensures IdentitySlot(slot, b) ==> found.Ok?
  {
    match slot {
      case AnyThing => return Ok(None);
      case ThingVariable(name) =>
        if name !in b {
          return Ok(None);
        }
        if !b[name].Identity?() {
          return Err(VariableDomain(name));
        }
        return Ok(Some({b[name].id}));
      case OneOf(names) =>
        var things: set<Thing> := {};
        for i := 0 to |names|
          invariant things == RecalledThings(names[..i], b)
        {
          if names[i] !in b {
            return Err(InvalidRecall(names[i]));
          }
          if !b[names[i]].Identity?() {
            return Err(VariableDomain(names[i]));
          }
          RecalledSnoc(names, i, b);
          things := things + {b[names[i]].id};
        }
        assert names[..|names|] == names;
        return Ok(Some(things));
    }
  }

  lemma RecalledSnoc(names: seq<string>, i: nat, b: Binding)
    requires i < |names| && names[i] in b && b[names[i]].Identity?()
    ensures RecalledThings(names[..i + 1], b) == RecalledThings(names[..i], b) + {b[names[i]].id}
  {
    var (longer, shorter) := (names[..i + 1], names[..i]);
    forall t | t in RecalledThings(longer, b) ensures t in RecalledThings(shorter, b) + {b[names[i]].id} {
      var k :| 0 <= k < |longer| && longer[k] in b && b[longer[k]].Identity?() && b[longer[k]].id == t;
      assert k < i ==> shorter[k] == longer[k];
    }
    forall t | t in RecalledThings(shorter, b) ensures t in RecalledThings(longer, b) {
      var k :| 0 <= k < |shorter| && shorter[k] in b && b[shorter[k]].Identity?() && b[shorter[k]].id == t;
      assert longer[k] == shorter[k];
    }
    assert longer[i] == names[i];
  }

  /** The postings of one member: its role's, and its Things'. */
  method MemberPostings(s: Snapshot, p: PositPattern, b: Binding, i: nat, ghost recalled: Binding, ghost domains: map<string, Domain>)
    returns (found: Result<Option<seq<set<Thing>>>, QueryError>)
    requires Indexed(s) && WellFormed(p.appearances) && SameRecall(OneOfNames(p.appearances.members), b, recalled)
    requires i < |p.appearances.members|
    ensures found.Ok? && found.value.None? ==> SoundPosting(s, p, b, recalled, {}) && !FreeMember(s, p.appearances.members[i], b)
    ensures found.Ok? && found.value.Some? ==>
              && (forall k :: 0 <= k < |found.value.value| ==>
                    SoundPosting(s, p, b, recalled, found.value.value[k]) && found.value.value[k] <= s.posits.Keys)
              && (found.value.value == [] <==> FreeMember(s, p.appearances.members[i], b))
    ensures Typed(b, domains) && TypedMember(p.appearances.members[i], domains) && AllBound(p.appearances.members[i].thing, b) ==> found.Ok?
  {
    hide Indexed;
    hide MatchesStructurally;
    hide WellFormed;
    hide SoundPosting;
    var member := p.appearances.members[i];
    TypedSlot(b, member, domains);
    var role := IndexedRole(s, member.role, b);
    if role.Err? {
      return Err(role.error);
    }
    forall id | id in s.posits && MatchesStructurally(Context(s.roleNames, recalled), p, b, s.posits[id])
      ensures !role.value.NoRole? && (role.value.OnlyRole? ==> id in Posting(s.roleToPosits, role.value.role))
    {
      PositKept(s, id);
      RoleConstrains(s, p, b, recalled, s.posits[id], i);
    }
    if role.value.NoRole? {
      SoundFromMatch(s, p, b, recalled, {});
      return Ok(None);
    }
    var postings := [];
    if role.value.OnlyRole? {
      SoundFromMatch(s, p, b, recalled, Posting(s.roleToPosits, role.value.role));
      RolePostingKept(s, role.value.role);
      postings := [Posting(s.roleToPosits, role.value.role)];
    }
    var things := IndexedThings(member.thing, b);
    if things.Err? {
      return Err(things.error);
    }
    if things.value.Some? {
      var posting := PositPostingForThings(s, things.value.value, role.value);
      forall id | id in s.posits && MatchesStructurally(Context(s.roleNames, recalled), p, b, s.posits[id]) ensures id in posting {
        PositKept(s, id);
        ThingConstrains(s, p, b, recalled, s.posits[id], i);
      }
      SoundFromMatch(s, p, b, recalled, posting);
      postings := postings + [posting];
    }
    return Ok(Some(postings));
  }

  lemma TypedSlot(b: Binding, member: Member, domains: map<string, Domain>)
    ensures Typed(b, domains) && TypedMember(member, domains) && AllBound(member.thing, b) ==>
              && IdentitySlot(member.thing, b)
              && (member.role.RoleVariable? && member.role.name in b ==> b[member.role.name].RoleValue?)
  {
  }

  lemma PositKept(s: Snapshot, id: Thing)
    requires Indexed(s) && id in s.posits
    ensures s.posits[id].id == id
  {
  }

  lemma RolePostingKept(s: Snapshot, role: Thing)
    requires Indexed(s)
    ensures Posting(s.roleToPosits, role) <= s.posits.Keys
  {
  }

  /** What the candidate bitmap holds: no contributing posit is missing, and strays only when nothing but the posit is bound. */
  ghost predicate SoundCandidates(s: Snapshot, p: PositPattern, b: Binding, recalled: Binding, candidates: Option<set<Thing>>) {
    && (candidates.Some? ==> SoundPosting(s, p, b, recalled, candidates.value))
    && (candidates.Some? && OnlyPositBound(s, p, b) ==> b[p.posit.value].Identity?() && candidates.value == {b[p.posit.value].id})
    && (candidates.Some? && !OnlyPositBound(s, p, b) ==> candidates.value <= s.posits.Keys)
    && (candidates.None? ==> !OnlyPositBound(s, p, b))
  }

  predicate TypedPosit(p: PositPattern, domains: map<string, Domain>) {
    && TypedPattern(p.appearances, domains)
    && (p.posit.Some? ==> p.posit.value in domains && domains[p.posit.value] == PositDomain)
    && (p.value.ValueVariable? ==> p.value.name in domains && domains[p.value.name] == LiteralDomain)
    && (p.time.TimeVariable? ==> p.time.name in domains && domains[p.time.name] == TimeDomain)
  }

  ghost predicate AllOneOfBound(members: seq<Member>, b: Binding) {
    forall m :: m in members ==> AllBound(m.thing, b)
  }

  /** The first postings: a bound posit variable, and a bound set variable. */
  method HeadPostings(s: Snapshot, p: PositPattern, b: Binding, ghost recalled: Binding, ghost domains: map<string, Domain>)
    returns (found: Result<seq<set<Thing>>, QueryError>)
    requires Indexed(s) && WellFormed(p.appearances)
    ensures found.Ok? ==>
              && (forall k :: 0 <= k < |found.value| ==> SoundPosting(s, p, b, recalled, found.value[k]))
              && |found.value| == (if UsesPosit(p, b) then 1 else 0) + (if UsesSet(p, b) then 1 else 0)
              && (UsesPosit(p, b) ==> b[p.posit.value].Identity?() && found.value[0] == {b[p.posit.value].id})
              && (forall k :: (if UsesPosit(p, b) then 1 else 0) <= k < |found.value| ==> found.value[k] <= s.posits.Keys)
    ensures Typed(b, domains) && TypedPosit(p, domains) ==> found.Ok?
  {
    hide Indexed;
    hide MatchesStructurally;
    hide OnPosit;
    hide SoundPosting;
    var postings := [];
    if UsesPosit(p, b) {
      var name := p.posit.value;
      if !b[name].Identity?() {
        return Err(VariableDomain(name));
      }
      SoundPosit(s, p, b, recalled, name);
      postings := [{b[name].id}];
    }
    if UsesSet(p, b) {
      var name := p.appearances.binding.value;
      if !b[name].SetValue? {
        return Err(VariableDomain(name));
      }
      forall id | id in s.posits && MatchesStructurally(Context(s.roleNames, recalled), p, b, s.posits[id])
        ensures id in Posting(s.setToPosits, b[name].appearanceSet)
      {
        SetMatches(Context(s.roleNames, recalled), p, b, s.posits[id], name);
        SetPostingHolds(s, id, b[name].appearanceSet);
      }
      SoundFromMatch(s, p, b, recalled, Posting(s.setToPosits, b[name].appearanceSet));
      SetPostingHolds(s, 0, b[name].appearanceSet);
      postings := postings + [Posting(s.setToPosits, b[name].appearanceSet)];
    }
    return Ok(postings);
  }

  lemma SoundPosit(s: Snapshot, p: PositPattern, b: Binding, recalled: Binding, name: string)
    requires Indexed(s) && UsesPosit(p, b) && p.posit == Some(name) && b[name].Identity?()
    ensures SoundPosting(s, p, b, recalled, {b[name].id})
  {
    hide OnPosit;
    hide MatchesStructurally;
    hide Indexed;
    forall id | id in s.posits && Contributes(s, p, b, recalled, s.posits[id]) ensures id in {b[name].id} {
      PositKept(s, id);
      PositConstrains(Context(s.roleNames, recalled), p, b, s.posits[id], name);
    }
  }

  lemma SetPostingHolds(s: Snapshot, id: Thing, appearanceSet: AppearanceSet)
    requires Indexed(s)
    ensures id in s.posits && s.posits[id].appearances == appearanceSet ==> id in Posting(s.setToPosits, appearanceSet)
    ensures Posting(s.setToPosits, appearanceSet) <= s.posits.Keys
  {
  }

  method CollectPostings(s: Snapshot, p: PositPattern, b: Binding, ghost recalled: Binding, ghost domains: map<string, Domain>)
    returns (found: Result<Option<seq<set<Thing>>>, QueryError>)
    requires Indexed(s) && WellFormed(p.appearances) && SameRecall(OneOfNames(p.appearances.members), b, recalled)
    ensures found.Ok? && found.value.None? ==> SoundPosting(s, p, b, recalled, {}) && !OnlyPositBound(s, p, b)
    ensures found.Ok? && found.value.Some? ==>
              var postings := found.value.value;
              && (forall k :: 0 <= k < |postings| ==> SoundPosting(s, p, b, recalled, postings[k]))
              && (UsesPosit(p, b) ==> |postings| > 0 && b[p.posit.value].Identity?() && postings[0] == {b[p.posit.value].id})
              && (forall k :: (if UsesPosit(p, b) then 1 else 0) <= k < |postings| ==> postings[k] <= s.posits.Keys)
              && (OnlyPositBound(s, p, b) <==> UsesPosit(p, b) && |postings| == 1)
    ensures Typed(b, domains) && TypedPosit(p, domains) && AllOneOfBound(p.appearances.members, b) ==> found.Ok?
  {
    hide Indexed;
    hide WellFormed;
    hide SoundPosting;
    hide SameRecall;
    hide FreeMember;
    hide Typed;
    hide TypedMember;
    hide AllBound;
    var head := HeadPostings(s, p, b, recalled, domains);
    if head.Err? {
      return Err(head.error);
    }
    var postings := head.value;
    ghost var base := if UsesPosit(p, b) then 1 else 0;
    for i := 0 to |p.appearances.members|
      invariant forall k :: 0 <= k < |postings| ==> SoundPosting(s, p, b, recalled, postings[k])
      invariant |postings| >= base && (UsesPosit(p, b) ==> postings[0] == {b[p.posit.value].id})
      invariant forall k :: base <= k < |postings| ==> postings[k] <= s.posits.Keys
      invariant |postings| == base <==> !UsesSet(p, b) && forall k :: 0 <= k < i ==> FreeMember(s, p.appearances.members[k], b)
    {
      assert p.appearances.members[i] in p.appearances.members;
      var more := MemberPostings(s, p, b, i, recalled, domains);
      if more.Err? {
        return Err(more.error);
      }
      if more.value.None? {
        return Ok(None);
      }
      postings := postings + more.value.value;
    }
    return Ok(Some(postings));
  }

  /** Intersects the postings that the input selects; None when it selects none. */
  method IndexedCandidates(s: Snapshot, p: PositPattern, b: Binding, ghost recalled: Binding, ghost domains: map<string, Domain>)
    returns (found: Result<Option<set<Thing>>, QueryError>)
    requires Indexed(s) && WellFormed(p.appearances) && SameRecall(OneOfNames(p.appearances.members), b, recalled)
    ensures found.Ok? ==> SoundCandidates(s, p, b, recalled, found.value)
    ensures Typed(b, domains) && TypedPosit(p, domains) && AllOneOfBound(p.appearances.members, b) ==> found.Ok?
  {
    hide Indexed;
    hide WellFormed;
    hide SameRecall;
    hide Contributes;
    hide OnlyPositBound;
    hide Typed;
    hide TypedPosit;
    var collected := CollectPostings(s, p, b, recalled, domains);
    if collected.Err? {
      return Err(collected.error);
    }
    if collected.value.None? {
      return Ok(Some({}));
    }
    var postings := collected.value.value;
    if postings == [] {
      return Ok(None);
    }
    var candidates := postings[0];
    for k := 1 to |postings|
      invariant SoundPosting(s, p, b, recalled, candidates)
      invariant k == 1 ==> candidates == postings[0]
      invariant k > 1 ==> candidates <= s.posits.Keys
    {
      candidates := candidates * postings[k];
      if candidates == {} {
        break;
      }
    }
    return Ok(Some(candidates));
  }

  /**
   The posits a scan visits, in ascending identity order.  They always suffice; a
   bitmap run fails, where a full scan would not, exactly when the input binds nothing
   but the posit variable and binds it to something that is not a posit.
   */
  method CandidatePosits(s: Snapshot, p: PositPattern, b: Binding, access: Access, ghost recalled: Binding, ghost domains: map<string, Domain>)
    returns (found: Result<seq<Posit>, QueryError>)
    requires Indexed(s) && WellFormed(p.appearances) && SameRecall(OneOfNames(p.appearances.members), b, recalled)
    ensures found.Ok? ==> forall cut: Option<Time> :: (cut.Some? <==> p.cutoff.Some?) ==>
              SelectedRows(Context(s.roleNames, recalled), p, found.value, cut, b)
              == SelectedRows(Context(s.roleNames, recalled), p, AllPosits(s), cut, b)
    ensures found.Ok? ==> forall q :: q in found.value ==> q in AllPosits(s)
    ensures Typed(b, domains) && TypedPosit(p, domains) && AllOneOfBound(p.appearances.members, b) ==>
              (found.Err? <==> access.Bitmap? && StrayPosit(s, p, b))
    ensures access.Bitmap? && StrayPosit(s, p, b) ==> found.Err?
  {
    hide Indexed;
    hide WellFormed;
    hide SameRecall;
    hide Typed;
    hide TypedPosit;
    hide SelectedRows;
    hide OnlyPositBound;
    hide SoundPosting;
    hide AllPosits;
    var ids := s.posits.Keys;
    if access.Bitmap? {
      var candidates := IndexedCandidates(s, p, b, recalled, domains);
      if candidates.Err? {
        return Err(candidates.error);
      }
      if candidates.value.Some? {
        ids := candidates.value.value;
      }
    }
    var sorted := SortedIdentities(ids);
    var posits := [];
    for i := 0 to |sorted|
      invariant forall id :: id in sorted[..i] ==> id in s.posits
      invariant posits == PositsOf(s, sorted[..i])
    {
      assert sorted[i] in ids;
      if sorted[i] !in s.posits {
        StrayMeans(s, p, b);
        return Err(QueryError.MissingPosit(sorted[i]));
      }
      assert sorted[..i + 1] == sorted[..i] + [sorted[i]];
      PositsSnoc(s, sorted[..i], sorted[i]);
      posits := posits + [s.posits[sorted[i]]];
    }
    assert sorted[..|sorted|] == sorted;
    assert forall id :: id in ids ==> id in sorted;
    StrayMeans(s, p, b);
    CandidatesSuffice(s, p, b, recalled, ids);
    return Ok(posits);
  }

  /** A bitmap over the posit variable alone would look up an identity that no posit has. */
  predicate StrayPosit(s: Snapshot, p: PositPattern, b: Binding) {
    OnlyPositBound(s, p, b) && b[p.posit.value].Identity?() && b[p.posit.value].id !in s.posits
  }

  lemma StrayMeans(s: Snapshot, p: PositPattern, b: Binding)
    ensures StrayPosit(s, p, b) ==> OnlyPositBound(s, p, b) && b[p.posit.value].Identity?() && b[p.posit.value].id !in s.posits
    ensures OnlyPositBound(s, p, b) ==> p.posit.Some? && p.posit.value in b
    ensures OnlyPositBound(s, p, b) && b[p.posit.value].Identity?() && b[p.posit.value].id !in s.posits ==> StrayPosit(s, p, b)
  {
  }

  lemma CandidatesSuffice(s: Snapshot, p: PositPattern, b: Binding, recalled: Binding, ids: set<Thing>)
    requires Indexed(s) && ids <= s.posits.Keys && (ids == s.posits.Keys || SoundPosting(s, p, b, recalled, ids))
    ensures forall cut: Option<Time> :: (cut.Some? <==> p.cutoff.Some?) ==>
              SelectedRows(Context(s.roleNames, recalled), p, PositsOf(s, SortedOf(ids)), cut, b)
              == SelectedRows(Context(s.roleNames, recalled), p, AllPosits(s), cut, b)
    ensures forall q :: q in PositsOf(s, SortedOf(ids)) ==> q in AllPosits(s)
  {
    hide SelectedRows;
    var ctx := Context(s.roleNames, recalled);
    CandidatesAmongAll(s, ids);
    forall q ensures q in PositsOf(s, SortedOf(ids)) ==> q in AllPosits(s) {
      KeepMembers(AllPosits(s), IdIn(ids), q);
    }
    CoversAll(s, p, b, recalled, ids);
    forall cut: Option<Time> | cut.Some? <==> p.cutoff.Some?
      ensures SelectedRows(ctx, p, PositsOf(s, SortedOf(ids)), cut, b) == SelectedRows(ctx, p, AllPosits(s), cut, b)
    {
      CoveringScan(ctx, p, AllPosits(s), cut, b, ids);
    }
  }

  lemma CoversAll(s: Snapshot, p: PositPattern, b: Binding, recalled: Binding, ids: set<Thing>)
    requires Indexed(s) && (ids == s.posits.Keys || SoundPosting(s, p, b, recalled, ids))
    ensures Covers(Context(s.roleNames, recalled), p, AllPosits(s), b, ids)
  {
    hide OnPosit;
    hide OwnMatches;
    hide FlatMap;
    var ctx := Context(s.roleNames, recalled);
    AllPositsDistinct(s);
    forall q | q in AllPosits(s) && q.id !in ids
      ensures if p.cutoff.Some? && !p.latest then Structural(ctx, p, b)(q) == [] else Fielded(ctx, p, b)(q) == []
    {
      assert q.id in s.posits && !Contributes(s, p, b, recalled, q);
      TagBindings(q, OnPosit(ctx, p, q, b));
      TagBindings(q, Extend(b, OwnMatches(ctx, p.appearances, q.appearances)));
    }
  }
}
