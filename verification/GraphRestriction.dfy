/** The source graph of a claim without some of its sources (apps/orchestrator/link_audit.py). */
module GraphRestriction {
  import opened Basics

  type Id = nat

  datatype Node = Node(id: Id, uri: nat, pointer: Option<Id>)

  /** An edge or an operator correction between two sources. */
  datatype Link = Link(from: Id, to: Id, data: nat)

  datatype Assembly = Assembly(members: seq<Id>, nodes: seq<Node>, edges: seq<Link>, corrections: seq<Link>,
                               effective: map<Id, Option<Id>>)

  function Filter<T(!new)>(s: seq<T>, keep: T -> bool): (r: seq<T>)
    ensures forall x :: x in r <==> x in s && keep(x)
  {
    if s == [] then []
    else
      var init, last := s[..|s| - 1], s[|s| - 1];
      assert s == init + [last];
      Filter(init, keep) + if keep(last) then [last] else []
  }

  /** The node of an id; a later node of the same id wins. */
  function Lookup(nodes: seq<Node>, id: Id): (r: Option<Node>)
    ensures r.Some? ==> r.value.id == id
  {
    if nodes == [] then None
    else if nodes[|nodes| - 1].id == id then Some(nodes[|nodes| - 1])
    else Lookup(nodes[..|nodes| - 1], id)
  }

  lemma {:induction false} LookupIsLast(nodes: seq<Node>, id: Id)
    ensures Lookup(nodes, id).None? <==> forall k :: 0 <= k < |nodes| ==> nodes[k].id != id
    ensures forall k :: 0 <= k < |nodes| && nodes[k].id == id && (forall j :: k < j < |nodes| ==> nodes[j].id != id) ==>
      Lookup(nodes, id) == Some(nodes[k])
  {
    if nodes != [] { LookupIsLast(nodes[..|nodes| - 1], id); }
  }

  /** `r` is what stands at the places `at`, rising, and those are the kept places. */
  ghost predicate KeepsOrder<T(!new)>(s: seq<T>, keep: T -> bool, r: seq<T>, at: seq<int>) {
    && |at| == |r|
    && (forall i :: 0 <= i < |at| ==> 0 <= at[i] < |s| && keep(s[at[i]]) && r[i] == s[at[i]])
    && (forall i, j :: 0 <= i < j < |at| ==> at[i] < at[j])
    && (forall k :: 0 <= k < |s| && keep(s[k]) ==> k in at)
  }

  lemma {:induction false} FilterKeepsOrder<T(!new)>(s: seq<T>, keep: T -> bool) returns (at: seq<int>)
    ensures KeepsOrder(s, keep, Filter(s, keep), at)
  {
    at := [];
    if s != [] {
      var n := |s| - 1;
      at := FilterKeepsOrder(s[..n], keep);
      KeepsOneMore(s, keep, Filter(s[..n], keep), at);
      if keep(s[n]) { at := at + [n]; }
    }
  }

  lemma KeepsOneMore<T(!new)>(s: seq<T>, keep: T -> bool, r: seq<T>, at: seq<int>)
    requires s != [] && KeepsOrder(s[..|s| - 1], keep, r, at)
    ensures keep(s[|s| - 1]) ==> KeepsOrder(s, keep, r + [s[|s| - 1]], at + [|s| - 1])
    ensures !keep(s[|s| - 1]) ==> KeepsOrder(s, keep, r, at)
  {
    var n := |s| - 1;
    forall k | 0 <= k < n && keep(s[k]) ensures k in at { assert keep(s[..n][k]); }
  }

  /** The nodes picked are those of the known ids, in the order of the ids. */
  lemma {:induction false} PickedInOrder(nodes: seq<Node>, ids: seq<Id>)
    ensures var known := Filter(ids, id => Lookup(nodes, id).Some?);
      && |Picked(nodes, ids)| == |known|
      && forall k :: 0 <= k < |known| ==> Some(Picked(nodes, ids)[k]) == Lookup(nodes, known[k])
  {
    if ids != [] { PickedInOrder(nodes, ids[..|ids| - 1]); }
  }

  function Picked(nodes: seq<Node>, ids: seq<Id>): seq<Node> {
    if ids == [] then []
    else
      var n := Lookup(nodes, ids[|ids| - 1]);
      Picked(nodes, ids[..|ids| - 1]) + if n.Some? then [n.value] else []
  }

  /** Page pointers and recorded value parents of the members, members themselves left out. */
  function ParentIds(a: Assembly, members: seq<Id>): set<Id> {
    (set m | m in members && PointerOf(a, m).Some? :: PointerOf(a, m).value)
    + (set m | m in members && RecordedOf(a, m).Some? :: RecordedOf(a, m).value)
    - (set m | m in members)
  }

  function PointerOf(a: Assembly, m: Id): Option<Id> {
    var n := Lookup(a.nodes, m);
    if n.Some? then n.value.pointer else None
  }

  function RecordedOf(a: Assembly, m: Id): Option<Id> { if m in a.effective then a.effective[m] else None }

  predicate IsLeast(s: set<Id>, m: Id) { m in s && forall x :: x in s ==> m <= x }

  function Least(s: set<Id>): (m: Id)
    requires s != {}
    ensures IsLeast(s, m)
  {
    LeastExists(s);
    var m :| m in s && IsLeast(s, m);
    m
  }

  lemma LeastExists(s: set<Id>)
    requires s != {}
    ensures exists m :: m in s && IsLeast(s, m)
  {
    var m :| m in s;
    if y :| y in s && y < m {
      var rest := s - {m};
      assert y in rest;
      LeastExists(rest);
      var k :| k in rest && IsLeast(rest, k);
      assert forall x :: x in s ==> x == m || x in rest;
      assert IsLeast(s, k);
    } else {
      assert IsLeast(s, m);
    }
  }

  function Sorted(s: set<Id>): (r: seq<Id>)
    ensures forall x :: x in r <==> x in s
    ensures forall i, j :: 0 <= i < j < |r| ==> r[i] < r[j]
  {
    if s == {} then [] else var m := Least(s); [m] + Sorted(s - {m})
  }

  function NodeIds(nodes: seq<Node>): set<Id> { set n | n in nodes :: n.id }

  predicate BothKept(l: Link, keep: set<Id>) { l.from in keep && l.to in keep }

  function Restricted(links: seq<Link>, keep: set<Id>): seq<Link> { Filter(links, l => BothKept(l, keep)) }

  /** The assembly of the given members: their nodes, their parents' nodes and what lies between those. */
  function Around(a: Assembly, members: seq<Id>): Assembly {
    var nodes := Picked(a.nodes, members + Sorted(ParentIds(a, members)));
    var keep := NodeIds(nodes);
    Assembly(members, nodes, Restricted(a.edges, keep), Restricted(a.corrections, keep),
             map m | m in a.effective && m in members && a.effective[m].Some? :: a.effective[m])
  }

  function MembersWithout(a: Assembly, excluded: set<Id>): seq<Id> { Filter(a.members, m => m !in excluded) }

  /** None when no member is left. */
  function Without(a: Assembly, excluded: set<Id>): Option<Assembly> {
    var members := MembersWithout(a, excluded);
    if members == [] then None else Some(Around(a, members))
  }

  function Then(a: Option<Assembly>, excluded: set<Id>): Option<Assembly> {
    if a.None? then None else Without(a.value, excluded)
  }

  // ----- restricting twice -----

  lemma {:induction false} FilterTwice<T(!new)>(s: seq<T>, p: T -> bool, q: T -> bool, both: T -> bool)
    requires forall x :: both(x) <==> p(x) && q(x)
    ensures Filter(Filter(s, p), q) == Filter(s, both)
  {
    if s != [] {
      var init, last := s[..|s| - 1], s[|s| - 1];
      FilterTwice(init, p, q, both);
      if p(last) {
        assert (Filter(init, p) + [last])[..|Filter(init, p)|] == Filter(init, p);
      } else {
        assert Filter(s, p) == Filter(init, p);
      }
    }
  }

  /** Looking a node up among picked ones is looking it up in the whole graph. */
  lemma {:induction false} LookupPicked(nodes: seq<Node>, ids: seq<Id>, id: Id)
    ensures Lookup(Picked(nodes, ids), id) == if id in ids then Lookup(nodes, id) else None
  {
    if ids != [] {
      var init, last := ids[..|ids| - 1], ids[|ids| - 1];
      assert ids == init + [last];
      LookupPicked(nodes, init, id);
      var n := Lookup(nodes, last);
      if n.Some? {
        assert (Picked(nodes, init) + [n.value])[..|Picked(nodes, init)|] == Picked(nodes, init);
      } else {
        assert Picked(nodes, ids) == Picked(nodes, init);
      }
    }
  }

  lemma {:induction false} PickedSame(nodes: seq<Node>, more: seq<Node>, ids: seq<Id>)
    requires forall id :: id in ids ==> Lookup(nodes, id) == Lookup(more, id)
    ensures Picked(nodes, ids) == Picked(more, ids)
  {
    if ids != [] { PickedSame(nodes, more, ids[..|ids| - 1]); }
  }

  lemma {:induction false} PickedIds(nodes: seq<Node>, ids: seq<Id>, id: Id)
    ensures id in NodeIds(Picked(nodes, ids)) <==> id in ids && Lookup(nodes, id).Some?
  {
    if ids != [] {
      var init, last := ids[..|ids| - 1], ids[|ids| - 1];
      assert ids == init + [last];
      PickedIds(nodes, init, id);
      var n := Lookup(nodes, last);
      assert NodeIds(Picked(nodes, ids)) == NodeIds(Picked(nodes, init)) + if n.Some? then {n.value.id} else {};
    }
  }

  /** Every node id the smaller assembly needs is one the larger one kept. */
  lemma NeededIsKept(a: Assembly, members: seq<Id>, fewer: seq<Id>, id: Id)
    requires forall m :: m in fewer ==> m in members
    requires id in fewer || id in ParentIds(a, fewer)
    ensures id in members + Sorted(ParentIds(a, members))
  {
    if id in ParentIds(a, fewer) && id !in members {
      assert id in ParentIds(a, members);
    }
  }

  lemma SameParents(a: Assembly, members: seq<Id>, fewer: seq<Id>)
    requires forall m :: m in fewer ==> m in members
    ensures ParentIds(Around(a, members), fewer) == ParentIds(a, fewer)
  {
    var b := Around(a, members);
    forall m | m in fewer ensures PointerOf(b, m) == PointerOf(a, m) && RecordedOf(b, m) == RecordedOf(a, m) {
      LookupPicked(a.nodes, members + Sorted(ParentIds(a, members)), m);
    }
  }

  /** Restricting a restriction to fewer members is restricting the whole graph to them. */
  lemma AroundTwice(a: Assembly, members: seq<Id>, fewer: seq<Id>)
    requires forall m :: m in fewer ==> m in members
    ensures Around(Around(a, members), fewer) == Around(a, fewer)
  {
    var b := Around(a, members);
    var ids, all := fewer + Sorted(ParentIds(a, fewer)), members + Sorted(ParentIds(a, members));
    SameParents(a, members, fewer);
    forall id | id in ids ensures Lookup(b.nodes, id) == Lookup(a.nodes, id) {
      NeededIsKept(a, members, fewer, id);
      LookupPicked(a.nodes, all, id);
    }
    PickedSame(b.nodes, a.nodes, ids);
    var small, large := NodeIds(Picked(a.nodes, ids)), NodeIds(b.nodes);
    forall id | id in small ensures id in large {
      PickedIds(a.nodes, ids, id);
      NeededIsKept(a, members, fewer, id);
      PickedIds(a.nodes, all, id);
    }
    FilterTwice(a.edges, l => BothKept(l, large), l => BothKept(l, small), l => BothKept(l, small));
    FilterTwice(a.corrections, l => BothKept(l, large), l => BothKept(l, small), l => BothKept(l, small));
  }

  /** Excluding sources in two steps is excluding them all at once: the same members, nodes, edges, corrections
      and effective parents, and nothing left in the same cases. A member excluded first and needed as a parent
      by a later survivor is still there. */
  lemma ExcludeTwice(a: Assembly, first: set<Id>, second: set<Id>)
    ensures Then(Without(a, first), second) == Without(a, first + second)
  {
    var members := MembersWithout(a, first);
    FilterTwice(a.members, m => m !in first, m => m !in second, m => m !in first + second);
    assert Filter(members, m => m !in second) == MembersWithout(a, first + second);
    if members != [] {
      assert Around(a, members).members == members;
      AroundTwice(a, members, MembersWithout(a, first + second));
    }
  }

  /** So the order of exclusions does not matter either. */
  lemma ExclusionsCommute(a: Assembly, first: set<Id>, second: set<Id>)
    ensures Then(Without(a, first), second) == Then(Without(a, second), first)
  {
    ExcludeTwice(a, first, second);
    ExcludeTwice(a, second, first);
    assert first + second == second + first;
  }

  /** An excluded source keeps its node exactly when a remaining member has it as a parent. */
  lemma SurvivesAsParentIff(a: Assembly, excluded: set<Id>, id: Id)
    requires id in excluded && Lookup(a.nodes, id).Some? && Without(a, excluded).Some?
    ensures id in NodeIds(Without(a, excluded).value.nodes) <==>
      exists m :: m in a.members && m !in excluded && (PointerOf(a, m) == Some(id) || RecordedOf(a, m) == Some(id))
  {
    var members := MembersWithout(a, excluded);
    PickedIds(a.nodes, members + Sorted(ParentIds(a, members)), id);
    assert id !in members;
    assert id in ParentIds(a, members) <==>
      exists m :: m in members && (PointerOf(a, m) == Some(id) || RecordedOf(a, m) == Some(id));
  }

  /** A remaining member has `id` as its page or recorded parent. */
  ghost predicate IsParentOf(a: Assembly, members: seq<Id>, id: Id) {
    exists m :: m in members && (PointerOf(a, m) == Some(id) || RecordedOf(a, m) == Some(id))
  }

  /** What a restriction holds: nothing when every member is excluded, otherwise the other members, the nodes of
      members and their parents, and the links and recorded parents among them. */
  lemma RestrictionHolds(a: Assembly, excluded: set<Id>, id: Id, l: Link)
    ensures Without(a, excluded).None? <==> forall m :: m in a.members ==> m in excluded
    ensures Without(a, excluded).Some? ==> HoldsAt(a, excluded, Without(a, excluded).value, id, l)
  {
    var members := MembersWithout(a, excluded);
    if members == [] {
      forall m | m in a.members ensures m in excluded { assert m in members || m in excluded; }
    } else {
      assert members[0] in members;
      PickedIds(a.nodes, members + Sorted(ParentIds(a, members)), id);
      LookupPicked(a.nodes, members + Sorted(ParentIds(a, members)), id);
      assert id in ParentIds(a, members) <==> id !in members && IsParentOf(a, members, id);
    }
  }

  ghost predicate HoldsAt(a: Assembly, excluded: set<Id>, b: Assembly, id: Id, l: Link) {
    && (id in b.members <==> id in a.members && id !in excluded)
    && (id in NodeIds(b.nodes) <==> Lookup(a.nodes, id).Some? && (id in b.members || IsParentOf(a, b.members, id)))
    && (id in NodeIds(b.nodes) ==> Lookup(b.nodes, id) == Lookup(a.nodes, id))
    && (l in b.edges <==> l in a.edges && l.from in NodeIds(b.nodes) && l.to in NodeIds(b.nodes))
    && (l in b.corrections <==> l in a.corrections && l.from in NodeIds(b.nodes) && l.to in NodeIds(b.nodes))
    && RecordedOf(b, id) == if id in b.members then RecordedOf(a, id) else None
  }
}
