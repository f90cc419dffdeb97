/** The peer registry. A JavaScript `Set<Peer>` keeps its members without
    duplicates and iterates them in insertion order, so a set is modelled as a
    duplicate-free sequence. The namespaced adapters keep one such set per
    namespace. */
module PeerSets {
  import opened Base

  predicate Distinct(s: seq<PeerId>)
  {
    forall i, j :: 0 <= i < j < |s| ==> s[i] != s[j]
  }

  /** `set.add(p)`: a new member goes to the end; a present one stays where it is. */
  function Insert(s: seq<PeerId>, p: PeerId): (r: seq<PeerId>)
    ensures forall q :: q in r <==> q in s || q == p
    ensures Distinct(s) ==> Distinct(r)
    ensures p in s ==> r == s
    ensures |s| <= |r| <= |s| + 1
    ensures r[..|s|] == s
  {
    if p in s then s else s + [p]
  }

  /** `set.delete(p)`: removes `p`, keeps the others in their order; absent `p` is a no-op. */
  function Remove(s: seq<PeerId>, p: PeerId): (r: seq<PeerId>)
    ensures forall q :: q in r <==> q in s && q != p
    ensures Distinct(s) ==> Distinct(r)
    ensures |r| <= |s|
    ensures Distinct(s) ==> |r| == if p in s then |s| - 1 else |s|
  {
    if s == [] then []
    else
      assert Distinct(s) ==> Distinct(s[1..]) && s[0] !in s[1..];
      if s[0] == p then Remove(s[1..], p)
      else [s[0]] + Remove(s[1..], p)
  }

  /** Deleting a peer that is not a member changes nothing. */
  lemma {:induction false} RemoveAbsent(s: seq<PeerId>, p: PeerId)
    requires p !in s
    ensures Remove(s, p) == s
  {
    if s != [] {
      assert s == [s[0]] + s[1..];
      RemoveAbsent(s[1..], p);
    }
  }

  /** Removal is idempotent: a duplicate close or error event is harmless. */
  lemma RemoveIdempotent(s: seq<PeerId>, p: PeerId)
    ensures Remove(Remove(s, p), p) == Remove(s, p)
  {
    RemoveAbsent(Remove(s, p), p);
  }

  /** Removing distributes over concatenation. */
  lemma {:induction false} RemoveAppend(s: seq<PeerId>, t: seq<PeerId>, p: PeerId)
    ensures Remove(s + t, p) == Remove(s, p) + Remove(t, p)
  {
    if s == [] {
      assert s + t == t;
    } else {
      assert (s + t)[0] == s[0];
      assert (s + t)[1..] == s[1..] + t;
      RemoveAppend(s[1..], t, p);
    }
  }

  /** Adding a new peer and removing it again gives back the original set, order included. */
  lemma InsertThenRemove(s: seq<PeerId>, p: PeerId)
    requires p !in s
    ensures Remove(Insert(s, p), p) == s
  {
    RemoveAppend(s, [p], p);
    RemoveAbsent(s, p);
    assert Remove([p], p) == [];
  }

  /** The namespaced registry (`Map<string, Set<Peer>>`). */
  type Registry = map<string, seq<PeerId>>

  /** `getPeers(globalPeers, namespace)`: the set of one namespace, empty if none is stored. */
  function Members(reg: Registry, ns: string): seq<PeerId>
  {
    if ns in reg then reg[ns] else []
  }

  /** Membership of every namespace is duplicate-free. */
  predicate RegistryDistinct(reg: Registry)
  {
    forall ns :: ns in reg ==> Distinct(reg[ns])
  }

  /** `getPeers(reg, ns).add(p)` */
  function RegistryAdd(reg: Registry, ns: string, p: PeerId): (r: Registry)
    ensures Members(r, ns) == Insert(Members(reg, ns), p)
    ensures forall other :: other != ns ==> Members(r, other) == Members(reg, other)
    ensures RegistryDistinct(reg) ==> RegistryDistinct(r)
  {
    reg[ns := Insert(Members(reg, ns), p)]
  }

  /** `getPeers(reg, ns).delete(p)` */
  function RegistryRemove(reg: Registry, ns: string, p: PeerId): (r: Registry)
    ensures Members(r, ns) == Remove(Members(reg, ns), p)
    ensures forall other :: other != ns ==> Members(r, other) == Members(reg, other)
    ensures RegistryDistinct(reg) ==> RegistryDistinct(r)
  {
    reg[ns := Remove(Members(reg, ns), p)]
  }

  /** Every member of a namespace set is recorded with that namespace as its home. */
  predicate Homed(reg: Registry, home: map<PeerId, string>)
  {
    forall ns, p :: ns in reg && p in reg[ns] ==> p in home && home[p] == ns
  }

  /** A peer without a home is in no namespace set. */
  lemma HomelessNotMember(reg: Registry, home: map<PeerId, string>, ns: string, p: PeerId)
    requires Homed(reg, home) && p !in home
    ensures p !in Members(reg, ns)
  {
    if ns in reg {
      assert p !in reg[ns];
    }
  }

  /** Giving a home to a peer that has none keeps every member homed. */
  lemma HomedExtend(reg: Registry, home: map<PeerId, string>, p: PeerId, ns: string)
    requires Homed(reg, home) && p !in home
    ensures Homed(reg, home[p := ns])
  {
    forall other, q | other in reg && q in reg[other]
      ensures q in home[p := ns] && home[p := ns][q] == other
    {
      assert q in home;
    }
  }

  /** Adding a peer to a namespace set, and recording that namespace as its
      home, keeps every member homed (a peer already homed elsewhere cannot join). */
  lemma {:induction false} HomedAdd(reg: Registry, home: map<PeerId, string>, ns: string, p: PeerId)
    requires Homed(reg, home) && (p in home ==> home[p] == ns)
    ensures Homed(RegistryAdd(reg, ns, p), home[p := ns])
  {
    var r := RegistryAdd(reg, ns, p);
    forall other, q | other in r && q in r[other]
      ensures q in home[p := ns] && home[p := ns][q] == other
    {
      assert r[other] == Members(r, other);
      if q != p {
        assert q in Members(reg, other);
      }
    }
  }

  /** A peer already homed in `ns` joining the set of `ns` keeps every member homed. */
  lemma HomedJoin(reg: Registry, home: map<PeerId, string>, ns: string, p: PeerId)
    requires Homed(reg, home) && p in home && home[p] == ns
    ensures Homed(RegistryAdd(reg, ns, p), home)
  {
    HomedAdd(reg, home, ns, p);
    assert home[p := ns] == home;
  }

  /** Deleting a peer from a namespace set keeps every member homed. */
  lemma {:induction false} HomedRemove(reg: Registry, home: map<PeerId, string>, ns: string, p: PeerId)
    requires Homed(reg, home)
    ensures Homed(RegistryRemove(reg, ns, p), home)
  {
    var r := RegistryRemove(reg, ns, p);
    forall other, q | other in r && q in r[other]
      ensures q in home && home[q] == other
    {
      assert r[other] == Members(r, other);
      assert q in Members(reg, other);
    }
  }
}
