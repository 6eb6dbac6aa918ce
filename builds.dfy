/**
 * The in-memory ledger of commits waiting for their CI build (state/builds.py).
 * Python's dict keeps insertion order, which `get_all_shas` exposes; the class
 * therefore keeps the keys' order beside the map.
 */
module Builds {
  import opened Wrappers
  import opened Pending

  predicate Distinct<T(==)>(s: seq<T>) {
    forall i, j :: 0 <= i < j < |s| ==> s[i] != s[j]
  }

  /** `s` with every occurrence of `x` removed, the others in their order. */
  function Remove(s: seq<string>, x: string): (r: seq<string>)
    ensures forall y :: y in r <==> y in s && y != x
    ensures Distinct(s) ==> Distinct(r)
    ensures x !in s ==> r == s
    ensures |r| <= |s|
  {
    if s == [] then []
    else
      var rest := Remove(s[1..], x);
      assert Distinct(s) ==> Distinct(s[1..]) && s[0] !in s[1..] by {
        if Distinct(s) {
          forall k | 0 <= k < |s| - 1
            ensures s[1..][k] != s[0]
          {
            assert s[1..][k] == s[k + 1];
          }
        }
      }
      if s[0] == x then rest else [s[0]] + rest
  }

  /** Removing the first key of a duplicate-free order leaves the rest of it. */
  lemma RemoveHead(s: seq<string>)
    requires |s| > 0 && Distinct(s)
    ensures Remove(s, s[0]) == s[1..]
  {
    assert s[0] !in s[1..];
  }

  class BuildsStore {
    var builds: map<string, PendingBuild>
    /** The keys of `builds` in the order they were first added. */
    var order: seq<string>

    ghost predicate Valid()
      reads this
    {
      Distinct(order) && (forall sha :: sha in order <==> sha in builds)
    }

    /** A new store is empty. */
    constructor ()
      ensures Valid()
      ensures builds == map[] && order == []
    {
      builds := map[];
      order := [];
    }

    /** `add`: stores `build` under `sha`, overwriting an earlier entry in place. */
    method Add(sha: string, build: PendingBuild)
      requires Valid()
      modifies this
      ensures Valid()
      ensures builds == old(builds)[sha := build]
      ensures order == if sha in old(builds) then old(order) else old(order) + [sha]
    {
      if sha !in builds {
        order := order + [sha];
      }
      builds := builds[sha := build];
    }

    /** `pop`: removes and returns the entry for `sha`, or `None` when there is none. */
    method Pop(sha: string) returns (r: Option<PendingBuild>)
      requires Valid()
      modifies this
      ensures Valid()
      ensures r == if sha in old(builds) then Some(old(builds)[sha]) else None
      ensures builds == old(builds) - {sha}
      ensures order == Remove(old(order), sha)
    {
      if sha in builds {
        r := Some(builds[sha]);
      } else {
        r := None;
      }
      builds := builds - {sha};
      order := Remove(order, sha);
    }

    /** `get`: the entry for `sha`, if any. */
    method Get(sha: string) returns (r: Option<PendingBuild>)
      ensures r.Some? <==> sha in builds
      ensures r.Some? ==> r.value == builds[sha]
    {
      if sha in builds {
        r := Some(builds[sha]);
      } else {
        r := None;
      }
    }

    /** `get_all_shas`: every stored key exactly once, in insertion order. */
    method GetAllShas() returns (r: seq<string>)
      requires Valid()
      ensures r == order
      ensures Distinct(r)
      ensures forall sha :: sha in r <==> sha in builds
    {
      r := order;
    }

    /** `sha in store`. */
    method Contains(sha: string) returns (b: bool)
      ensures b <==> sha in builds
    {
      b := sha in builds;
    }
  }
}
