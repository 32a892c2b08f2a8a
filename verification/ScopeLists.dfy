/** The loops that build and compare prefix lists, proved to compute the lists the
    Scope module reasons about. */
module ScopeLists {

  import opened Paths
  import opened Scope

  method CleanList(list: seq<string>) returns (out: seq<string>)
    ensures out == Clean(list)
  {
    out := [];
    for i := 0 to |list|
      invariant out == Clean(list)[..i]
    {
      out := out + [Normalise(list[i])];
    }
  }

  method DedupeList(list: seq<string>) returns (out: seq<string>)
    ensures out == Dedupe(list)
    ensures forall i, j :: 0 <= i < j < |out| ==> out[i] != out[j]
    ensures forall z :: z in out <==> z in list
  {
    var seen: set<string> := {};
    out := [];
    for i := 0 to |list|
      invariant out == Dedupe(list[..i])
      invariant seen == set z | z in out
      invariant forall a, b :: 0 <= a < b < |out| ==> out[a] != out[b]
    {
      assert list[..i + 1][..i] == list[..i];
      if list[i] !in seen {
        seen := seen + {list[i]};
        out := out + [list[i]];
      }
    }
    assert list[..|list|] == list;
    forall z ensures z in out <==> z in list {
      DedupeMembers(list, z);
    }
  }

  method IntersectLists(a: seq<string>, b: seq<string>) returns (out: seq<string>)
    ensures out == Intersect(a, b)
  {
    var pairs: seq<string> := [];
    for i := 0 to |a|
      invariant pairs == Pairs(a[..i], b)
    {
      ghost var before := pairs;
      for j := 0 to |b|
        invariant pairs == before + Nested(a[i], b[..j])
      {
        assert b[..j + 1][..j] == b[..j];
        if Under(b[j], a[i]) {
          pairs := pairs + [b[j]];
        } else if Under(a[i], b[j]) {
          pairs := pairs + [a[i]];
        }
      }
      assert b[..|b|] == b && a[..i + 1][..i] == a[..i];
    }
    assert a[..|a|] == a;
    out := DedupeList(pairs);
  }

  method AllUnderList(want: seq<string>, have: seq<string>) returns (ok: bool)
    ensures ok == AllUnder(want, have)
  {
    for i := 0 to |want|
      invariant forall k :: 0 <= k < i ==> AnyOver(want[k], have)
    {
      var found := false;
      for j := 0 to |have|
        invariant !found && forall k :: 0 <= k < j ==> !Under(want[i], have[k])
      {
        if Under(want[i], have[j]) {
          found := true;
          break;
        }
      }
      if !found {
        return false;
      }
    }
    return true;
  }
}
