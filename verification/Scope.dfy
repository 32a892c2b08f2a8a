/** What a principal or session may touch inside the mount, and the algebra of
    narrowing and covering. Times are nanoseconds since the Unix epoch. */
module Scope {

  import opened Common
  import opened Paths

  /** Go's zero time, which means "never" as an expiry. */
  const ZERO_TIME := -62135596800000000000

  const UNIX_SECOND_ONE := 1000000000

  /** No `write` list means the same as read; an empty one means none. */
  datatype Scope = Scope(read: seq<string>, write: Option<seq<string>>, readOnly: bool, expiresAt: int, sandbox: string)

  datatype Answer = Granted(path: string) | Denied | ReadOnly | Expired

  function Clean(list: seq<string>): seq<string> {
    seq(|list|, i requires 0 <= i < |list| => Normalise(list[i]))
  }

  /** For one x, the deeper of each nesting pair (x, y). */
  function Nested(x: string, b: seq<string>): seq<string> {
    if b == [] then []
    else
      var rest := Nested(x, b[..|b| - 1]);
      var y := b[|b| - 1];
      if Under(y, x) then rest + [y] else if Under(x, y) then rest + [x] else rest
  }

  function Pairs(a: seq<string>, b: seq<string>): seq<string> {
    if a == [] then [] else Pairs(a[..|a| - 1], b) + Nested(a[|a| - 1], b)
  }

  function Dedupe(list: seq<string>): seq<string> {
    if list == [] then []
    else
      var d := Dedupe(list[..|list| - 1]);
      if list[|list| - 1] in d then d else d + [list[|list| - 1]]
  }

  function Intersect(a: seq<string>, b: seq<string>): seq<string> {
    Dedupe(Pairs(a, b))
  }

  function EffectiveRead(s: Scope): seq<string> {
    if s.read == [] then ["/"] else Clean(s.read)
  }

  function EffectiveWrite(s: Scope): seq<string> {
    if s.readOnly then []
    else
      var w := if s.write.Some? then Clean(s.write.value) else EffectiveRead(s);
      if s.sandbox != "" then Intersect(w, [Normalise(s.sandbox)]) else w
  }

  predicate ExpiredAt(s: Scope, now: int) {
    s.expiresAt != ZERO_TIME && now >= s.expiresAt
  }

  predicate AnyOver(c: string, list: seq<string>) {
    exists i :: 0 <= i < |list| && Under(c, list[i])
  }

  function CheckAt(s: Scope, p: string, write: bool, now: int): Answer {
    var c := Normalise(p);
    if ExpiredAt(s, now) then Expired
    else if write && s.readOnly then ReadOnly
    else if AnyOver(c, if write then EffectiveWrite(s) else EffectiveRead(s)) then Granted(c)
    else Denied
  }

  predicate Allows(s: Scope, p: string, write: bool, now: int) {
    CheckAt(s, p, write, now).Granted?
  }

  function Earliest(a: int, b: int): int {
    if a == ZERO_TIME then b else if b == ZERO_TIME then a else if b < a then b else a
  }

  const DenyAll := Scope([], Some([]), true, UNIX_SECOND_ONE, "")

  function Narrow(s: Scope, c: Scope): Scope {
    var read := Intersect(EffectiveRead(s), EffectiveRead(c));
    if read == [] then DenyAll
    else Scope(read, Some(Intersect(EffectiveWrite(s), EffectiveWrite(c))), s.readOnly || c.readOnly,
               Earliest(s.expiresAt, c.expiresAt), "")
  }

  predicate AllUnder(want: seq<string>, have: seq<string>) {
    forall i :: 0 <= i < |want| ==> AnyOver(want[i], have)
  }

  predicate CoversAt(s: Scope, o: Scope, now: int) {
    if ExpiredAt(o, now) then true
    else if s.expiresAt != ZERO_TIME && (o.expiresAt == ZERO_TIME || o.expiresAt > s.expiresAt) then false
    else AllUnder(EffectiveRead(o), EffectiveRead(s)) && AllUnder(EffectiveWrite(o), EffectiveWrite(s))
  }

  ghost predicate AllNormal(list: seq<string>) {
    forall i :: 0 <= i < |list| ==> Normal(list[i])
  }

  lemma UnderTransitive(p: string, q: string, r: string)
    requires Normal(p) && Normal(q) && Normal(r) && Under(p, q) && Under(q, r)
    ensures Under(p, r)
  {
    UnderIsComponentPrefix(p, q);
    UnderIsComponentPrefix(q, r);
    UnderIsComponentPrefix(p, r);
  }

  /** Two prefixes of one path nest. */
  lemma PrefixesNest(p: string, q: string, r: string)
    requires Normal(p) && Normal(q) && Normal(r) && Under(p, q) && Under(p, r)
    ensures Under(q, r) || Under(r, q)
  {
    UnderIsComponentPrefix(p, q);
    UnderIsComponentPrefix(p, r);
    UnderIsComponentPrefix(q, r);
    UnderIsComponentPrefix(r, q);
    var a, b, c := Parts(p), Parts(q), Parts(r);
    if |b| <= |c| {
      assert b == c[..|b|];
    } else {
      assert c == b[..|c|];
    }
  }

  lemma {:induction false} NestedMembers(x: string, b: seq<string>, z: string)
    ensures z in Nested(x, b) <==>
      exists i :: 0 <= i < |b| && z == (if Under(b[i], x) then b[i] else x) && (Under(b[i], x) || Under(x, b[i]))
  {
    if b != [] {
      var n := |b| - 1;
      NestedMembers(x, b[..n], z);
      assert forall i :: 0 <= i < n ==> b[..n][i] == b[i];
    }
  }

  /** z is the deeper of some nesting pair. */
  ghost predicate Deeper(a: seq<string>, b: seq<string>, i: int, j: int, z: string) {
    && 0 <= i < |a| && 0 <= j < |b| && (Under(b[j], a[i]) || Under(a[i], b[j]))
    && z == if Under(b[j], a[i]) then b[j] else a[i]
  }

  /** A pair of a list is one of its last element, or of the rest. */
  lemma DeeperOfLast(a: seq<string>, b: seq<string>, i: int, j: int, z: string)
    requires a != []
    ensures i < |a| - 1 ==> (Deeper(a, b, i, j, z) <==> Deeper(a[..|a| - 1], b, i, j, z))
    ensures Deeper(a, b, |a| - 1, j, z) <==>
      0 <= j < |b| && z == (if Under(b[j], a[|a| - 1]) then b[j] else a[|a| - 1]) &&
        (Under(b[j], a[|a| - 1]) || Under(a[|a| - 1], b[j]))
  {
    hide Under;
  }

  lemma {:induction false} PairsMembers(a: seq<string>, b: seq<string>, z: string)
    ensures z in Pairs(a, b) <==> exists i, j :: Deeper(a, b, i, j, z)
  {
    hide Under;
    if a != [] {
      var n := |a| - 1;
      PairsMembers(a[..n], b, z);
      NestedMembers(a[n], b, z);
      if z in Nested(a[n], b) {
        var j :| 0 <= j < |b| && z == (if Under(b[j], a[n]) then b[j] else a[n]) &&
          (Under(b[j], a[n]) || Under(a[n], b[j]));
        DeeperOfLast(a, b, n, j, z);
      } else if i, j :| Deeper(a[..n], b, i, j, z) {
        DeeperOfLast(a, b, i, j, z);
      }
      if i, j :| Deeper(a, b, i, j, z) {
        DeeperOfLast(a, b, i, j, z);
      }
    }
  }

  lemma {:induction false} DedupeMembers(list: seq<string>, z: string)
    ensures z in Dedupe(list) <==> z in list
  {
    if list != [] {
      DedupeMembers(list[..|list| - 1], z);
      assert list == list[..|list| - 1] + [list[|list| - 1]];
    }
  }

  /** Each element once, in the order of first appearance: what is added to the list comes
      after what was there. */
  lemma {:induction false} DedupeInOrder(a: seq<string>, b: seq<string>)
    ensures Dedupe(a) <= Dedupe(a + b)
    ensures var d := Dedupe(a + b); forall i, j :: 0 <= i < j < |d| ==> d[i] != d[j]
    decreases |a| + |b|
  {
    if b != [] {
      var c := b[..|b| - 1];
      assert (a + b)[..|a + b| - 1] == a + c;
      DedupeInOrder(a, c);
    } else {
      assert a + b == a;
      if a != [] { DedupeInOrder(a[..|a| - 1], []); assert a[..|a| - 1] + [] == a[..|a| - 1]; }
    }
  }

  lemma IntersectMembers(a: seq<string>, b: seq<string>, z: string)
    ensures z in Intersect(a, b) <==> exists i, j :: Deeper(a, b, i, j, z)
  {
    DedupeMembers(Pairs(a, b), z);
    PairsMembers(a, b, z);
  }

  /** A path is under the intersection of two prefix lists exactly when it is
      under both lists. */
  lemma IntersectIsExact(a: seq<string>, b: seq<string>, c: string)
    requires AllNormal(a) && AllNormal(b) && Normal(c)
    ensures AnyOver(c, Intersect(a, b)) <==> AnyOver(c, a) && AnyOver(c, b)
  {
    var m := Intersect(a, b);
    if k :| 0 <= k < |m| && Under(c, m[k]) {
      assert m[k] in m;
      IntersectMembers(a, b, m[k]);
      var i, j :| Deeper(a, b, i, j, m[k]);
      if Under(b[j], a[i]) {
        UnderTransitive(c, b[j], a[i]);
      } else {
        UnderTransitive(c, a[i], b[j]);
      }
    }
    if AnyOver(c, a) && AnyOver(c, b) {
      var i :| 0 <= i < |a| && Under(c, a[i]);
      var j :| 0 <= j < |b| && Under(c, b[j]);
      PrefixesNest(c, a[i], b[j]);
      var z := if Under(b[j], a[i]) then b[j] else a[i];
      assert Deeper(a, b, i, j, z);
      IntersectMembers(a, b, z);
      var k :| 0 <= k < |m| && m[k] == z;
    }
  }

  lemma IntersectIsNormal(a: seq<string>, b: seq<string>)
    requires AllNormal(a) && AllNormal(b)
    ensures AllNormal(Intersect(a, b))
  {
    var m := Intersect(a, b);
    forall k | 0 <= k < |m| ensures Normal(m[k]) {
      assert m[k] in m;
      IntersectMembers(a, b, m[k]);
    }
  }

  lemma CleanIsNormal(list: seq<string>)
    ensures AllNormal(Clean(list))
  {
    forall i | 0 <= i < |list| ensures Normal(Clean(list)[i]) {
      NormaliseIdempotent(list[i]);
    }
  }

  lemma RootIsNormal()
    ensures Normal("/")
  {
    PartsOfRender([]);
  }

  lemma EffectiveIsNormal(s: Scope)
    ensures AllNormal(EffectiveRead(s)) && AllNormal(EffectiveWrite(s)) && EffectiveRead(s) != []
  {
    RootIsNormal();
    CleanIsNormal(s.read);
    if s.write.Some? { CleanIsNormal(s.write.value); }
    NormaliseIdempotent(s.sandbox);
    if !s.readOnly {
      var w := if s.write.Some? then Clean(s.write.value) else EffectiveRead(s);
      IntersectIsNormal(w, [Normalise(s.sandbox)]);
    }
  }

  lemma {:induction false} CleanNormal(list: seq<string>)
    requires AllNormal(list)
    ensures Clean(list) == list
  {
  }

  /** What the narrowed scope's lists are, when the reads meet. */
  lemma NarrowLists(s: Scope, c: Scope)
    requires Intersect(EffectiveRead(s), EffectiveRead(c)) != []
    ensures var n := Narrow(s, c);
            && EffectiveRead(n) == Intersect(EffectiveRead(s), EffectiveRead(c))
            && (!n.readOnly ==> EffectiveWrite(n) == Intersect(EffectiveWrite(s), EffectiveWrite(c)))
  {
    hide Intersect, Normalise;
    EffectiveIsNormal(s);
    EffectiveIsNormal(c);
    IntersectIsNormal(EffectiveRead(s), EffectiveRead(c));
    IntersectIsNormal(EffectiveWrite(s), EffectiveWrite(c));
    CleanNormal(Intersect(EffectiveRead(s), EffectiveRead(c)));
    CleanNormal(Intersect(EffectiveWrite(s), EffectiveWrite(c)));
  }

  /** The two scopes read some common prefix. */
  predicate ReadsMeet(s: Scope, c: Scope) {
    Intersect(EffectiveRead(s), EffectiveRead(c)) != []
  }

  lemma NoMeetingNoRead(s: Scope, c: Scope, p: string)
    requires !ReadsMeet(s, c)
    ensures !(AnyOver(Normalise(p), EffectiveRead(s)) && AnyOver(Normalise(p), EffectiveRead(c)))
  {
    EffectiveIsNormal(s);
    EffectiveIsNormal(c);
    NormaliseIdempotent(p);
    IntersectIsExact(EffectiveRead(s), EffectiveRead(c), Normalise(p));
  }

  // What a scope allows, in terms of its own fields.

  /** The components of some prefix of the list are the first components of p. */
  ghost predicate Inside(p: string, list: seq<string>) {
    exists i :: 0 <= i < |list| && Parts(list[i]) <= Parts(p)
  }

  lemma UnderParts(p: string, prefix: string)
    ensures Under(Normalise(p), Normalise(prefix)) <==> Parts(prefix) <= Parts(p)
  {
    NormaliseIdempotent(p);
    NormaliseIdempotent(prefix);
    UnderIsComponentPrefix(Normalise(p), Normalise(prefix));
  }

  lemma CleanInside(p: string, list: seq<string>)
    ensures AnyOver(Normalise(p), Clean(list)) <==> Inside(p, list)
  {
    forall i | 0 <= i < |list| ensures Under(Normalise(p), Clean(list)[i]) <==> Parts(list[i]) <= Parts(p) {
      UnderParts(p, list[i]);
    }
    if AnyOver(Normalise(p), Clean(list)) {
      var i :| 0 <= i < |Clean(list)| && Under(Normalise(p), Clean(list)[i]);
      assert Parts(list[i]) <= Parts(p);
    }
    if i :| 0 <= i < |list| && Parts(list[i]) <= Parts(p) {
      assert Under(Normalise(p), Clean(list)[i]);
    }
  }

  /** A scope reads, until it expires, what is below a prefix of its read list, and
      everything when that is empty. */
  lemma ReadsExactly(s: Scope, p: string, now: int)
    ensures Allows(s, p, false, now) <==>
      && (s.expiresAt == ZERO_TIME || now < s.expiresAt)
      && (s.read == [] || Inside(p, s.read))
  {
    hide Normalise, Under, Parts;
    CleanInside(p, s.read);
    RootIsAbove(Normalise(p));
    assert ["/"][0] == "/";
  }

  lemma RootIsAbove(c: string)
    ensures Under(c, "/")
  {
  }

  /** A scope writes, until it expires and unless it is read-only, what is below a prefix
      of its write list, or of its read list when it has no write list, and below its
      sandbox when it has one. */
  lemma WritesExactly(s: Scope, p: string, now: int)
    ensures Allows(s, p, true, now) <==>
      && (s.expiresAt == ZERO_TIME || now < s.expiresAt)
      && !s.readOnly
      && (if s.write.Some? then Inside(p, s.write.value) else s.read == [] || Inside(p, s.read))
      && (s.sandbox != "" ==> Parts(s.sandbox) <= Parts(p))
  {
    hide Normalise, Under, Parts, Intersect, AllNormal;
    var c := Normalise(p);
    var w := if s.write.Some? then Clean(s.write.value) else EffectiveRead(s);
    CleanInside(p, s.read);
    if s.write.Some? { CleanInside(p, s.write.value); }
    RootIsAbove(c);
    assert AnyOver(c, ["/"]) by { assert Under(c, ["/"][0]); }
    if s.sandbox != "" {
      CleanInside(p, [s.sandbox]);
      assert Clean([s.sandbox]) == [Normalise(s.sandbox)];
      assert Inside(p, [s.sandbox]) <==> Parts(s.sandbox) <= Parts(p) by {
        if Parts(s.sandbox) <= Parts(p) { assert Parts([s.sandbox][0]) <= Parts(p); }
      }
      ListsAreNormal(s);
      NormaliseIdempotent(p);
      IntersectIsExact(w, [Normalise(s.sandbox)], c);
    }
  }

  lemma ListsAreNormal(s: Scope)
    ensures AllNormal(if s.write.Some? then Clean(s.write.value) else EffectiveRead(s))
    ensures AllNormal([Normalise(s.sandbox)])
  {
    RootIsNormal();
    CleanIsNormal(s.read);
    if s.write.Some? { CleanIsNormal(s.write.value); }
    NormaliseIdempotent(s.sandbox);
  }

  /** A refusal names its reason: expiry before the read-only flag before the lists. What
      is granted is the normalised path. */
  lemma RefusesInOrder(s: Scope, p: string, write: bool, now: int)
    ensures var a := CheckAt(s, p, write, now);
      && (a.Expired? <==> s.expiresAt != ZERO_TIME && now >= s.expiresAt)
      && (a.ReadOnly? <==> !(s.expiresAt != ZERO_TIME && now >= s.expiresAt) && write && s.readOnly)
      && (a.Granted? ==> a.path == Normalise(p) && Parts(a.path) == Parts(p))
  {
    NormaliseIdempotent(p);
  }

  /** Narrow allows exactly the reads both scopes allow. */
  lemma NarrowReadsExactly(s: Scope, c: Scope, p: string, now: int)
    requires now >= UNIX_SECOND_ONE
    ensures Allows(Narrow(s, c), p, false, now) <==> Allows(s, p, false, now) && Allows(c, p, false, now)
  {
    hide Intersect, Normalise, EffectiveRead, EffectiveWrite;
    if ReadsMeet(s, c) {
      NarrowLists(s, c);
      EffectiveIsNormal(s);
      EffectiveIsNormal(c);
      NormaliseIdempotent(p);
      IntersectIsExact(EffectiveRead(s), EffectiveRead(c), Normalise(p));
    } else {
      NoMeetingNoRead(s, c, p);
    }
  }

  /** Narrow allows a write exactly when both scopes do and their reads meet. */
  lemma NarrowWritesExactly(s: Scope, c: Scope, p: string, now: int)
    requires now >= UNIX_SECOND_ONE
    ensures Allows(Narrow(s, c), p, true, now) <==>
      ReadsMeet(s, c) && Allows(s, p, true, now) && Allows(c, p, true, now)
  {
    hide Intersect, Normalise, EffectiveRead, EffectiveWrite;
    if ReadsMeet(s, c) {
      NarrowLists(s, c);
      EffectiveIsNormal(s);
      EffectiveIsNormal(c);
      NormaliseIdempotent(p);
      IntersectIsExact(EffectiveWrite(s), EffectiveWrite(c), Normalise(p));
    }
  }

  /** From now on, everything o allows s allows. */
  ghost predicate Dominates(s: Scope, o: Scope, now: int) {
    forall p, write, t :: t >= now && Allows(o, p, write, t) ==> Allows(s, p, write, t)
  }

  lemma AllUnderCarries(want: seq<string>, have: seq<string>, c: string)
    requires AllNormal(want) && AllNormal(have) && Normal(c) && AllUnder(want, have) && AnyOver(c, want)
    ensures AnyOver(c, have)
  {
    var i :| 0 <= i < |want| && Under(c, want[i]);
    assert AnyOver(want[i], have);
    var j :| 0 <= j < |have| && Under(want[i], have[j]);
    UnderTransitive(c, want[i], have[j]);
  }

  /** A prefix of the list that nothing covers is itself allowed by one scope and
      refused by the other. */
  lemma UncoveredPrefix(s: Scope, o: Scope, write: bool, now: int)
    requires !ExpiredAt(o, now)
    requires !AllUnder(if write then EffectiveWrite(o) else EffectiveRead(o), if write then EffectiveWrite(s)
                       else EffectiveRead(s))
    ensures exists p :: Allows(o, p, write, now) && !Allows(s, p, write, now)
  {
    var want := if write then EffectiveWrite(o) else EffectiveRead(o);
    var have := if write then EffectiveWrite(s) else EffectiveRead(s);
    var i :| 0 <= i < |want| && !AnyOver(want[i], have);
    EffectiveIsNormal(o);
    var p := want[i];
    assert Under(p, want[i]) && AnyOver(p, want);
    assert Allows(o, p, write, now) && !Allows(s, p, write, now);
  }

  /** A scope that outlives another allows, at the other's expiry, what the other refuses. */
  lemma OutlivedScope(s: Scope, o: Scope, now: int)
    requires !ExpiredAt(o, now) && s.expiresAt != ZERO_TIME
    requires o.expiresAt == ZERO_TIME || o.expiresAt > s.expiresAt
    ensures !Dominates(s, o, now)
  {
    var t := if now > s.expiresAt then now else s.expiresAt;
    EffectiveIsNormal(o);
    var p := EffectiveRead(o)[0];
    assert Under(p, EffectiveRead(o)[0]) && AnyOver(p, EffectiveRead(o));
    assert Allows(o, p, false, t) && !Allows(s, p, false, t);
  }

  /** CoversAt decides exactly whether everything o allows from now on, s allows. */
  lemma CoversIsDominates(s: Scope, o: Scope, now: int)
    ensures CoversAt(s, o, now) <==> Dominates(s, o, now)
  {
    hide Intersect, Normalise, EffectiveRead, EffectiveWrite;
    if ExpiredAt(o, now) {
    } else if s.expiresAt != ZERO_TIME && (o.expiresAt == ZERO_TIME || o.expiresAt > s.expiresAt) {
      OutlivedScope(s, o, now);
    } else if CoversAt(s, o, now) {
      EffectiveIsNormal(s);
      EffectiveIsNormal(o);
      forall p, write, t | t >= now && Allows(o, p, write, t) ensures Allows(s, p, write, t) {
        NormaliseIdempotent(p);
        if write {
          AllUnderCarries(EffectiveWrite(o), EffectiveWrite(s), Normalise(p));
          ReadOnlyWritesNothing(s);
        } else {
          AllUnderCarries(EffectiveRead(o), EffectiveRead(s), Normalise(p));
        }
      }
    } else {
      var write := AllUnder(EffectiveRead(o), EffectiveRead(s));
      UncoveredPrefix(s, o, write, now);
    }
  }

  lemma ReadOnlyWritesNothing(s: Scope)
    ensures s.readOnly ==> EffectiveWrite(s) == []
  {
  }

  /** Both parents cover the narrowed scope. */
  lemma ParentsCoverNarrow(s: Scope, c: Scope, now: int)
    requires now >= UNIX_SECOND_ONE
    ensures CoversAt(s, Narrow(s, c), now) && CoversAt(c, Narrow(s, c), now)
  {
    hide Allows, Narrow, CoversAt;
    var n := Narrow(s, c);
    forall p, write, t | t >= now && Allows(n, p, write, t) ensures Allows(s, p, write, t) && Allows(c, p, write, t) {
      if write {
        NarrowWritesExactly(s, c, p, t);
      } else {
        NarrowReadsExactly(s, c, p, t);
      }
    }
    CoversIsDominates(s, n, now);
    CoversIsDominates(c, n, now);
  }
}
