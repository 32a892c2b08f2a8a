/** The one spelling of a mount path: rooted, cleaned, no trailing slash, and the
    containment test on it. */
module Paths {

  /** The pieces of s between slashes. */
  function Split(s: string): (r: seq<string>)
    ensures r != []
  {
    if s == "" then [""]
    else if s[0] == '/' then [""] + Split(s[1..])
    else
      var rest := Split(s[1..]);
      [[s[0]] + rest[0]] + rest[1..]
  }

  /** Components walked from `at`: empty and "." stay, ".." climbs but never above the root. */
  function Walk(at: seq<string>, parts: seq<string>): seq<string>
    decreases |parts|
  {
    if parts == [] then at
    else if parts[0] == "" || parts[0] == "." then Walk(at, parts[1..])
    else if parts[0] == ".." then Walk(if at == [] then [] else at[..|at| - 1], parts[1..])
    else Walk(at + [parts[0]], parts[1..])
  }

  function Rooted(parts: seq<string>): string {
    if parts == [] then "" else "/" + parts[0] + Rooted(parts[1..])
  }

  function Render(parts: seq<string>): string {
    if parts == [] then "/" else Rooted(parts)
  }

  function Parts(p: string): seq<string> {
    Walk([], Split(p))
  }

  function Normalise(p: string): string {
    Render(Parts(p))
  }

  predicate HasPrefix(s: string, prefix: string) {
    prefix <= s
  }

  predicate Under(p: string, prefix: string) {
    prefix == "/" || p == prefix || HasPrefix(p, prefix + "/")
  }

  /** A component that walking keeps as it is. */
  predicate Plain(c: string) {
    c != "" && c != "." && c != ".." && '/' !in c
  }

  predicate AllPlain(parts: seq<string>) {
    forall i :: 0 <= i < |parts| ==> Plain(parts[i])
  }

  predicate Normal(p: string) {
    Normalise(p) == p
  }

  lemma SplitHasNoSlash(s: string)
    ensures forall i :: 0 <= i < |Split(s)| ==> '/' !in Split(s)[i]
  {
  }

  lemma WalkIsPlain(at: seq<string>, parts: seq<string>)
    requires AllPlain(at) && forall i :: 0 <= i < |parts| ==> '/' !in parts[i]
    ensures AllPlain(Walk(at, parts))
    decreases |parts|
  {
  }

  lemma PartsArePlain(p: string)
    ensures AllPlain(Parts(p))
  {
    SplitHasNoSlash(p);
    WalkIsPlain([], Split(p));
  }

  lemma {:induction false} SplitSlash(p: string, q: string)
    ensures Split(p + "/" + q) == Split(p) + Split(q)
  {
    var t := p + "/" + q;
    if p == "" {
      assert t == "/" + q && ("/" + q)[1..] == q;
    } else {
      assert t[0] == p[0] && t[1..] == p[1..] + "/" + q;
      SplitSlash(p[1..], q);
    }
  }

  lemma {:induction false} SplitPlain(c: string)
    requires '/' !in c
    ensures Split(c) == [c]
  {
    if c != "" {
      SplitPlain(c[1..]);
      assert [c[0]] + c[1..] == c;
    }
  }

  lemma {:induction false} RootedAppend(a: seq<string>, b: seq<string>)
    ensures Rooted(a + b) == Rooted(a) + Rooted(b)
  {
    if a == [] {
      assert a + b == b;
    } else {
      assert (a + b)[1..] == a[1..] + b;
      RootedAppend(a[1..], b);
    }
  }

  lemma {:induction false} SplitRooted(parts: seq<string>)
    requires AllPlain(parts)
    ensures Split(Rooted(parts)) == [""] + parts
    decreases |parts|
  {
    if parts != [] {
      hide Split;
      var n := |parts| - 1;
      SplitRooted(parts[..n]);
      assert parts == parts[..n] + [parts[n]];
      RootedAppend(parts[..n], [parts[n]]);
      RootedOne(parts[n]);
      assert Rooted(parts[..n]) + ("/" + parts[n]) == Rooted(parts[..n]) + "/" + parts[n];
      SplitSlash(Rooted(parts[..n]), parts[n]);
      SplitPlain(parts[n]);
    }
  }

  lemma RootedOne(c: string)
    ensures Rooted([c]) == "/" + c
  {
    assert [c][1..] == [];
    assert "/" + c + "" == "/" + c;
  }

  lemma {:induction false} WalkKeepsPlain(at: seq<string>, parts: seq<string>)
    requires AllPlain(parts)
    ensures Walk(at, parts) == at + parts
    decreases |parts|
  {
    if parts != [] {
      assert Plain(parts[0]);
      WalkKeepsPlain(at + [parts[0]], parts[1..]);
    }
  }

  /** Rendering plain components and walking the text gives them back. */
  lemma PartsOfRender(parts: seq<string>)
    requires AllPlain(parts)
    ensures Parts(Render(parts)) == parts
  {
    if parts == [] {
      assert "/"[1..] == "";
      assert Split("/") == ["", ""];
      assert ["", ""][1..] == [""] && [""][1..] == [];
    } else {
      SplitRooted(parts);
      assert ([""] + parts)[1..] == parts;
      WalkKeepsPlain([], parts);
    }
  }

  /** Normalising twice is normalising once. */
  lemma NormaliseIdempotent(p: string)
    ensures Normal(Normalise(p))
    ensures Parts(Normalise(p)) == Parts(p)
  {
    PartsArePlain(p);
    PartsOfRender(Parts(p));
  }

  // What the components of a path are, read from its end: these laws determine them.

  lemma {:induction false} WalkApart(at: seq<string>, a: seq<string>, b: seq<string>)
    ensures Walk(at, a + b) == Walk(Walk(at, a), b)
    decreases |a|
  {
    if a == [] {
      assert a + b == b;
    } else {
      assert (a + b)[0] == a[0] && (a + b)[1..] == a[1..] + b;
      var next := if a[0] == "" || a[0] == "." then at
        else if a[0] == ".." then if at == [] then [] else at[..|at| - 1]
        else at + [a[0]];
      WalkApart(next, a[1..], b);
    }
  }

  /** A path made of two is walked one after the other, so a leading slash says nothing. */
  lemma PartsOfJoin(p: string, q: string)
    ensures Parts(p + "/" + q) == Walk(Parts(p), Split(q))
    ensures Parts("/" + q) == Parts(q)
  {
    SplitSlash(p, q);
    WalkApart([], Split(p), Split(q));
    SplitSlash("", q);
    assert "" + "/" + q == "/" + q;
    WalkApart([], [""], Split(q));
    assert Walk([], [""]) == [] by { assert [""][1..] == []; }
  }

  /** One more component: nothing for an empty one or a dot, a step up for two dots but
      never above the root, and a step down for any other. */
  lemma LastComponent(p: string, c: string)
    requires '/' !in c
    ensures Parts(p + "/" + c) ==
      if c in {"", "."} then Parts(p)
      else if c == ".." then if Parts(p) == [] then [] else Parts(p)[..|Parts(p)| - 1]
      else Parts(p) + [c]
    ensures Parts("") == []
  {
    PartsOfJoin(p, c);
    SplitPlain(c);
    assert [c][1..] == [];
    assert [""][1..] == [];
  }

  /** Two dots undo a step down. */
  lemma ClimbsBack(p: string, c: string)
    requires Plain(c)
    ensures Normalise(p + "/" + c + "/..") == Normalise(p)
  {
    LastComponent(p, c);
    LastComponent(p + "/" + c, "..");
    assert p + "/" + c + "/" + ".." == p + "/" + c + "/..";
    assert (Parts(p) + [c])[..|Parts(p)|] == Parts(p);
  }

  /** Texts up to their first slash. */
  lemma {:induction false} SameHead(x: string, s: string, y: string, t: string)
    requires '/' !in x && '/' !in y && s != "" && s[0] == '/' && (t == "" || t[0] == '/')
    requires x + s <= y + t
    ensures x == y && s <= t
  {
    if x == "" || y == "" {
      assert |x + s| > 0 && (y + t)[0] == (x + s)[0];
      assert x + s == s && y + t == t;
    } else {
      assert (x + s)[0] == (y + t)[0];
      assert (x + s)[1..] == x[1..] + s && (y + t)[1..] == y[1..] + t;
      SameHead(x[1..], s, y[1..], t);
    }
  }

  lemma {:induction false} RootedPrefix(a: seq<string>, b: seq<string>)
    requires AllPlain(a) && AllPlain(b) && Rooted(b) + "/" <= Rooted(a)
    ensures b <= a
  {
    if b != [] {
      var s := Rooted(b[1..]) + "/";
      var t := Rooted(a[1..]);
      assert Rooted(b) + "/" == "/" + (b[0] + s);
      assert Rooted(a) == "/" + (a[0] + t);
      assert (Rooted(b) + "/")[1..] <= Rooted(a)[1..];
      assert (Rooted(b) + "/")[1..] == b[0] + s && Rooted(a)[1..] == a[0] + t;
      assert Plain(a[0]) && Plain(b[0]);
      SameHead(b[0], s, a[0], t);
      RootedPrefix(a[1..], b[1..]);
      assert a == [a[0]] + a[1..] && b == [b[0]] + b[1..];
    }
  }

  /** On normalised paths, the text test is exactly component prefix. */
  lemma UnderIsComponentPrefix(p: string, prefix: string)
    requires Normal(p) && Normal(prefix)
    ensures Under(p, prefix) <==> Parts(prefix) <= Parts(p)
  {
    var a, b := Parts(p), Parts(prefix);
    PartsArePlain(p);
    PartsArePlain(prefix);
    if b == [] {
    } else {
      assert Plain(b[0]) && |Rooted(b)| > 1;
      if Under(p, prefix) && p != prefix {
        RootedPrefix(a, b);
      }
      if b <= a && a != b {
        var c := a[|b|..];
        assert a == b + c && c != [];
        RootedAppend(b, c);
      }
    }
  }
}
