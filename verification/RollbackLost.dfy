/** What a rollback leaves out when moves replaced existing paths: the tree ends as the
    one the session started from less a set of paths that the rows determine. */
module RollbackLost {

  import opened Tree
  import opened SessionLog
  import opened Undo
  import opened RollbackInverts
  import opened RollbackReplaced

  /** A set of paths of the tree, with everything below them. */
  ghost predicate Closed(t: FS, lost: set<Path>) {
    && lost <= t.tree.Keys && [] !in lost
    && forall q {:trigger Parent(q)} :: q in t.tree && q != [] && Parent(q) in lost ==> q in lost
  }

  /** The tree without them. */
  function Minus(t: FS, lost: set<Path>): FS {
    t.(tree := t.tree - lost)
  }

  lemma MinusValid(t: FS, lost: set<Path>)
    requires Valid(t) && Closed(t, lost)
    ensures Valid(Minus(t, lost))
  {
    var g := Minus(t, lost);
    forall q | q in g.tree && q != [] ensures DirAt(g, Parent(q)) {
      assert DirAt(t, Parent(q));
    }
  }

  /** What is lost is lost with everything below it. */
  lemma BelowLost(t: FS, lost: set<Path>, p: Path, q: Path)
    requires Valid(t) && Closed(t, lost) && p in lost && p <= q && q in t.tree
    ensures q in lost
    decreases |q|
  {
    if p != q {
      assert p <= Parent(q);
      assert DirAt(t, Parent(q));
      BelowLost(t, lost, p, Parent(q));
    }
  }

  /** The undo finds what it works on: not lost itself, nor the place it goes to. */
  predicate Found(op: Op, lost: set<Path>) {
    op.rolledBack || match op.kind
      case Mkdir => op.path !in lost
      case Move => op.path != op.toPath && op.toPath !in lost
      case Delete => op.path == [] || Parent(op.path) !in lost
      case _ => op.path !in lost
  }

  /** Every undo that finds its object does its work: copies are still recognised, and
      moved things still have a directory to go back to. */
  predicate Works(op: Op, lost: set<Path>, after: set<Path>) {
    Found(op, lost) ==>
      Intact(op, after) && (op.kind == Move && !op.rolledBack ==> op.path == [] || Parent(op.path) !in lost)
  }

  /** What is lost of the tree before the row, given what is lost of the one after it. */
  function LostBefore(a: FS, op: Op, b: FS, lost: set<Path>): set<Path> {
    if op.rolledBack then if b.tree == a.tree then lost else lost + Below(a, op.toPath)
    else match op.kind
      case Mkdir => lost - {op.path}
      case Move =>
        if op.path == op.toPath then lost
        else if Found(op, lost) then MovedBack(op.path, op.toPath, lost) + Below(a, op.toPath)
        else Below(a, op.path) + Below(a, op.toPath) + set q | q in lost && !(op.toPath <= q)
      case Delete => if Found(op, lost) then lost else lost + {op.path}
      case _ => if op.path in a.tree then lost else lost - {op.path}
  }

  function AfterBefore(op: Op, lost: set<Path>, after: set<Path>): set<Path> {
    if Found(op, lost) then Rewritten(op, after) else after
  }

  // An undo that finds its object: the row is true of the trees less what is lost.

  lemma WrittenMinus(a: FS, op: Op, b: FS, lost: set<Path>)
    requires Effect(a, op, b) && Closed(b, lost) && !op.rolledBack && op.kind !in {Move, Delete} && op.path !in lost
    ensures Closed(a, lost) && Effect(Minus(a, lost), op, Minus(b, lost))
  {
    var p := op.path;
    assert Parent(p) !in lost;
    assert Closed(a, lost) by {
      forall q | q in a.tree && q != [] && Parent(q) in lost ensures q in lost { assert q in b.tree; }
    }
    MinusValid(a, lost);
    MinusValid(b, lost);
    assert Minus(b, lost).tree == Minus(a, lost).tree[p := b.tree[p]];
  }

  lemma DeletedMinus(a: FS, op: Op, b: FS, lost: set<Path>)
    requires Effect(a, op, b) && Closed(b, lost) && !op.rolledBack && op.kind == Delete && Parent(op.path) !in lost
    ensures Closed(a, lost) && Effect(Minus(a, lost), op, Minus(b, lost))
  {
    var p := op.path;
    assert Closed(a, lost) by {
      forall q | q in a.tree && q != [] && Parent(q) in lost ensures q in lost { assert q != p && q in b.tree; }
    }
    MinusValid(a, lost);
    MinusValid(b, lost);
    assert Minus(b, lost).tree == Minus(a, lost).tree - {p};
    assert !Populated(Minus(a, lost), p);
  }

  /** A move onto another path, whether or not that path existed. */
  ghost predicate Relocates(a: FS, op: Op, b: FS) {
    && Valid(a) && Valid(b) && a.clock <= b.clock && !op.rolledBack && op.kind == Move && op.post == Incomplete
    && op.path != [] && op.path in a.tree && op.toPath != [] && DirAt(a, Parent(op.toPath))
    && !(op.path <= op.toPath) && !(op.toPath <= op.path) && b.tree == Moved(a.tree, op.path, op.toPath)
  }

  lemma MoveKinds(a: FS, op: Op, b: FS)
    requires Told(a, op, b) && op.kind == Move && !op.rolledBack
    ensures if op.path == op.toPath then b.tree == a.tree else Relocates(a, op, b)
  {
    hide Moved;
  }

  /** Going back to where it was is one-to-one on the paths of the moved tree. */
  lemma BackIsInjective(from: Path, to: Path, o: Path, r: Path)
    requires !(from <= to) && !(to <= from) && Relocate(to, from, o) == Relocate(to, from, r)
    requires (to <= o || !(from <= o)) && (to <= r || !(from <= r))
    ensures o == r
  {
    if to <= o { RelocateBack(to, from, o); }
    if to <= r { RelocateBack(to, from, r); }
  }

  lemma MovedBackAt(a: FS, op: Op, b: FS, lost: set<Path>, r: Path)
    requires Relocates(a, op, b) && lost <= b.tree.Keys && (op.toPath <= r || !(op.path <= r))
    ensures Relocate(op.toPath, op.path, r) in MovedBack(op.path, op.toPath, lost) <==> r in lost
  {
    hide Moved, Valid;
    var from, to := op.path, op.toPath;
    if o :| o in lost && Relocate(to, from, o) == Relocate(to, from, r) {
      MovedAt(a.tree, from, to, o);
      BackIsInjective(from, to, o, r);
    }
  }

  /** Of two paths above a third, one is above the other. */
  lemma Nested(p: Path, p': Path, q: Path)
    requires p <= q && p' <= q
    ensures p <= p' || p' <= p
  {
    if |p| <= |p'| { assert p'[..|p|] == q[..|p|]; } else { assert p[..|p'|] == q[..|p'|]; }
  }

  lemma MovedMinusAt(a: FS, op: Op, b: FS, lost: set<Path>, r: Path)
    requires Relocates(a, op, b) && Closed(b, lost)
    ensures var lost' := MovedBack(op.path, op.toPath, lost) + Below(a, op.toPath);
      var m := Moved(a.tree - lost', op.path, op.toPath);
      (r in m <==> r in b.tree && r !in lost) && (r in m ==> m[r] == b.tree[r])
  {
    hide Moved, Valid, Closed, MovedBack;
    var from, to := op.path, op.toPath;
    var lost' := MovedBack(from, to, lost) + Below(a, to);
    MovedAt(a.tree, from, to, r);
    MovedAt(a.tree - lost', from, to, r);
    LostIsPart(b, lost);
    if to <= r {
      RelocateBack(to, from, r);
      assert !(to <= Relocate(to, from, r)) by {
        if to <= Relocate(to, from, r) { Nested(from, to, Relocate(to, from, r)); }
      }
    }
    if to <= r || !(from <= r) { MovedBackAt(a, op, b, lost, r); }
  }

  lemma LostIsPart(t: FS, lost: set<Path>)
    requires Closed(t, lost)
    ensures lost <= t.tree.Keys && [] !in lost
  {
  }

  lemma ClosedBack(a: FS, op: Op, b: FS, lost: set<Path>, q: Path)
    requires Relocates(a, op, b) && Closed(b, lost) && op.toPath !in lost && Parent(op.path) !in lost
    requires q in a.tree && q != [] && Parent(q) in MovedBack(op.path, op.toPath, lost) + Below(a, op.toPath)
    ensures q in MovedBack(op.path, op.toPath, lost) + Below(a, op.toPath)
  {
    hide Moved, Valid;
    var from, to := op.path, op.toPath;
    if to <= q {
    } else {
      assert to <= Parent(q) ==> to <= q;
      var o :| o in lost && Relocate(to, from, o) == Parent(q);
      var r := Relocate(from, to, q);
      MovedAt(a.tree, from, to, o);
      MovedAt(a.tree, from, to, r);
      if from <= q { RelocateBack(from, to, q); }
      BackOfParent(from, to, o, q);
      assert Parent(r) in lost && r in b.tree;
    }
  }

  /** The parent of a relocated path is the relocated parent. */
  lemma BackOfParent(from: Path, to: Path, o: Path, q: Path)
    requires !(from <= to) && !(to <= from) && from != [] && to != [] && q != [] && !(to <= q) &&
      (to <= o || !(from <= o))
    requires Relocate(to, from, o) == Parent(q)
    ensures q == from ==> o == Parent(from)
    ensures q != from ==> Relocate(from, to, q) != [] && Parent(Relocate(from, to, q)) == o
  {
    assert from <= q && q != from ==> from <= Parent(q);
    if to <= o {
      RelocateBack(to, from, o);
      assert from <= Parent(q);
      assert from <= q && q != from;
      assert Parent(to + q[|from|..]) == to + Parent(q)[|from|..];
    }
  }

  lemma RelocatedMinus(a: FS, op: Op, b: FS, lost: set<Path>)
    requires Relocates(a, op, b) && Closed(b, lost) && op.toPath !in lost && Parent(op.path) !in lost
    ensures var lost' := MovedBack(op.path, op.toPath, lost) + Below(a, op.toPath);
      Closed(a, lost') && Effect(Minus(a, lost'), op, Minus(b, lost))
  {
    hide Moved, MovedBack, Below;
    var from, to := op.path, op.toPath;
    var lost' := MovedBack(from, to, lost) + Below(a, to);
    BackInside(a, op, b, lost);
    forall q | q in a.tree && q != [] && Parent(q) in lost' ensures q in lost' { ClosedBack(a, op, b, lost, q); }
    assert Closed(a, lost');
    MinusValid(a, lost');
    MinusValid(b, lost);
    assert Moved(a.tree - lost', from, to) == b.tree - lost by {
      forall r ensures (r in Moved(a.tree - lost', from, to) <==> r in b.tree - lost) &&
                       (r in b.tree - lost ==> Moved(a.tree - lost', from, to)[r] == b.tree[r]) {
        MovedMinusAt(a, op, b, lost, r);
      }
    }
  }

  /** What is lost before a move is of the tree before it, and is not what it moved. */
  lemma BackInside(a: FS, op: Op, b: FS, lost: set<Path>)
    requires Relocates(a, op, b) && Closed(b, lost) && op.toPath !in lost && Parent(op.path) !in lost
    ensures var lost' := MovedBack(op.path, op.toPath, lost) + Below(a, op.toPath);
      && lost' <= a.tree.Keys && [] !in lost' && op.path !in lost' && Parent(op.toPath) !in lost' &&
         (op.toPath in a.tree ==> op.toPath in lost')
  {
    hide Moved, Valid;
    var from, to := op.path, op.toPath;
    forall o | o in lost ensures Relocate(to, from, o) in a.tree && (to <= o || !(from <= o)) {
      MovedAt(a.tree, from, to, o);
    }
    MovedAt(a.tree, from, to, to);
    assert Relocate(to, from, to) == from;
    assert !(to <= from) && !(to <= Parent(to)) && !(from <= Parent(to));
    assert Parent(to) !in lost;
    forall o | o in lost
      ensures Relocate(to, from, o) != from && Relocate(to, from, o) != Parent(to) && Relocate(to, from, o) != []
    {
      if to <= o {
        RelocateBack(to, from, o);
        assert Relocate(to, from, o) == from ==> o == Relocate(from, to, from);
        assert Relocate(from, to, from) == to;
      }
    }
  }

  /** The row is true of the trees less what is lost, when its undo finds its object. */
  lemma FoundMinus(a: FS, op: Op, b: FS, lost: set<Path>, after: set<Path>)
    requires Told(a, op, b) && Closed(b, lost) && !op.rolledBack && Found(op, lost) && Works(op, lost, after)
    ensures var lost' := LostBefore(a, op, b, lost); Closed(a, lost') && Effect(Minus(a, lost'), op, Minus(b, lost))
  {
    hide Effect, Replaces, MovesNowhere, Abandons, Relocates, Closed, Valid, MovedBack, Below;
    match op.kind
    case Move =>
      MoveKinds(a, op, b);
      MoveHasPath(a, op, b);
      RelocatedMinus(a, op, b, lost);
    case Delete =>
      HasPath(a, op, b);
      DeletedMinus(a, op, b, lost);
    case _ =>
      NotAMove(a, op, b);
      WrittenMinus(a, op, b, lost);
      assert lost - {op.path} == lost;
  }

  lemma MoveHasPath(a: FS, op: Op, b: FS)
    requires Relocates(a, op, b)
    ensures op.path != []
  {
  }

  lemma NotAMove(a: FS, op: Op, b: FS)
    requires Told(a, op, b) && op.kind != Move
    ensures Effect(a, op, b)
  {
  }

  lemma HasPath(a: FS, op: Op, b: FS)
    requires Told(a, op, b) && !op.rolledBack && op.kind != Move
    ensures op.path != [] && Effect(a, op, b)
  {
  }

  // An undo that does not find its object changes nothing.

  lemma LostContent(a: FS, op: Op, b: FS, lost: set<Path>)
    requires Effect(a, op, b) && Closed(b, lost) && !op.rolledBack && op.kind !in {Move, Delete} && op.path in lost
    ensures var lost' := LostBefore(a, op, b, lost); Closed(a, lost') && a.tree - lost' == b.tree - lost
  {
    var lost' := LostBefore(a, op, b, lost);
    forall q | q in a.tree && q != [] && Parent(q) in lost' ensures q in lost' { assert q in b.tree; }
  }

  lemma LostParent(a: FS, op: Op, b: FS, lost: set<Path>)
    requires Effect(a, op, b) && Closed(b, lost) && !op.rolledBack && op.kind == Delete && Parent(op.path) in lost
    ensures var lost' := LostBefore(a, op, b, lost); Closed(a, lost') && a.tree - lost' == b.tree - lost
  {
    var p, lost' := op.path, lost + {op.path};
    forall q | q in a.tree && q != [] && Parent(q) in lost' ensures q in lost' {
      assert Parent(q) == p ==> p < q;
      if q != p { assert q in b.tree; }
    }
  }

  lemma LostTarget(a: FS, op: Op, b: FS, lost: set<Path>)
    requires Relocates(a, op, b) && Closed(b, lost) && op.toPath in lost
    ensures var lost' := LostBefore(a, op, b, lost); Closed(a, lost') && a.tree - lost' == b.tree - lost
  {
    hide Moved;
    var from, to, lost' := op.path, op.toPath, LostBefore(a, op, b, lost);
    forall q ensures q in a.tree && q !in lost' <==> q in b.tree && q !in lost
             ensures q in b.tree && q !in lost ==> q in a.tree && b.tree[q] == a.tree[q] {
      MovedAt(a.tree, from, to, q);
      if q in b.tree && to <= q { BelowLost(b, lost, to, q); }
    }
    forall q | q in lost && !(to <= q) ensures q in a.tree { MovedAt(a.tree, from, to, q); }
    forall q | q in a.tree && q != [] && Parent(q) in lost' ensures q in lost' {
      assert from <= Parent(q) ==> from <= q;
      assert to <= Parent(q) ==> to <= q;
      MovedAt(a.tree, from, to, q);
    }
    assert a.tree - lost' == b.tree - lost;
  }

  lemma UnfoundMinus(a: FS, op: Op, b: FS, lost: set<Path>)
    requires Told(a, op, b) && Closed(b, lost) && (op.rolledBack || !Found(op, lost))
    ensures var lost' := LostBefore(a, op, b, lost); Closed(a, lost') && a.tree - lost' == b.tree - lost
  {
    hide Replaces, MovesNowhere, Abandons, Relocates, Moved, Below;
    if op.rolledBack {
      SettledKinds(a, op, b);
      if b.tree == a.tree { SameClosed(a, b, lost); } else { AbandonedMinus(a, op, b, lost); }
    } else {
      match op.kind
      case Move =>
        MoveKinds(a, op, b);
        if op.path == op.toPath { SameClosed(a, b, lost); } else { LostTarget(a, op, b, lost); }
      case Delete =>
        HasPath(a, op, b);
        LostParent(a, op, b, lost);
      case _ =>
        NotAMove(a, op, b);
        LostContent(a, op, b, lost);
    }
  }

  lemma SettledKinds(a: FS, op: Op, b: FS)
    requires Told(a, op, b) && op.rolledBack
    ensures b.tree == a.tree || Abandons(a, op, b)
  {
  }

  lemma AbandonedMinus(a: FS, op: Op, b: FS, lost: set<Path>)
    requires Abandons(a, op, b) && Closed(b, lost)
    ensures var lost' := lost + Below(a, op.toPath); Closed(a, lost') && a.tree - lost' == b.tree - lost
  {
    var to, lost' := op.toPath, lost + Below(a, op.toPath);
    forall q | q in a.tree && q != [] && Parent(q) in lost' ensures q in lost' {
      assert to <= Parent(q) ==> to <= q;
      if !(to <= q) { assert q in b.tree; }
    }
    assert a.tree - lost' == b.tree - lost;
  }

  lemma SameClosed(a: FS, b: FS, lost: set<Path>)
    requires Closed(b, lost) && b.tree == a.tree
    ensures Closed(a, lost)
  {
  }

  /** Such an undo leaves the tree alone and does not settle its row. */
  lemma UnfoundUndo(a: FS, op: Op, b: FS, w: World, lost: set<Path>, env: Env)
    requires Told(a, op, b) && Closed(b, lost) && !op.rolledBack && !Found(op, lost) &&
      w.fs.tree.Keys == b.tree.Keys - lost
    ensures UndoOp(w, op, env).w.fs == w.fs && UndoOp(w, op, env).outcome != Restored
  {
    hide Moved, Closed;
    if op.kind == Move && op.path != op.toPath {
      MoveKinds(a, op, b);
      MovedAt(a.tree, op.path, op.toPath, op.path);
    } else if op.kind == Delete {
      HasPath(a, op, b);
    }
  }

  /** One row: whatever is lost, the undo leaves the tree before the row less what is
      lost of that. */
  lemma LostStep(a: FS, op: Op, b: FS, w: World, lost: set<Path>, after: set<Path>, bound: nat, env: Env)
    requires Told(a, op, b) && Closed(b, lost) && Like(w.fs, Minus(b, lost), after, bound) && BlobsKept(w, op) &&
      env.writeOk
    requires b.clock <= bound && Works(op, lost, after)
    ensures var lost' := LostBefore(a, op, b, lost);
      Closed(a, lost') && Like(UndoOp(w, op, env).w.fs, Minus(a, lost'), AfterBefore(op, lost, after), bound)
  {
    hide Told, UndoOp, Closed, LostBefore;
    if op.rolledBack {
      UnfoundMinus(a, op, b, lost);
      AlreadySettled(w, op, env);
    } else if Found(op, lost) {
      FoundMinus(a, op, b, lost, after);
      UndoStep(Minus(a, LostBefore(a, op, b, lost)), op, Minus(b, lost), w, after, bound, env);
    } else {
      UnfoundMinus(a, op, b, lost);
      UnfoundUndo(a, op, b, w, lost, env);
    }
  }

  /** An undo that finds its object and cannot do its work conflicts and leaves the tree. */
  lemma BlockedUndo(a: FS, op: Op, b: FS, w: World, lost: set<Path>, after: set<Path>, bound: nat, env: Env)
    requires Told(a, op, b) && Closed(b, lost) && Like(w.fs, Minus(b, lost), after, bound)
    requires b.clock <= bound && !Works(op, lost, after)
    ensures UndoOp(w, op, env).w.fs == w.fs && UndoOp(w, op, env).outcome == Conflict
  {
    hide Moved;
    if op.kind == Move {
      MoveKinds(a, op, b);
      MovedAt(a.tree, op.path, op.toPath, op.path);
      MovedAt(a.tree, op.path, op.toPath, op.toPath);
      assert Relocate(op.toPath, op.path, op.toPath) == op.path;
    } else {
      NotAMove(a, op, b);
    }
  }

  lemma AlreadySettled(w: World, op: Op, env: Env)
    requires op.rolledBack
    ensures UndoOp(w, op, env).w == w
  {
  }

  // Runs.

  /** What is lost of the tree before row lo, given what is lost of the one before row hi. */
  ghost function LostDown(fs: seq<FS>, rows: seq<Op>, hi: nat, lo: nat, lost: set<Path>): set<Path>
    requires hi <= |rows| < |fs|
    decreases hi
  {
    if hi <= lo then lost else LostDown(fs, rows, hi - 1, lo, LostBefore(fs[hi - 1], rows[hi - 1], fs[hi], lost))
  }

  ghost function AfterDown(fs: seq<FS>, rows: seq<Op>, hi: nat, lo: nat, lost: set<Path>, after: set<Path>): set<Path>
    requires hi <= |rows| < |fs|
    decreases hi
  {
    if hi <= lo then after
    else AfterDown(fs, rows, hi - 1, lo, LostBefore(fs[hi - 1], rows[hi - 1], fs[hi], lost),
                   AfterBefore(rows[hi - 1], lost, after))
  }

  /** Every undo of rows hi-1..lo that finds its object does its work. */
  ghost predicate AllWork(fs: seq<FS>, rows: seq<Op>, hi: nat, lo: nat, lost: set<Path>, after: set<Path>)
    requires hi <= |rows| < |fs|
    decreases hi
  {
    hi <= lo ||
    (&& Works(rows[hi - 1], lost, after)
     && AllWork(fs, rows, hi - 1, lo, LostBefore(fs[hi - 1], rows[hi - 1], fs[hi], lost),
                AfterBefore(rows[hi - 1], lost, after)))
  }

  lemma {:induction false} RestoresBut(fs: seq<FS>, rows: seq<Op>, r: Run, hi: nat, lo: nat, lost: set<Path>,
                                       after: set<Path>, bound: nat, env: nat -> Env)
    requires ToldHistory(fs, rows) && lo <= hi <= |rows| == |r.rows| && r.rows[..hi] == rows[..hi]
    requires Closed(fs[hi], lost) && Like(r.w.fs, Minus(fs[hi], lost), after, bound) && AllBlobsKept(r.w, rows) &&
      WritesSucceed(env)
    requires (forall i :: 0 <= i < |fs| ==> fs[i].clock <= bound) && AllWork(fs, rows, hi, lo, lost, after)
    ensures var lost' := LostDown(fs, rows, hi, lo, lost);
      && Closed(fs[lo], lost')
      && Like(Rollback(r, hi, lo, env).w.fs, Minus(fs[lo], lost'), AfterDown(fs, rows, hi, lo, lost, after), bound)
    decreases hi
  {
    hide UndoOp, Told, Like, Closed, LostBefore, AfterBefore, Works;
    if hi > lo {
      var i := hi - 1;
      var r' := UndoRow(r, i, env(i));
      assert r.rows[i] == rows[i] by { assert r.rows[..hi][i] == rows[..hi][i]; }
      assert r'.rows[..i] == rows[..i] by { assert r'.rows[..i] == r.rows[..hi][..i]; }
      LostStep(fs[i], rows[i], fs[i + 1], r.w, lost, after, bound, env(i));
      UndoFrame(r.w, rows[i], env(i));
      RestoresBut(fs, rows, r', i, lo, LostBefore(fs[i], rows[i], fs[i + 1], lost), AfterBefore(rows[i], lost, after),
                  bound, env);
    }
  }

  /** Where the rows from the newest down stop working, if anywhere. */
  lemma {:induction false} FirstBlocked(fs: seq<FS>, rows: seq<Op>, hi: nat, lost: set<Path>, after: set<Path>)
    returns (k: nat)
    requires hi <= |rows| < |fs|
    ensures k <= hi && AllWork(fs, rows, hi, k, lost, after)
    ensures k > 0 ==>
      !Works(rows[k - 1], LostDown(fs, rows, hi, k, lost), AfterDown(fs, rows, hi, k, lost, after))
    decreases hi
  {
    hide LostBefore, AfterBefore, Works;
    k := hi;
    if hi > 0 && Works(rows[hi - 1], lost, after) {
      k := FirstBlocked(fs, rows, hi - 1, LostBefore(fs[hi - 1], rows[hi - 1], fs[hi], lost),
                        AfterBefore(rows[hi - 1], lost, after));
    }
  }

  lemma {:induction false} ToldClocks(fs: seq<FS>, rows: seq<Op>, i: nat)
    requires ToldHistory(fs, rows) && i <= |rows|
    ensures fs[i].clock <= fs[|rows|].clock
    decreases |rows| - i
  {
    if i < |rows| {
      assert Told(fs[i], rows[i], fs[i + 1]);
      ToldClocks(fs, rows, i + 1);
    }
  }

  lemma NothingLost(t: FS)
    requires Valid(t)
    ensures Closed(t, {}) && Like(t, Minus(t, {}), {}, t.clock)
  {
    assert Minus(t, {}).tree == t.tree;
  }

  lemma LostIsMissing(s: FS, t: FS, lost: set<Path>, after: set<Path>, bound: nat)
    requires Closed(t, lost) && Like(s, Minus(t, lost), after, bound)
    ensures SameTree(s, Minus(t, lost)) && (SameTree(s, t) <==> lost == {})
  {
    LikeIsSame(s, Minus(t, lost), after, bound);
    if lost == {} {
      assert Minus(t, lost).tree == t.tree;
    } else {
      var p :| p in lost;
      assert p in t.tree && p !in s.tree;
    }
  }

  /** Rolling back any true history in which every undo that finds its object does its
      work: the tree ends as the one the history started from, less exactly what the
      rows say is lost. */
  lemma RollbackLosesExactly(fs: seq<FS>, rows: seq<Op>, w: World, env: nat -> Env)
    requires ToldHistory(fs, rows) && w.fs == fs[|rows|] && Valid(w.fs) && AllBlobsKept(w, rows) && WritesSucceed(env)
    requires AllWork(fs, rows, |rows|, 0, {}, {})
    ensures var f, lost := Rollback(Fresh(w, rows), |rows|, 0, env), LostDown(fs, rows, |rows|, 0, {});
      && lost <= fs[0].tree.Keys && SameTree(f.w.fs, Minus(fs[0], lost))
      && (SameTree(f.w.fs, fs[0]) <==> lost == {})
  {
    hide Told, Like, Valid, SameTree, AllWork, LostDown, AllBlobsKept, Rollback, AfterDown;
    var n, lost := |rows|, LostDown(fs, rows, |rows|, 0, {});
    NothingLost(w.fs);
    forall i | 0 <= i < |fs| ensures fs[i].clock <= fs[n].clock { ToldClocks(fs, rows, i); }
    RestoresBut(fs, rows, Fresh(w, rows), n, 0, {}, {}, w.fs.clock, env);
    LostIsMissing(Rollback(Fresh(w, rows), n, 0, env).w.fs, fs[0], lost, AfterDown(fs, rows, n, 0, {}, {}), w.fs.clock);
  }

  /** Rolling back any true history at all: from the newest row down to some row k, the
      tree is the one before row k less exactly what the rows say is lost; and the row
      before that, if there is one, conflicts and leaves the tree alone. */
  lemma RollbackLosesUpTo(fs: seq<FS>, rows: seq<Op>, w: World, env: nat -> Env) returns (k: nat)
    requires ToldHistory(fs, rows) && w.fs == fs[|rows|] && Valid(w.fs) && AllBlobsKept(w, rows) && WritesSucceed(env)
    ensures k <= |rows| && AllWork(fs, rows, |rows|, k, {}, {})
    ensures var r, lost := Rollback(Fresh(w, rows), |rows|, k, env), LostDown(fs, rows, |rows|, k, {});
      && lost <= fs[k].tree.Keys && SameTree(r.w.fs, Minus(fs[k], lost))
      && (k > 0 ==> UndoOp(r.w, rows[k - 1], env(k - 1)).w.fs == r.w.fs &&
                    UndoOp(r.w, rows[k - 1], env(k - 1)).outcome == Conflict)
  {
    hide Told, Like, Valid, SameTree, AllWork, LostDown, AllBlobsKept, Rollback, AfterDown, UndoOp, Works;
    var n := |rows|;
    k := FirstBlocked(fs, rows, n, {}, {});
    NothingLost(w.fs);
    forall i | 0 <= i < |fs| ensures fs[i].clock <= fs[n].clock { ToldClocks(fs, rows, i); }
    RestoresBut(fs, rows, Fresh(w, rows), n, k, {}, {}, w.fs.clock, env);
    var r, lost, after := Rollback(Fresh(w, rows), n, k, env), LostDown(fs, rows, n, k, {}),
      AfterDown(fs, rows, n, k, {}, {});
    LostIsMissing(r.w.fs, fs[k], lost, after, w.fs.clock);
    if k > 0 {
      BlockedUndo(fs[k - 1], rows[k - 1], fs[k], r.w, lost, after, w.fs.clock, env(k - 1));
    }
  }
}
