/**
  * Unregistering an algorithm takes every template instance with it that was built on it, directly
  * or through other instances.  A spawn is the link between an instance and an algorithm it uses;
  * it sits on the user list of that algorithm.  crypto_remove_spawns walks the user lists with an
  * explicit stack made of the spawns themselves.
  */
module SpawnRemoval {
  import opened Lists

  type Alg = nat
  type Sp = nat

  /** Instances are algorithms too.  `inst` is the instance a spawn belongs to, `on` the algorithm it
      uses, and `users` the user lists. */
  datatype Graph = Graph(inst: map<Sp, Alg>, on: map<Sp, Alg>, users: map<Alg, seq<Sp>>)

  /** The user lists as they are emptied, the spawns of the algorithm itself, the stack with its top
      first, and the spawns that are done. */
  datatype Walk = Walk(users: map<Alg, seq<Sp>>, top: seq<Sp>, stack: seq<Sp>, done: seq<Sp>)

  /** Every spawn is on the list of the algorithm it uses, once, and on no other. */
  ghost predicate WellFormed(g: Graph) {
    && g.inst.Keys == g.on.Keys
    && (forall a :: a in g.users ==> NoDup(g.users[a]))
    && (forall a, sp :: a in g.users && sp in g.users[a] ==> sp in g.on && g.on[sp] == a)
    && (forall sp :: sp in g.on ==> g.on[sp] in g.users && sp in g.users[g.on[sp]] && g.inst[sp] in g.users)
  }

  /** No algorithm is built on itself. */
  ghost predicate Acyclic(g: Graph, rank: Alg -> nat)
    requires g.inst.Keys == g.on.Keys
  {
    forall sp :: sp in g.on ==> rank(g.on[sp]) < rank(g.inst[sp])
  }

  /** `p[0]` belongs to an instance that is built on `alg` through the other spawns. */
  ghost predicate Path(g: Graph, alg: Alg, p: seq<Sp>)
    requires g.inst.Keys == g.on.Keys
  {
    && p != [] && (forall i :: 0 <= i < |p| ==> p[i] in g.on)
    && g.on[p[|p|-1]] == alg
    && (forall i :: 0 <= i < |p| - 1 ==> g.on[p[i]] == g.inst[p[i+1]])
  }

  ghost predicate Leads(g: Graph, alg: Alg, sp: Sp)
    requires g.inst.Keys == g.on.Keys
  {
    exists p :: Path(g, alg, p) && p[0] == sp
  }

  /** The instances built on `alg`. */
  ghost predicate BuiltOn(g: Graph, alg: Alg, i: Alg)
    requires g.inst.Keys == g.on.Keys
  {
    exists sp :: sp in g.inst && g.inst[sp] == i && Leads(g, alg, sp)
  }

  lemma {:induction false} PathClimbs(g: Graph, alg: Alg, rank: Alg -> nat, p: seq<Sp>)
    requires g.inst.Keys == g.on.Keys && Acyclic(g, rank) && Path(g, alg, p)
    ensures rank(alg) < rank(g.inst[p[0]])
    decreases |p|
  {
    if |p| > 1 {
      var q := p[1..];
      assert forall i :: 0 <= i < |q| - 1 ==> g.on[q[i]] == g.inst[q[i+1]];
      PathClimbs(g, alg, rank, q);
    }
  }

  // ----- the walk -----

  /** The spawn on top of the stack has a user list to look at. */
  predicate Placed(g: Graph, w: Walk) { w.stack != [] ==> w.stack[0] in g.inst && g.inst[w.stack[0]] in w.users }

  /** The list the walk is looking at: that of the instance on top of the stack. */
  function Source(g: Graph, w: Walk): seq<Sp>
    requires Placed(g, w)
  {
    if w.stack == [] then w.top else w.users[g.inst[w.stack[0]]]
  }

  /** The first spawn of that list goes on the stack. */
  function Push(g: Graph, w: Walk): Walk
    requires Placed(g, w)
    requires Source(g, w) != []
  {
    var sp := Source(g, w)[0];
    if w.stack == [] then w.(top := w.top[1..], stack := [sp])
    else
      var a := g.inst[w.stack[0]];
      w.(users := w.users[a := w.users[a][1..]], stack := [sp] + w.stack)
  }

  /** crypto_more_spawns: the top of the stack is done. */
  function Pop(w: Walk): Walk
    requires w.stack != []
  {
    w.(stack := w.stack[1..], done := [w.stack[0]] + w.done)
  }

  ghost predicate Moved(w: Walk, sp: Sp) { sp in w.top || sp in w.stack || sp in w.done }

  /** Every spawn is in one place. */
  ghost predicate Located(g: Graph, alg: Alg, w: Walk) {
    && w.users.Keys == g.users.Keys && alg in w.users && w.users[alg] == []
    && (forall a :: a in w.users ==> NoDup(w.users[a]))
    && NoDup(w.top + w.stack + w.done)
    && (forall a, sp :: a in w.users && sp in w.users[a] ==> sp in g.on && g.on[sp] == a && !Moved(w, sp))
    && (forall sp :: Moved(w, sp) ==> sp in g.on)
    && (forall sp :: sp in g.on && !Moved(w, sp) ==> g.on[sp] in w.users && sp in w.users[g.on[sp]])
    && (forall sp :: sp in w.top ==> sp in g.on && g.on[sp] == alg)
  }

  ghost predicate DoneOk(g: Graph, alg: Alg, w: Walk, sp: Sp)
    requires g.inst.Keys == g.on.Keys
  {
    sp in g.inst && g.inst[sp] in w.users && w.users[g.inst[sp]] == [] && Leads(g, alg, sp)
  }

  ghost predicate WalkOk(g: Graph, alg: Alg, w: Walk) {
    && WellFormed(g) && Located(g, alg, w)
    && (w.stack != [] ==> Path(g, alg, w.stack))
    && (forall sp :: sp in w.done ==> DoneOk(g, alg, w, sp))
  }

  lemma SourceReady(g: Graph, alg: Alg, w: Walk)
    requires WalkOk(g, alg, w)
    ensures Placed(g, w)
  {
  }

  lemma NoDupMove(a: seq<Sp>, b: seq<Sp>, c: seq<Sp>, x: Sp)
    requires NoDup([x] + a + b + c)
    ensures NoDup(a + ([x] + b) + c) && NoDup(a + b + ([x] + c))
  {
    var f := [x] + a + b + c;
    var g := a + ([x] + b) + c;
    forall i, j | 0 <= i < j < |g| ensures g[i] != g[j] {
      assert g[i] == f[if i < |a| then i + 1 else if i == |a| then 0 else i];
      assert g[j] == f[if j < |a| then j + 1 else if j == |a| then 0 else j];
    }
    var h := a + b + ([x] + c);
    var n := |a| + |b|;
    forall i, j | 0 <= i < j < |h| ensures h[i] != h[j] {
      assert h[i] == f[if i < n then i + 1 else if i == n then 0 else i];
      assert h[j] == f[if j < n then j + 1 else if j == n then 0 else j];
    }
  }

  lemma PopLocated(g: Graph, alg: Alg, w: Walk)
    requires Located(g, alg, w) && w.stack != []
    ensures Located(g, alg, Pop(w)) && forall sp :: Moved(Pop(w), sp) <==> Moved(w, sp)
  {
    var x, b := w.stack[0], w.stack[1..];
    assert w.stack == [x] + b;
    var t := Pop(w);
    forall sp ensures Moved(t, sp) <==> Moved(w, sp) { assert sp in t.done <==> sp == x || sp in w.done; }
    hide Moved;
    MoveOut(w.top, x, b, w.done);
  }

  lemma MoveOut(a: seq<Sp>, x: Sp, b: seq<Sp>, c: seq<Sp>)
    requires NoDup(a + ([x] + b) + c)
    ensures NoDup(a + b + ([x] + c))
  {
    var g := a + ([x] + b) + c;
    var h := a + b + ([x] + c);
    var m, n := |a|, |a| + |b|;
    forall i, j | 0 <= i < j < |h| ensures h[i] != h[j] {
      assert h[i] == g[if i < m then i else if i < n then i + 1 else if i == n then m else i];
      assert h[j] == g[if j < m then j else if j < n then j + 1 else if j == n then m else j];
    }
  }

  /** A spawn is done once the user list of its instance is empty. */
  lemma PopOk(g: Graph, alg: Alg, w: Walk)
    requires WalkOk(g, alg, w) && w.stack != [] && Source(g, w) == []
    ensures WalkOk(g, alg, Pop(w))
  {
    var t, x := Pop(w), w.stack[0];
    assert Path(g, alg, w.stack);
    assert Leads(g, alg, x);
    hide Located, WellFormed, Leads;
    PopLocated(g, alg, w);
    if t.stack != [] { PathTail(g, alg, w.stack); }
    forall sp | sp in t.done ensures DoneOk(g, alg, t, sp) {
      if sp != x { assert sp in w.done && DoneOk(g, alg, w, sp); }
    }
  }

  lemma PathTail(g: Graph, alg: Alg, p: seq<Sp>)
    requires g.inst.Keys == g.on.Keys && Path(g, alg, p) && |p| > 1
    ensures Path(g, alg, p[1..])
  {
    var q := p[1..];
    assert forall i :: 0 <= i < |q| ==> q[i] == p[i+1];
  }

  lemma PathCons(g: Graph, alg: Alg, p: seq<Sp>, sp: Sp)
    requires g.inst.Keys == g.on.Keys && Path(g, alg, p) && sp in g.on && g.on[sp] == g.inst[p[0]]
    ensures Path(g, alg, [sp] + p)
  {
    var q := [sp] + p;
    forall i | 0 <= i < |q| - 1 ensures g.on[q[i]] == g.inst[q[i+1]] { assert q[i+1] == p[i]; }
  }

  lemma PushTopLocated(g: Graph, alg: Alg, w: Walk)
    requires Located(g, alg, w) && w.stack == [] && w.top != []
    ensures var t := w.(top := w.top[1..], stack := [w.top[0]]);
            Located(g, alg, t) && forall sp :: Moved(t, sp) <==> Moved(w, sp)
  {
    var x, a := w.top[0], w.top[1..];
    var t := w.(top := a, stack := [x]);
    assert w.top == [x] + a;
    forall sp ensures Moved(t, sp) <==> Moved(w, sp) {}
    assert w.top + w.stack + w.done == [x] + a + [] + w.done;
    NoDupMove(a, [], w.done, x);
    assert a + ([x] + []) + w.done == t.top + t.stack + t.done;
    hide Moved;
  }

  lemma PushUserLocated(g: Graph, alg: Alg, w: Walk, a: Alg)
    requires Located(g, alg, w) && a in w.users && w.users[a] != []
    ensures var t := w.(users := w.users[a := w.users[a][1..]], stack := [w.users[a][0]] + w.stack);
            Located(g, alg, t) && forall sp :: Moved(t, sp) <==> Moved(w, sp) || sp == w.users[a][0]
  {
    var x := w.users[a][0];
    assert x in w.users[a];
    NoDupTail(w.users[a]);
    var t := w.(users := w.users[a := w.users[a][1..]], stack := [x] + w.stack);
    forall sp ensures Moved(t, sp) <==> Moved(w, sp) || sp == x { assert sp in t.stack <==> sp == x || sp in w.stack; }
    assert !Moved(w, x);
    NoDupAdd(w.top, w.stack, w.done, x);
    hide Moved, NoDup;
    forall b, sp | b in t.users && sp in t.users[b] ensures sp in g.on && g.on[sp] == b && !Moved(t, sp) {
      assert sp in w.users[b];
      assert b == a ==> sp != x;
      assert g.on[x] == a;
    }
    forall sp | sp in g.on && !Moved(t, sp) ensures g.on[sp] in t.users && sp in t.users[g.on[sp]] {
      assert sp in w.users[g.on[sp]];
      assert w.users[a] == [x] + w.users[a][1..];
    }
  }

  lemma NoDupAdd(a: seq<Sp>, b: seq<Sp>, c: seq<Sp>, x: Sp)
    requires NoDup(a + b + c) && x !in a && x !in b && x !in c
    ensures NoDup(a + ([x] + b) + c)
  {
    NoDupCons(x, a + b + c);
    assert [x] + (a + b + c) == [x] + a + b + c;
    NoDupMove(a, b, c, x);
  }

  lemma StillDone(g: Graph, alg: Alg, w: Walk, t: Walk)
    requires g.inst.Keys == g.on.Keys && t.done == w.done && w.users.Keys <= t.users.Keys
    requires forall a :: a in w.users && w.users[a] == [] ==> t.users[a] == []
    requires forall sp :: sp in w.done ==> DoneOk(g, alg, w, sp)
    ensures forall sp :: sp in t.done ==> DoneOk(g, alg, t, sp)
  {
    hide Leads;
    forall sp | sp in t.done ensures DoneOk(g, alg, t, sp) { assert DoneOk(g, alg, w, sp); }
  }

  lemma FirstUser(g: Graph, alg: Alg, w: Walk, a: Alg)
    requires Located(g, alg, w) && a in w.users && w.users[a] != []
    ensures w.users[a][0] in g.on && g.on[w.users[a][0]] == a && !Moved(w, w.users[a][0])
  {
    assert w.users[a][0] in w.users[a];
  }

  lemma FirstTop(g: Graph, alg: Alg, w: Walk)
    requires WellFormed(g) && Located(g, alg, w) && w.top != []
    ensures Path(g, alg, [w.top[0]])
  {
    assert w.top[0] in w.top;
  }

  lemma PushOk(g: Graph, alg: Alg, w: Walk)
    requires WalkOk(g, alg, w) && Placed(g, w) && Source(g, w) != []
    ensures WalkOk(g, alg, Push(g, w))
  {
    hide Located, Leads, Path, DoneOk;
    if w.stack == [] {
      FirstTop(g, alg, w);
      PushTopLocated(g, alg, w);
    } else {
      var a := g.inst[w.stack[0]];
      FirstUser(g, alg, w, a);
      PushUserLocated(g, alg, w, a);
      PathCons(g, alg, w.stack, w.users[a][0]);
    }
    StillDone(g, alg, w, Push(g, w));
  }

  /** The spawn about to be pushed does not belong to the algorithm itself. */
  lemma NeverItself(g: Graph, alg: Alg, rank: Alg -> nat, w: Walk)
    requires WalkOk(g, alg, w) && Acyclic(g, rank) && Placed(g, w)
    requires Source(g, w) != []
    ensures Source(g, w)[0] in g.inst && g.inst[Source(g, w)[0]] != alg
  {
    PushOk(g, alg, w);
    PathClimbs(g, alg, rank, Push(g, w).stack);
  }

  /** Spawns not yet on the stack or done. */
  ghost function Left(g: Graph, w: Walk): set<Sp> { set sp | sp in g.on && sp !in w.stack && sp !in w.done }

  lemma PushShrinks(g: Graph, alg: Alg, w: Walk)
    requires WalkOk(g, alg, w) && Placed(g, w) && Source(g, w) != []
    ensures Left(g, Push(g, w)) < Left(g, w)
  {
    var t, x := Push(g, w), Source(g, w)[0];
    assert x in Source(g, w);
    assert x in g.on && x !in w.stack && x !in w.done by {
      if w.stack == [] {
        assert (w.top + w.stack + w.done)[0] == x;
        TopNotDone(w.top, w.done);
      } else {
        assert !Moved(w, x);
      }
    }
    assert forall sp :: sp in t.stack <==> sp == x || sp in w.stack;
    assert x in Left(g, w) && x !in Left(g, t);
  }

  lemma TopNotDone(a: seq<Sp>, c: seq<Sp>)
    requires a != [] && NoDup(a + [] + c)
    ensures a[0] !in c
  {
    forall i | 0 <= i < |c| ensures c[i] != a[0] {
      assert (a + [] + c)[|a| + i] == c[i];
      assert (a + [] + c)[0] == a[0];
    }
  }

  lemma PopKeepsLeft(g: Graph, w: Walk)
    requires w.stack != []
    ensures Left(g, Pop(w)) == Left(g, w)
  {
    assert w.stack == [w.stack[0]] + w.stack[1..];
  }

  // ----- what the walk has done -----

  lemma {:induction false} PathDone(g: Graph, alg: Alg, w: Walk, p: seq<Sp>)
    requires WalkOk(g, alg, w) && w.stack == [] && w.top == [] && Path(g, alg, p)
    ensures p[0] in w.done
    decreases |p|
  {
    if |p| == 1 {
      assert g.on[p[0]] == alg && w.users[alg] == [];
    } else {
      PathTail(g, alg, p);
      PathDone(g, alg, w, p[1..]);
      assert DoneOk(g, alg, w, p[1]);
      assert g.on[p[0]] == g.inst[p[1]];
    }
    assert Moved(w, p[0]);
  }

  /** At the end exactly the spawns that lead to the algorithm are done, each once, and the user
      lists of their instances are empty. */
  lemma AllDone(g: Graph, alg: Alg, w: Walk)
    requires WalkOk(g, alg, w) && w.stack == [] && w.top == []
    ensures NoDup(w.done) && forall sp :: sp in w.done <==> sp in g.on && Leads(g, alg, sp)
    ensures forall i :: BuiltOn(g, alg, i) <==> exists sp :: sp in w.done && sp in g.inst && g.inst[sp] == i
    ensures forall i :: BuiltOn(g, alg, i) ==> i in w.users && w.users[i] == []
  {
    assert w.top + w.stack + w.done == w.done;
    forall sp | sp in g.on && Leads(g, alg, sp) ensures sp in w.done {
      var p :| Path(g, alg, p) && p[0] == sp;
      PathDone(g, alg, w, p);
    }
    forall sp | sp in w.done ensures sp in g.on && Leads(g, alg, sp) { assert DoneOk(g, alg, w, sp); }
    hide Leads, Located, Path;
    forall i | BuiltOn(g, alg, i) ensures i in w.users && w.users[i] == [] {
      var sp :| sp in g.inst && g.inst[sp] == i && Leads(g, alg, sp);
      assert DoneOk(g, alg, w, sp);
    }
  }

  // ----- lists of other algorithms -----

  ghost predicate Suffix(x: seq<Sp>, y: seq<Sp>) { |x| <= |y| && x == y[|y|-|x|..] }

  ghost predicate Suffixes(g: Graph, alg: Alg, w: Walk) {
    w.users.Keys == g.users.Keys && forall a :: a in w.users && a != alg ==> Suffix(w.users[a], g.users[a])
  }

  lemma SuffixTail(x: seq<Sp>, y: seq<Sp>)
    requires Suffix(x, y) && x != []
    ensures Suffix(x[1..], y)
  {
  }

  lemma PushSuffixes(g: Graph, alg: Alg, w: Walk)
    requires Suffixes(g, alg, w) && Placed(g, w) && Source(g, w) != []
    ensures Suffixes(g, alg, Push(g, w))
  {
    if w.stack != [] && g.inst[w.stack[0]] != alg {
      var a := g.inst[w.stack[0]];
      SuffixTail(w.users[a], g.users[a]);
    }
  }

  /** An algorithm that was not reached keeps its users. */
  lemma OthersKeepUsers(g: Graph, alg: Alg, w: Walk, a: Alg)
    requires WalkOk(g, alg, w) && w.stack == [] && w.top == [] && Suffixes(g, alg, w)
    requires a in g.users && a != alg && !BuiltOn(g, alg, a)
    ensures w.users[a] == g.users[a]
  {
    if |w.users[a]| < |g.users[a]| {
      var x := g.users[a][0];
      assert x in g.users[a] && g.on[x] == a;
      assert x !in w.users[a] by {
        var k := |g.users[a]| - |w.users[a]|;
        assert forall i :: 0 <= i < |w.users[a]| ==> w.users[a][i] == g.users[a][i + k];
      }
      assert Moved(w, x) && DoneOk(g, alg, w, x);
      var p :| Path(g, alg, p) && p[0] == x;
      LeadsUp(g, alg, p);
    }
  }

  lemma LeadsUp(g: Graph, alg: Alg, p: seq<Sp>)
    requires WellFormed(g) && Path(g, alg, p)
    ensures g.on[p[0]] == alg || BuiltOn(g, alg, g.on[p[0]])
  {
    if |p| > 1 {
      PathTail(g, alg, p);
      assert Leads(g, alg, p[1]) by { assert p[1..][0] == p[1]; }
      assert g.on[p[0]] == g.inst[p[1]];
    }
  }

  /** What is left is well formed again: the spawns that are done are on no list any more. */
  lemma RestWellFormed(g: Graph, alg: Alg, w: Walk, d: set<Sp>)
    requires WalkOk(g, alg, w) && w.stack == [] && w.top == [] && d == set sp | sp in w.done
    ensures WellFormed(Graph(g.inst - d, g.on - d, w.users))
  {
    hide Path, DoneOk, NoDup;
    var r := Graph(g.inst - d, g.on - d, w.users);
    forall sp ensures Moved(w, sp) <==> sp in d {}
    hide Moved;
    assert r.inst.Keys == r.on.Keys;
    forall a, sp | a in r.users && sp in r.users[a] ensures sp in r.on && r.on[sp] == a {
      assert !Moved(w, sp);
    }
    forall sp | sp in r.on ensures r.on[sp] in r.users && sp in r.users[r.on[sp]] && r.inst[sp] in r.users {
      assert !Moved(w, sp);
    }
  }

  lemma StartLocated(g: Graph, alg: Alg, top: seq<Sp>)
    requires WellFormed(g) && alg in g.users && NoDup(top) && forall sp :: sp in top <==> sp in g.users[alg]
    ensures Located(g, alg, Walk(g.users[alg := []], top, [], []))
  {
    var w := Walk(g.users[alg := []], top, [], []);
    assert w.top + w.stack + w.done == top;
    forall sp ensures Moved(w, sp) <==> sp in top {}
    forall a | a in w.users ensures NoDup(w.users[a]) {}
    hide Moved, NoDup;
    forall sp | sp in top ensures sp in g.on && g.on[sp] == alg { assert sp in g.users[alg]; }
    forall a, sp | a in w.users && sp in w.users[a] ensures sp in g.on && g.on[sp] == a && !Moved(w, sp) {
      assert sp in g.users[a];
    }
    forall sp | sp in g.on && !Moved(w, sp) ensures g.on[sp] in w.users && sp in w.users[g.on[sp]] {
      assert sp in g.users[g.on[sp]];
    }
  }

  /** The walk at its start. */
  lemma StartOk(g: Graph, alg: Alg, top: seq<Sp>)
    requires WellFormed(g) && alg in g.users && NoDup(top) && forall sp :: sp in top <==> sp in g.users[alg]
    ensures WalkOk(g, alg, Walk(g.users[alg := []], top, [], []))
    ensures Suffixes(g, alg, Walk(g.users[alg := []], top, [], []))
  {
    hide Located, NoDup;
    StartLocated(g, alg, top);
    assert forall a :: a in g.users ==> g.users[a] == g.users[a][0..];
  }

  // ----- the registry -----

  class Registry {
    var g: Graph
    var dead: set<Alg>
    var listed: set<Alg>
    var hashed: set<Alg>

    ghost predicate Valid(rank: Alg -> nat)
      reads this
    {
      WellFormed(g) && Acyclic(g, rank) && listed <= g.users.Keys
    }

    /** The first loop of crypto_remove_spawns: every user of the algorithm is moved to `top`. */
    static method Collect(users: seq<Sp>) returns (top: seq<Sp>)
      requires NoDup(users)
      ensures NoDup(top) && forall sp :: sp in top <==> sp in users
    {
      top := [];
      var i := 0;
      while i < |users|
        invariant i <= |users| && NoDup(top) && forall sp :: sp in top <==> sp in users[..i]
      {
        assert users[i] !in users[..i];
        NoDupCons(users[i], top);
        top := [users[i]] + top;
        assert users[..i+1] == users[..i] + [users[i]];
        i := i + 1;
      }
      assert users[..i] == users;
    }

    /** The walk of crypto_remove_spawns with crypto_more_spawns. */
    static method WalkSpawns(g: Graph, alg: Alg, ghost rank: Alg -> nat) returns (w: Walk)
      requires WellFormed(g) && Acyclic(g, rank) && alg in g.users
      ensures WalkOk(g, alg, w) && w.stack == [] && w.top == [] && Suffixes(g, alg, w)
    {
      hide WellFormed, Acyclic, WalkOk, Suffixes, Left;
      var top := CollectUsers(g, alg);
      StartOk(g, alg, top);
      w := Walk(g.users[alg := []], top, [], []);
      var more := true;
      while more
        invariant WalkOk(g, alg, w) && Suffixes(g, alg, w) && (!more ==> w.stack == [] && w.top == [])
        decreases Left(g, w), |w.stack|, more
      {
        SourceReady(g, alg, w);
        ghost var was := w;
        while Source(g, w) != []
          invariant WalkOk(g, alg, w) && Suffixes(g, alg, w)
          invariant Placed(g, w)
          invariant Left(g, w) < Left(g, was) || w == was
          decreases Left(g, w)
        {
          NeverItself(g, alg, rank, w);
          assert g.inst[Source(g, w)[0]] != alg;
          PushShrinks(g, alg, w);
          PushOk(g, alg, w);
          PushSuffixes(g, alg, w);
          w := Push(g, w);
          SourceReady(g, alg, w);
        }
        more := w.stack != [];
        if more {
          PopOk(g, alg, w);
          PopKeepsLeft(g, w);
          SuffixesSame(g, alg, w, Pop(w));
          w := Pop(w);
        }
      }
    }

    static method CollectUsers(g: Graph, alg: Alg) returns (top: seq<Sp>)
      requires WellFormed(g) && alg in g.users
      ensures NoDup(top) && forall sp :: sp in top <==> sp in g.users[alg]
    {
      top := Collect(g.users[alg]);
    }

    /** crypto_remove_spawn: its BUG_ON is the precondition. */
    method RemoveSpawn(i: Alg, list: seq<Alg>) returns (out: seq<Alg>)
      requires i in g.users && g.users[i] == []
      modifies this`dead, this`hashed, this`listed
      ensures dead == old(dead) + {i}
      ensures if i !in old(dead) && i in old(hashed) then out == [i] + list && hashed == old(hashed) - {i} && listed == old(listed) - {i}
              else out == list && hashed == old(hashed) && listed == old(listed)
    {
      out := list;
      if i in dead { return; }
      dead := dead + {i};
      if i !in hashed { return; }
      out := [i] + list;
      listed := listed - {i};
      hashed := hashed - {i};
    }

    /** The last loop of crypto_remove_spawns. */
    method RemoveAll(done: seq<Sp>, inst: map<Sp, Alg>) returns (list: seq<Alg>)
      requires forall sp :: sp in done ==> sp in inst && inst[sp] in g.users && g.users[inst[sp]] == []
      modifies this`dead, this`hashed, this`listed
      ensures dead == old(dead) + Insts(done, inst)
      ensures NoDup(list) && forall i :: i in list <==> i in Insts(done, inst) && i !in old(dead) && i in old(hashed)
      ensures hashed <= old(hashed) && listed <= old(listed)
    {
      list := [];
      var k := 0;
      while k < |done|
        invariant k <= |done| && dead == old(dead) + Insts(done[..k], inst)
        invariant NoDup(list) && forall i :: i in list <==> i in Insts(done[..k], inst) && i !in old(dead) && i in old(hashed)
        invariant hashed <= old(hashed) && listed <= old(listed)
        invariant forall i :: i in old(hashed) && i !in dead ==> i in hashed
      {
        var sp := done[k];
        assert sp in done;
        InstsSnoc(done, inst, k);
        ghost var was := list;
        hide Insts;
        var i := inst[sp];
        if i !in list { NoDupCons(i, list); }
        list := RemoveSpawn(i, list);
        k := k + 1;
      }
      assert done[..k] == done;
    }

    /** The spawns that led to the algorithm are detached. */
    method Detach(alg: Alg, ghost rank: Alg -> nat) returns (done: seq<Sp>)
      requires WellFormed(g) && Acyclic(g, rank) && alg in g.users
      modifies this`g
      ensures WellFormed(g) && Acyclic(g, rank) && WellFormed(old(g)) && Emptied(old(g), alg, g) && !BuiltOn(old(g), alg, alg)
      ensures forall sp :: sp in done ==> sp in old(g).inst && old(g).inst[sp] in g.users && g.users[old(g).inst[sp]] == []
      ensures forall i :: i in Insts(done, old(g).inst) <==> BuiltOn(old(g), alg, i)
    {
      hide BuiltOn, Leads, WalkOk, Insts, Suffixes;
      var w := WalkSpawns(g, alg, rank);
      Outcome(g, alg, rank, w);
      hide WellFormed, Acyclic;
      var d := set sp | sp in w.done;
      g := Graph(g.inst - d, g.on - d, w.users);
      done := w.done;
    }

    /** crypto_remove_spawns when an algorithm goes away for good. */
    method RemoveSpawns(alg: Alg, ghost rank: Alg -> nat) returns (list: seq<Alg>)
      requires Valid(rank) && alg in g.users
      modifies this
      ensures Valid(rank) && WellFormed(old(g)) && Emptied(old(g), alg, g)
      ensures forall i :: i in dead <==> i in old(dead) || BuiltOn(old(g), alg, i)
      ensures NoDup(list) && forall i :: i in list <==> BuiltOn(old(g), alg, i) && i !in old(dead) && i in old(hashed)
      ensures !BuiltOn(old(g), alg, alg)
    {
      hide WellFormed, Acyclic, BuiltOn, Insts;
      var inst := g.inst;
      var done := Detach(alg, rank);
      list := RemoveAll(done, inst);
    }

    /** crypto_remove_alg: the algorithm and exactly the instances built on it are dead afterwards. */
    method RemoveAlg(alg: Alg, ghost rank: Alg -> nat) returns (ok: bool, list: seq<Alg>)
      requires Valid(rank)
      modifies this
      ensures Valid(rank) && ok == (alg in old(listed)) && WellFormed(old(g))
      ensures !ok ==> g == old(g) && dead == old(dead) && listed == old(listed) && hashed == old(hashed) && list == []
      ensures ok ==> Emptied(old(g), alg, g)
      ensures ok ==> forall i :: i in dead <==> i in old(dead) || i == alg || BuiltOn(old(g), alg, i)
      ensures ok ==> NoDup(list) && forall i :: i in list <==> BuiltOn(old(g), alg, i) && i !in old(dead) && i in old(hashed)
    {
      hide WellFormed, Acyclic, BuiltOn, Emptied, NoDup;
      if alg !in listed { return false, []; }
      dead := dead + {alg};
      listed := listed - {alg};
      list := RemoveSpawns(alg, rank);
      ok := true;
    }
  }

  /** The algorithm and the instances built on it have no users left; the others keep theirs. */
  ghost predicate Emptied(was: Graph, alg: Alg, now: Graph)
    requires was.inst.Keys == was.on.Keys
  {
    && now.users.Keys == was.users.Keys
    && forall a :: a in now.users ==> now.users[a] == if a == alg || BuiltOn(was, alg, a) then [] else was.users[a]
  }

  /** The instances of some spawns. */
  ghost function Insts(done: seq<Sp>, inst: map<Sp, Alg>): set<Alg> { set sp | sp in done && sp in inst :: inst[sp] }

  lemma InstsSnoc(done: seq<Sp>, inst: map<Sp, Alg>, k: nat)
    requires k < |done| && done[k] in inst
    ensures Insts(done[..k+1], inst) == Insts(done[..k], inst) + {inst[done[k]]}
  {
    assert done[..k+1] == done[..k] + [done[k]];
  }

  lemma SuffixesSame(g: Graph, alg: Alg, w: Walk, t: Walk)
    requires Suffixes(g, alg, w) && t.users == w.users
    ensures Suffixes(g, alg, t)
  {
  }

  /** The end of the walk in terms of the graph it started from. */
  lemma Outcome(g: Graph, alg: Alg, rank: Alg -> nat, w: Walk)
    requires WalkOk(g, alg, w) && w.stack == [] && w.top == [] && Suffixes(g, alg, w) && g.inst.Keys == g.on.Keys && Acyclic(g, rank)
    ensures forall sp :: sp in w.done ==> sp in g.inst && g.inst[sp] in w.users && w.users[g.inst[sp]] == []
    ensures forall i :: i in Insts(w.done, g.inst) <==> BuiltOn(g, alg, i)
    ensures !BuiltOn(g, alg, alg)
    ensures w.users.Keys == g.users.Keys && forall a :: a in w.users ==> w.users[a] == if a == alg || BuiltOn(g, alg, a) then [] else g.users[a]
    ensures var d := set sp | sp in w.done;
            var r := Graph(g.inst - d, g.on - d, w.users); WellFormed(r) && Acyclic(r, rank)
  {
    AllDone(g, alg, w);
    RestWellFormed(g, alg, w, set sp | sp in w.done);
    forall sp | sp in w.done ensures sp in g.inst && g.inst[sp] in w.users && w.users[g.inst[sp]] == [] { assert DoneOk(g, alg, w, sp); }
    forall a | a in w.users && a != alg && !BuiltOn(g, alg, a) ensures w.users[a] == g.users[a] { OthersKeepUsers(g, alg, w, a); }
    NotOnItself(g, alg, rank);
    hide BuiltOn, Leads;
  }

  lemma NotOnItself(g: Graph, alg: Alg, rank: Alg -> nat)
    requires g.inst.Keys == g.on.Keys && Acyclic(g, rank)
    ensures !BuiltOn(g, alg, alg)
  {
    forall sp | sp in g.inst && Leads(g, alg, sp) ensures g.inst[sp] != alg {
      var p :| Path(g, alg, p) && p[0] == sp;
      PathClimbs(g, alg, rank, p);
    }
  }
}
