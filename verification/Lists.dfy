/** Lists of identifiers, and what taking one out or putting one in does to them. */
module Lists {

  datatype Maybe = None | Some(value: nat)

  ghost predicate NoDup(f: seq<nat>) { forall i, j :: 0 <= i < j < |f| ==> f[i] != f[j] }

  lemma NoDupCons(x: nat, f: seq<nat>)
    requires NoDup(f) && x !in f
    ensures NoDup([x] + f)
  {
    var g := [x] + f;
    forall i, j | 0 <= i < j < |g| ensures g[i] != g[j] {
      assert g[j] == f[j-1];
      assert i > 0 ==> g[i] == f[i-1];
    }
  }

  lemma NoDupSnoc(f: seq<nat>, x: nat)
    requires NoDup(f) && x !in f
    ensures NoDup(f + [x])
  {
  }

  lemma NoDupTail(f: seq<nat>)
    requires f != [] && NoDup(f)
    ensures NoDup(f[1..]) && f[0] !in f[1..] && f == [f[0]] + f[1..]
  {
  }

  function Insert<T>(t: seq<T>, k: nat, x: T): (u: seq<T>)
    requires k <= |t|
    ensures |u| == |t| + 1 && forall i :: 0 <= i < |u| ==> u[i] == if i < k then t[i] else if i == k then x else t[i-1]
  {
    t[..k] + [x] + t[k..]
  }

  lemma InsertElems<T>(t: seq<T>, k: nat, x: T)
    requires k <= |t|
    ensures multiset(Insert(t, k, x)) == multiset(t) + multiset{x}
    ensures forall y :: y in Insert(t, k, x) <==> y in t || y == x
  {
    assert t == t[..k] + t[k..];
  }

  function Remove<T>(t: seq<T>, k: nat): (u: seq<T>)
    requires k < |t|
    ensures |u| == |t| - 1 && forall i :: 0 <= i < |u| ==> u[i] == t[if i < k then i else i + 1]
  {
    t[..k] + t[k+1..]
  }

  function IndexOf(t: seq<nat>, r: nat): (k: nat)
    requires r in t
    ensures k < |t| && t[k] == r
  {
    if t[0] == r then 0 else 1 + IndexOf(t[1..], r)
  }

  function Without(t: seq<nat>, r: nat): seq<nat> { if r in t then Remove(t, IndexOf(t, r)) else t }

  lemma RemoveFacts(t: seq<nat>, k: nat)
    requires NoDup(t) && k < |t|
    ensures NoDup(Remove(t, k)) && (forall x :: x in Remove(t, k) <==> x in t && x != t[k])
  {
    var u := Remove(t, k);
    forall x | x in t && x != t[k] ensures x in u {
      var i :| 0 <= i < |t| && t[i] == x;
      assert u[if i < k then i else i - 1] == x;
    }
    hide Remove;
    forall x | x in u ensures x in t && x != t[k] {
      var i :| 0 <= i < |u| && u[i] == x;
    }
  }

  lemma WithoutFacts(t: seq<nat>, r: nat)
    requires NoDup(t)
    ensures NoDup(Without(t, r)) && (forall x :: x in Without(t, r) <==> x in t && x != r)
    ensures |Without(t, r)| == |t| - if r in t then 1 else 0
  {
    hide Remove, IndexOf;
    if r in t { RemoveFacts(t, IndexOf(t, r)); }
  }
}
