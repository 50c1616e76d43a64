/** References to managed workloads and the keys that identify them. */
module Workloads {
  import opened Kube
  import opened Labels

  const DEPLOYMENT := "Deployment"
  const STATEFUL_SET := "StatefulSet"

  datatype Workload = Workload(
    kind: string,
    namespace: string,
    name: string,
    uid: string,
    generation: int,
    selector: Option<LabelSelector>,
    priority: int)

  predicate NoSlash(s: string) {
    '/' !in s
  }

  /** "Kind/namespace/name", the identity used by caches, filters, locks and checkpoints. */
  function Key(kind: string, namespace: string, name: string): string {
    kind + "/" + namespace + "/" + name
  }

  function KeyOf(w: Workload): string {
    Key(w.kind, w.namespace, w.name)
  }

  function Keys(ws: seq<Workload>): set<string> {
    set w | w in ws :: KeyOf(w)
  }

  ghost predicate DistinctKeys(ws: seq<Workload>) {
    forall i, j :: 0 <= i < j < |ws| ==> KeyOf(ws[i]) != KeyOf(ws[j])
  }

  /** The part before a separator is determined by the joined string when it holds no slash. */
  lemma {:induction false} JoinInjective(a: string, b: string, a': string, b': string)
    requires NoSlash(a) && NoSlash(a')
    requires a + "/" + b == a' + "/" + b'
    ensures a == a' && b == b'
  {
    var s := a + "/" + b;
    assert s == a' + "/" + b';
    assert s[|a|] == '/' && forall i :: 0 <= i < |a| ==> s[i] == a[i];
    assert s[|a'|] == '/' && forall i :: 0 <= i < |a'| ==> s[i] == a'[i];
    assert a == s[..|a|] == a';
    assert b == s[|a| + 1..] == b';
  }

  /** Two objects share a key only if they are the same object: kinds and namespaces hold no slash. */
  lemma {:induction false} KeyInjective(k: string, ns: string, n: string, k': string, ns': string, n': string)
    requires NoSlash(k) && NoSlash(k') && NoSlash(ns) && NoSlash(ns')
    requires Key(k, ns, n) == Key(k', ns', n')
    ensures k == k' && ns == ns' && n == n'
  {
    assert Key(k, ns, n) == k + "/" + (ns + "/" + n);
    assert Key(k', ns', n') == k' + "/" + (ns' + "/" + n');
    JoinInjective(k, ns + "/" + n, k', ns' + "/" + n');
    JoinInjective(ns, n, ns', n');
  }

  // ----- lists that are rearrangements of each other -----

  lemma TwiceInMultiset(b: seq<Workload>, i: nat, j: nat)
    requires i < j < |b| && b[i] == b[j]
    ensures multiset(b)[b[i]] >= 2
  {
    assert b == b[..j] + [b[j]] + b[j + 1..];
    assert b[..j][i] in multiset(b[..j]);
  }

  lemma OnceInDistinct(a: seq<Workload>, w: Workload)
    requires DistinctKeys(a)
    ensures multiset(a)[w] <= 1
  {
    if p :| 0 <= p < |a| && a[p] == w {
      assert a == a[..p] + [w] + a[p + 1..];
      assert w !in a[..p] && w !in a[p + 1..];
    }
  }

  lemma SameMembers(a: seq<Workload>, b: seq<Workload>)
    requires multiset(a) == multiset(b)
    ensures forall w :: w in a <==> w in b
    ensures DistinctKeys(a) ==> DistinctKeys(b)
  {
    forall w ensures w in a <==> w in b {
      assert w in multiset(a) <==> w in multiset(b);
    }
    if DistinctKeys(a) {
      forall i, j | 0 <= i < j < |b| ensures KeyOf(b[i]) != KeyOf(b[j]) {
        assert b[i] in b && b[j] in b;
        assert b[i] in a && b[j] in a;
        var p :| 0 <= p < |a| && a[p] == b[i];
        var q :| 0 <= q < |a| && a[q] == b[j];
        if b[i] == b[j] {
          TwiceInMultiset(b, i, j);
          OnceInDistinct(a, b[i]);
        }
      }
    }
  }
}
