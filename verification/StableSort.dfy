/** The in-place stable sort of workloads by drain priority. */
module StableSort {
  import opened Workloads

  /** The members of one priority tier, in order. */
  function Tier(ws: seq<Workload>, p: int): seq<Workload> {
    if ws == [] then []
    else if ws[0].priority == p then [ws[0]] + Tier(ws[1..], p)
    else Tier(ws[1..], p)
  }

  predicate Ordered(ws: seq<Workload>) {
    forall i, j :: 0 <= i < j < |ws| ==> ws[i].priority <= ws[j].priority
  }

  /** Lower priorities first, and discovery order kept inside every tier. */
  ghost predicate StablySorted(input: seq<Workload>, output: seq<Workload>) {
    Ordered(output) && forall p :: Tier(output, p) == Tier(input, p)
  }

  lemma {:induction false} TierAppend(a: seq<Workload>, b: seq<Workload>, p: int)
    ensures Tier(a + b, p) == Tier(a, p) + Tier(b, p)
  {
    if a == [] {
      assert a + b == b;
    } else {
      assert (a + b)[1..] == a[1..] + b;
      TierAppend(a[1..], b, p);
    }
  }

  /** The two clauses determine the result: any two stable sorts of a list are equal. */
  lemma {:induction false} StablySortedUnique(input: seq<Workload>, a: seq<Workload>, b: seq<Workload>)
    requires StablySorted(input, a) && StablySorted(input, b)
    ensures a == b
  {
    SameTiers(a, b);
  }

  lemma {:induction false} TierMembers(ws: seq<Workload>, p: int)
    ensures forall w :: w in Tier(ws, p) <==> w in ws && w.priority == p
    ensures forall w: Workload :: w.priority == p ==> multiset(Tier(ws, p))[w] == multiset(ws)[w]
  {
    if ws != [] {
      assert ws == [ws[0]] + ws[1..];
      TierMembers(ws[1..], p);
    }
  }

  lemma {:induction false} SameTiers(a: seq<Workload>, b: seq<Workload>)
    requires Ordered(a) && Ordered(b)
    requires forall p :: Tier(a, p) == Tier(b, p)
    ensures a == b
  {
    if b != [] {
      HeadInTier(b, a);
    }
    if a != [] {
      HeadInTier(a, b);
      assert a[0] == Tier(a, a[0].priority)[0] && b[0] == Tier(b, b[0].priority)[0];
      forall q ensures Tier(a[1..], q) == Tier(b[1..], q) {
        TailTier(a, q);
        TailTier(b, q);
        assert Tier(a, q) == Tier(b, q);
      }
      SameTiers(a[1..], b[1..]);
      assert a == [a[0]] + a[1..] && b == [b[0]] + b[1..];
    }
  }

  lemma HeadInTier(a: seq<Workload>, b: seq<Workload>)
    requires a != [] && Ordered(b)
    requires Tier(a, a[0].priority) == Tier(b, a[0].priority)
    ensures b != [] && b[0].priority <= a[0].priority
  {
    TierMembers(a, a[0].priority);
    TierMembers(b, a[0].priority);
    assert a[0] in b;
  }

  lemma TailTier(a: seq<Workload>, q: int)
    requires a != []
    ensures Tier(a[1..], q) == if a[0].priority == q then Tier(a, q)[1..] else Tier(a, q)
  {}

  /** A stable sort rearranges: no workload is lost, duplicated or invented. */
  lemma {:induction false} StablySortedPermutes(input: seq<Workload>, output: seq<Workload>)
    requires StablySorted(input, output)
    ensures multiset(output) == multiset(input)
  {
    forall w: Workload ensures multiset(output)[w] == multiset(input)[w] {
      TierMembers(input, w.priority);
      TierMembers(output, w.priority);
      assert Tier(output, w.priority) == Tier(input, w.priority);
    }
  }

  /** Places `w` after everything of its own or a lower priority. */
  function Insert(ws: seq<Workload>, w: Workload): seq<Workload> {
    var n := |ws|;
    if n == 0 || ws[n - 1].priority <= w.priority then ws + [w]
    else Insert(ws[..n - 1], w) + [ws[n - 1]]
  }

  lemma {:induction false} InsertKeepsStable(input: seq<Workload>, ws: seq<Workload>, w: Workload)
    requires StablySorted(input, ws)
    ensures StablySorted(input + [w], Insert(ws, w))
  {
    InsertOrdered(ws, w);
    forall p ensures Tier(Insert(ws, w), p) == Tier(input + [w], p) {
      InsertTier(ws, w, p);
      TierAppend(input, [w], p);
      TierAppend(ws, [w], p);
    }
  }

  lemma {:induction false} InsertOrdered(ws: seq<Workload>, w: Workload)
    requires Ordered(ws)
    ensures Ordered(Insert(ws, w))
    ensures forall x :: x in Insert(ws, w) <==> x in ws || x == w
  {
    var n := |ws|;
    if n > 0 && ws[n - 1].priority > w.priority {
      InsertOrdered(ws[..n - 1], w);
      assert ws == ws[..n - 1] + [ws[n - 1]];
      var front := Insert(ws[..n - 1], w);
      assert forall i :: 0 <= i < |front| ==> front[i] in front;
    }
  }

  lemma {:induction false} InsertTier(ws: seq<Workload>, w: Workload, p: int)
    requires Ordered(ws)
    ensures Tier(Insert(ws, w), p) == Tier(ws + [w], p)
  {
    var n := |ws|;
    if n > 0 && ws[n - 1].priority > w.priority {
      var front, last := ws[..n - 1], ws[n - 1];
      InsertTier(front, w, p);
      assert ws == front + [last];
      TierAppend(Insert(front, w), [last], p);
      TierAppend(front, [w], p);
      TierAppend(ws, [w], p);
      TierAppend(front, [last], p);
    }
  }

  /** The list with element `i` moved down to index `j`. */
  function Moved(ws: seq<Workload>, i: nat, j: nat): (r: seq<Workload>)
    requires j <= i < |ws|
    ensures |r| == |ws| && r[j] == ws[i] && forall k :: 0 <= k < j ==> r[k] == ws[k]
  {
    ws[..j] + [ws[i]] + ws[j..i] + ws[i + 1..]
  }

  /** One swap moves the element down by one. */
  lemma MovedStep(ws: seq<Workload>, i: nat, j: nat)
    requires 0 < j <= i < |ws|
    ensures Moved(ws, i, j)[j - 1 := ws[i]][j := ws[j - 1]] == Moved(ws, i, j - 1)
  {
    assert ws[j - 1..i] == [ws[j - 1]] + ws[j..i];
  }

  /** Moves element `i` down to its place among the sorted elements before it. */
  method InsertInPlace(a: array<Workload>, i: nat)
    requires i < a.Length
    modifies a
    ensures a[..] == Insert(old(a[..i]), old(a[i])) + old(a[i + 1..])
  {
    ghost var was := a[..];
    var w := a[i];
    var j := i;
    assert Moved(was, i, i) == was;
    while j > 0 && w.priority < a[j - 1].priority
      invariant 0 <= j <= i
      invariant a[..] == Moved(was, i, j)
      invariant forall k :: j <= k < i ==> w.priority < was[k].priority
    {
      ghost var now := a[..];
      assert now[j] == w && now[j - 1] == was[j - 1];
      MovedStep(was, i, j);
      a[j - 1], a[j] := a[j], a[j - 1];
      assert a[..] == now[j - 1 := w][j := was[j - 1]];
      j := j - 1;
    }
    assert j > 0 ==> a[..][j - 1] == was[j - 1];
    InsertHere(was, i, j);
    assert was[..i] == old(a[..i]) && was[i + 1..] == old(a[i + 1..]);
  }

  lemma InsertHere(ws: seq<Workload>, i: nat, j: nat)
    requires j <= i < |ws| && (j > 0 ==> ws[j - 1].priority <= ws[i].priority)
    requires forall k :: j <= k < i ==> ws[i].priority < ws[k].priority
    ensures Moved(ws, i, j) == Insert(ws[..i], ws[i]) + ws[i + 1..]
  {
    InsertAt(ws[..i], ws[i], j);
    assert ws[..i][..j] == ws[..j] && ws[..i][j..] == ws[j..i];
  }

  /** The element is inserted after the last one of no higher priority. */
  lemma {:induction false} InsertAt(ws: seq<Workload>, w: Workload, j: nat)
    requires j <= |ws| && (j > 0 ==> ws[j - 1].priority <= w.priority)
    requires forall k :: j <= k < |ws| ==> w.priority < ws[k].priority
    ensures Insert(ws, w) == ws[..j] + [w] + ws[j..]
  {
    if j < |ws| {
      var n := |ws| - 1;
      InsertAt(ws[..n], w, j);
      assert ws[..n][..j] == ws[..j] && ws[j..] == ws[..n][j..] + [ws[n]];
    } else {
      assert ws[..j] == ws && ws[j..] == [];
    }
  }

  /** Sorts in place. The two clauses of StablySorted fix the result completely. */
  method SortByPriority(a: array<Workload>)
    modifies a
    ensures StablySorted(old(a[..]), a[..])
    ensures multiset(a[..]) == multiset(old(a[..]))
    ensures forall i, j :: 0 <= i < j < a.Length ==> a[i].priority <= a[j].priority
  {
    ghost var input := a[..];
    for i := 0 to a.Length
      invariant a[i..] == input[i..]
      invariant StablySorted(input[..i], a[..i])
    {
      ghost var sorted := a[..i];
      assert a[i] == input[i];
      InsertInPlace(a, i);
      InsertKeepsStable(input[..i], sorted, input[i]);
      InsertLength(sorted, input[i]);
      assert input[..i + 1] == input[..i] + [input[i]];
      assert a[..i + 1] == Insert(sorted, input[i]);
    }
    assert input[..a.Length] == input && a[..a.Length] == a[..];
    StablySortedPermutes(input, a[..]);
    assert forall i :: 0 <= i < a.Length ==> a[i] == a[..][i];
  }

  lemma InsertLength(ws: seq<Workload>, w: Workload)
    ensures |Insert(ws, w)| == |ws| + 1
  {}
}
