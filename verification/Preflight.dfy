/** The pre-flight scan: which disruption budgets may cover a workload, and when strict mode aborts. */
module Preflight {
  import opened Kube
  import opened Labels
  import opened Workloads

  /** The heuristic of the scan: the budget is ruled out only by an equality label of the workload
      that one of the budget's requirements rejects. */
  predicate SelectorMayMatchWorkload(pdb: Selector, ws: LabelSelector) {
    Matches(pdb, ws.matchLabels) ||
    forall r :: r in pdb && r.key in ws.matchLabels ==> r.Matches(map[r.key := ws.matchLabels[r.key]])
  }

  predicate PdbMaySelectWorkload(pdb: Option<LabelSelector>, workloads: seq<Workload>) {
    pdb.Some? &&
    (AsSelector(pdb.value).Err? || AsSelector(pdb.value).value == {} ||
     exists w :: w in workloads && w.selector.Some? &&
                 SelectorMayMatchWorkload(AsSelector(pdb.value).value, w.selector.value))
  }

  predicate Extends(labels: LabelSet, base: LabelSet) {
    forall k :: k in base ==> k in labels && labels[k] == base[k]
  }

  ghost function AnyOf(s: set<string>): (v: string)
    requires s != {}
    ensures v in s
  {
    var v :| v in s; v
  }

  /** A value for the key of a valid requirement that meets it; None leaves the key unset. */
  ghost function Choice(r: Requirement): Option<string>
    requires r.Valid()
  {
    match r.op
    case In => Some(AnyOf(r.values))
    case Exists => Some("")
    case _ => None
  }

  /** The labels of the workload plus a choice for every key only the budget mentions. */
  ghost function CommonLabels(pdb: Selector, base: LabelSet): LabelSet
    requires forall r :: r in pdb ==> r.Valid()
    requires OnePerKey(pdb)
  {
    base + map r | r in pdb && r.key !in base && Choice(r).Some? :: r.key := Choice(r).value
  }

  /** No requirement shares its key with another one. */
  predicate OnePerKey(pdb: Selector) {
    forall r, r' :: r in pdb && r' in pdb && r.key == r'.key ==> r == r'
  }

  /** No false negatives: a budget and a workload that can select one common pod are reported. */
  lemma {:induction false} NoMissedBudget(pdb: Selector, ws: LabelSelector, labels: LabelSet)
    requires Matches(pdb, labels) && Selects(ws, labels)
    ensures SelectorMayMatchWorkload(pdb, ws)
  {
    SelectsMeaning(ws, labels);
    forall r | r in pdb && r.key in ws.matchLabels
      ensures r.Matches(map[r.key := ws.matchLabels[r.key]])
    {
      RequirementReadsItsKey(r, labels, map[r.key := ws.matchLabels[r.key]]);
    }
  }

  /** What the heuristic decides, for all inputs: it reports the budget exactly when every single
      requirement can be met by some pod carrying the workload's equality labels. */
  lemma {:induction false} MayMatchIffEachRequirementMeetable(pdb: Selector, ws: LabelSelector)
    requires forall r :: r in pdb ==> r.Valid()
    ensures SelectorMayMatchWorkload(pdb, ws) <==>
      forall r :: r in pdb ==> exists labels :: Extends(labels, ws.matchLabels) && r.Matches(labels)
  {
    var base := ws.matchLabels;
    if SelectorMayMatchWorkload(pdb, ws) {
      forall r | r in pdb
        ensures exists labels :: Extends(labels, base) && r.Matches(labels)
      {
        if r.key in base {
          RequirementReadsItsKey(r, base, map[r.key := base[r.key]]);
          assert Extends(base, base) && r.Matches(base);
        } else {
          var labels := if Choice(r).Some? then base[r.key := Choice(r).value] else base;
          assert Extends(labels, base) && r.Matches(labels);
        }
      }
    }
    if forall r :: r in pdb ==> exists labels :: Extends(labels, base) && r.Matches(labels) {
      forall r | r in pdb && r.key in base
        ensures r.Matches(map[r.key := base[r.key]])
      {
        var labels :| Extends(labels, base) && r.Matches(labels);
        RequirementReadsItsKey(r, labels, map[r.key := base[r.key]]);
      }
    }
  }

  /** With one requirement per key and a workload selector made of equality labels, the heuristic
      is exact: it reports the budget if and only if some pod is selected by both. */
  lemma {:induction false} MayMatchExact(pdb: Selector, ws: LabelSelector)
    requires forall r :: r in pdb ==> r.Valid()
    requires OnePerKey(pdb)
    requires !ws.malformed && ws.matchExpressions == []
    ensures SelectorMayMatchWorkload(pdb, ws) <==>
      exists labels :: Matches(pdb, labels) && Selects(ws, labels)
  {
    if labels :| Matches(pdb, labels) && Selects(ws, labels) {
      NoMissedBudget(pdb, ws, labels);
    }
    if SelectorMayMatchWorkload(pdb, ws) {
      var labels := CommonLabels(pdb, ws.matchLabels);
      forall r | r in pdb
        ensures r.Matches(labels)
      {
        if r.key in ws.matchLabels {
          RequirementReadsItsKey(r, ws.matchLabels, labels);
          RequirementReadsItsKey(r, ws.matchLabels, map[r.key := ws.matchLabels[r.key]]);
        }
      }
      SelectsMeaning(ws, labels);
      assert Matches(pdb, labels) && Selects(ws, labels);
    }
  }

  /** Everything the budget and the workload ask of a pod. */
  function Both(pdb: Selector, ws: LabelSelector): Selector
    requires AsSelector(ws).Ok?
  {
    pdb + AsSelector(ws).value
  }

  /** Whether a pod common to both exists, for all selectors: the workload's is valid, and for every key
      some value, or absence, suits all requirements of both. A report is false exactly when this fails. */
  lemma {:induction false} CommonPodExactly(pdb: Selector, ws: LabelSelector)
    requires forall r :: r in pdb ==> r.Valid()
    ensures (exists labels :: Matches(pdb, labels) && Selects(ws, labels)) <==>
      AsSelector(ws).Ok? && forall key :: key in KeysOf(Both(pdb, ws)) ==> Open(Both(pdb, ws), key)
    ensures (exists labels :: Matches(pdb, labels) && Selects(ws, labels)) ==> SelectorMayMatchWorkload(pdb, ws)
  {
    if AsSelector(ws).Ok? {
      SelectsMeaning(ws, map[]);
      SatisfiableKeyByKey(Both(pdb, ws));
      assert forall labels :: Matches(Both(pdb, ws), labels) <==> Matches(pdb, labels) && Selects(ws, labels);
    }
    if labels :| Matches(pdb, labels) && Selects(ws, labels) {
      NoMissedBudget(pdb, ws, labels);
    }
  }

  /** Outside those conditions a report may be false: two requirements on one key that exclude each
      other, or a workload expression, which the heuristic never reads. */
  lemma FalseReports()
    ensures var pdb := {Requirement("tier", In, {"db"}), Requirement("tier", In, {"web"})};
      SelectorMayMatchWorkload(pdb, LabelSelector(map[], [], false)) &&
      forall labels :: !Matches(pdb, labels)
    ensures var pdb := {Requirement("tier", Exists, {})};
      var ws := LabelSelector(map[], [Expression("tier", DoesNotExist, [])], false);
      SelectorMayMatchWorkload(pdb, ws) && forall labels :: !(Matches(pdb, labels) && Selects(ws, labels))
  {
    var a, b := Requirement("tier", In, {"db"}), Requirement("tier", In, {"web"});
    var pdb := {a, b};
    forall labels ensures !Matches(pdb, labels) {
      assert "db" != "web";
      assert a in pdb && b in pdb;
    }
    var one := Requirement("tier", Exists, {});
    var e := Expression("tier", DoesNotExist, []);
    var ws := LabelSelector(map[], [e], false);
    forall labels ensures !(Matches({one}, labels) && Selects(ws, labels)) {
      assert Matches({one}, labels) ==> one.Matches(labels);
      assert e in ws.matchExpressions;
      assert AsSelector(ws).Ok?;
      SelectsMeaning(ws, labels);
    }
  }

  // ----- the scan -----

  datatype Mode = Warn | Strict | Off

  datatype Issue = Issue(subject: string, risk: bool)

  datatype Budget = Budget(name: string, disruptionsAllowed: int, selector: Option<LabelSelector>)

  function BudgetIssue(ns: string, b: Budget): Issue {
    Issue("PodDisruptionBudget/" + ns + "/" + b.name, false)
  }

  function InNamespace(ws: seq<Workload>, ns: string): seq<Workload> {
    if ws == [] then []
    else if ws[0].namespace == ns then [ws[0]] + InNamespace(ws[1..], ns)
    else InNamespace(ws[1..], ns)
  }

  lemma {:induction false} InNamespaceMembers(ws: seq<Workload>, ns: string, w: Workload)
    ensures w in InNamespace(ws, ns) <==> w in ws && w.namespace == ns
  {
    if ws != [] {
      InNamespaceMembers(ws[1..], ns, w);
      assert ws == [ws[0]] + ws[1..];
    }
  }

  /** Distinct namespaces in order of first appearance. */
  method UniqueNamespaces(ws: seq<Workload>) returns (out: seq<string>)
    ensures forall i, j :: 0 <= i < j < |out| ==> out[i] != out[j]
    ensures forall ns :: ns in out <==> exists i :: 0 <= i < |ws| && ws[i].namespace == ns
  {
    out := [];
    for i := 0 to |ws|
      invariant forall a, b :: 0 <= a < b < |out| ==> out[a] != out[b]
      invariant forall ns :: ns in out <==> exists j :: 0 <= j < i && ws[j].namespace == ns
    {
      if ws[i].namespace !in out {
        out := out + [ws[i].namespace];
      }
    }
  }

  /** A budget that allows no disruption and may cover a workload of its namespace. */
  predicate Blocking(b: Budget, ws: seq<Workload>, ns: string) {
    b.disruptionsAllowed == 0 && PdbMaySelectWorkload(b.selector, InNamespace(ws, ns))
  }

  /** On the objects: no disruption is allowed; the budget has a selector; and that is invalid, or empty, or
      for some workload of the namespace each of its requirements can be met under the workload's labels. */
  lemma {:induction false} BlockingExactly(b: Budget, ws: seq<Workload>, ns: string)
    ensures Blocking(b, ws, ns) <==>
      b.disruptionsAllowed == 0 && b.selector.Some? &&
      var sel := b.selector.value;
      AsSelector(sel).Err? || (sel.matchLabels == map[] && sel.matchExpressions == []) ||
      exists w :: w in ws && w.namespace == ns && w.selector.Some? &&
        EachMeetable(AsSelector(sel).value, w.selector.value)
  {
    if b.selector.Some? && AsSelector(b.selector.value).Ok? {
      var sel := b.selector.value;
      var reqs := AsSelector(sel).value;
      EmptyMeans(sel);
      SelectsMeaning(sel, map[]);
      forall w ensures w in InNamespace(ws, ns) <==> w in ws && w.namespace == ns {
        InNamespaceMembers(ws, ns, w);
      }
      forall w: Workload | w.selector.Some?
        ensures SelectorMayMatchWorkload(reqs, w.selector.value) <==> EachMeetable(reqs, w.selector.value)
      {
        MayMatchIffEachRequirementMeetable(reqs, w.selector.value);
      }
    }
  }

  /** For every requirement there is a pod with the workload's equality labels that meets it. */
  ghost predicate EachMeetable(pdb: Selector, ws: LabelSelector) {
    forall r :: r in pdb ==> exists labels: LabelSet ::
      (forall k :: k in ws.matchLabels ==> k in labels && labels[k] == ws.matchLabels[k]) && r.Matches(labels)
  }

  lemma EmptyMeans(sel: LabelSelector)
    requires AsSelector(sel).Ok?
    ensures AsSelector(sel).value == {} <==> sel.matchLabels == map[] && sel.matchExpressions == []
  {
    var reqs := AsSelector(sel).value;
    assert forall k :: k in sel.matchLabels ==> LabelRequirement(sel.matchLabels, k) in reqs;
    assert forall e :: e in sel.matchExpressions ==> ExpressionRequirement(e) in reqs;
    assert sel.matchExpressions != [] ==> sel.matchExpressions[0] in sel.matchExpressions;
  }

  /** The findings of one workload's inspection; None when its object could not be read. */
  type Inspection = Option<seq<Issue>>

  predicate HasRisk(inspections: seq<Inspection>) {
    exists i, j :: 0 <= i < |inspections| && inspections[i].Some? &&
                   0 <= j < |inspections[i].value| && inspections[i].value[j].risk
  }

  /** A finding about the `i`th workload: from its inspection, or from its name. */
  predicate WorkloadFinding(ws: seq<Workload>, inspections: seq<Inspection>, stateful: seq<bool>, i: int, x: Issue)
    requires |inspections| == |stateful| == |ws| && 0 <= i < |ws|
  {
    (inspections[i].Some? && x in inspections[i].value) || (stateful[i] && x == Issue(KeyOf(ws[i]), false))
  }

  /** A finding about a budget of namespace `ns`, once its first `n` budgets are read. */
  predicate BudgetFinding(ws: seq<Workload>, ns: string, listed: seq<Budget>, n: int, x: Issue)
    requires 0 <= n <= |listed|
  {
    exists b :: 0 <= b < n && Blocking(listed[b], ws, ns) && x == BudgetIssue(ns, listed[b])
  }

  type Budgets = string -> Option<seq<Budget>>

  predicate NamespaceFinding(ws: seq<Workload>, budgets: Budgets, ns: string, x: Issue) {
    budgets(ns).Some? && BudgetFinding(ws, ns, budgets(ns).value, |budgets(ns).value|, x)
  }

  /** A finding about a budget in the namespace of some workload. */
  predicate OverlapFinding(ws: seq<Workload>, budgets: Budgets, x: Issue) {
    exists i :: 0 <= i < |ws| && NamespaceFinding(ws, budgets, ws[i].namespace, x)
  }

  /** The scan over the discovered workloads. `inspections` and `budgets` are the API's answers,
      `stateful` the outcome of the name-pattern test. */
  method RunPreflight(
      mode: Mode, ws: seq<Workload>, inspections: seq<Inspection>, stateful: seq<bool>, budgets: Budgets)
    returns (issues: seq<Issue>, abort: bool)
    requires |inspections| == |stateful| == |ws|
    ensures abort <==> mode == Strict && exists i :: 0 <= i < |ws| && Troubled(inspections[i])
    ensures !abort ==> forall x :: x in issues <==>
      (exists i :: 0 <= i < |ws| && inspections[i].Some? && x in inspections[i].value) ||
      (exists i :: 0 <= i < |ws| && stateful[i] &&
        x == Issue(ws[i].kind + "/" + ws[i].namespace + "/" + ws[i].name, false)) ||
      BudgetReported(ws, budgets, x)
  {
    issues, abort := [], false;
    for i := 0 to |ws|
      invariant mode == Strict ==> None !in inspections[..i]
      invariant ScannedTo(ws, inspections, stateful, i, issues)
    {
      ghost var before := issues;
      assert inspections[..i + 1] == inspections[..i] + [inspections[i]];
      if inspections[i].None? {
        if mode == Strict {
          assert inspections[i] in inspections;
          abort := true;
          return;
        }
      } else {
        issues := issues + inspections[i].value;
      }
      if stateful[i] {
        issues := issues + [Issue(KeyOf(ws[i]), false)];
      }
      ScanStep(ws, inspections, stateful, i, before, issues);
    }
    assert inspections[..|ws|] == inspections;
    var scanned := issues;
    var namespaces := UniqueNamespaces(ws);
    issues := ScanNamespaces(ws, budgets, namespaces, scanned);
    NamespacesCovered(ws, budgets, namespaces);
    RiskyFindings(ws, inspections, stateful, scanned);
    var riskCount := CountRisks(issues);
    abort := mode == Strict && riskCount > 0;
    IssuesMean(ws, inspections, stateful, budgets, scanned, issues);
  }

  /** The object could not be inspected, or is at risk. */
  predicate Troubled(inspection: Inspection) {
    inspection.None? || exists x :: x in inspection.value && x.risk
  }

  /** The issue names a listed budget of some workload's namespace that blocks. */
  ghost predicate BudgetReported(ws: seq<Workload>, budgets: Budgets, x: Issue) {
    exists w, b :: w in ws && budgets(w.namespace).Some? && b in budgets(w.namespace).value &&
      Blocking(b, ws, w.namespace) && x == Issue("PodDisruptionBudget/" + w.namespace + "/" + b.name, false)
  }

  lemma OverlapMeans(ws: seq<Workload>, budgets: Budgets, x: Issue)
    ensures OverlapFinding(ws, budgets, x) <==> BudgetReported(ws, budgets, x)
  {
    if i :| 0 <= i < |ws| && NamespaceFinding(ws, budgets, ws[i].namespace, x) {
      var listed := budgets(ws[i].namespace).value;
      var b :| 0 <= b < |listed| && Blocking(listed[b], ws, ws[i].namespace) &&
        x == BudgetIssue(ws[i].namespace, listed[b]);
      assert ws[i] in ws && listed[b] in listed;
    }
    if BudgetReported(ws, budgets, x) {
      var w, b :| w in ws && budgets(w.namespace).Some? && b in budgets(w.namespace).value &&
        Blocking(b, ws, w.namespace) && x == Issue("PodDisruptionBudget/" + w.namespace + "/" + b.name, false);
      var listed := budgets(w.namespace).value;
      var i :| 0 <= i < |ws| && ws[i] == w;
      var n :| 0 <= n < |listed| && listed[n] == b;
      assert BudgetFinding(ws, w.namespace, listed, |listed|, x) && NamespaceFinding(ws, budgets, ws[i].namespace, x);
    }
  }

  lemma IssuesMean(ws: seq<Workload>, inspections: seq<Inspection>, stateful: seq<bool>, budgets: Budgets,
                   scanned: seq<Issue>, issues: seq<Issue>)
    requires |inspections| == |stateful| == |ws| && ScannedTo(ws, inspections, stateful, |ws|, scanned)
    requires forall x :: x in issues <==> x in scanned || OverlapFinding(ws, budgets, x)
    ensures forall x :: x in issues <==>
      (exists i :: 0 <= i < |ws| && inspections[i].Some? && x in inspections[i].value) ||
      (exists i :: 0 <= i < |ws| && stateful[i] &&
        x == Issue(ws[i].kind + "/" + ws[i].namespace + "/" + ws[i].name, false)) ||
      BudgetReported(ws, budgets, x)
  {
    forall x ensures OverlapFinding(ws, budgets, x) <==> BudgetReported(ws, budgets, x) {
      OverlapMeans(ws, budgets, x);
    }
    forall x
      ensures x in scanned <==>
        (exists i :: 0 <= i < |ws| && inspections[i].Some? && x in inspections[i].value) ||
        (exists i :: 0 <= i < |ws| && stateful[i] &&
          x == Issue(ws[i].kind + "/" + ws[i].namespace + "/" + ws[i].name, false))
    {
      if i :| 0 <= i < |ws| && inspections[i].Some? && x in inspections[i].value {
        assert WorkloadFinding(ws, inspections, stateful, i, x);
      }
      if i :| 0 <= i < |ws| && stateful[i] && x == Issue(ws[i].kind + "/" + ws[i].namespace + "/" + ws[i].name, false) {
        assert WorkloadFinding(ws, inspections, stateful, i, x);
      }
    }
  }

  /** The budgets of each namespace in turn; a namespace whose budgets cannot be listed is passed over. */
  method ScanNamespaces(ws: seq<Workload>, budgets: Budgets, namespaces: seq<string>, found: seq<Issue>)
    returns (issues: seq<Issue>)
    ensures forall x :: x in issues <==> x in found || FoundAmong(ws, budgets, namespaces, x)
  {
    issues := found;
    for n := 0 to |namespaces|
      invariant forall x :: x in issues <==>
        x in found || exists m :: 0 <= m < n && NamespaceFinding(ws, budgets, namespaces[m], x)
    {
      var ns := namespaces[n];
      if budgets(ns).Some? {
        var listed := budgets(ns).value;
        ghost var before := issues;
        for i := 0 to |listed|
          invariant forall x :: x in issues <==> x in before || BudgetFinding(ws, ns, listed, i, x)
        {
          if Blocking(listed[i], ws, ns) {
            issues := issues + [BudgetIssue(ns, listed[i])];
          }
        }
      }
    }
  }

  predicate FoundAmong(ws: seq<Workload>, budgets: Budgets, namespaces: seq<string>, x: Issue) {
    exists m :: 0 <= m < |namespaces| && NamespaceFinding(ws, budgets, namespaces[m], x)
  }

  lemma NamespacesCovered(ws: seq<Workload>, budgets: Budgets, namespaces: seq<string>)
    requires forall ns :: ns in namespaces <==> exists i :: 0 <= i < |ws| && ws[i].namespace == ns
    ensures forall x :: FoundAmong(ws, budgets, namespaces, x) <==> OverlapFinding(ws, budgets, x)
  {
    assert forall i :: 0 <= i < |ws| ==> ws[i].namespace in namespaces;
    assert forall m :: 0 <= m < |namespaces| ==> namespaces[m] in namespaces;
  }

  method CountRisks(issues: seq<Issue>) returns (count: nat)
    ensures count > 0 <==> exists x :: x in issues && x.risk
  {
    count := 0;
    for i := 0 to |issues|
      invariant count > 0 <==> exists x :: x in issues[..i] && x.risk
    {
      if issues[i].risk {
        count := count + 1;
      }
    }
    assert issues[..|issues|] == issues;
  }

  /** `found` holds the findings about the first `n` workloads and nothing else. */
  ghost predicate ScannedTo(
      ws: seq<Workload>, inspections: seq<Inspection>, stateful: seq<bool>, n: int, found: seq<Issue>)
    requires |inspections| == |stateful| == |ws| && 0 <= n <= |ws|
  {
    forall x :: x in found <==> exists i :: 0 <= i < n && WorkloadFinding(ws, inspections, stateful, i, x)
  }

  lemma ScanStep(ws: seq<Workload>, inspections: seq<Inspection>, stateful: seq<bool>, n: int,
                 before: seq<Issue>, after: seq<Issue>)
    requires |inspections| == |stateful| == |ws| && 0 <= n < |ws|
    requires ScannedTo(ws, inspections, stateful, n, before)
    requires forall x :: x in after <==> x in before || WorkloadFinding(ws, inspections, stateful, n, x)
    ensures ScannedTo(ws, inspections, stateful, n + 1, after)
  {
  }

  /** Name and budget findings are never risks, so risks come from inspections alone. */
  lemma {:induction false} RiskyFindings(
      ws: seq<Workload>, inspections: seq<Inspection>, stateful: seq<bool>, found: seq<Issue>)
    requires |inspections| == |stateful| == |ws|
    requires ScannedTo(ws, inspections, stateful, |ws|, found)
    ensures (exists x :: x in found && x.risk) <==> HasRisk(inspections)
  {
    if x :| x in found && x.risk {
      var i :| 0 <= i < |ws| && WorkloadFinding(ws, inspections, stateful, i, x);
      var j :| 0 <= j < |inspections[i].value| && inspections[i].value[j] == x;
      assert inspections[i].value[j].risk;
    }
    if HasRisk(inspections) {
      var i, j :| 0 <= i < |inspections| && inspections[i].Some? &&
                  0 <= j < |inspections[i].value| && inspections[i].value[j].risk;
      assert WorkloadFinding(ws, inspections, stateful, i, inspections[i].value[j]);
    }
  }

  /** The scan's promise stated on pods rather than on the heuristic: a budget without allowed
      disruptions that can select a pod of one of the node's workloads is blocking, and so reported. */
  lemma {:induction false} PodSelectedByBlockingBudget(
      b: Budget, ws: seq<Workload>, w: Workload, labels: LabelSet, budgets: Budgets)
    requires w in ws && w.selector.Some? && Selects(w.selector.value, labels)
    requires b.disruptionsAllowed == 0 && b.selector.Some?
    requires AsSelector(b.selector.value).Ok? ==> Selects(b.selector.value, labels)
    ensures Blocking(b, ws, w.namespace)
    ensures budgets(w.namespace).Some? && b in budgets(w.namespace).value ==>
      OverlapFinding(ws, budgets, BudgetIssue(w.namespace, b))
  {
    InNamespaceMembers(ws, w.namespace, w);
    if AsSelector(b.selector.value).Ok? {
      NoMissedBudget(AsSelector(b.selector.value).value, w.selector.value, labels);
    }
    if budgets(w.namespace).Some? && b in budgets(w.namespace).value {
      var listed := budgets(w.namespace).value;
      var n :| 0 <= n < |listed| && listed[n] == b;
      assert BudgetFinding(ws, w.namespace, listed, |listed|, BudgetIssue(w.namespace, b));
      var i :| 0 <= i < |ws| && ws[i] == w;
      assert NamespaceFinding(ws, budgets, ws[i].namespace, BudgetIssue(w.namespace, b));
    }
  }
}
