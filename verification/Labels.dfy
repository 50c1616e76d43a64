/** Label selectors with the meaning the Kubernetes API gives them. */
module Labels {
  import opened Kube

  type LabelSet = map<string, string>

  datatype Operator = In | NotIn | Exists | DoesNotExist | UnknownOperator

  datatype Expression = Expression(key: string, op: Operator, values: seq<string>)

  /** `malformed` stands for a key or value that fails the label syntax checks. */
  datatype LabelSelector = LabelSelector(
    matchLabels: LabelSet, matchExpressions: seq<Expression>, malformed: bool)

  /** One compiled requirement on a label set. */
  datatype Requirement = Requirement(key: string, op: Operator, values: set<string>) {

    predicate Matches(labels: LabelSet) {
      match op
      case In => key in labels && labels[key] in values
      case NotIn => key in labels ==> labels[key] !in values
      case Exists => key in labels
      case DoesNotExist => key !in labels
      case UnknownOperator => false
    }

    /** What requirement construction accepts: In and NotIn need values, the others forbid them. */
    predicate Valid() {
      match op
      case In => values != {}
      case NotIn => values != {}
      case Exists => values == {}
      case DoesNotExist => values == {}
      case UnknownOperator => false
    }
  }

  /** A compiled selector: the conjunction of its requirements. */
  type Selector = set<Requirement>

  predicate Matches(sel: Selector, labels: LabelSet) {
    forall r :: r in sel ==> r.Matches(labels)
  }

  /** A requirement reads one key only. */
  lemma RequirementReadsItsKey(r: Requirement, a: LabelSet, b: LabelSet)
    requires r.key in a <==> r.key in b
    requires r.key in a ==> a[r.key] == b[r.key]
    ensures r.Matches(a) <==> r.Matches(b)
  {}

  // ----- which selectors select anything -----

  function Labelled(key: string, value: Option<string>): LabelSet {
    if value.Some? then map[key := value.value] else map[]
  }

  /** Every requirement on the key accepts the value, or its absence. */
  predicate Agree(sel: Selector, key: string, value: Option<string>) {
    forall r :: r in sel && r.key == key ==> r.Matches(Labelled(key, value))
  }

  function Mentioned(sel: Selector): set<string> {
    set r, v | r in sel && v in r.values :: v
  }

  /** Some value, or absence, suits every requirement on the key. It is enough to try absence, the values
      the selector mentions, and, when nothing asks for a particular value, any other one. */
  predicate Open(sel: Selector, key: string) {
    Agree(sel, key, None) ||
    (exists v :: v in Mentioned(sel) && Agree(sel, key, Some(v))) ||
    (forall r :: r in sel && r.key == key ==> r.op.NotIn? || r.op.Exists?)
  }

  ghost function Longest(s: set<string>): (n: nat)
    ensures forall v :: v in s ==> |v| <= n
  {
    if s == {} then 0
    else
      var v :| v in s;
      var n := Longest(s - {v});
      if |v| > n then |v| else n
  }

  /** There is always one more label value. */
  lemma {:induction false} Unmentioned(s: set<string>) returns (v: string)
    ensures v !in s
  {
    v := seq(Longest(s) + 1, _ => 'x');
  }

  lemma {:induction false} OpenMeaning(sel: Selector, key: string)
    requires forall r :: r in sel ==> r.Valid()
    ensures Open(sel, key) <==> exists value: Option<string> :: Agree(sel, key, value)
  {
    if forall r :: r in sel && r.key == key ==> r.op.NotIn? || r.op.Exists? {
      var v := Unmentioned(Mentioned(sel));
      forall r | r in sel && r.key == key ensures r.Matches(Labelled(key, Some(v))) {
        assert r.op.NotIn? ==> forall x :: x in r.values ==> x in Mentioned(sel);
      }
      assert Agree(sel, key, Some(v));
    }
    if value: Option<string> :| Agree(sel, key, value) {
      if value.Some? && value.value !in Mentioned(sel) {
        forall r | r in sel && r.key == key ensures r.op.NotIn? || r.op.Exists? {
          assert r.Matches(Labelled(key, value)) && forall x :: x in r.values ==> x in Mentioned(sel);
        }
      }
    }
  }

  ghost function Suitable(sel: Selector, key: string): (value: Option<string>)
    requires exists value: Option<string> :: Agree(sel, key, value)
    ensures Agree(sel, key, value)
  {
    var value: Option<string> :| Agree(sel, key, value); value
  }

  function KeysOf(sel: Selector): set<string> {
    set r | r in sel :: r.key
  }

  /** A valid selector selects some pod exactly when every key it reads is open: keys do not interfere. */
  lemma {:induction false} SatisfiableKeyByKey(sel: Selector)
    requires forall r :: r in sel ==> r.Valid()
    ensures (exists labels :: Matches(sel, labels)) <==> forall key :: key in KeysOf(sel) ==> Open(sel, key)
  {
    forall key ensures Open(sel, key) <==> exists value: Option<string> :: Agree(sel, key, value) {
      OpenMeaning(sel, key);
    }
    if labels :| Matches(sel, labels) {
      forall key ensures Agree(sel, key, if key in labels then Some(labels[key]) else None) {
        forall r | r in sel && r.key == key
          ensures r.Matches(Labelled(key, if key in labels then Some(labels[key]) else None))
        {
          RequirementReadsItsKey(r, labels, Labelled(key, if key in labels then Some(labels[key]) else None));
        }
      }
    }
    if forall key :: key in KeysOf(sel) ==> Open(sel, key) {
      var labels := map key | key in KeysOf(sel) && Suitable(sel, key).Some? :: Suitable(sel, key).value;
      forall r | r in sel ensures r.Matches(labels) {
        assert r.key in KeysOf(sel);
        RequirementReadsItsKey(r, labels, Labelled(r.key, Suitable(sel, r.key)));
      }
      assert Matches(sel, labels);
    }
  }

  // ----- API selectors -----

  function LabelRequirement(ml: LabelSet, key: string): Requirement
    requires key in ml
  {
    Requirement(key, In, {ml[key]})
  }

  function ExpressionRequirement(e: Expression): Requirement {
    Requirement(e.key, e.op, set v | v in e.values)
  }

  /** Compiles an API selector, failing as the API machinery does on malformed input. */
  function AsSelector(sel: LabelSelector): Result<Selector, string> {
    if sel.malformed || exists e :: e in sel.matchExpressions && !ExpressionRequirement(e).Valid() then
      Err("invalid label selector")
    else
      Ok((set k | k in sel.matchLabels :: LabelRequirement(sel.matchLabels, k)) +
         (set e | e in sel.matchExpressions :: ExpressionRequirement(e)))
  }

  /** Whether an API selector is valid and selects a label set. */
  predicate Selects(sel: LabelSelector, labels: LabelSet) {
    AsSelector(sel).Ok? && Matches(AsSelector(sel).value, labels)
  }

  /** Selection read off the API object: equality labels and expressions, one by one. */
  lemma {:induction false} SelectsMeaning(sel: LabelSelector, labels: LabelSet)
    requires AsSelector(sel).Ok?
    ensures Selects(sel, labels) <==>
      (forall k :: k in sel.matchLabels ==> k in labels && labels[k] == sel.matchLabels[k]) &&
      (forall e :: e in sel.matchExpressions ==> ExpressionRequirement(e).Matches(labels))
    ensures forall r :: r in AsSelector(sel).value ==> r.Valid()
  {
    var reqs := AsSelector(sel).value;
    forall k | k in sel.matchLabels
      ensures LabelRequirement(sel.matchLabels, k) in reqs
      ensures LabelRequirement(sel.matchLabels, k).Matches(labels) <==>
        k in labels && labels[k] == sel.matchLabels[k]
    {}
    forall e | e in sel.matchExpressions
      ensures ExpressionRequirement(e) in reqs
    {}
  }

  /** The same in full, validity included: what the API documents for each operator. */
  lemma {:induction false} SelectsExactly(sel: LabelSelector, labels: LabelSet)
    ensures AsSelector(sel).Ok? <==> !sel.malformed && forall e :: e in sel.matchExpressions ==>
      ((e.op.In? || e.op.NotIn?) && e.values != []) || ((e.op.Exists? || e.op.DoesNotExist?) && e.values == [])
    ensures Selects(sel, labels) <==>
      AsSelector(sel).Ok? &&
      (forall k :: k in sel.matchLabels ==> k in labels && labels[k] == sel.matchLabels[k]) &&
      forall e :: e in sel.matchExpressions ==>
        (e.op.In? ==> e.key in labels && labels[e.key] in e.values) &&
        (e.op.NotIn? ==> e.key !in labels || labels[e.key] !in e.values) &&
        (e.op.Exists? ==> e.key in labels) &&
        (e.op.DoesNotExist? ==> e.key !in labels)
  {
    forall e | e in sel.matchExpressions
      ensures ExpressionRequirement(e).Valid() <==>
        ((e.op.In? || e.op.NotIn?) && e.values != []) || ((e.op.Exists? || e.op.DoesNotExist?) && e.values == [])
    {
      assert e.values != [] ==> e.values[0] in ExpressionRequirement(e).values;
    }
    if AsSelector(sel).Ok? {
      SelectsMeaning(sel, labels);
      forall e | e in sel.matchExpressions
        ensures ExpressionRequirement(e).Matches(labels) <==>
          (e.op.In? ==> e.key in labels && labels[e.key] in e.values) &&
          (e.op.NotIn? ==> e.key !in labels || labels[e.key] !in e.values) &&
          (e.op.Exists? ==> e.key in labels) &&
          (e.op.DoesNotExist? ==> e.key !in labels)
      {
        assert ExpressionRequirement(e).Valid();
      }
    }
  }

  const REVISION_HASH_LABEL := "controller-revision-hash"

  /** Narrows `base` to the pods of one StatefulSet revision. */
  function NewRevisionSelector(base: Option<LabelSelector>, revision: string): Option<LabelSelector> {
    if base.None? || revision == "" then base
    else Some(base.value.(matchLabels := base.value.matchLabels[REVISION_HASH_LABEL := revision]))
  }

  /** When the base does not pin the hash label to another value, the narrowed selector selects
      exactly the base's pods that carry the revision hash. */
  lemma {:induction false} NewRevisionSelectorSelects(base: LabelSelector, revision: string, labels: LabelSet)
    requires revision != ""
    requires "controller-revision-hash" in base.matchLabels ==> base.matchLabels["controller-revision-hash"] == revision
    ensures NewRevisionSelector(Some(base), revision).Some?
    ensures Selects(NewRevisionSelector(Some(base), revision).value, labels) <==>
      Selects(base, labels) && "controller-revision-hash" in labels && labels["controller-revision-hash"] == revision
  {
    var narrowed := NewRevisionSelector(Some(base), revision).value;
    if AsSelector(base).Ok? {
      SelectsMeaning(base, labels);
      SelectsMeaning(narrowed, labels);
      assert REVISION_HASH_LABEL in narrowed.matchLabels;
      assert forall k :: k in base.matchLabels ==>
        k in narrowed.matchLabels && narrowed.matchLabels[k] == base.matchLabels[k];
    }
  }

  function Narrowed(base: LabelSelector, revision: string): LabelSelector
    requires revision != ""
  {
    NewRevisionSelector(Some(base), revision).value
  }

  /** The base pins the hash label to another revision. */
  predicate PinsAnother(base: LabelSelector, revision: string) {
    REVISION_HASH_LABEL in base.matchLabels && base.matchLabels[REVISION_HASH_LABEL] != revision
  }

  /** The selector reads a key for which no value suits all its requirements. */
  predicate SelectsNothing(sel: LabelSelector) {
    AsSelector(sel).Err? || exists key :: key in KeysOf(AsSelector(sel).value) && !Open(AsSelector(sel).value, key)
  }

  lemma SelectsNothingMeaning(sel: LabelSelector)
    ensures SelectsNothing(sel) <==> forall labels :: !Selects(sel, labels)
  {
    if AsSelector(sel).Ok? {
      SelectsMeaning(sel, map[]);
      SatisfiableKeyByKey(AsSelector(sel).value);
      assert forall labels :: Selects(sel, labels) <==> Matches(AsSelector(sel).value, labels);
    }
  }

  /** Exactly when the narrowed selector keeps that promise, for every base: the base does not pin the
      label to another revision, whose value would be overwritten, or the result selects nothing anyway. */
  lemma {:induction false} NewRevisionSelectorExactlyWhen(base: LabelSelector, revision: string)
    requires revision != ""
    ensures
      (forall labels ::
        Selects(Narrowed(base, revision), labels) <==>
        Selects(base, labels) && REVISION_HASH_LABEL in labels && labels[REVISION_HASH_LABEL] == revision)
      <==>
      !PinsAnother(base, revision) || SelectsNothing(Narrowed(base, revision))
  {
    var narrowed := Narrowed(base, revision);
    if PinsAnother(base, revision) {
      SelectsNothingMeaning(narrowed);
      forall labels
        ensures !(Selects(base, labels) && REVISION_HASH_LABEL in labels && labels[REVISION_HASH_LABEL] == revision)
      {
        if AsSelector(base).Ok? {
          SelectsMeaning(base, labels);
        }
      }
    } else {
      forall labels
        ensures Selects(narrowed, labels) <==>
          Selects(base, labels) && REVISION_HASH_LABEL in labels && labels[REVISION_HASH_LABEL] == revision
      {
        NewRevisionSelectorSelects(base, revision, labels);
      }
    }
  }
}
