/** The validator: collects every violation of the request schema, in the
    order ajv evaluates the schema. At each object it checks the type, then
    looks for undeclared keys in the object's key order, then visits the declared
    properties in declaration order, reporting a missing required property
    at its turn; array items are visited by index. ajv in its default mode
    stops at the first violation, so the head of the list is the error ajv
    reports; the body is accepted exactly when the list is empty. */
module Validator {
  import opened Wrappers
  import opened Json
  import opened Report
  import opened ShowSchema

  function LeafViolations(kind: Leaf, v: Value, path: Path): (r: seq<Violation>)
    ensures r == [] <==> LeafOk(kind, v)
    ensures forall x :: x in r ==> x.path == path
    ensures kind == Count && !IsInteger(v) ==> r == [Violation(Type, path)]
    ensures kind == Count && IsInteger(v) && v.n.value < 0 ==> r == [Violation(Minimum, path)]
  {
    match kind
    case Text => if v.Str? then [] else [Violation(Type, path)]
    case TextOrNull => if v.Str? || v.Null? then [] else [Violation(Type, path)]
    case Flag => if v.Bool? then [] else [Violation(Type, path)]
    case Count =>
      if !IsInteger(v) then [Violation(Type, path)]
      else if v.n.value < 0 then [Violation(Minimum, path)]
      else []
  }

  /** `additionalProperties: false`: one violation per undeclared key. */
  function Additional(ms: seq<Member>, props: seq<Property>, path: Path): (r: seq<Violation>)
    ensures r == [] <==> Closed(ms, props)
    ensures forall m :: m in ms && !Declares(props, m.key) ==> Violation(AdditionalProperties(m.key), path) in r
    ensures forall x :: x in r ==> x.path == path && x.keyword.AdditionalProperties? && !Declares(props, x.keyword.extra)
  {
    if |ms| == 0 then []
    else
      assert ms == [ms[0]] + ms[1..];
      (if Declares(props, ms[0].key) then [] else [Violation(AdditionalProperties(ms[0].key), path)])
      + Additional(ms[1..], props, path)
  }

  /** The violations of a value against one property schema. */
  function ShapeViolations(shape: Shape, v: Value, path: Path): (r: seq<Violation>)
    ensures r == [] <==> Conforms(shape, v)
    ensures v.Null? ==> (r == [] <==> shape in {NextEpisodeObject, SeasonList, Prim(TextOrNull)})
    decreases v, 2, 0
  {
    match shape
    case Prim(kind) => LeafViolations(kind, v, path)
    case ImageObject => ObjectViolations(ImageProperties, v, path)
    case NextEpisodeObject =>
      if v.Null? then [] else ObjectViolations(NextEpisodeProperties, v, path)
    case SeasonList =>
      if v.Null? then []
      else if !v.Arr? then [Violation(Type, path)]
      else ItemViolations(SeasonProperties, v, |v.items|, path)
    case ShowList =>
      if !v.Arr? then [Violation(Type, path)]
      else
        (if |v.items| < 1 then [Violation(MinItems, path)] else [])
        + ItemViolations(ShowProperties, v, |v.items|, path)
  }

  /** The first `n` items of an array, each an object of the given table,
      each at its own index. */
  function ItemViolations(props: seq<Property>, v: Value, n: nat, path: Path): (r: seq<Violation>)
    requires v.Arr? && n <= |v.items|
    ensures r == [] <==> forall i :: 0 <= i < n ==> ObjectOk(props, v.items[i])
    decreases v, 1, n
  {
    if n == 0 then []
    else ItemViolations(props, v, n - 1, path) + ObjectViolations(props, v.items[n - 1], path + [Index(n - 1)])
  }

  /** Every violation of item `i` is among those of the first `n` items. */
  lemma {:induction false} ItemViolationsInclude(props: seq<Property>, v: Value, n: nat, path: Path, i: nat)
    requires v.Arr? && i < n <= |v.items|
    ensures forall x :: x in ObjectViolations(props, v.items[i], path + [Index(i)]) ==> x in ItemViolations(props, v, n, path)
    decreases n
  {
    if i < n - 1 {
      ItemViolationsInclude(props, v, n - 1, path, i);
    }
  }

  /** One closed object: its type, its undeclared keys, then its declared
      properties in order. */
  function ObjectViolations(props: seq<Property>, v: Value, path: Path): (r: seq<Violation>)
    ensures r == [] <==> ObjectOk(props, v)
    ensures !v.Obj? ==> r == [Violation(Type, path)]
    ensures v.Obj? ==> forall m :: m in v.members && !Declares(props, m.key) ==>
      Violation(AdditionalProperties(m.key), path) in r
    decreases v, 1, 0
  {
    if !v.Obj? then [Violation(Type, path)]
    else Additional(v.members, props, path) + PropertyViolations(props, |props|, v, path)
  }

  /** The first `n` declared properties of an object. */
  function PropertyViolations(props: seq<Property>, n: nat, v: Value, path: Path): (r: seq<Violation>)
    requires v.Obj? && n <= |props|
    ensures r == [] <==> forall k :: 0 <= k < n ==> PropertyOk(props[k], v)
    decreases v, 0, n
  {
    if n == 0 then []
    else PropertyViolations(props, n - 1, v, path) + OnePropertyViolations(props[n - 1], v, path)
  }

  /** One declared property: a `required` violation at the object when it is
      absent but required, the violations of its value when present. */
  function OnePropertyViolations(p: Property, v: Value, path: Path): (r: seq<Violation>)
    requires v.Obj?
    ensures r == [] <==> PropertyOk(p, v)
    ensures Get(v.members, p.key).None? ==> (r == [] <==> !p.required)
    ensures Get(v.members, p.key).None? && p.required ==> r == [Violation(Required(p.key), path)]
    decreases v, 0, 0
  {
    match Get(v.members, p.key)
    case None => if p.required then [Violation(Required(p.key), path)] else []
    case Some(x) =>
      GetFound(v.members, p.key);
      ShapeViolations(p.shape, x, path + [Key(p.key)])
  }

  /** The violations of the `k`-th declared property are among those of the
      first `n`. */
  lemma {:induction false} PropertyViolationsInclude(props: seq<Property>, n: nat, v: Value, path: Path, k: nat)
    requires v.Obj? && k < n <= |props|
    ensures forall x :: x in OnePropertyViolations(props[k], v, path) ==> x in PropertyViolations(props, n, v, path)
    decreases n
  {
    if k < n - 1 {
      PropertyViolationsInclude(props, n - 1, v, path, k);
    }
  }

  /** The violations of the `k`-th declared property are among those of the
      whole object. */
  lemma ObjectIncludesProperty(props: seq<Property>, v: Value, path: Path, k: nat)
    requires v.Obj? && k < |props|
    ensures forall x :: x in OnePropertyViolations(props[k], v, path) ==> x in ObjectViolations(props, v, path)
  {
    PropertyViolationsInclude(props, |props|, v, path, k);
  }

  /** A present property's value violations are violations of its object. */
  lemma PresentPropertyIncluded(props: seq<Property>, v: Value, path: Path, k: nat)
    requires v.Obj? && k < |props| && Get(v.members, props[k].key).Some?
    ensures forall x :: x in ShapeViolations(props[k].shape, Get(v.members, props[k].key).value, path + [Key(props[k].key)]) ==>
      x in ObjectViolations(props, v, path)
  {
    ObjectIncludesProperty(props, v, path, k);
  }

  /** A required property that is absent is reported at its object. */
  lemma AbsentPropertyIncluded(props: seq<Property>, v: Value, path: Path, k: nat)
    requires v.Obj? && k < |props| && Get(v.members, props[k].key).None? && props[k].required
    ensures Violation(Required(props[k].key), path) in ObjectViolations(props, v, path)
  {
    ObjectIncludesProperty(props, v, path, k);
  }

  /** The first undeclared key, in the object's key order, is the first
      `additionalProperties` violation reported. */
  lemma {:induction false} FirstUndeclaredKey(ms: seq<Member>, props: seq<Property>, path: Path, i: nat)
    requires i < |ms|
    requires forall j :: 0 <= j < i ==> Declares(props, ms[j].key)
    requires !Declares(props, ms[i].key)
    ensures Additional(ms, props, path) != []
    ensures Additional(ms, props, path)[0] == Violation(AdditionalProperties(ms[i].key), path)
  {
    if i > 0 {
      FirstUndeclaredKey(ms[1..], props, path, i - 1);
    }
  }

  /** A closed object reports its properties first, an open one its first
      undeclared key. */
  lemma FirstObjectViolation(props: seq<Property>, v: Value, path: Path)
    requires v.Obj?
    ensures Closed(v.members, props) ==> ObjectViolations(props, v, path) == PropertyViolations(props, |props|, v, path)
    ensures !Closed(v.members, props) ==> ObjectViolations(props, v, path)[0] == Additional(v.members, props, path)[0]
  {
  }

  /** The first violation among the declared properties is the first
      violation of the first property that fails. */
  lemma {:induction false} FirstFailingProperty(props: seq<Property>, n: nat, v: Value, path: Path, k: nat)
    requires v.Obj? && k < n <= |props|
    requires forall j :: 0 <= j < k ==> PropertyOk(props[j], v)
    requires !PropertyOk(props[k], v)
    ensures PropertyViolations(props, n, v, path) != []
    ensures PropertyViolations(props, n, v, path)[0] == OnePropertyViolations(props[k], v, path)[0]
    decreases n
  {
    if k < n - 1 {
      FirstFailingProperty(props, n - 1, v, path, k);
    }
  }

  /** In an object whose keys are all declared, the first violation is
      the first violation of the first declared property that fails. */
  lemma FirstFailingMember(props: seq<Property>, v: Value, path: Path, k: nat)
    requires v.Obj? && k < |props| && Closed(v.members, props)
    requires forall j :: 0 <= j < k ==> PropertyOk(props[j], v)
    requires !PropertyOk(props[k], v)
    ensures ObjectViolations(props, v, path) != []
    ensures ObjectViolations(props, v, path)[0] == OnePropertyViolations(props[k], v, path)[0]
  {
    FirstFailingProperty(props, |props|, v, path, k);
  }

  /** The first violation among array items is the first violation of the
      first item that fails. */
  lemma {:induction false} FirstFailingItem(props: seq<Property>, v: Value, n: nat, path: Path, i: nat)
    requires v.Arr? && i < n <= |v.items|
    requires forall j :: 0 <= j < i ==> ObjectOk(props, v.items[j])
    requires !ObjectOk(props, v.items[i])
    ensures ItemViolations(props, v, n, path) != []
    ensures ItemViolations(props, v, n, path)[0] == ObjectViolations(props, v.items[i], path + [Index(i)])[0]
    decreases n
  {
    if i < n - 1 {
      FirstFailingItem(props, v, n - 1, path, i);
    }
  }

  /** How each nested property schema reports. */
  lemma ShapeCases(v: Value, path: Path)
    ensures !v.Arr? ==> ShapeViolations(ShowList, v, path) == [Violation(Type, path)]
    ensures v.Arr? ==> ShapeViolations(ShowList, v, path)
                       == (if |v.items| < 1 then [Violation(MinItems, path)] else [])
                          + ItemViolations(ShowProperties, v, |v.items|, path)
    ensures v.Arr? ==> ShapeViolations(SeasonList, v, path) == ItemViolations(SeasonProperties, v, |v.items|, path)
    ensures ShapeViolations(ImageObject, v, path) == ObjectViolations(ImageProperties, v, path)
    ensures v.Obj? ==> ShapeViolations(NextEpisodeObject, v, path) == ObjectViolations(NextEpisodeProperties, v, path)
  {
  }

  /** `sendDataValidator(params)`: every violation of the request schema. */
  function Violations(body: Value): (r: seq<Violation>)
    ensures r == [] <==> ValidEnvelope(body)
    ensures !body.Obj? ==> r == [Violation(Type, [])]
  {
    ObjectViolations(EnvelopeProperties, body, [])
  }
}
