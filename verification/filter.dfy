/** The filter/projector of `filterDataor`: one left-to-right `reduce` over
    the validated records that keeps a record when `item.drm &&
    item.episodeCount > 0` and pushes `{image: item.image.showImage, slug,
    title}` for it. Reading `item.image.showImage` on a kept record that has
    no `image` throws a TypeError in JavaScript, which ends the reduce; the
    model returns that as an explicit fault instead of inventing a value. */
module Filter {
  import opened Wrappers
  import opened Json
  import opened ShowSchema

  /** One element of the response: exactly the three fields. */
  datatype Projected = Projected(image: string, slug: string, title: string)

  /** The TypeError thrown by `item.image.showImage` when record `record`
      has no `image`. */
  datatype Fault = ImageUndefined(record: nat)

  /** `item.drm && item.episodeCount > 0`, read on a record that passed the
      schema, where `drm` is a boolean or absent (`undefined`, falsy) and
      `episodeCount` an integer or absent (`undefined > 0` is false). */
  predicate Qualifies(item: Value)
  {
    && item.Obj?
    && Get(item.members, "drm") == Some(Bool(true))
    && match Get(item.members, "episodeCount")
       case Some(Num(Int(n))) => n > 0
       case _ => false
  }

  /** `item.image` is not `undefined`. */
  predicate HasImage(item: Value)
  {
    item.Obj? && Get(item.members, "image").Some?
  }

  /** `p` is the projection of `item`: its slug, its title and its
      `image.showImage`. */
  predicate ProjectionOf(p: Projected, item: Value)
  {
    && item.Obj?
    && Get(item.members, "slug") == Some(Str(p.slug))
    && Get(item.members, "title") == Some(Str(p.title))
    && Get(item.members, "image").Some?
    && Get(item.members, "image").value.Obj?
    && Get(Get(item.members, "image").value.members, "showImage") == Some(Str(p.image))
  }

  /** The object literal pushed for a kept record. */
  function Project(item: Value): (p: Projected)
    requires ValidShow(item) && HasImage(item)
    ensures ProjectionOf(p, item)
  {
    ShowTexts(item);
    ShowImageField(item);
    var img := Get(item.members, "image").value;
    Projected(
      Get(img.members, "showImage").value.s,
      Get(item.members, "slug").value.s,
      Get(item.members, "title").value.s)
  }

  /** Every record passed the schema, which is the only way the reduce is
      reached. */
  predicate AllValid(items: seq<Value>)
  {
    forall i :: 0 <= i < |items| ==> ValidShow(items[i])
  }

  /** The positions of the records the filter keeps, in increasing order:
      every position listed qualifies, and every qualifying one is listed. */
  function Kept(items: seq<Value>): (idx: seq<nat>)
    ensures |idx| <= |items|
    ensures forall k :: 0 <= k < |idx| ==> idx[k] < |items| && Qualifies(items[idx[k]])
    ensures forall j, k :: 0 <= j < k < |idx| ==> idx[j] < idx[k]
    ensures forall i :: 0 <= i < |items| && Qualifies(items[i]) ==> i in idx
  {
    if |items| == 0 then []
    else
      var n := |items| - 1;
      Kept(items[..n]) + (if Qualifies(items[n]) then [n] else [])
  }

  /** The `reduce` of lines 130-139 over validated records. It fails exactly
      when some kept record has no `image`, and then at the first such
      record; what it returns otherwise is stated by `SelectProjects`. */
  function Select(items: seq<Value>): (r: Result<seq<Projected>, Fault>)
    requires AllValid(items)
    ensures r.Success? <==> forall i :: 0 <= i < |items| && Qualifies(items[i]) ==> HasImage(items[i])
    ensures r.Failure? ==>
      && r.error.record < |items|
      && Qualifies(items[r.error.record]) && !HasImage(items[r.error.record])
      && forall j :: 0 <= j < r.error.record ==> !(Qualifies(items[j]) && !HasImage(items[j]))
  {
    if |items| == 0 then Success([])
    else
      var n := |items| - 1;
      var front := items[..n];
      assert forall i :: 0 <= i < n ==> front[i] == items[i];
      match Select(front)
      case Failure(f) => Failure(f)
      case Success(out) =>
        if !Qualifies(items[n]) then Success(out)
        else if !HasImage(items[n]) then Failure(ImageUndefined(n))
        else Success(out + [Project(items[n])])
  }

  /** On success the k-th output element is the projection of the k-th
      kept record: the output is the projected subsequence of the input,
      in input order, one element per kept record. */
  lemma {:induction false} SelectProjects(items: seq<Value>)
    requires AllValid(items)
    requires Select(items).Success?
    ensures |Select(items).value| == |Kept(items)|
    ensures forall k :: 0 <= k < |Kept(items)| ==> ProjectionOf(Select(items).value[k], items[Kept(items)[k]])
  {
    if |items| > 0 {
      var n := |items| - 1;
      var front := items[..n];
      assert forall i :: 0 <= i < n ==> front[i] == items[i];
      SelectProjects(front);
      var out := Select(front).value;
      var tail := if Qualifies(items[n]) then [Project(items[n])] else [];
      assert Select(items).value == out + tail;
      assert Kept(items) == Kept(front) + (if Qualifies(items[n]) then [n] else []);
      forall k | 0 <= k < |Kept(items)|
        ensures ProjectionOf(Select(items).value[k], items[Kept(items)[k]])
      {
        if k < |Kept(front)| {
          assert Select(items).value[k] == out[k];
          assert Kept(items)[k] == Kept(front)[k];
          assert items[Kept(front)[k]] == front[Kept(front)[k]];
        }
      }
    }
  }
}
