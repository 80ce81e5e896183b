/** The request schema of `sendDataValidator`, written as data (one property
    table per object level, as the source declares it) together with its
    meaning: `Conforms` says when a JSON value satisfies a part of the
    schema. This declarative reading is the reference that the
    violation-collecting validator is proved against. */
module ShowSchema {
  import opened Wrappers
  import opened Json

  /** The primitive property schemas the request schema uses. */
  datatype Leaf =
    | Text        // type: 'string'
    | TextOrNull  // type: ['string', 'null']
    | Flag        // type: 'boolean'
    | Count       // type: 'integer', minimum: 0

  /** The schema of one property value. */
  datatype Shape =
    | Prim(kind: Leaf)
    | ImageObject        // closed object, see ImageProperties
    | NextEpisodeObject  // null, or closed object, see NextEpisodeProperties
    | SeasonList         // null, or array of closed objects, see SeasonProperties
    | ShowList           // array of at least one closed object, see ShowProperties

  /** A declared property of a closed object. */
  datatype Property = Property(key: string, shape: Shape, required: bool)

  /** The top-level object: `payload` is required, the rest optional. */
  const EnvelopeProperties: seq<Property> := [
    Property("payload", ShowList, true),
    Property("skip", Prim(Count), false),
    Property("take", Prim(Count), false),
    Property("totalRecords", Prim(Count), false)
  ]

  /** One show record, an item of `payload`, in declaration order. */
  const ShowProperties: seq<Property> := [
    Property("slug", Prim(Text), true),
    Property("title", Prim(Text), true),
    Property("tvChannel", Prim(Text), true),
    Property("country", Prim(Text), false),
    Property("description", Prim(Text), false),
    Property("drm", Prim(Flag), false),
    Property("episodeCount", Prim(Count), false),
    Property("genre", Prim(Text), false),
    Property("language", Prim(Text), false),
    Property("nextEpisode", NextEpisodeObject, false),
    Property("seasons", SeasonList, false),
    Property("image", ImageObject, false),
    Property("primaryColour", Prim(Text), false)
  ]

  const NextEpisodeProperties: seq<Property> := [
    Property("channel", Prim(TextOrNull), false),
    Property("channelLogo", Prim(Text), false),
    Property("date", Prim(TextOrNull), false),
    Property("html", Prim(Text), false),
    Property("url", Prim(Text), false)
  ]

  const SeasonProperties: seq<Property> := [Property("slug", Prim(Text), true)]

  const ImageProperties: seq<Property> := [Property("showImage", Prim(Text), true)]

  /** Whether a property table declares `key`. */
  predicate Declares(props: seq<Property>, key: string)
  {
    |props| > 0 && (props[0].key == key || Declares(props[1..], key))
  }

  predicate IsInteger(v: Value)
  {
    v.Num? && v.n.Int?
  }

  predicate LeafOk(kind: Leaf, v: Value)
  {
    match kind
    case Text => v.Str?
    case TextOrNull => v.Str? || v.Null?
    case Flag => v.Bool?
    case Count => IsInteger(v) && v.n.value >= 0
  }

  /** A table declares a key exactly when one of its entries has that key. */
  lemma {:induction false} DeclaresSome(props: seq<Property>, key: string)
    ensures Declares(props, key) <==> exists i :: 0 <= i < |props| && props[i].key == key
  {
    if |props| > 0 {
      DeclaresSome(props[1..], key);
      if Declares(props[1..], key) {
        var i :| 0 <= i < |props| - 1 && props[1..][i].key == key;
        assert props[i + 1].key == key;
      }
    }
  }

  /** `additionalProperties: false`: every key is a declared one. */
  predicate Closed(ms: seq<Member>, props: seq<Property>)
  {
    forall m :: m in ms ==> Declares(props, m.key)
  }

  predicate Conforms(shape: Shape, v: Value)
    decreases v, 2, 0
  {
    match shape
    case Prim(kind) => LeafOk(kind, v)
    case ImageObject => ObjectOk(ImageProperties, v)
    case NextEpisodeObject => v.Null? || ObjectOk(NextEpisodeProperties, v)
    case SeasonList =>
      || v.Null?
      || (v.Arr? && forall i :: 0 <= i < |v.items| ==> ObjectOk(SeasonProperties, v.items[i]))
    case ShowList =>
      && v.Arr?
      && 1 <= |v.items|
      && forall i :: 0 <= i < |v.items| ==> ObjectOk(ShowProperties, v.items[i])
  }

  /** A closed object all of whose declared properties are acceptable. */
  predicate ObjectOk(props: seq<Property>, v: Value)
    decreases v, 1, 0
  {
    && v.Obj?
    && Closed(v.members, props)
    && forall k :: 0 <= k < |props| ==> PropertyOk(props[k], v)
  }

  /** A declared property: absent and not required, or present and conforming. */
  predicate PropertyOk(p: Property, v: Value)
    requires v.Obj?
    decreases v, 0, 0
  {
    match Get(v.members, p.key)
    case None => !p.required
    case Some(x) =>
      GetFound(v.members, p.key);
      Conforms(p.shape, x)
  }

  predicate ValidShow(v: Value)
  {
    ObjectOk(ShowProperties, v)
  }

  predicate ValidEnvelope(v: Value)
  {
    ObjectOk(EnvelopeProperties, v)
  }

  /** A declared property of a valid object: absent only if optional,
      conforming to its schema if present. */
  lemma DeclaredProperty(props: seq<Property>, v: Value, k: nat)
    requires ObjectOk(props, v) && k < |props|
    ensures PropertyOk(props[k], v)
  {
  }

  /** What a record that passed the schema guarantees to whoever reads it:
      the three required strings are there. */
  lemma ShowTexts(item: Value)
    requires ValidShow(item)
    ensures item.Obj?
    ensures Get(item.members, "slug").Some? && Get(item.members, "slug").value.Str?
    ensures Get(item.members, "title").Some? && Get(item.members, "title").value.Str?
    ensures Get(item.members, "tvChannel").Some? && Get(item.members, "tvChannel").value.Str?
  {
    assert ShowProperties[0] == Property("slug", Prim(Text), true);
    DeclaredProperty(ShowProperties, item, 0);
    assert ShowProperties[1] == Property("title", Prim(Text), true);
    DeclaredProperty(ShowProperties, item, 1);
    assert ShowProperties[2] == Property("tvChannel", Prim(Text), true);
    DeclaredProperty(ShowProperties, item, 2);
  }

  /** ... and `drm`, when present, is a boolean ... */
  lemma ShowDrm(item: Value)
    requires ValidShow(item)
    ensures Get(item.members, "drm").None? || Get(item.members, "drm").value.Bool?
  {
    assert ShowProperties[5] == Property("drm", Prim(Flag), false);
    DeclaredProperty(ShowProperties, item, 5);
  }

  /** ... and `episodeCount`, when present, a non-negative integer ... */
  lemma ShowEpisodeCount(item: Value)
    requires ValidShow(item)
    ensures Get(item.members, "episodeCount").None? ||
      (IsInteger(Get(item.members, "episodeCount").value) && Get(item.members, "episodeCount").value.n.value >= 0)
  {
    assert ShowProperties[6] == Property("episodeCount", Prim(Count), false);
    DeclaredProperty(ShowProperties, item, 6);
  }

  /** ... and `image`, when present, holds the string `showImage`. */
  lemma ShowImageField(item: Value)
    requires ValidShow(item) && Get(item.members, "image").Some?
    ensures Get(item.members, "image").value.Obj?
    ensures Get(Get(item.members, "image").value.members, "showImage").Some?
    ensures Get(Get(item.members, "image").value.members, "showImage").value.Str?
  {
    assert ShowProperties[11] == Property("image", ImageObject, false);
    DeclaredProperty(ShowProperties, item, 11);
    var img := Get(item.members, "image").value;
    assert ImageProperties[0] == Property("showImage", Prim(Text), true);
    DeclaredProperty(ImageProperties, img, 0);
  }
}
