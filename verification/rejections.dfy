/** Where the validator reports what. For the common ways a record or the
    top level breaks the schema, the exact violation (keyword and path)
    that the validator is sure to produce; for any other record property
    that is present but breaks its schema, a non-empty list of violations
    under `.payload[i].<key>`. A body with any of them is rejected, since
    the validator accepts exactly the bodies without violations. (A body
    that is not an object is covered by `Validator.Violations`.) */
module Rejections {
  import opened Wrappers
  import opened Json
  import opened Report
  import opened ShowSchema
  import opened Validator

  /** `.payload[i]` */
  function RecordPath(i: nat): (p: Path)
  {
    [Key("payload"), Index(i)]
  }

  /** The keys each object level declares. */
  lemma EnvelopeKeys(k: string)
    ensures Declares(EnvelopeProperties, k) <==> k in {"payload", "skip", "take", "totalRecords"}
  {
    DeclaresSome(EnvelopeProperties, k);
  }

  lemma ShowKeys(k: string)
    ensures Declares(ShowProperties, k) <==>
      k in {"slug", "title", "tvChannel", "country", "description", "drm", "episodeCount",
            "genre", "language", "nextEpisode", "seasons", "image", "primaryColour"}
  {
    DeclaresSome(ShowProperties, k);
    if Declares(ShowProperties, k) {
      var i :| 0 <= i < |ShowProperties| && ShowProperties[i].key == k;
      if i < 4 {
        assert i == 0 || i == 1 || i == 2 || i == 3;
      } else if i < 8 {
        assert i == 4 || i == 5 || i == 6 || i == 7;
      } else {
        assert i == 8 || i == 9 || i == 10 || i == 11 || i == 12;
      }
    }
  }

  lemma NextEpisodeKeys(k: string)
    ensures Declares(NextEpisodeProperties, k) <==> k in {"channel", "channelLogo", "date", "html", "url"}
  {
    DeclaresSome(NextEpisodeProperties, k);
  }

  lemma SeasonKeys(k: string)
    ensures Declares(SeasonProperties, k) <==> k == "slug"
  {
    DeclaresSome(SeasonProperties, k);
  }

  lemma ImageKeys(k: string)
    ensures Declares(ImageProperties, k) <==> k == "showImage"
  {
    DeclaresSome(ImageProperties, k);
  }

  /** The violations of record `item` at `path` that concern one of its
      nested objects. */
  lemma ImageIncluded(item: Value, path: Path)
    requires item.Obj? && Get(item.members, "image").Some? && Get(item.members, "image").value.Obj?
    ensures var img := Get(item.members, "image").value;
      && (forall m :: m in img.members && m.key != "showImage" ==>
            Violation(AdditionalProperties(m.key), path + [Key("image")]) in ObjectViolations(ShowProperties, item, path))
      && (Get(img.members, "showImage").None? ==>
            Violation(Required("showImage"), path + [Key("image")]) in ObjectViolations(ShowProperties, item, path))
  {
    var img := Get(item.members, "image").value;
    var at := path + [Key("image")];
    assert ShowProperties[11] == Property("image", ImageObject, false);
    PresentPropertyIncluded(ShowProperties, item, path, 11);
    ShapeCases(img, at);
    forall m | m in img.members && m.key != "showImage"
      ensures Violation(AdditionalProperties(m.key), at) in ObjectViolations(ImageProperties, img, at)
    {
      ImageKeys(m.key);
    }
    if Get(img.members, "showImage").None? {
      assert ImageProperties[0] == Property("showImage", Prim(Text), true);
      AbsentPropertyIncluded(ImageProperties, img, at, 0);
    }
  }

  lemma NextEpisodeIncluded(item: Value, path: Path, m: Member)
    requires item.Obj? && Get(item.members, "nextEpisode").Some? && Get(item.members, "nextEpisode").value.Obj?
    requires m in Get(item.members, "nextEpisode").value.members
    requires m.key !in {"channel", "channelLogo", "date", "html", "url"}
    ensures Violation(AdditionalProperties(m.key), path + [Key("nextEpisode")]) in ObjectViolations(ShowProperties, item, path)
  {
    var next := Get(item.members, "nextEpisode").value;
    var at := path + [Key("nextEpisode")];
    assert ShowProperties[9] == Property("nextEpisode", NextEpisodeObject, false);
    PresentPropertyIncluded(ShowProperties, item, path, 9);
    ShapeCases(next, at);
    NextEpisodeKeys(m.key);
  }

  lemma SeasonIncluded(item: Value, path: Path, j: nat)
    requires item.Obj? && Get(item.members, "seasons").Some? && Get(item.members, "seasons").value.Arr?
    requires j < |Get(item.members, "seasons").value.items|
    requires Get(item.members, "seasons").value.items[j].Obj?
    ensures var season := Get(item.members, "seasons").value.items[j];
      var at := path + [Key("seasons"), Index(j)];
      && (forall m :: m in season.members && m.key != "slug" ==>
            Violation(AdditionalProperties(m.key), at) in ObjectViolations(ShowProperties, item, path))
      && (Get(season.members, "slug").None? ==>
            Violation(Required("slug"), at) in ObjectViolations(ShowProperties, item, path))
  {
    var seasons := Get(item.members, "seasons").value;
    var list := path + [Key("seasons")];
    var at := path + [Key("seasons"), Index(j)];
    assert list + [Index(j)] == at;
    assert ShowProperties[10] == Property("seasons", SeasonList, false);
    PresentPropertyIncluded(ShowProperties, item, path, 10);
    ShapeCases(seasons, list);
    ItemViolationsInclude(SeasonProperties, seasons, |seasons.items|, list, j);
    forall m | m in seasons.items[j].members && m.key != "slug"
      ensures Violation(AdditionalProperties(m.key), at) in ObjectViolations(SeasonProperties, seasons.items[j], at)
    {
      SeasonKeys(m.key);
    }
    if Get(seasons.items[j].members, "slug").None? {
      assert SeasonProperties[0] == Property("slug", Prim(Text), true);
      AbsentPropertyIncluded(SeasonProperties, seasons.items[j], at, 0);
    }
  }

  /** Every violation of record `i` is a violation of the body. */
  lemma RecordIncluded(body: Value, i: nat)
    requires body.Obj?
    requires Get(body.members, "payload").Some? && Get(body.members, "payload").value.Arr?
    requires i < |Get(body.members, "payload").value.items|
    ensures forall x :: x in ObjectViolations(ShowProperties, Get(body.members, "payload").value.items[i], RecordPath(i)) ==>
      x in Violations(body)
  {
    var p := Get(body.members, "payload").value;
    assert EnvelopeProperties[0] == Property("payload", ShowList, true);
    assert [] + [Key("payload")] == [Key("payload")];
    PresentPropertyIncluded(EnvelopeProperties, body, [], 0);
    ShapeCases(p, [Key("payload")]);
    ItemViolationsInclude(ShowProperties, p, |p.items|, [Key("payload")], i);
    assert [Key("payload")] + [Index(i)] == RecordPath(i);
    assert Violations(body) == ObjectViolations(EnvelopeProperties, body, []);
  }

  /** A top-level key outside `payload`, `skip`, `take`, `totalRecords`. */
  lemma ExtraTopLevelKeyRejected(body: Value, m: Member)
    requires body.Obj? && m in body.members
    requires m.key !in {"payload", "skip", "take", "totalRecords"}
    ensures Violation(AdditionalProperties(m.key), []) in Violations(body)
  {
    EnvelopeKeys(m.key);
    assert Violations(body) == ObjectViolations(EnvelopeProperties, body, []);
  }

  /** No `payload`, a `payload` that is no array, or an empty one. */
  lemma PayloadRejected(body: Value)
    requires body.Obj?
    ensures Get(body.members, "payload").None? ==> Violation(Required("payload"), []) in Violations(body)
    ensures Get(body.members, "payload").Some? && !Get(body.members, "payload").value.Arr? ==>
      Violation(Type, [Key("payload")]) in Violations(body)
    ensures Get(body.members, "payload") == Some(Arr([])) ==>
      Violation(MinItems, [Key("payload")]) in Violations(body)
  {
    assert EnvelopeProperties[0] == Property("payload", ShowList, true);
    assert Violations(body) == ObjectViolations(EnvelopeProperties, body, []);
    if Get(body.members, "payload").None? {
      AbsentPropertyIncluded(EnvelopeProperties, body, [], 0);
    } else {
      var p := Get(body.members, "payload").value;
      ShapeCases(p, [Key("payload")]);
      assert [] + [Key("payload")] == [Key("payload")];
      PresentPropertyIncluded(EnvelopeProperties, body, [], 0);
    }
  }

  /** `skip`, `take` or `totalRecords` present but not an integer, or negative. */
  lemma PaginationRejected(body: Value, key: string)
    requires body.Obj? && key in {"skip", "take", "totalRecords"}
    requires Get(body.members, key).Some? && !LeafOk(Count, Get(body.members, key).value)
    ensures var x := Get(body.members, key).value;
      Violation(if IsInteger(x) then Minimum else Type, [Key(key)]) in Violations(body)
  {
    var k := if key == "skip" then 1 else if key == "take" then 2 else 3;
    assert EnvelopeProperties[k] == Property(key, Prim(Count), false);
    assert [] + [Key(key)] == [Key(key)];
    PresentPropertyIncluded(EnvelopeProperties, body, [], k);
    assert Violations(body) == ObjectViolations(EnvelopeProperties, body, []);
  }

  /** A record key the schema does not declare. */
  lemma RecordExtraKeyRejected(body: Value, i: nat, m: Member)
    requires body.Obj?
    requires Get(body.members, "payload").Some? && Get(body.members, "payload").value.Arr?
    requires i < |Get(body.members, "payload").value.items|
    requires Get(body.members, "payload").value.items[i].Obj?
    requires m in Get(body.members, "payload").value.items[i].members
    requires m.key !in
      {"slug", "title", "tvChannel", "country", "description", "drm", "episodeCount",
       "genre", "language", "nextEpisode", "seasons", "image", "primaryColour"}
    ensures Violation(AdditionalProperties(m.key), RecordPath(i)) in Violations(body)
  {
    var item := Get(body.members, "payload").value.items[i];
    ShowKeys(m.key);
    assert Violation(AdditionalProperties(m.key), RecordPath(i)) in ObjectViolations(ShowProperties, item, RecordPath(i));
    RecordIncluded(body, i);
  }

  /** A record without `slug`, `title` or `tvChannel`. */
  lemma RecordMissingFieldRejected(body: Value, i: nat, key: string)
    requires body.Obj?
    requires Get(body.members, "payload").Some? && Get(body.members, "payload").value.Arr?
    requires i < |Get(body.members, "payload").value.items|
    requires Get(body.members, "payload").value.items[i].Obj?
    requires key in {"slug", "title", "tvChannel"}
    requires Get(Get(body.members, "payload").value.items[i].members, key).None?
    ensures Violation(Required(key), RecordPath(i)) in Violations(body)
  {
    var item := Get(body.members, "payload").value.items[i];
    var k := if key == "slug" then 0 else if key == "title" then 1 else 2;
    assert ShowProperties[k] == Property(key, Prim(Text), true);
    AbsentPropertyIncluded(ShowProperties, item, RecordPath(i), k);
    RecordIncluded(body, i);
  }

  /** An `episodeCount` that is not an integer, or a negative one. */
  lemma EpisodeCountRejected(body: Value, i: nat)
    requires body.Obj?
    requires Get(body.members, "payload").Some? && Get(body.members, "payload").value.Arr?
    requires i < |Get(body.members, "payload").value.items|
    requires Get(body.members, "payload").value.items[i].Obj?
    requires var item := Get(body.members, "payload").value.items[i];
      Get(item.members, "episodeCount").Some? && !LeafOk(Count, Get(item.members, "episodeCount").value)
    ensures var c := Get(Get(body.members, "payload").value.items[i].members, "episodeCount").value;
      Violation(if IsInteger(c) then Minimum else Type, RecordPath(i) + [Key("episodeCount")]) in Violations(body)
  {
    var item := Get(body.members, "payload").value.items[i];
    assert ShowProperties[6] == Property("episodeCount", Prim(Count), false);
    PresentPropertyIncluded(ShowProperties, item, RecordPath(i), 6);
    RecordIncluded(body, i);
  }

  /** An `image` with an undeclared key, or without `showImage`. */
  lemma ImageRejected(body: Value, i: nat)
    requires body.Obj?
    requires Get(body.members, "payload").Some? && Get(body.members, "payload").value.Arr?
    requires i < |Get(body.members, "payload").value.items|
    requires Get(body.members, "payload").value.items[i].Obj?
    requires var item := Get(body.members, "payload").value.items[i];
      Get(item.members, "image").Some? && Get(item.members, "image").value.Obj?
    ensures var img := Get(Get(body.members, "payload").value.items[i].members, "image").value;
      && (forall m :: m in img.members && m.key != "showImage" ==>
            Violation(AdditionalProperties(m.key), RecordPath(i) + [Key("image")]) in Violations(body))
      && (Get(img.members, "showImage").None? ==>
            Violation(Required("showImage"), RecordPath(i) + [Key("image")]) in Violations(body))
  {
    ImageIncluded(Get(body.members, "payload").value.items[i], RecordPath(i));
    RecordIncluded(body, i);
  }

  /** A `nextEpisode` object with an undeclared key. */
  lemma NextEpisodeExtraKeyRejected(body: Value, i: nat, m: Member)
    requires body.Obj?
    requires Get(body.members, "payload").Some? && Get(body.members, "payload").value.Arr?
    requires i < |Get(body.members, "payload").value.items|
    requires Get(body.members, "payload").value.items[i].Obj?
    requires var item := Get(body.members, "payload").value.items[i];
      Get(item.members, "nextEpisode").Some? && Get(item.members, "nextEpisode").value.Obj?
      && m in Get(item.members, "nextEpisode").value.members
    requires m.key !in {"channel", "channelLogo", "date", "html", "url"}
    ensures Violation(AdditionalProperties(m.key), RecordPath(i) + [Key("nextEpisode")]) in Violations(body)
  {
    NextEpisodeIncluded(Get(body.members, "payload").value.items[i], RecordPath(i), m);
    RecordIncluded(body, i);
  }

  /** Item `j` of `seasons` with an undeclared key, or without `slug`. */
  lemma SeasonRejected(body: Value, i: nat, j: nat)
    requires body.Obj?
    requires Get(body.members, "payload").Some? && Get(body.members, "payload").value.Arr?
    requires i < |Get(body.members, "payload").value.items|
    requires Get(body.members, "payload").value.items[i].Obj?
    requires var item := Get(body.members, "payload").value.items[i];
      && Get(item.members, "seasons").Some? && Get(item.members, "seasons").value.Arr?
      && j < |Get(item.members, "seasons").value.items|
      && Get(item.members, "seasons").value.items[j].Obj?
    ensures var season := Get(Get(body.members, "payload").value.items[i].members, "seasons").value.items[j];
      var at := RecordPath(i) + [Key("seasons"), Index(j)];
      && (forall m :: m in season.members && m.key != "slug" ==>
            Violation(AdditionalProperties(m.key), at) in Violations(body))
      && (Get(season.members, "slug").None? ==> Violation(Required("slug"), at) in Violations(body))
  {
    SeasonIncluded(Get(body.members, "payload").value.items[i], RecordPath(i), j);
    RecordIncluded(body, i);
  }

  /** A record that is not an object. */
  lemma RecordNotObjectRejected(body: Value, i: nat)
    requires body.Obj?
    requires Get(body.members, "payload").Some? && Get(body.members, "payload").value.Arr?
    requires i < |Get(body.members, "payload").value.items|
    requires !Get(body.members, "payload").value.items[i].Obj?
    ensures Violation(Type, RecordPath(i)) in Violations(body)
  {
    RecordIncluded(body, i);
  }

  /** Any declared record property that is present but breaks its schema,
      at whatever depth below it (a wrongly typed field, a `nextEpisode`
      or `seasons` of the wrong type, a wrongly typed leaf inside them, a
      season that is no object): its violations are non-empty and all of
      them are violations of the body, under `.payload[i].<key>`. */
  lemma RecordPropertyRejected(body: Value, i: nat, k: nat)
    requires body.Obj?
    requires Get(body.members, "payload").Some? && Get(body.members, "payload").value.Arr?
    requires i < |Get(body.members, "payload").value.items|
    requires Get(body.members, "payload").value.items[i].Obj?
    requires k < |ShowProperties|
    requires var item := Get(body.members, "payload").value.items[i];
      Get(item.members, ShowProperties[k].key).Some?
      && !Conforms(ShowProperties[k].shape, Get(item.members, ShowProperties[k].key).value)
    ensures var item := Get(body.members, "payload").value.items[i];
      var found := ShapeViolations(ShowProperties[k].shape, Get(item.members, ShowProperties[k].key).value,
                                   RecordPath(i) + [Key(ShowProperties[k].key)]);
      found != [] && forall x :: x in found ==> x in Violations(body)
  {
    var item := Get(body.members, "payload").value.items[i];
    PresentPropertyIncluded(ShowProperties, item, RecordPath(i), k);
    RecordIncluded(body, i);
  }
}
