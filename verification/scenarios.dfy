/** Concrete request bodies and what the handler does with them. */
module Scenarios {
  import opened Wrappers
  import opened Json
  import opened Report
  import opened ShowSchema
  import opened Validator
  import opened Filter
  import opened Pipeline
  import opened Rejections

  /** A record that the schema accepts and the filter keeps, but that has
      no `image`. */
  const Imageless: Value := Obj([
    Member("slug", Str("s")),
    Member("title", Str("t")),
    Member("tvChannel", Str("c")),
    Member("drm", Bool(true)),
    Member("episodeCount", Num(Int(1)))
  ])

  /** A declared property whose first member is at position `i`. */
  lemma MemberAt(p: Property, v: Value, i: nat)
    requires v.Obj? && i < |v.members| && v.members[i].key == p.key
    requires forall j :: 0 <= j < i ==> v.members[j].key != p.key
    ensures PropertyOk(p, v) <==> Conforms(p.shape, v.members[i].val)
  {
    GetFirst(v.members, i);
  }

  /** A declared property that no member carries. */
  lemma MemberAbsent(p: Property, v: Value)
    requires v.Obj? && !p.required
    requires forall j :: 0 <= j < |v.members| ==> v.members[j].key != p.key
    ensures PropertyOk(p, v)
  {
    GetFound(v.members, p.key);
  }

  lemma ImagelessClosed()
    ensures Closed(Imageless.members, ShowProperties)
  {
    forall m | m in Imageless.members
      ensures Declares(ShowProperties, m.key)
    {
      ShowKeys(m.key);
    }
  }

  lemma ImagelessSlug() ensures PropertyOk(ShowProperties[0], Imageless) { MemberAt(ShowProperties[0], Imageless, 0); }
  lemma ImagelessTitle() ensures PropertyOk(ShowProperties[1], Imageless) { MemberAt(ShowProperties[1], Imageless, 1); }
  lemma ImagelessTvChannel() ensures PropertyOk(ShowProperties[2], Imageless) { MemberAt(ShowProperties[2], Imageless, 2); }
  lemma ImagelessCountry() ensures PropertyOk(ShowProperties[3], Imageless) { MemberAbsent(ShowProperties[3], Imageless); }
  lemma ImagelessDescription() ensures PropertyOk(ShowProperties[4], Imageless) { MemberAbsent(ShowProperties[4], Imageless); }
  lemma ImagelessDrm() ensures PropertyOk(ShowProperties[5], Imageless) { MemberAt(ShowProperties[5], Imageless, 3); }
  lemma ImagelessEpisodeCount() ensures PropertyOk(ShowProperties[6], Imageless) { MemberAt(ShowProperties[6], Imageless, 4); }
  lemma ImagelessGenre() ensures PropertyOk(ShowProperties[7], Imageless) { MemberAbsent(ShowProperties[7], Imageless); }
  lemma ImagelessLanguage() ensures PropertyOk(ShowProperties[8], Imageless) { MemberAbsent(ShowProperties[8], Imageless); }
  lemma ImagelessNextEpisode() ensures PropertyOk(ShowProperties[9], Imageless) { MemberAbsent(ShowProperties[9], Imageless); }
  lemma ImagelessSeasons() ensures PropertyOk(ShowProperties[10], Imageless) { MemberAbsent(ShowProperties[10], Imageless); }
  lemma ImagelessImage() ensures PropertyOk(ShowProperties[11], Imageless) { MemberAbsent(ShowProperties[11], Imageless); }
  lemma ImagelessPrimaryColour() ensures PropertyOk(ShowProperties[12], Imageless) { MemberAbsent(ShowProperties[12], Imageless); }

  lemma ImagelessFront()
    ensures forall k :: 0 <= k < 7 ==> PropertyOk(ShowProperties[k], Imageless)
  {
    ImagelessSlug();
    ImagelessTitle();
    ImagelessTvChannel();
    ImagelessCountry();
    ImagelessDescription();
    ImagelessDrm();
    ImagelessEpisodeCount();
    forall k | 0 <= k < 7
      ensures PropertyOk(ShowProperties[k], Imageless)
    {
      if k < 4 {
        assert k == 0 || k == 1 || k == 2 || k == 3;
      } else {
        assert k == 4 || k == 5 || k == 6;
      }
    }
  }

  lemma ImagelessBack()
    ensures forall k :: 7 <= k < 13 ==> PropertyOk(ShowProperties[k], Imageless)
  {
    ImagelessGenre();
    ImagelessLanguage();
    ImagelessNextEpisode();
    ImagelessSeasons();
    ImagelessImage();
    ImagelessPrimaryColour();
    forall k | 7 <= k < 13
      ensures PropertyOk(ShowProperties[k], Imageless)
    {
      if k < 10 {
        assert k == 7 || k == 8 || k == 9;
      } else {
        assert k == 10 || k == 11 || k == 12;
      }
    }
  }

  lemma ImagelessValid()
    ensures ValidShow(Imageless)
  {
    ImagelessClosed();
    ImagelessFront();
    ImagelessBack();
  }

  lemma ImagelessKept()
    ensures Qualifies(Imageless) && !HasImage(Imageless)
  {
    GetFirst(Imageless.members, 3);
    GetFirst(Imageless.members, 4);
    GetFound(Imageless.members, "image");
  }

  /** A body whose only record passes the schema, is kept and has no
      `image` passes the schema too, and the handler as written throws on
      it at record 0. */
  lemma OneImagelessRecordThrows(v: Value)
    requires ValidShow(v) && Qualifies(v) && !HasImage(v)
    ensures ValidEnvelope(Obj([Member("payload", Arr([v]))]))
    ensures Handle(Obj([Member("payload", Arr([v]))])) == Failure(Thrown(ImageUndefined(0)))
  {
    var body := Obj([Member("payload", Arr([v]))]);
    GetFirst(body.members, 0);
    EnvelopeKeys("payload");
    assert Closed(body.members, EnvelopeProperties);
    assert EnvelopeProperties[0] == Property("payload", ShowList, true);
    assert PropertyOk(EnvelopeProperties[0], body);
    forall k | 1 <= k < 4
      ensures PropertyOk(EnvelopeProperties[k], body)
    {
      GetFound(body.members, EnvelopeProperties[k].key);
    }
    assert ValidEnvelope(body);
    assert Payload(body) == [v];
  }

  /** The schema lets the imageless record through, and the handler as
      written then throws at record 0. */
  lemma ImagelessRecordThrows()
    ensures ValidEnvelope(Obj([Member("payload", Arr([Imageless]))]))
    ensures Handle(Obj([Member("payload", Arr([Imageless]))])) == Failure(Thrown(ImageUndefined(0)))
  {
    ImagelessValid();
    ImagelessKept();
    OneImagelessRecordThrows(Imageless);
  }

  /** The body of the first rejected request: one undeclared top-level key. */
  const InvalidData: Value := Obj([Member("invalidData", Str("invalidRequestData"))])

  /** It is rejected, and the first violation (the one ajv reports) is
      `additionalProperties` at the top level. */
  lemma InvalidDataRejected()
    ensures Handle(InvalidData).Failure? && Handle(InvalidData).error.Rejected?
    ensures Handle(InvalidData).error.detail[0] == Violation(AdditionalProperties("invalidData"), [])
    ensures KeywordName(Handle(InvalidData).error.detail[0].keyword) == "additionalProperties"
  {
    EnvelopeKeys("invalidData");
    FirstUndeclaredKey(InvalidData.members, EnvelopeProperties, [], 0);
    FirstObjectViolation(EnvelopeProperties, InvalidData, []);
  }

  /** The record of the second rejected request: complete, except that
      `episodeCount` is a string. */
  const BadCountRecord: Value := Obj([
    Member("country", Str("UK")),
    Member("description", Str("What's life like when you have enough children to field your own football team?")),
    Member("drm", Bool(true)),
    Member("episodeCount", Str("STRING BUT NOT NUMBER")),
    Member("genre", Str("Reality")),
    Member("image", Obj([Member("showImage", Str("http://mybeautifulcatchupservice.com/img/shows/16KidsandCounting1280.jpg"))])),
    Member("language", Str("English")),
    Member("nextEpisode", Null),
    Member("primaryColour", Str("#ff7800")),
    Member("seasons", Null),
    Member("slug", Str("show/16kidsandcounting")),
    Member("title", Str("16 Kids and Counting")),
    Member("tvChannel", Str("GEM"))
  ])

  const BadCount: Value := Obj([
    Member("skip", Num(Int(0))),
    Member("take", Num(Int(7))),
    Member("payload", Arr([BadCountRecord]))
  ])

  lemma BadCountRecordClosed()
    ensures Closed(BadCountRecord.members, ShowProperties)
  {
    forall m | m in BadCountRecord.members
      ensures Declares(ShowProperties, m.key)
    {
      ShowKeys(m.key);
    }
  }

  /** Where each of the first seven declared properties sits in the record,
      and whether it conforms. */
  lemma BadCountSlug() ensures PropertyOk(ShowProperties[0], BadCountRecord) { MemberAt(ShowProperties[0], BadCountRecord, 10); }
  lemma BadCountTitle() ensures PropertyOk(ShowProperties[1], BadCountRecord) { MemberAt(ShowProperties[1], BadCountRecord, 11); }
  lemma BadCountChannel() ensures PropertyOk(ShowProperties[2], BadCountRecord) { MemberAt(ShowProperties[2], BadCountRecord, 12); }
  lemma BadCountCountry() ensures PropertyOk(ShowProperties[3], BadCountRecord) { MemberAt(ShowProperties[3], BadCountRecord, 0); }
  lemma BadCountDescription() ensures PropertyOk(ShowProperties[4], BadCountRecord) { MemberAt(ShowProperties[4], BadCountRecord, 1); }
  lemma BadCountDrm() ensures PropertyOk(ShowProperties[5], BadCountRecord) { MemberAt(ShowProperties[5], BadCountRecord, 2); }
  lemma BadCountEpisodeCount() ensures !PropertyOk(ShowProperties[6], BadCountRecord) { MemberAt(ShowProperties[6], BadCountRecord, 3); }

  /** The properties declared before `episodeCount` are fine; it is not. */
  lemma BadCountRecordFirstFailing()
    ensures forall j :: 0 <= j < 6 ==> PropertyOk(ShowProperties[j], BadCountRecord)
    ensures !PropertyOk(ShowProperties[6], BadCountRecord)
  {
    BadCountSlug();
    BadCountTitle();
    BadCountChannel();
    BadCountCountry();
    BadCountDescription();
    BadCountDrm();
    BadCountEpisodeCount();
    forall j | 0 <= j < 6
      ensures PropertyOk(ShowProperties[j], BadCountRecord)
    {
      if j < 3 {
        assert j == 0 || j == 1 || j == 2;
      } else {
        assert j == 3 || j == 4 || j == 5;
      }
    }
  }

  lemma BadCountEpisodeCountViolation(path: Path)
    ensures OnePropertyViolations(ShowProperties[6], BadCountRecord, path) == [Violation(Type, path + [Key("episodeCount")])]
  {
    assert ShowProperties[6] == Property("episodeCount", Prim(Count), false);
    GetFirst(BadCountRecord.members, 3);
  }

  lemma BadCountRecordHead(path: Path)
    ensures ObjectViolations(ShowProperties, BadCountRecord, path) != []
    ensures ObjectViolations(ShowProperties, BadCountRecord, path)[0] == Violation(Type, path + [Key("episodeCount")])
  {
    BadCountRecordClosed();
    BadCountRecordFirstFailing();
    FirstFailingMember(ShowProperties, BadCountRecord, path, 6);
    BadCountEpisodeCountViolation(path);
  }

  lemma BadCountPayloadHead()
    ensures var at := [Key("payload")];
      && ShapeViolations(ShowList, Arr([BadCountRecord]), at) != []
      && ShapeViolations(ShowList, Arr([BadCountRecord]), at)[0] == Violation(Type, at + [Index(0)] + [Key("episodeCount")])
  {
    var items := Arr([BadCountRecord]);
    var at := [Key("payload")];
    BadCountRecordHead(at + [Index(0)]);
    FirstFailingItem(ShowProperties, items, 1, at, 0);
    ShapeCases(items, at);
  }

  lemma BadCountPayloadViolations()
    ensures OnePropertyViolations(EnvelopeProperties[0], BadCount, [])
            == ShapeViolations(ShowList, Arr([BadCountRecord]), [Key("payload")])
  {
    assert EnvelopeProperties[0] == Property("payload", ShowList, true);
    GetFirst(BadCount.members, 2);
    assert [] + [Key("payload")] == [Key("payload")];
  }

  lemma BadCountEnvelopeHead()
    ensures Violations(BadCount) != []
    ensures Violations(BadCount)[0] == Violation(Type, [Key("payload"), Index(0), Key("episodeCount")])
  {
    BadCountPayloadHead();
    BadCountPayloadViolations();
    forall m | m in BadCount.members
      ensures Declares(EnvelopeProperties, m.key)
    {
      EnvelopeKeys(m.key);
    }
    assert !PropertyOk(EnvelopeProperties[0], BadCount);
    FirstFailingMember(EnvelopeProperties, BadCount, [], 0);
    assert [Key("payload")] + [Index(0)] + [Key("episodeCount")] == [Key("payload"), Index(0), Key("episodeCount")];
  }

  /** `.payload[0].episodeCount` in ajv's notation. */
  lemma EpisodeCountPathText()
    ensures PathText([Key("payload"), Index(0), Key("episodeCount")]) == ".payload[0].episodeCount"
  {
    var a, b, c := Key("payload"), Index(0), Key("episodeCount");
    assert [a, b, c] == [a] + [b] + [c];
    PathTextAppend([a] + [b], [c]);
    PathTextAppend([a], [b]);
    PathTextStep(a);
    PathTextStep(b);
    PathTextStep(c);
    assert NatText(0) == "0";
    ThreeSteps(StepText(a), StepText(b), StepText(c));
  }

  /** The three step texts joined. A lemma of its own, so that the string
      concatenation is proved apart from the unfolding of the path. */
  lemma ThreeSteps(x: string, y: string, z: string)
    requires x == ".payload" && y == "[0]" && z == ".episodeCount"
    ensures x + y + z == ".payload[0].episodeCount"
  {
  }

  /** It is rejected, and the first violation is `type` at
      `.payload[0].episodeCount`. */
  lemma BadCountRejected()
    ensures Handle(BadCount).Failure? && Handle(BadCount).error.Rejected?
    ensures Handle(BadCount).error.detail[0] == Violation(Type, [Key("payload"), Index(0), Key("episodeCount")])
    ensures KeywordName(Handle(BadCount).error.detail[0].keyword) == "type"
    ensures PathText(Handle(BadCount).error.detail[0].path) == ".payload[0].episodeCount"
  {
    BadCountEnvelopeHead();
    EpisodeCountPathText();
  }

  /** The first record of the accepted request. */
  const KidsRecord: Value := Obj([
    Member("country", Str("UK")),
    Member("description", Str("What's life like when you have enough children to field your own football team?")),
    Member("drm", Bool(true)),
    Member("episodeCount", Num(Int(3))),
    Member("genre", Str("Reality")),
    Member("image", Obj([Member("showImage", Str("http://mybeautifulcatchupservice.com/img/shows/16KidsandCounting1280.jpg"))])),
    Member("language", Str("English")),
    Member("nextEpisode", Null),
    Member("primaryColour", Str("#ff7800")),
    Member("seasons", Null),
    Member("slug", Str("show/16kidsandcounting")),
    Member("title", Str("16 Kids and Counting")),
    Member("tvChannel", Str("GEM"))
  ])

  /** The second record: only the required fields. */
  const PatrolRecord: Value := Obj([
    Member("slug", Str("show/seapatrol")),
    Member("title", Str("Sea Patrol")),
    Member("tvChannel", Str("Channel 9"))
  ])

  /** The third record, with one season. */
  const TasteRecord: Value := Obj([
    Member("country", Str(" USA")),
    Member("description", Str("The Taste puts 16 culinary competitors in the kitchen, where four of the World's most notable culinary masters of the food world judges their creations based on a blind taste. Join judges Anthony Bourdain, Nigella Lawson, Ludovic Lefebvre and Brian Malarkey in this pressure-packed contest where a single spoonful can catapult a contender to the top or send them packing.")),
    Member("drm", Bool(true)),
    Member("episodeCount", Num(Int(2))),
    Member("genre", Str("Reality")),
    Member("image", Obj([Member("showImage", Str("http://mybeautifulcatchupservice.com/img/shows/TheTaste1280.jpg"))])),
    Member("language", Str("English")),
    Member("nextEpisode", Null),
    Member("primaryColour", Str("#df0000")),
    Member("seasons", Arr([Obj([Member("slug", Str("show/thetaste/season/1"))])])),
    Member("slug", Str("show/thetaste")),
    Member("title", Str("The Taste")),
    Member("tvChannel", Str("GEM"))
  ])

  /** An `image` object with its one required property. */
  lemma ImageValue(u: string)
    ensures Conforms(ImageObject, Obj([Member("showImage", Str(u))]))
  {
    var img := Obj([Member("showImage", Str(u))]);
    GetFirst(img.members, 0);
    ImageKeys("showImage");
    assert ImageProperties[0] == Property("showImage", Prim(Text), true);
    assert PropertyOk(ImageProperties[0], img);
    assert Closed(img.members, ImageProperties);
    assert ObjectOk(ImageProperties, img);
  }

  /** A record whose first `image` member, at position `i`, is such an
      object has an acceptable `image`. */
  lemma ImageAt(v: Value, i: nat, u: string)
    requires v.Obj? && i < |v.members|
    requires v.members[i] == Member("image", Obj([Member("showImage", Str(u))]))
    requires forall j :: 0 <= j < i ==> v.members[j].key != "image"
    ensures PropertyOk(ShowProperties[11], v)
  {
    ImageValue(u);
    assert ShowProperties[11] == Property("image", ImageObject, false);
    MemberAt(ShowProperties[11], v, i);
  }

  /** A `seasons` array of one season with its `slug`. */
  lemma SeasonsValue(slug: string)
    ensures Conforms(SeasonList, Arr([Obj([Member("slug", Str(slug))])]))
  {
    var season := Obj([Member("slug", Str(slug))]);
    GetFirst(season.members, 0);
    SeasonKeys("slug");
    assert ObjectOk(SeasonProperties, season);
  }

  lemma KidsRecordSlug() ensures PropertyOk(ShowProperties[0], KidsRecord) { MemberAt(ShowProperties[0], KidsRecord, 10); }
  lemma KidsRecordTitle() ensures PropertyOk(ShowProperties[1], KidsRecord) { MemberAt(ShowProperties[1], KidsRecord, 11); }
  lemma KidsRecordTvChannel() ensures PropertyOk(ShowProperties[2], KidsRecord) { MemberAt(ShowProperties[2], KidsRecord, 12); }
  lemma KidsRecordCountry() ensures PropertyOk(ShowProperties[3], KidsRecord) { MemberAt(ShowProperties[3], KidsRecord, 0); }
  lemma KidsRecordDescription() ensures PropertyOk(ShowProperties[4], KidsRecord) { MemberAt(ShowProperties[4], KidsRecord, 1); }
  lemma KidsRecordDrm() ensures PropertyOk(ShowProperties[5], KidsRecord) { MemberAt(ShowProperties[5], KidsRecord, 2); }
  lemma KidsRecordEpisodeCount() ensures PropertyOk(ShowProperties[6], KidsRecord) { MemberAt(ShowProperties[6], KidsRecord, 3); }
  lemma KidsRecordGenre() ensures PropertyOk(ShowProperties[7], KidsRecord) { MemberAt(ShowProperties[7], KidsRecord, 4); }
  lemma KidsRecordLanguage() ensures PropertyOk(ShowProperties[8], KidsRecord) { MemberAt(ShowProperties[8], KidsRecord, 6); }
  lemma KidsRecordNextEpisode() ensures PropertyOk(ShowProperties[9], KidsRecord) { MemberAt(ShowProperties[9], KidsRecord, 7); }
  lemma KidsRecordSeasons() ensures PropertyOk(ShowProperties[10], KidsRecord) { MemberAt(ShowProperties[10], KidsRecord, 9); }
  lemma KidsRecordImage() ensures PropertyOk(ShowProperties[11], KidsRecord) { ImageAt(KidsRecord, 5, "http://mybeautifulcatchupservice.com/img/shows/16KidsandCounting1280.jpg"); }
  lemma KidsRecordPrimaryColour() ensures PropertyOk(ShowProperties[12], KidsRecord) { MemberAt(ShowProperties[12], KidsRecord, 8); }

  lemma KidsRecordFront()
    ensures forall k :: 0 <= k < 7 ==> PropertyOk(ShowProperties[k], KidsRecord)
  {
    KidsRecordSlug();
    KidsRecordTitle();
    KidsRecordTvChannel();
    KidsRecordCountry();
    KidsRecordDescription();
    KidsRecordDrm();
    KidsRecordEpisodeCount();
    forall k | 0 <= k < 7
      ensures PropertyOk(ShowProperties[k], KidsRecord)
    {
      if k < 4 {
        assert k == 0 || k == 1 || k == 2 || k == 3;
      } else {
        assert k == 4 || k == 5 || k == 6;
      }
    }
  }

  lemma KidsRecordBack()
    ensures forall k :: 7 <= k < 13 ==> PropertyOk(ShowProperties[k], KidsRecord)
  {
    KidsRecordGenre();
    KidsRecordLanguage();
    KidsRecordNextEpisode();
    KidsRecordSeasons();
    KidsRecordImage();
    KidsRecordPrimaryColour();
    forall k | 7 <= k < 13
      ensures PropertyOk(ShowProperties[k], KidsRecord)
    {
      if k < 10 {
        assert k == 7 || k == 8 || k == 9;
      } else {
        assert k == 10 || k == 11 || k == 12;
      }
    }
  }

  lemma KidsRecordValid()
    ensures ValidShow(KidsRecord)
  {
    forall m | m in KidsRecord.members
      ensures Declares(ShowProperties, m.key)
    {
      ShowKeys(m.key);
    }
    KidsRecordFront();
    KidsRecordBack();
  }

  lemma PatrolRecordSlug() ensures PropertyOk(ShowProperties[0], PatrolRecord) { MemberAt(ShowProperties[0], PatrolRecord, 0); }
  lemma PatrolRecordTitle() ensures PropertyOk(ShowProperties[1], PatrolRecord) { MemberAt(ShowProperties[1], PatrolRecord, 1); }
  lemma PatrolRecordTvChannel() ensures PropertyOk(ShowProperties[2], PatrolRecord) { MemberAt(ShowProperties[2], PatrolRecord, 2); }
  lemma PatrolRecordCountry() ensures PropertyOk(ShowProperties[3], PatrolRecord) { MemberAbsent(ShowProperties[3], PatrolRecord); }
  lemma PatrolRecordDescription() ensures PropertyOk(ShowProperties[4], PatrolRecord) { MemberAbsent(ShowProperties[4], PatrolRecord); }
  lemma PatrolRecordDrm() ensures PropertyOk(ShowProperties[5], PatrolRecord) { MemberAbsent(ShowProperties[5], PatrolRecord); }
  lemma PatrolRecordEpisodeCount() ensures PropertyOk(ShowProperties[6], PatrolRecord) { MemberAbsent(ShowProperties[6], PatrolRecord); }
  lemma PatrolRecordGenre() ensures PropertyOk(ShowProperties[7], PatrolRecord) { MemberAbsent(ShowProperties[7], PatrolRecord); }
  lemma PatrolRecordLanguage() ensures PropertyOk(ShowProperties[8], PatrolRecord) { MemberAbsent(ShowProperties[8], PatrolRecord); }
  lemma PatrolRecordNextEpisode() ensures PropertyOk(ShowProperties[9], PatrolRecord) { MemberAbsent(ShowProperties[9], PatrolRecord); }
  lemma PatrolRecordSeasons() ensures PropertyOk(ShowProperties[10], PatrolRecord) { MemberAbsent(ShowProperties[10], PatrolRecord); }
  lemma PatrolRecordImage() ensures PropertyOk(ShowProperties[11], PatrolRecord) { MemberAbsent(ShowProperties[11], PatrolRecord); }
  lemma PatrolRecordPrimaryColour() ensures PropertyOk(ShowProperties[12], PatrolRecord) { MemberAbsent(ShowProperties[12], PatrolRecord); }

  lemma PatrolRecordFront()
    ensures forall k :: 0 <= k < 7 ==> PropertyOk(ShowProperties[k], PatrolRecord)
  {
    PatrolRecordSlug();
    PatrolRecordTitle();
    PatrolRecordTvChannel();
    PatrolRecordCountry();
    PatrolRecordDescription();
    PatrolRecordDrm();
    PatrolRecordEpisodeCount();
    forall k | 0 <= k < 7
      ensures PropertyOk(ShowProperties[k], PatrolRecord)
    {
      if k < 4 {
        assert k == 0 || k == 1 || k == 2 || k == 3;
      } else {
        assert k == 4 || k == 5 || k == 6;
      }
    }
  }

  lemma PatrolRecordBack()
    ensures forall k :: 7 <= k < 13 ==> PropertyOk(ShowProperties[k], PatrolRecord)
  {
    PatrolRecordGenre();
    PatrolRecordLanguage();
    PatrolRecordNextEpisode();
    PatrolRecordSeasons();
    PatrolRecordImage();
    PatrolRecordPrimaryColour();
    forall k | 7 <= k < 13
      ensures PropertyOk(ShowProperties[k], PatrolRecord)
    {
      if k < 10 {
        assert k == 7 || k == 8 || k == 9;
      } else {
        assert k == 10 || k == 11 || k == 12;
      }
    }
  }

  lemma PatrolRecordValid()
    ensures ValidShow(PatrolRecord)
  {
    forall m | m in PatrolRecord.members
      ensures Declares(ShowProperties, m.key)
    {
      ShowKeys(m.key);
    }
    PatrolRecordFront();
    PatrolRecordBack();
  }

  lemma TasteRecordSlug() ensures PropertyOk(ShowProperties[0], TasteRecord) { MemberAt(ShowProperties[0], TasteRecord, 10); }
  lemma TasteRecordTitle() ensures PropertyOk(ShowProperties[1], TasteRecord) { MemberAt(ShowProperties[1], TasteRecord, 11); }
  lemma TasteRecordTvChannel() ensures PropertyOk(ShowProperties[2], TasteRecord) { MemberAt(ShowProperties[2], TasteRecord, 12); }
  lemma TasteRecordCountry() ensures PropertyOk(ShowProperties[3], TasteRecord) { MemberAt(ShowProperties[3], TasteRecord, 0); }
  lemma TasteRecordDescription() ensures PropertyOk(ShowProperties[4], TasteRecord) { MemberAt(ShowProperties[4], TasteRecord, 1); }
  lemma TasteRecordDrm() ensures PropertyOk(ShowProperties[5], TasteRecord) { MemberAt(ShowProperties[5], TasteRecord, 2); }
  lemma TasteRecordEpisodeCount() ensures PropertyOk(ShowProperties[6], TasteRecord) { MemberAt(ShowProperties[6], TasteRecord, 3); }
  lemma TasteRecordGenre() ensures PropertyOk(ShowProperties[7], TasteRecord) { MemberAt(ShowProperties[7], TasteRecord, 4); }
  lemma TasteRecordLanguage() ensures PropertyOk(ShowProperties[8], TasteRecord) { MemberAt(ShowProperties[8], TasteRecord, 6); }
  lemma TasteRecordNextEpisode() ensures PropertyOk(ShowProperties[9], TasteRecord) { MemberAt(ShowProperties[9], TasteRecord, 7); }
  lemma TasteRecordSeasons() ensures PropertyOk(ShowProperties[10], TasteRecord) { SeasonsValue("show/thetaste/season/1"); MemberAt(ShowProperties[10], TasteRecord, 9); }
  lemma TasteRecordImage() ensures PropertyOk(ShowProperties[11], TasteRecord) { ImageAt(TasteRecord, 5, "http://mybeautifulcatchupservice.com/img/shows/TheTaste1280.jpg"); }
  lemma TasteRecordPrimaryColour() ensures PropertyOk(ShowProperties[12], TasteRecord) { MemberAt(ShowProperties[12], TasteRecord, 8); }

  lemma TasteRecordFront()
    ensures forall k :: 0 <= k < 7 ==> PropertyOk(ShowProperties[k], TasteRecord)
  {
    TasteRecordSlug();
    TasteRecordTitle();
    TasteRecordTvChannel();
    TasteRecordCountry();
    TasteRecordDescription();
    TasteRecordDrm();
    TasteRecordEpisodeCount();
    forall k | 0 <= k < 7
      ensures PropertyOk(ShowProperties[k], TasteRecord)
    {
      if k < 4 {
        assert k == 0 || k == 1 || k == 2 || k == 3;
      } else {
        assert k == 4 || k == 5 || k == 6;
      }
    }
  }

  lemma TasteRecordBack()
    ensures forall k :: 7 <= k < 13 ==> PropertyOk(ShowProperties[k], TasteRecord)
  {
    TasteRecordGenre();
    TasteRecordLanguage();
    TasteRecordNextEpisode();
    TasteRecordSeasons();
    TasteRecordImage();
    TasteRecordPrimaryColour();
    forall k | 7 <= k < 13
      ensures PropertyOk(ShowProperties[k], TasteRecord)
    {
      if k < 10 {
        assert k == 7 || k == 8 || k == 9;
      } else {
        assert k == 10 || k == 11 || k == 12;
      }
    }
  }

  lemma TasteRecordValid()
    ensures ValidShow(TasteRecord)
  {
    forall m | m in TasteRecord.members
      ensures Declares(ShowProperties, m.key)
    {
      ShowKeys(m.key);
    }
    TasteRecordFront();
    TasteRecordBack();
  }

  /** The accepted request: three records, of which the second has neither
      `drm` nor `episodeCount`. */
  const ValidData: Value := Obj([Member("payload", Arr([KidsRecord, PatrolRecord, TasteRecord]))])

  /** The response the request expects. */
  const Expected: seq<Projected> := [
    Projected("http://mybeautifulcatchupservice.com/img/shows/16KidsandCounting1280.jpg",
              "show/16kidsandcounting", "16 Kids and Counting"),
    Projected("http://mybeautifulcatchupservice.com/img/shows/TheTaste1280.jpg",
              "show/thetaste", "The Taste")
  ]

  lemma KidsQualifies() ensures Qualifies(KidsRecord) && HasImage(KidsRecord)
  {
    GetFirst(KidsRecord.members, 2);
    GetFirst(KidsRecord.members, 3);
    GetFirst(KidsRecord.members, 5);
  }

  lemma PatrolExcluded() ensures !Qualifies(PatrolRecord)
  {
    GetFound(PatrolRecord.members, "drm");
  }

  lemma TasteQualifies() ensures Qualifies(TasteRecord) && HasImage(TasteRecord)
  {
    GetFirst(TasteRecord.members, 2);
    GetFirst(TasteRecord.members, 3);
    GetFirst(TasteRecord.members, 5);
  }

  lemma KidsProjection() ensures ProjectionOf(Expected[0], KidsRecord)
  {
    GetFirst(KidsRecord.members, 10);
    GetFirst(KidsRecord.members, 11);
    GetFirst(KidsRecord.members, 5);
    GetFirst(KidsRecord.members[5].val.members, 0);
  }

  lemma TasteProjection() ensures ProjectionOf(Expected[1], TasteRecord)
  {
    GetFirst(TasteRecord.members, 10);
    GetFirst(TasteRecord.members, 11);
    GetFirst(TasteRecord.members, 5);
    GetFirst(TasteRecord.members[5].val.members, 0);
  }

  /** Of three records, the filter keeps the first and the third when
      exactly those qualify. */
  lemma KeptOfThree(a: Value, b: Value, c: Value)
    requires Qualifies(a) && !Qualifies(b) && Qualifies(c)
    ensures Kept([a, b, c]) == [0, 2]
  {
    var items := [a, b, c];
    assert items[..2] == [a, b];
    assert [a, b][..1] == [a];
    assert [a][..0] == [];
    assert Kept([a]) == [0];
    assert Kept([a, b]) == [0];
  }

  /** A body of three records that pass the schema passes it too. */
  lemma ThreeRecordsAccepted(a: Value, b: Value, c: Value)
    requires ValidShow(a) && ValidShow(b) && ValidShow(c)
    ensures ValidEnvelope(Obj([Member("payload", Arr([a, b, c]))]))
    ensures Payload(Obj([Member("payload", Arr([a, b, c]))])) == [a, b, c]
  {
    var body := Obj([Member("payload", Arr([a, b, c]))]);
    var items := [a, b, c];
    GetFirst(body.members, 0);
    EnvelopeKeys("payload");
    assert Closed(body.members, EnvelopeProperties);
    assert EnvelopeProperties[0] == Property("payload", ShowList, true);
    assert forall i :: 0 <= i < 3 ==> ObjectOk(ShowProperties, items[i]);
    assert PropertyOk(EnvelopeProperties[0], body);
    forall k | 1 <= k < 4
      ensures PropertyOk(EnvelopeProperties[k], body)
    {
      GetFound(body.members, EnvelopeProperties[k].key);
    }
  }

  /** Such a body, of which the first and the third record are kept and
      carry an `image`, is answered with the projections of those two, in
      order. */
  lemma ThreeRecordsAnswered(a: Value, b: Value, c: Value, pa: Projected, pc: Projected)
    requires ValidShow(a) && ValidShow(b) && ValidShow(c)
    requires Qualifies(a) && !Qualifies(b) && Qualifies(c)
    requires ProjectionOf(pa, a) && ProjectionOf(pc, c)
    ensures Handle(Obj([Member("payload", Arr([a, b, c]))])) == Success([pa, pc])
  {
    var body := Obj([Member("payload", Arr([a, b, c]))]);
    var items := [a, b, c];
    ThreeRecordsAccepted(a, b, c);
    assert forall i :: 0 <= i < 3 && Qualifies(items[i]) ==> HasImage(items[i]);
    assert Handle(body).Success?;
    KeptOfThree(a, b, c);
    HandleProjects(body);
    var out := Handle(body).value;
    assert ProjectionOf(out[0], a) && ProjectionOf(out[1], c);
    assert out[0] == pa && out[1] == pc;
    assert out == [pa, pc];
  }

  /** The accepted request is answered with exactly the two expected
      elements: the second record, with neither `drm` nor `episodeCount`,
      is left out. */
  lemma ValidDataResponse()
    ensures Handle(ValidData) == Success(Expected)
  {
    KidsRecordValid();
    PatrolRecordValid();
    TasteRecordValid();
    KidsQualifies();
    PatrolExcluded();
    TasteQualifies();
    KidsProjection();
    TasteProjection();
    ThreeRecordsAnswered(KidsRecord, PatrolRecord, TasteRecord, Expected[0], Expected[1]);
  }
}
