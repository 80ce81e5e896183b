# filterData — a Dafny model of the show-list filter

The server exposes one POST route whose work is done by `filterDataor`
(`server/api/filterData/filterData.js`). Every request body goes through
the same steps:

1. The JSON Schema validator `sendDataValidator` (compiled with ajv)
   checks the body:
   - It must be a closed object with a required, non-empty `payload` array
     and the optional integer counters `skip`, `take` and `totalRecords`.
   - Every item of `payload` is a closed "show" record that has `slug`,
     `title` and `tvChannel`.
   - The optional fields of a record are typed. The nested objects
     `nextEpisode`, `seasons[]` and `image` are closed too.
2. A body that fails the schema is answered through the error callback
   with the fixed message "Could not decode request: JSON parsing failed".
3. A body that passes is reduced, in payload order, to the list of
   `{image: item.image.showImage, slug, title}` for the records with
   `drm` true and `episodeCount > 0`.

The model has these modules:

- `Json` is the deserialised body. It has JSON values and object members.
  An object's members are listed in JavaScript's own-key order, which is
  the order a `for...in` loop visits them: array-index keys first, in
  ascending numeric order, then the other keys in insertion order.
  Property access gives the first member with the key, or `None` for
  `undefined`.
- `ShowSchema` is the schema written as data, with one property table per
  object level. Its declarative meaning is `Conforms` / `ObjectOk` /
  `ValidEnvelope`.
- `Validator` collects the violations of a body in the order ajv v6
  evaluates the schema:
  - at each object, first the type, then every undeclared key in
    the object's key order (`additionalProperties: false`), then the declared
    properties in declaration order, where an absent required property
    is reported at its turn;
  - array items are visited by index.

  ajv reports only the first violation, so the head of the list is the
  error ajv reports. The validator is proved against the declarative
  schema: the list is empty exactly when the body is valid. It is also
  proved to report the first failing key, property or item first.
- `Report` covers the violation keywords and ajv's `dataPath` text
  (`.payload[0].episodeCount`).
- `Rejections` is a catalogue of how bodies break the schema. For the
  common breaks it gives the exact violation (keyword and path) that the
  validator is sure to report. For any other record property that is
  present but breaks its schema, at any depth below the property, it
  proves that the property's violations are non-empty and are reported
  for the body under `.payload[i].<key>`.
- `Filter` is the `reduce`. `Kept` is the index specification of the
  records it keeps. `Select` is the reduce itself. It is proved to
  return the projections of exactly the kept records, in order. It fails
  with `ImageUndefined(i)` exactly when a kept record has no `image`:
  `item.image.showImage` then throws a TypeError, and the model does not
  invent a value for it.
- `Pipeline` is `filterDataor`. A request ends in one of three ways: it is
  rejected, it succeeds, or it throws. `HandleStrict` is the corrected
  handler (see Findings).
- `Scenarios` holds the three requests of
  `test/integration/api-filterData.spec.js`. It also holds the record that
  makes the handler throw.

Outside influences:

- The body parser, logging (winston), the HTTP response and the callback
  style are not modelled.
- The callback's two outcomes become the `Result` returned by
  `Pipeline.Handle`.

## Model

| member | source | states |
|---|---|---|
| Json.GetFound | server/api/filterData/filterData.js:131-135 | reading `item[key]` gives `undefined` exactly when no member has that key; otherwise it gives the value of a member with that key |
| Json.GetFirst | server/api/filterData/filterData.js:131-135 | reading a key gives the value of its first occurrence in the object |
| ShowSchema.Conforms | server/api/filterData/filterData.js:12-104 | the meaning of each property schema: the leaf types, with `minimum: 0` on integers; `image` as a closed object; `nextEpisode` as null or a closed object; `seasons` as null or an array of closed objects; `payload` as an array of at least one closed record |
| ShowSchema.ValidEnvelope | server/api/filterData/filterData.js:7-120 | the body is a closed object whose declared properties `payload`, `skip`, `take` and `totalRecords` are each absent only if optional and conform when present |
| ShowSchema.ShowTexts | server/api/filterData/filterData.js:21-31 | a record that passed the schema has string `slug`, `title` and `tvChannel` |
| ShowSchema.ShowDrm | server/api/filterData/filterData.js:38-40 | in a record that passed, `drm` is absent or a boolean |
| ShowSchema.ShowEpisodeCount | server/api/filterData/filterData.js:41-44 | in a record that passed, `episodeCount` is absent or a non-negative integer |
| ShowSchema.ShowImageField | server/api/filterData/filterData.js:90-100 | in a record that passed and has `image`, `image` is an object with a string `showImage` |
| ShowSchema.DeclaredProperty | server/api/filterData/filterData.js:12-22 | in a valid object, each declared property is absent only if optional, and conforms to its schema if present |
| ShowSchema.DeclaresSome | server/api/filterData/filterData.js:10 | a property table declares a key exactly when one of its entries has that key |
| Validator.LeafViolations | server/api/filterData/filterData.js:23-50 | a primitive value violates its `type` / `minimum` exactly when the schema rejects it; a non-integer count gives a `type` violation and a negative one a `minimum` violation, both at the value's path |
| Validator.Additional | server/api/filterData/filterData.js:10 | `additionalProperties: false` reports nothing exactly when every key is declared, and reports each undeclared key at the object's path |
| Validator.ShapeViolations | server/api/filterData/filterData.js:13-17 | a property value has no violations exactly when it conforms to its property schema; `null` passes exactly for `nextEpisode`, `seasons` and the string-or-null leaves |
| Validator.ItemViolations | server/api/filterData/filterData.js:17-21 | the first `n` array items have no violations exactly when each of them is a valid object |
| Validator.ItemViolationsInclude | server/api/filterData/filterData.js:17-21 | every violation of item `i` is reported among the array's violations, at path `[i]` |
| Validator.ObjectViolations | server/api/filterData/filterData.js:7-10 | an object has no violations exactly when it is valid; a non-object gives only a `type` violation; every undeclared key is reported |
| Validator.PropertyViolations | server/api/filterData/filterData.js:12-22 | the first `n` declared properties have no violations exactly when each of them is acceptable |
| Validator.OnePropertyViolations | server/api/filterData/filterData.js:9 | a declared property has no violations exactly when it is acceptable; an absent required one gives `required` at the object |
| Validator.PropertyViolationsInclude | server/api/filterData/filterData.js:12-22 | the violations of the `k`-th property are among those of the first `n` properties |
| Validator.ObjectIncludesProperty | server/api/filterData/filterData.js:12-22 | the violations of any declared property are among those of its object |
| Validator.PresentPropertyIncluded | server/api/filterData/filterData.js:12-22 | the violations of a present property's value are reported for its object, under the property's key |
| Validator.AbsentPropertyIncluded | server/api/filterData/filterData.js:9 | an absent required property is reported as `required` at its object |
| Validator.FirstUndeclaredKey | server/api/filterData/filterData.js:10 | the first `additionalProperties` violation names the first undeclared key in the object's own-key order, the order of ajv's `for...in` loop |
| Validator.FirstObjectViolation | server/api/filterData/filterData.js:7-12 | an object with an undeclared key reports that key first; a closed one reports its properties' violations |
| Validator.FirstFailingProperty | server/api/filterData/filterData.js:12-22 | the first violation among the declared properties is the first violation of the first property that fails |
| Validator.FirstFailingMember | server/api/filterData/filterData.js:12-22 | in a closed object, the first violation is that of the first failing declared property |
| Validator.FirstFailingItem | server/api/filterData/filterData.js:17-21 | the first violation among array items is that of the first failing item |
| Validator.ShapeCases | server/api/filterData/filterData.js:13-17 | `payload` must be an array with at least one item; `seasons`, `image` and `nextEpisode` are checked as their item or object schema |
| Validator.Violations | server/api/filterData/filterData.js:7-120 | `sendDataValidator(params)` fails exactly when the violation list is non-empty; a body that is not an object gives only a `type` violation at the top |
| Rejections.EnvelopeKeys | server/api/filterData/filterData.js:12-119 | the top level declares exactly `payload`, `skip`, `take` and `totalRecords` |
| Rejections.ShowKeys | server/api/filterData/filterData.js:22-104 | a record declares exactly its thirteen keys |
| Rejections.NextEpisodeKeys | server/api/filterData/filterData.js:54-73 | `nextEpisode` declares exactly `channel`, `channelLogo`, `date`, `html` and `url` |
| Rejections.SeasonKeys | server/api/filterData/filterData.js:82-87 | a season declares exactly `slug` |
| Rejections.ImageKeys | server/api/filterData/filterData.js:94-99 | `image` declares exactly `showImage` |
| Rejections.ImageIncluded | server/api/filterData/filterData.js:90-100 | an undeclared key or a missing `showImage` in a record's `image` is among the record's violations, at `.image` |
| Rejections.NextEpisodeIncluded | server/api/filterData/filterData.js:51-74 | an undeclared key of `nextEpisode` is among the record's violations |
| Rejections.SeasonIncluded | server/api/filterData/filterData.js:75-89 | an undeclared key or a missing `slug` in season `j` is among the record's violations, at `.seasons[j]` |
| Rejections.RecordIncluded | server/api/filterData/filterData.js:13-21 | every violation of record `i` is among the body's violations |
| Rejections.ExtraTopLevelKeyRejected | server/api/filterData/filterData.js:10 | an undeclared top-level key is reported as `additionalProperties` at the top |
| Rejections.PayloadRejected | server/api/filterData/filterData.js:9-16 | a missing, non-array or empty `payload` is reported as `required`, `type` or `minItems` |
| Rejections.PaginationRejected | server/api/filterData/filterData.js:107-118 | a non-integer or negative `skip`, `take` or `totalRecords` is reported as `type` or `minimum` |
| Rejections.RecordExtraKeyRejected | server/api/filterData/filterData.js:20 | an undeclared record key is reported at `.payload[i]` |
| Rejections.RecordMissingFieldRejected | server/api/filterData/filterData.js:21 | a record without `slug`, `title` or `tvChannel` is reported as `required` at `.payload[i]` |
| Rejections.EpisodeCountRejected | server/api/filterData/filterData.js:41-44 | a non-integer or negative `episodeCount` is reported as `type` or `minimum` at `.payload[i].episodeCount` |
| Rejections.ImageRejected | server/api/filterData/filterData.js:90-100 | an `image` with an undeclared key or without `showImage` is reported at `.payload[i].image` |
| Rejections.NextEpisodeExtraKeyRejected | server/api/filterData/filterData.js:51-54 | an undeclared `nextEpisode` key is reported at `.payload[i].nextEpisode` |
| Rejections.SeasonRejected | server/api/filterData/filterData.js:75-89 | a season with an undeclared key or without `slug` is reported at `.payload[i].seasons[j]` |
| Rejections.RecordNotObjectRejected | server/api/filterData/filterData.js:19 | a record that is not an object is reported as `type` at `.payload[i]` |
| Rejections.RecordPropertyRejected | server/api/filterData/filterData.js:22-104 | a present record property that breaks its schema has a non-empty violation list, all of it reported for the body under `.payload[i].<key>` |
| Report.NatText | test/integration/api-filterData.spec.js:67 | the decimal text of an index is a non-empty string of digits that denotes the index, with no leading zero |
| Report.PathTextAppend | test/integration/api-filterData.spec.js:67 | the `dataPath` text of a joined path is the joined text of its parts |
| Filter.Qualifies | server/api/filterData/filterData.js:131 | `item.drm && item.episodeCount > 0` on a validated record: `drm` is `true` and `episodeCount` is a positive integer; an absent field is falsy |
| Filter.Project | server/api/filterData/filterData.js:132-136 | the pushed element is the record's `image.showImage`, `slug` and `title` |
| Filter.Kept | server/api/filterData/filterData.js:131 | the kept positions increase strictly, each one satisfies `drm && episodeCount > 0`, and every position that satisfies it is kept |
| Filter.Select | server/api/filterData/filterData.js:130-139 | the reduce completes exactly when every kept record has an `image`; otherwise it throws at the first kept record without one |
| Filter.SelectProjects | server/api/filterData/filterData.js:130-139 | on completion, the k-th element is the projection of the k-th kept record, with one element per kept record |
| Pipeline.Payload | server/api/filterData/filterData.js:123-130 | a body that passed has a non-empty `payload` array, and every record in it passed |
| Pipeline.Handle | server/api/filterData/filterData.js:122-142 | a request is rejected exactly when it fails the schema, with the fixed message and a non-empty violation list; it succeeds only if every kept record has an image; it throws only at a kept record without one |
| Pipeline.HandleProjects | server/api/filterData/filterData.js:130-141 | a successful answer is the projection of the kept records, in payload order |
| Pipeline.HandleStrict | server/api/filterData/filterData.js:122-142 | the corrected handler never throws; it succeeds exactly when the body is valid and every kept record has an image |
| Pipeline.HandleStrictAgrees | server/api/filterData/filterData.js:130-136 | the corrected handler agrees with the one as written except where that one throws, and there it rejects with `required` `image` at `.payload[i]` |
| Scenarios.KeptOfThree | server/api/filterData/filterData.js:131 | of three records of which the first and the third qualify, positions 0 and 2 are kept |
| Scenarios.ThreeRecordsAnswered | server/api/filterData/filterData.js:130-141 | three valid records, the middle one not kept, are answered with the projections of the outer two |
| Scenarios.InvalidDataRejected | test/integration/api-filterData.spec.js:14-31 | `{invalidData: ...}` is rejected, and its first violation is `additionalProperties` at the top level |
| Scenarios.BadCountRejected | test/integration/api-filterData.spec.js:34-70 | a record with a string `episodeCount` is rejected, and its first violation is `type` at `.payload[0].episodeCount` |
| Scenarios.ValidDataResponse | test/integration/api-filterData.spec.js:73-151 | the three-record request is answered with the two expected elements, and the record without `drm` is left out |
| Scenarios.OneImagelessRecordThrows | server/api/filterData/filterData.js:131-133 | a body whose one record passes the schema and qualifies but has no `image` passes the schema too, and the handler throws at record 0 |
| Scenarios.ImagelessRecordThrows | server/api/filterData/filterData.js:131-133 | the record `{slug, title, tvChannel, drm: true, episodeCount: 1}` is accepted by the schema, and the handler throws on it |

## Left out

- `filterDataPostRoute` (the Express handler), the body parser and the
  HTTP status are not modelled. The code answers a failure with status 400
  and the bare `{error}` object. The API comment and the integration tests
  expect 404 and `{message: 'invalid data input', detail}`. The model
  follows `filterDataor`: the failure carries the code's message. Its
  `detail` is the violation list, which the code only logs.
- Logging through winston is not modelled, because it has no effect on
  the result.
- ajv's human-readable `message` texts (for example "should be integer")
  are not modelled. Violations carry the keyword and the path only.
- ajv stops at the first violation in its default mode. The model
  collects all of them, and the head of its list is the one ajv reports.
- Numbers keep only what the schema distinguishes: a finite number with an
  integer value, or any other finite number. `minimum: 0` is checked only
  on integers. The schema applies it only to integer-typed fields, and a
  non-integer is already rejected by `type`.
- Non-finite numbers are not represented. `JSON.parse` turns a literal
  such as `1e400` into `Infinity`. ajv's default `type: 'integer'` test
  (`x % 1` is zero, with `NaN` counted as zero) accepts both infinities.
  In the source, an `episodeCount` of `Infinity` passes the schema and
  counts as `> 0`. A `skip` of `-Infinity` is reported as `minimum`. A
  body holding such a number has no counterpart in the model.
- The model does not work out JavaScript's own-key order from the body
  text. An object's members are taken to be listed in that order
  already. Only then is the first reported undeclared key the one ajv
  names.
- Objects with a repeated key are modelled as member lists where lookup
  sees the first occurrence. A JSON parser would usually keep the last
  occurrence. Either reading gives one value per key.
- The `description` annotations and the empty `definitions` of the schema
  have no effect on validation and are not modelled.
- Determinism of the answer is not stated as a separate property. Every
  operation is a pure function of the body, so the same body always gets
  the same answer.
- `Pipeline.Handle` turns the callback style of the code into a returned
  `Result`. Calling the callback exactly once and the asynchronous timing
  are not modelled.

## Findings

| source | as written | input that shows it | evidently intended | confidence | as-written member | corrected member |
|---|---|---|---|---|---|---|
| server/api/filterData/filterData.js:133 | the schema does not require `image` (lines 90-100 and 21), yet the reduce reads `item.image.showImage` on every record with `drm` true and a positive `episodeCount` | `{payload: [{slug: "s", title: "t", tvChannel: "c", drm: true, episodeCount: 1}]}` passes the schema, and the reduce then throws a TypeError | a record that is kept but has no `image` is rejected like any other invalid input, and not answered by an exception | not executed | Scenarios.ImagelessRecordThrows | Pipeline.HandleStrict |
