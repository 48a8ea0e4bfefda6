/**
 * Reading a finished job's output (src/result_processor.py): walk the assets
 * and their segments, and for every segment whose custom output matched a
 * blueprint, display the configured fields and collect them into one map.
 *
 * Two lookups of the same field specs live side by side here. Display
 * (`_print_field`) resolves `group/field` by descending one level into the
 * inference result; extraction (`_extract_fields_from_custom_output`) looks
 * the whole spec string up flat with `.get`. `ExtractionIsFlat` shows the two
 * disagreeing on a grouped spec.
 */
module ResultProcessor {
  import opened PyJson
  import opened Strings
  import opened BdaClient

  /** The set of configured field specs. */
  function FieldSet(fields: seq<string>): set<string>
  {
    set f | f in fields
  }

  // ---------------------------------------------------------------------
  // Display side: `_print_field` and the loop in `_print_custom_results`
  // ---------------------------------------------------------------------

  /** One displayed field: its name, its raw value, what is shown for the
      value, and its confidence. */
  datatype Displayed = Displayed(field: string, value: Json, shown: Json, confidence: Json)

  const EmptyMarker := JStr("<EMPTY>")

  /** `value or '<EMPTY>'`. */
  function Shown(value: Json): Json
  {
    if Truthy(value) then value else EmptyMarker
  }

  /** `custom_output_result['explainability_info'][0]`. */
  function ExplainabilityInfo(custom: Json): Result<Json>
  {
    var infos :- Subscript(custom, "explainability_info");
    Index0(infos)
  }

  /** Where a spec is looked up: the inference result and explainability
      entry to read the field from, and the field name. A spec with a `/`
      is unpacked into exactly two parts, group and field, and both lookups
      descend into the group; more than one `/` fails the unpacking. */
  function Scope(spec: string, inference: Json, info: Json): Result<(Json, Json, string)>
  {
    if '/' in spec then
      var parts := Split(spec, '/');
      if |parts| != 2 then Err(ValueError)
      else
        var groupValues :- Subscript(inference, parts[0]);
        var groupInfo :- Subscript(info, parts[0]);
        Ok((groupValues, groupInfo, parts[1]))
    else Ok((inference, info, spec))
  }

  /** `_print_field`: the value and confidence displayed for one spec. */
  function DisplayField(spec: string, custom: Json): (r: Result<Displayed>)
    ensures r.Ok? ==> r.value.shown == (if Truthy(r.value.value) then r.value.value else EmptyMarker)
    ensures r.Ok? ==> '/' !in r.value.field
  {
    var inference :- Subscript(custom, "inference_result");
    var info :- ExplainabilityInfo(custom);
    var scope :- Scope(spec, inference, info);
    var value :- Subscript(scope.0, scope.2);
    var entry :- Subscript(scope.1, scope.2);
    var confidence :- Subscript(entry, "confidence");
    Ok(Displayed(scope.2, value, Shown(value), confidence))
  }

  /** A bare spec `f` displays `inference_result[f]` with confidence
      `explainability_info[0][f]['confidence']`, and fails exactly when one
      of those lookups fails. */
  lemma DisplayBareSpec(spec: string, custom: Json, inference: Json, info: Json)
    requires '/' !in spec
    requires Subscript(custom, "inference_result") == Ok(inference)
    requires ExplainabilityInfo(custom) == Ok(info)
    ensures DisplayField(spec, custom).Ok?
            <==> Path(inference, [spec]).Ok? && Path(info, [spec, "confidence"]).Ok?
    ensures DisplayField(spec, custom).Ok? ==>
              DisplayField(spec, custom).value
              == Displayed(spec, Path(inference, [spec]).value, Shown(Path(inference, [spec]).value),
                           Path(info, [spec, "confidence"]).value)
  {
    PathOne(inference, spec);
    PathTwo(info, spec, "confidence");
  }

  /** A spec `g/f` displays `inference_result[g][f]` with confidence
      `explainability_info[0][g][f]['confidence']`, and fails exactly when one
      of those lookups fails. */
  lemma DisplayGroupedSpec(group: string, field: string, custom: Json, inference: Json, info: Json)
    requires '/' !in group && '/' !in field
    requires Subscript(custom, "inference_result") == Ok(inference)
    requires ExplainabilityInfo(custom) == Ok(info)
    ensures DisplayField(group + "/" + field, custom).Ok?
            <==> Path(inference, [group, field]).Ok? && Path(info, [group, field, "confidence"]).Ok?
    ensures DisplayField(group + "/" + field, custom).Ok? ==>
              DisplayField(group + "/" + field, custom).value
              == Displayed(field, Path(inference, [group, field]).value,
                           Shown(Path(inference, [group, field]).value),
                           Path(info, [group, field, "confidence"]).value)
  {
    var spec := group + "/" + field;
    SplitCons(group, '/', field);
    SplitWithoutSep(field, '/');
    assert Split(spec, '/') == [group, field];
    assert '/' in spec by { assert spec[|group|] == '/'; }
    PathTwo(inference, group, field);
    PathThree(info, group, field, "confidence");
    if Subscript(info, group).Ok? {
      PathTwo(Subscript(info, group).value, field, "confidence");
    }
  }

  /** A spec with two or more `/` fails at the tuple unpacking, once the
      inference result and the explainability entry have been read. */
  lemma DisplayTooManySlashes(spec: string, custom: Json)
    requires Count(spec, '/') >= 2
    requires Subscript(custom, "inference_result").Ok? && ExplainabilityInfo(custom).Ok?
    ensures DisplayField(spec, custom) == Err(ValueError)
  {
    var parts := Split(spec, '/');
    assert '/' in spec by {
      JoinSplit(spec, '/');
      assert [parts[0]] + parts[1..] == parts;
      JoinAppend('/', [parts[0]], parts[1..]);
      assert spec[|parts[0]|] == '/';
    }
  }

  /** The displayed lines for a list of specs, in order; the first spec that
      fails to resolve fails the whole display. */
  function DisplayFields(specs: seq<string>, custom: Json): Result<seq<Displayed>>
  {
    if specs == [] then Ok([])
    else
      var earlier :- DisplayFields(specs[..|specs| - 1], custom);
      var line :- DisplayField(specs[|specs| - 1], custom);
      Ok(earlier + [line])
  }

  /** Displaying a list of specs succeeds exactly when every spec resolves,
      and then shows one line per spec, in order. */
  lemma {:induction false} DisplayFieldsAll(specs: seq<string>, custom: Json)
    ensures DisplayFields(specs, custom).Ok?
            <==> forall i | 0 <= i < |specs| :: DisplayField(specs[i], custom).Ok?
    ensures DisplayFields(specs, custom).Ok? ==>
              |DisplayFields(specs, custom).value| == |specs|
              && forall i | 0 <= i < |specs| ::
                   DisplayFields(specs, custom).value[i] == DisplayField(specs[i], custom).value
  {
    if specs != [] {
      var n := |specs| - 1;
      var earlier := specs[..n];
      DisplayFieldsAll(earlier, custom);
      assert forall i | 0 <= i < n :: earlier[i] == specs[i];
    }
  }

  /** Once a prefix of the specs fails to display, the whole list fails
      with the same error. */
  lemma {:induction false} DisplayFieldsErrSticky(specs: seq<string>, k: nat, custom: Json)
    requires k <= |specs|
    requires DisplayFields(specs[..k], custom).Err?
    ensures DisplayFields(specs, custom) == DisplayFields(specs[..k], custom)
  {
    if k < |specs| {
      var n := |specs| - 1;
      assert specs[..n][..k] == specs[..k];
      DisplayFieldsErrSticky(specs[..n], k, custom);
    } else {
      assert specs[..k] == specs;
    }
  }

  // ---------------------------------------------------------------------
  // Extraction side: `_extract_fields_from_custom_output`
  // ---------------------------------------------------------------------

  /** What extraction returns: nothing for another blueprint; for the
      configured one, every spec mapped to `inference_result.get(spec)`,
      looked up flat, None where absent. */
  function ExtractedFields(custom: Json, blueprintName: string, fields: seq<string>)
    : Result<map<string, Json>>
  {
    var blueprint :- Subscript(custom, "matched_blueprint");
    var name :- Subscript(blueprint, "name");
    if name != JStr(blueprintName) then Ok(map[])
    else
      var inference :- Subscript(custom, "inference_result");
      if fields == [] then Ok(map[])
      else if !inference.JObj? then Err(AttributeError)
      else Ok(map f | f in fields :: GetOrNull(inference.fields, f))
  }

  /** `_extract_fields_from_custom_output`: the loop that fills the map one
      spec at a time. */
  method ExtractFieldsFromCustomOutput(custom: Json, blueprintName: string, fields: seq<string>)
    returns (r: Result<map<string, Json>>)
    ensures r == ExtractedFields(custom, blueprintName, fields)
  {
    var extracted: map<string, Json> := map[];
    var blueprint :- Subscript(custom, "matched_blueprint");
    var name :- Subscript(blueprint, "name");
    if name == JStr(blueprintName) {
      var inference :- Subscript(custom, "inference_result");
      var i := 0;
      while i < |fields|
        invariant 0 <= i <= |fields|
        invariant extracted.Keys == FieldSet(fields[..i])
        invariant forall f | f in extracted ::
                    inference.JObj? && extracted[f] == GetOrNull(inference.fields, f)
      {
        var value :- Get(inference, fields[i]);
        extracted := extracted[fields[i] := value];
        assert fields[..i + 1] == fields[..i] + [fields[i]];
        i := i + 1;
      }
      assert fields[..i] == fields;
      if fields != [] {
        assert fields[0] in extracted;
        assert extracted == map f | f in fields :: GetOrNull(inference.fields, f);
      }
    }
    r := Ok(extracted);
  }

  /** A custom output for another blueprint contributes nothing. */
  lemma ExtractOtherBlueprint(custom: Json, blueprintName: string, fields: seq<string>)
    requires Path(custom, ["matched_blueprint", "name"]).Ok?
    requires Path(custom, ["matched_blueprint", "name"]).value != JStr(blueprintName)
    ensures ExtractedFields(custom, blueprintName, fields) == Ok(map[])
  {
    PathTwo(custom, "matched_blueprint", "name");
  }

  /** For the configured blueprint, the extracted keys are exactly the
      configured specs, each mapped to `inference_result.get(spec)`. */
  lemma ExtractMatchingBlueprint(custom: Json, blueprintName: string, fields: seq<string>,
                                 inference: map<string, Json>)
    requires Path(custom, ["matched_blueprint", "name"]) == Ok(JStr(blueprintName))
    requires Subscript(custom, "inference_result") == Ok(JObj(inference))
    ensures ExtractedFields(custom, blueprintName, fields).Ok?
    ensures ExtractedFields(custom, blueprintName, fields).value.Keys == FieldSet(fields)
    ensures forall f | f in fields ::
              ExtractedFields(custom, blueprintName, fields).value[f]
              == (if f in inference then inference[f] else JNull)
  {
    PathTwo(custom, "matched_blueprint", "name");
  }

  /** Extraction never descends into groups: for a spec `g/f` it stores
      `inference_result.get("g/f")`, None when only the nested
      `inference_result["g"]["f"]` exists, while display shows the nested value. */
  lemma ExtractionIsFlat(group: string, field: string, value: Json, custom: Json,
                         blueprintName: string, inference: map<string, Json>, info: Json)
    requires '/' !in group && '/' !in field
    requires Path(custom, ["matched_blueprint", "name"]) == Ok(JStr(blueprintName))
    requires Subscript(custom, "inference_result") == Ok(JObj(inference))
    requires ExplainabilityInfo(custom) == Ok(info)
    requires Path(JObj(inference), [group, field]) == Ok(value)
    requires Path(info, [group, field, "confidence"]).Ok?
    requires group + "/" + field !in inference
    ensures DisplayField(group + "/" + field, custom).Ok?
    ensures DisplayField(group + "/" + field, custom).value.value == value
    ensures ExtractedFields(custom, blueprintName, [group + "/" + field])
            == Ok(map[group + "/" + field := JNull])
  {
    var spec := group + "/" + field;
    DisplayGroupedSpec(group, field, custom, JObj(inference), info);
    ExtractMatchingBlueprint(custom, blueprintName, [spec], inference);
    assert FieldSet([spec]) == {spec};
    var m := ExtractedFields(custom, blueprintName, [spec]).value;
    assert m == map[spec := JNull];
  }

  // ---------------------------------------------------------------------
  // `_print_custom_results`: display, then extract
  // ---------------------------------------------------------------------

  /** What `_print_custom_results` returns: the header lookups it displays,
      then, for the configured blueprint, the display of every spec (any
      failure there fails the whole call), then the extracted map. */
  function CustomFields(custom: Json, blueprintName: string, fields: seq<string>)
    : Result<map<string, Json>>
  {
    var blueprint :- Subscript(custom, "matched_blueprint");
    var name :- Subscript(blueprint, "name");
    var confidence :- Subscript(blueprint, "confidence");
    var documentClass :- Subscript(custom, "document_class");
    var kind :- Subscript(documentClass, "type");
    var lines :- if name == JStr(blueprintName) then DisplayFields(fields, custom) else Ok([]);
    ExtractedFields(custom, blueprintName, fields)
  }

  /** `_print_custom_results`. */
  method DisplayCustomResults(custom: Json, blueprintName: string, fields: seq<string>)
    returns (r: Result<map<string, Json>>)
    ensures r == CustomFields(custom, blueprintName, fields)
  {
    var blueprint :- Subscript(custom, "matched_blueprint");
    var name :- Subscript(blueprint, "name");
    var confidence :- Subscript(blueprint, "confidence");
    var documentClass :- Subscript(custom, "document_class");
    var kind :- Subscript(documentClass, "type");
    if name == JStr(blueprintName) {
      var k := 0;
      while k < |fields|
        invariant 0 <= k <= |fields|
        invariant DisplayFields(fields[..k], custom).Ok?
      {
        var line := DisplayField(fields[k], custom);
        assert fields[..k + 1][..k] == fields[..k];
        if line.Err? {
          DisplayFieldsErrSticky(fields, k + 1, custom);
          return Err(line.error);
        }
        k := k + 1;
      }
      assert fields[..k] == fields;
    }
    r := ExtractFieldsFromCustomOutput(custom, blueprintName, fields);
  }

  /** For the configured blueprint, a spec whose display fails (a missing
      field or confidence) fails the whole call: no partial map. */
  lemma MatchedDisplayFailureFails(custom: Json, blueprintName: string, fields: seq<string>, i: nat)
    requires Path(custom, ["matched_blueprint", "name"]) == Ok(JStr(blueprintName))
    requires i < |fields| && DisplayField(fields[i], custom).Err?
    ensures CustomFields(custom, blueprintName, fields).Err?
  {
    DisplayFieldsAll(fields, custom);
    PathTwo(custom, "matched_blueprint", "name");
  }

  /** For the configured blueprint, a successful call returns every spec,
      and a bare spec's stored value is the raw value that was displayed
      (shown as `<EMPTY>` when falsy). */
  lemma MatchedResultAgreesWithDisplay(custom: Json, blueprintName: string, fields: seq<string>, i: nat)
    requires Path(custom, ["matched_blueprint", "name"]) == Ok(JStr(blueprintName))
    requires CustomFields(custom, blueprintName, fields).Ok?
    requires i < |fields| && '/' !in fields[i]
    ensures fields[i] in CustomFields(custom, blueprintName, fields).value
    ensures DisplayField(fields[i], custom).Ok?
    ensures CustomFields(custom, blueprintName, fields).value[fields[i]]
            == DisplayField(fields[i], custom).value.value
    ensures DisplayField(fields[i], custom).value.shown
            == Shown(CustomFields(custom, blueprintName, fields).value[fields[i]])
  {
    PathTwo(custom, "matched_blueprint", "name");
    DisplayFieldsAll(fields, custom);
    var inference := Subscript(custom, "inference_result").value;
    assert inference.JObj?;
    ExtractMatchingBlueprint(custom, blueprintName, fields, inference.fields);
  }

  /** A custom output contributes either nothing or every configured spec. */
  lemma CustomFieldsShape(custom: Json, blueprintName: string, fields: seq<string>)
    requires CustomFields(custom, blueprintName, fields).Ok?
    ensures var m := CustomFields(custom, blueprintName, fields).value;
            m == map[] || m.Keys == FieldSet(fields)
  {
  }

  // ---------------------------------------------------------------------
  // `process_bda_results`: the walk over assets and segments
  // ---------------------------------------------------------------------

  /** A segment whose custom output status is present and is `MATCH`. */
  predicate IsMatch(segment: Json)
  {
    segment.JObj? && "custom_output_status" in segment.fields
    && segment.fields["custom_output_status"] == JStr("MATCH")
  }

  /** What one segment adds: its standard output must be readable; only a
      matching segment's custom output is read and contributes fields. */
  function SegmentFields(store: Store, segment: Json, blueprintName: string, fields: seq<string>)
    : Result<map<string, Json>>
  {
    var standardPath :- Subscript(segment, "standard_output_path");
    var standard :- GetJsonObject(store, standardPath);
    var modality :- Path(standard, ["metadata", "semantic_modality"]);
    if IsMatch(segment) then
      var customPath :- Subscript(segment, "custom_output_path");
      var custom :- GetJsonObject(store, customPath);
      CustomFields(custom, blueprintName, fields)
    else Ok(map[])
  }

  /** A segment contributes nothing or every configured spec, and nothing
      at all unless it is a match. */
  lemma SegmentFieldsShape(store: Store, segment: Json, blueprintName: string, fields: seq<string>)
    requires SegmentFields(store, segment, blueprintName, fields).Ok?
    ensures var c := SegmentFields(store, segment, blueprintName, fields).value;
            (c == map[] || c.Keys == FieldSet(fields)) && (!IsMatch(segment) ==> c == map[])
  {
  }

  /** `extracted_data.update(...)` over a run of segments, starting from
      `acc`: later segments overwrite earlier ones. */
  function FoldSegments(store: Store, segments: seq<Json>, blueprintName: string,
                        fields: seq<string>, acc: map<string, Json>): Result<map<string, Json>>
  {
    if segments == [] then Ok(acc)
    else
      var earlier :- FoldSegments(store, segments[..|segments| - 1], blueprintName, fields, acc);
      var added :- SegmentFields(store, segments[|segments| - 1], blueprintName, fields);
      Ok(earlier + added)
  }

  /** Once a prefix of the segments fails, the whole walk fails the same way. */
  lemma {:induction false} FoldSegmentsErrSticky(store: Store, segments: seq<Json>, k: nat,
                                                 blueprintName: string, fields: seq<string>,
                                                 acc: map<string, Json>)
    requires k <= |segments|
    requires FoldSegments(store, segments[..k], blueprintName, fields, acc).Err?
    ensures FoldSegments(store, segments, blueprintName, fields, acc)
            == FoldSegments(store, segments[..k], blueprintName, fields, acc)
  {
    if k < |segments| {
      var n := |segments| - 1;
      assert segments[..n][..k] == segments[..k];
      FoldSegmentsErrSticky(store, segments[..n], k, blueprintName, fields, acc);
    } else {
      assert segments[..k] == segments;
    }
  }

  /** Folding over two runs of segments is folding over the first, then
      over the second from there. */
  lemma {:induction false} FoldSegmentsAppend(store: Store, a: seq<Json>, b: seq<Json>,
                                              blueprintName: string, fields: seq<string>,
                                              acc: map<string, Json>)
    ensures FoldSegments(store, a + b, blueprintName, fields, acc)
            == match FoldSegments(store, a, blueprintName, fields, acc)
               case Ok(m) => FoldSegments(store, b, blueprintName, fields, m)
               case Err(e) => Err(e)
  {
    if b == [] {
      assert a + b == a;
    } else {
      var n := |b| - 1;
      assert (a + b)[..|a + b| - 1] == a + b[..n];
      assert (a + b)[|a + b| - 1] == b[n];
      FoldSegmentsAppend(store, a, b[..n], blueprintName, fields, acc);
    }
  }

  /** Segments that all contribute nothing leave the map as it was. */
  predicate Silent(store: Store, segments: seq<Json>, blueprintName: string, fields: seq<string>)
  {
    forall j | 0 <= j < |segments| :: SegmentFields(store, segments[j], blueprintName, fields).Ok?
                                      ==> SegmentFields(store, segments[j], blueprintName, fields).value == map[]
  }

  /** Segment `j` contributed `m`, which is not empty, and every segment
      after it contributed nothing. */
  predicate LastContribution(store: Store, segments: seq<Json>, j: int, m: map<string, Json>,
                             blueprintName: string, fields: seq<string>)
  {
    && 0 <= j < |segments|
    && SegmentFields(store, segments[j], blueprintName, fields) == Ok(m)
    && m != map[]
    && Silent(store, segments[j + 1..], blueprintName, fields)
  }

  /** Last write wins: after a successful run of segments the map is either
      the starting map, every segment having contributed nothing, or exactly
      the contribution of the last segment that contributed anything. */
  lemma {:induction false} FoldSegmentsLastWins(store: Store, segments: seq<Json>, blueprintName: string,
                                                fields: seq<string>, acc: map<string, Json>)
    requires acc.Keys <= FieldSet(fields)
    requires FoldSegments(store, segments, blueprintName, fields, acc).Ok?
    ensures var m := FoldSegments(store, segments, blueprintName, fields, acc).value;
            m.Keys <= FieldSet(fields)
            && ((m == acc && Silent(store, segments, blueprintName, fields))
                || exists j :: LastContribution(store, segments, j, m, blueprintName, fields))
  {
    if segments != [] {
      var n := |segments| - 1;
      var earlier := segments[..n];
      assert earlier + [segments[n]] == segments;
      FoldSegmentsLastWins(store, earlier, blueprintName, fields, acc);
      var before := FoldSegments(store, earlier, blueprintName, fields, acc).value;
      SegmentFieldsShape(store, segments[n], blueprintName, fields);
      var added := SegmentFields(store, segments[n], blueprintName, fields).value;
      assert FoldSegments(store, segments, blueprintName, fields, acc) == Ok(before + added);
      LastWinsStep(store, earlier, segments[n], blueprintName, fields, acc, before, added);
    }
  }

  /** The inductive step of `FoldSegmentsLastWins`: one more segment, which
      contributes `added`, on top of the map `before`. */
  lemma LastWinsStep(store: Store, earlier: seq<Json>, segment: Json, blueprintName: string,
                     fields: seq<string>, acc: map<string, Json>,
                     before: map<string, Json>, added: map<string, Json>)
    requires before.Keys <= FieldSet(fields)
    requires (before == acc && Silent(store, earlier, blueprintName, fields))
             || exists j :: LastContribution(store, earlier, j, before, blueprintName, fields)
    requires SegmentFields(store, segment, blueprintName, fields) == Ok(added)
    requires added == map[] || added.Keys == FieldSet(fields)
    ensures (before + added).Keys <= FieldSet(fields)
    ensures var all, m := earlier + [segment], before + added;
            (m == acc && Silent(store, all, blueprintName, fields))
            || exists j :: LastContribution(store, all, j, m, blueprintName, fields)
  {
    if added == map[] {
      assert before + added == before;
      if before == acc && Silent(store, earlier, blueprintName, fields) {
        SilentExtend(store, earlier, segment, blueprintName, fields);
      } else {
        var j :| LastContribution(store, earlier, j, before, blueprintName, fields);
        LastContributionExtend(store, earlier, segment, j, before, blueprintName, fields);
      }
    } else {
      assert before + added == added;
      LastContributionNew(store, earlier, segment, added, blueprintName, fields);
    }
  }

  /** A segment that contributes nothing leaves the last contribution where
      it was. */
  lemma LastContributionExtend(store: Store, earlier: seq<Json>, segment: Json, j: int,
                               m: map<string, Json>, blueprintName: string, fields: seq<string>)
    requires LastContribution(store, earlier, j, m, blueprintName, fields)
    requires SegmentFields(store, segment, blueprintName, fields) == Ok(map[])
    ensures LastContribution(store, earlier + [segment], j, m, blueprintName, fields)
  {
    SilentExtend(store, earlier[j + 1..], segment, blueprintName, fields);
    assert (earlier + [segment])[j + 1..] == earlier[j + 1..] + [segment];
    assert (earlier + [segment])[j] == earlier[j];
  }

  /** A segment that contributes something is the last contribution. */
  lemma LastContributionNew(store: Store, earlier: seq<Json>, segment: Json, m: map<string, Json>,
                            blueprintName: string, fields: seq<string>)
    requires SegmentFields(store, segment, blueprintName, fields) == Ok(m) && m != map[]
    ensures LastContribution(store, earlier + [segment], |earlier|, m, blueprintName, fields)
  {
    var all := earlier + [segment];
    assert all[|earlier|] == segment;
    assert all[|earlier| + 1..] == [];
  }

  /** A silent run stays silent when a segment contributing nothing is added. */
  lemma SilentExtend(store: Store, segments: seq<Json>, segment: Json, blueprintName: string,
                     fields: seq<string>)
    requires Silent(store, segments, blueprintName, fields)
    requires SegmentFields(store, segment, blueprintName, fields) == Ok(map[])
    ensures Silent(store, segments + [segment], blueprintName, fields)
  {
    var all := segments + [segment];
    forall j | 0 <= j < |all|
      ensures SegmentFields(store, all[j], blueprintName, fields).Ok?
              ==> SegmentFields(store, all[j], blueprintName, fields).value == map[]
    {
      if j < |segments| { assert all[j] == segments[j]; }
    }
  }

  /** The segment list of an asset, when it has one. */
  function SegmentsOf(asset: Json): seq<Json>
  {
    if asset.JObj? && "segment_metadata" in asset.fields && asset.fields["segment_metadata"].JArr?
    then asset.fields["segment_metadata"].items
    else []
  }

  /** What one asset does to the map: it must have an id and a list of
      segments, which are folded in order. */
  function AssetFields(store: Store, asset: Json, blueprintName: string, fields: seq<string>,
                       acc: map<string, Json>): Result<map<string, Json>>
  {
    var assetId :- Subscript(asset, "asset_id");
    var segments :- Subscript(asset, "segment_metadata");
    if !segments.JArr? then Err(TypeError)
    else FoldSegments(store, segments.items, blueprintName, fields, acc)
  }

  /** The assets, visited in order, each starting from the map the previous
      one left. */
  function FoldAssets(store: Store, assets: seq<Json>, blueprintName: string, fields: seq<string>,
                      acc: map<string, Json>): Result<map<string, Json>>
  {
    if assets == [] then Ok(acc)
    else
      var earlier :- FoldAssets(store, assets[..|assets| - 1], blueprintName, fields, acc);
      AssetFields(store, assets[|assets| - 1], blueprintName, fields, earlier)
  }

  /** Walking one more asset continues from where the shorter walk ended. */
  lemma FoldAssetsSnoc(store: Store, assets: seq<Json>, i: nat, blueprintName: string,
                       fields: seq<string>, acc: map<string, Json>)
    requires i < |assets|
    ensures FoldAssets(store, assets[..i + 1], blueprintName, fields, acc)
            == match FoldAssets(store, assets[..i], blueprintName, fields, acc)
               case Ok(m) => AssetFields(store, assets[i], blueprintName, fields, m)
               case Err(e) => Err(e)
  {
    assert assets[..i + 1][..i] == assets[..i];
  }

  /** Once a prefix of the assets fails, the whole walk fails the same way. */
  lemma {:induction false} FoldAssetsErrSticky(store: Store, assets: seq<Json>, k: nat,
                                               blueprintName: string, fields: seq<string>,
                                               acc: map<string, Json>)
    requires k <= |assets|
    requires FoldAssets(store, assets[..k], blueprintName, fields, acc).Err?
    ensures FoldAssets(store, assets, blueprintName, fields, acc)
            == FoldAssets(store, assets[..k], blueprintName, fields, acc)
  {
    if k < |assets| {
      var n := |assets| - 1;
      assert assets[..n][..k] == assets[..k];
      FoldAssetsErrSticky(store, assets[..n], k, blueprintName, fields, acc);
    } else {
      assert assets[..k] == assets;
    }
  }

  /** All segments of all assets, in document order. */
  function AllSegments(assets: seq<Json>): seq<Json>
  {
    if assets == [] then []
    else AllSegments(assets[..|assets| - 1]) + SegmentsOf(assets[|assets| - 1])
  }

  /** A successful walk over the assets is one fold over all their segments
      in document order: assets in order, segments of each asset in order. */
  lemma {:induction false} FoldAssetsIsFlat(store: Store, assets: seq<Json>, blueprintName: string,
                                            fields: seq<string>, acc: map<string, Json>)
    requires FoldAssets(store, assets, blueprintName, fields, acc).Ok?
    ensures FoldAssets(store, assets, blueprintName, fields, acc)
            == FoldSegments(store, AllSegments(assets), blueprintName, fields, acc)
  {
    if assets != [] {
      var n := |assets| - 1;
      FoldAssetsIsFlat(store, assets[..n], blueprintName, fields, acc);
      FoldSegmentsAppend(store, AllSegments(assets[..n]), SegmentsOf(assets[n]), blueprintName, fields, acc);
    }
  }

  /** `process_bda_results` as a specification: read the job metadata, then
      walk its assets starting from an empty map. */
  function BdaResults(store: Store, metadataUri: Json, blueprintName: string, fields: seq<string>)
    : Result<map<string, Json>>
  {
    var metadata :- GetJsonObject(store, metadataUri);
    var assets :- Subscript(metadata, "output_metadata");
    if !assets.JArr? then Err(TypeError)
    else FoldAssets(store, assets.items, blueprintName, fields, map[])
  }

  /** The job's segments, in document order, when the metadata is readable. */
  function JobSegments(store: Store, metadataUri: Json): seq<Json>
  {
    var metadata := GetJsonObject(store, metadataUri);
    if metadata.Ok? && Subscript(metadata.value, "output_metadata").Ok?
       && Subscript(metadata.value, "output_metadata").value.JArr?
    then AllSegments(Subscript(metadata.value, "output_metadata").value.items)
    else []
  }

  /** The result of a successful run: only configured specs, and either
      empty, every segment having contributed nothing, or exactly what the
      last contributing segment of the whole document contributed. */
  lemma BdaResultsLastMatchWins(store: Store, metadataUri: Json, blueprintName: string, fields: seq<string>)
    requires BdaResults(store, metadataUri, blueprintName, fields).Ok?
    ensures var m := BdaResults(store, metadataUri, blueprintName, fields).value;
            var segments := JobSegments(store, metadataUri);
            m.Keys <= FieldSet(fields)
            && ((m == map[] && Silent(store, segments, blueprintName, fields))
                || exists j :: LastContribution(store, segments, j, m, blueprintName, fields))
  {
    var metadata := GetJsonObject(store, metadataUri).value;
    var assets := Subscript(metadata, "output_metadata").value.items;
    assert BdaResults(store, metadataUri, blueprintName, fields)
           == FoldAssets(store, assets, blueprintName, fields, map[]);
    assert JobSegments(store, metadataUri) == AllSegments(assets);
    FoldAssetsIsFlat(store, assets, blueprintName, fields, map[]);
    FoldSegmentsLastWins(store, AllSegments(assets), blueprintName, fields, map[]);
  }

  /** A job none of whose segments is a match yields the empty map. */
  lemma BdaResultsWithoutMatch(store: Store, metadataUri: Json, blueprintName: string, fields: seq<string>)
    requires BdaResults(store, metadataUri, blueprintName, fields).Ok?
    requires forall s | s in JobSegments(store, metadataUri) :: !IsMatch(s)
    ensures BdaResults(store, metadataUri, blueprintName, fields) == Ok(map[])
  {
    var segments := JobSegments(store, metadataUri);
    BdaResultsLastMatchWins(store, metadataUri, blueprintName, fields);
    var m := BdaResults(store, metadataUri, blueprintName, fields).value;
    if m != map[] {
      var j :| LastContribution(store, segments, j, m, blueprintName, fields);
      SegmentFieldsShape(store, segments[j], blueprintName, fields);
      assert false;
    }
  }

  /** A successful run yields either nothing or exactly the configured specs. */
  lemma BdaResultsShape(store: Store, metadataUri: Json, blueprintName: string, fields: seq<string>)
    requires BdaResults(store, metadataUri, blueprintName, fields).Ok?
    ensures var m := BdaResults(store, metadataUri, blueprintName, fields).value;
            m == map[] || m.Keys == FieldSet(fields)
  {
    BdaResultsLastMatchWins(store, metadataUri, blueprintName, fields);
    var m := BdaResults(store, metadataUri, blueprintName, fields).value;
    if m != map[] {
      var segments := JobSegments(store, metadataUri);
      var j :| LastContribution(store, segments, j, m, blueprintName, fields);
      SegmentFieldsShape(store, segments[j], blueprintName, fields);
    }
  }

  /** A matching segment whose custom output is readable and names the
      configured blueprint. */
  predicate MatchesBlueprint(store: Store, segment: Json, blueprintName: string)
  {
    && IsMatch(segment)
    && "custom_output_path" in segment.fields
    && GetJsonObject(store, segment.fields["custom_output_path"]).Ok?
    && Path(GetJsonObject(store, segment.fields["custom_output_path"]).value, ["matched_blueprint", "name"])
       == Ok(JStr(blueprintName))
  }

  /** With at least one configured spec, a segment that is read without
      error contributes something exactly when it matches the configured
      blueprint. */
  lemma SegmentContributesIffMatched(store: Store, segment: Json, blueprintName: string, fields: seq<string>)
    requires fields != []
    requires SegmentFields(store, segment, blueprintName, fields).Ok?
    ensures SegmentFields(store, segment, blueprintName, fields).value != map[]
            <==> MatchesBlueprint(store, segment, blueprintName)
  {
    if IsMatch(segment) {
      var custom := GetJsonObject(store, segment.fields["custom_output_path"]).value;
      assert SegmentFields(store, segment, blueprintName, fields) == CustomFields(custom, blueprintName, fields);
      PathTwo(custom, "matched_blueprint", "name");
      var name := Subscript(Subscript(custom, "matched_blueprint").value, "name").value;
      if name == JStr(blueprintName) {
        var inference := Subscript(custom, "inference_result").value;
        assert inference.JObj?;
        var m := map f | f in fields :: GetOrNull(inference.fields, f);
        assert ExtractedFields(custom, blueprintName, fields) == Ok(m);
        assert fields[0] in m;
      }
    }
  }

  /** Every segment of a successful walk was read without error. */
  lemma {:induction false} FoldSegmentsOkEach(store: Store, segments: seq<Json>, blueprintName: string,
                                              fields: seq<string>, acc: map<string, Json>)
    requires FoldSegments(store, segments, blueprintName, fields, acc).Ok?
    ensures forall j | 0 <= j < |segments| :: SegmentFields(store, segments[j], blueprintName, fields).Ok?
  {
    if segments != [] {
      var n := |segments| - 1;
      FoldSegmentsOkEach(store, segments[..n], blueprintName, fields, acc);
      forall j | 0 <= j < |segments|
        ensures SegmentFields(store, segments[j], blueprintName, fields).Ok?
      {
        if j < n {
          assert segments[..n][j] == segments[j];
        }
      }
    }
  }

  /** With at least one configured spec, a successful run yields fields
      exactly when some segment of the job matches the configured
      blueprint; a match with another blueprint contributes nothing. */
  lemma BdaResultsIffMatched(store: Store, metadataUri: Json, blueprintName: string, fields: seq<string>)
    requires fields != []
    requires BdaResults(store, metadataUri, blueprintName, fields).Ok?
    ensures var segments := JobSegments(store, metadataUri);
            BdaResults(store, metadataUri, blueprintName, fields).value != map[]
            <==> exists j | 0 <= j < |segments| :: MatchesBlueprint(store, segments[j], blueprintName)
  {
    var metadata := GetJsonObject(store, metadataUri).value;
    var assets := Subscript(metadata, "output_metadata").value.items;
    var segments := JobSegments(store, metadataUri);
    assert segments == AllSegments(assets);
    FoldAssetsIsFlat(store, assets, blueprintName, fields, map[]);
    FoldSegmentsOkEach(store, segments, blueprintName, fields, map[]);
    BdaResultsLastMatchWins(store, metadataUri, blueprintName, fields);
    var m := BdaResults(store, metadataUri, blueprintName, fields).value;
    if m != map[] {
      var j :| LastContribution(store, segments, j, m, blueprintName, fields);
      SegmentContributesIffMatched(store, segments[j], blueprintName, fields);
    }
    if exists j | 0 <= j < |segments| :: MatchesBlueprint(store, segments[j], blueprintName) {
      var j :| 0 <= j < |segments| && MatchesBlueprint(store, segments[j], blueprintName);
      SegmentContributesIffMatched(store, segments[j], blueprintName, fields);
      assert !Silent(store, segments, blueprintName, fields);
    }
  }

  /** The body of the inner loop: one segment. It is the executable step
      `ProcessSegments` calls; what it computes is stated by
      `SegmentFields`, which the lemmas use. */
  method ProcessSegment(store: Store, segment: Json, blueprintName: string, fields: seq<string>)
    returns (r: Result<map<string, Json>>)
    ensures r == SegmentFields(store, segment, blueprintName, fields)
  {
    var standardPath :- Subscript(segment, "standard_output_path");
    var standard :- GetJsonObject(store, standardPath);
    var modality :- Path(standard, ["metadata", "semantic_modality"]);
    if IsMatch(segment) {
      var customPath :- Subscript(segment, "custom_output_path");
      var custom :- GetJsonObject(store, customPath);
      r := DisplayCustomResults(custom, blueprintName, fields);
    } else {
      r := Ok(map[]);
    }
  }

  /** The inner loop over one asset's segments, updating the map the
      earlier assets left. */
  method ProcessSegments(store: Store, segments: seq<Json>, blueprintName: string, fields: seq<string>,
                         start: map<string, Json>)
    returns (r: Result<map<string, Json>>)
    ensures r == FoldSegments(store, segments, blueprintName, fields, start)
  {
    var extracted := start;
    var j := 0;
    while j < |segments|
      invariant 0 <= j <= |segments|
      invariant FoldSegments(store, segments[..j], blueprintName, fields, start) == Ok(extracted)
    {
      var added := ProcessSegment(store, segments[j], blueprintName, fields);
      assert segments[..j + 1][..j] == segments[..j];
      if added.Err? {
        FoldSegmentsErrSticky(store, segments, j + 1, blueprintName, fields, start);
        return Err(added.error);
      }
      extracted := extracted + added.value;
      j := j + 1;
    }
    assert segments[..j] == segments;
    r := Ok(extracted);
  }

  /** `process_bda_results`: the nested loops over assets and segments,
      updating one map in place. */
  method ProcessBdaResults(store: Store, metadataUri: Json, blueprintName: string, fields: seq<string>)
    returns (r: Result<map<string, Json>>)
    ensures r == BdaResults(store, metadataUri, blueprintName, fields)
  {
    var metadata :- GetJsonObject(store, metadataUri);
    var outputMetadata :- Subscript(metadata, "output_metadata");
    if !outputMetadata.JArr? {
      return Err(TypeError);
    }
    var assets := outputMetadata.items;
    var extracted: map<string, Json> := map[];
    var i := 0;
    while i < |assets|
      invariant 0 <= i <= |assets|
      invariant FoldAssets(store, assets[..i], blueprintName, fields, map[]) == Ok(extracted)
    {
      var asset := assets[i];
      FoldAssetsSnoc(store, assets, i, blueprintName, fields, map[]);
      var assetId := Subscript(asset, "asset_id");
      var segmentList := Subscript(asset, "segment_metadata");
      if assetId.Err? || segmentList.Err? || !segmentList.value.JArr? {
        FoldAssetsErrSticky(store, assets, i + 1, blueprintName, fields, map[]);
        r := if assetId.Err? then Err(assetId.error)
             else if segmentList.Err? then Err(segmentList.error)
             else Err(TypeError);
        return;
      }
      var walked := ProcessSegments(store, segmentList.value.items, blueprintName, fields, extracted);
      if walked.Err? {
        FoldAssetsErrSticky(store, assets, i + 1, blueprintName, fields, map[]);
        return Err(walked.error);
      }
      extracted := walked.value;
      i := i + 1;
    }
    assert assets[..i] == assets;
    r := Ok(extracted);
  }
}
