/** The map step of the hearing administration form (src/components/admin/HearingFormStep3.js):
    the geometry-editing event handlers and the GeoJSON upload check. A Leaflet layer is
    represented by its geometry value; the callbacks the component fires into its parent are
    recorded, in order, as `Emit` values. */
module AdminMapStep {
  import opened Js
  import HearingEditor

  /** One callback fired by the component. */
  datatype Emit =
    | HearingChange(field: string, value: Value)        // onHearingChange
    | HearingChangeMap(field: string, value: Value)     // onHearingChangeMap
    | AddMapMarker(geometry: Value)                     // onHearingAddMapMarker
    | AddMapMarkerExisting(geometry: Value)             // onHearingAddMapMarkerExisting
    | NotifyError(message: string)                      // localizedNotifyError

  /** The notification for an upload that fails the FeatureCollection check. */
  const RejectedUploadMessage: string := "Virheellinen tiedostoEka."
  /** The notification for an upload that cannot be parsed or converted. */
  const UnreadableUploadMessage: string := "Virheellinen tiedostoToka."

  // ----------------------------------------------------------------------------------------
  // getFirstGeometry

  /** `getFirstGeometry(featureCollection)`: the first feature's geometry, or `{}` when there is
      no (truthy) first feature. */
  function GetFirstGeometry(featureCollection: Value): (r: Result<Value>)
    ensures featureCollection.Null? || featureCollection.Undefined? ==> r == Err(TypeError)
    ensures featureCollection.Obj? ==>
              var features := Get(featureCollection.fields, "features");
              && (r.Err? <==> features.Null? || features.Undefined?)
              && (features == Arr([]) ==> r == Ok(Obj(map[])))
              && (features.Arr? && features.items != [] && features.items[0].Obj? ==>
                    r == Ok(Get(features.items[0].fields, "geometry")))
  {
    var features :- Member(featureCollection, "features");
    var firstFeature :- First(features);
    if Truthy(firstFeature) then Member(firstFeature, "geometry") else Ok(Obj(map[]))
  }

  /** The first geometry of a collection built from geometries is the first of them. */
  lemma FirstGeometryOfFeatureCollection(geometries: seq<Value>)
    ensures GetFirstGeometry(HearingEditor.FeatureCollectionOf(geometries))
         == Ok(if geometries == [] then Obj(map[]) else geometries[0])
  {
    var features := HearingEditor.FeatureCollectionOf(geometries).fields["features"];
    if geometries == [] {
      assert features == Arr([]);
    } else {
      assert features.items[0] == HearingEditor.FeatureOf(geometries[0]);
    }
  }

  // ----------------------------------------------------------------------------------------
  // Deleting drawn geometries

  /** The geometries that survive a deletion: those not deep-equal to a deleted one, in
      their original order. */
  function Kept(geometries: seq<Value>, deleted: seq<Value>): (r: seq<Value>)
    ensures |r| <= |geometries|
    decreases |geometries|
  {
    if geometries == [] then []
    else
      var last := geometries[|geometries| - 1];
      Kept(geometries[..|geometries| - 1], deleted) + (if last in deleted then [] else [last])
  }

  /** `geo.geometry` on an element known to be present. */
  function GeometryOf(feature: Value): Value
    requires !feature.Null? && !feature.Undefined?
  {
    Member(feature, "geometry").value
  }

  /** The features that survive a deletion: those whose geometry is not deep-equal to a
      deleted one, in their original order. */
  function FeaturesKept(features: seq<Value>, deleted: seq<Value>): (r: seq<Value>)
    requires AllPresent(features)
    ensures |r| <= |features|
    decreases |features|
  {
    if features == [] then []
    else
      var last := features[|features| - 1];
      FeaturesKept(features[..|features| - 1], deleted) + (if GeometryOf(last) in deleted then [] else [last])
  }

  /** Filtering distributes over concatenation: together with the one-element case this says
      `Kept` is the order-preserving filter. */
  lemma {:induction false} KeptAppend(a: seq<Value>, b: seq<Value>, deleted: seq<Value>)
    ensures Kept(a + b, deleted) == Kept(a, deleted) + Kept(b, deleted)
    decreases |b|
  {
    if b == [] {
      assert a + b == a;
    } else {
      var last := b[|b| - 1];
      assert (a + b)[..|a + b| - 1] == a + b[..|b| - 1];
      KeptAppend(a, b[..|b| - 1], deleted);
    }
  }

  lemma KeptSingle(x: Value, deleted: seq<Value>)
    ensures Kept([x], deleted) == if x in deleted then [] else [x]
  {
    assert [x][..0] == [];
  }

  /** Exactly the geometries that are not deleted survive. */
  lemma {:induction false} KeptMembers(geometries: seq<Value>, deleted: seq<Value>)
    ensures forall v :: v in Kept(geometries, deleted) <==> v in geometries && v !in deleted
    decreases |geometries|
  {
    if geometries != [] {
      var init := geometries[..|geometries| - 1];
      KeptMembers(init, deleted);
      assert geometries == init + [geometries[|geometries| - 1]];
    }
  }

  /** Deleting nothing keeps every geometry. */
  lemma {:induction false} KeptNothingDeleted(geometries: seq<Value>)
    ensures Kept(geometries, []) == geometries
    decreases |geometries|
  {
    if geometries != [] {
      KeptNothingDeleted(geometries[..|geometries| - 1]);
      assert geometries == geometries[..|geometries| - 1] + [geometries[|geometries| - 1]];
    }
  }

  /** Exactly the features whose geometry is not deleted survive. */
  lemma {:induction false} FeaturesKeptMembers(features: seq<Value>, deleted: seq<Value>)
    requires AllPresent(features)
    ensures forall f :: f in FeaturesKept(features, deleted) <==> f in features && GeometryOf(f) !in deleted
    decreases |features|
  {
    if features != [] {
      var init := features[..|features| - 1];
      FeaturesKeptMembers(init, deleted);
      assert features == init + [features[|features| - 1]];
    }
  }

  /** `geo.geometry.coordinates[0]`, which the first filter of `onDrawDeleted` reads. */
  function FirstCoordinate(feature: Value): Result<Value> {
    var geometry :- Member(feature, "geometry");
    var coordinates :- Member(geometry, "coordinates");
    First(coordinates)
  }

  /** The first filter of `onDrawDeleted`, used when the first element has a geometry. It
      compares each coordinate with the freshly built array of deleted geometries by reference,
      which never matches, so it keeps every element; it still throws on an element without
      readable coordinates. */
  function KeepAllCheckingCoordinates(temp: Value): (r: Result<Value>)
    ensures r.Ok? <==> temp.Arr? && forall i :: 0 <= i < |temp.items| ==> FirstCoordinate(temp.items[i]).Ok?
    ensures r.Ok? ==> r.value == temp && AllPresent(temp.items)
  {
    if !temp.Arr? then Err(TypeError)
    else
      var coordinates :- MapResult(temp.items, FirstCoordinate);
      Ok(temp)
  }

  /** The reduce over bare geometries: the survivors of the deletion, or a TypeError when an
      element is missing (its `coordinates` are read). */
  function WithoutDeleted(geometries: seq<Value>, deleted: seq<Value>): (r: Result<seq<Value>>)
    ensures r.Ok? <==> AllPresent(geometries)
  {
    if AllPresent(geometries) then Ok(Kept(geometries, deleted)) else Err(TypeError)
  }

  /** The geojson `onDrawDeleted` hands to `onHearingChange` after the layers whose geometries
      are `deleted` were removed from the map, or the exception it throws. */
  function DeletedGeojson(geojson: Value, deleted: seq<Value>): (r: Result<Value>)
    ensures geojson.Null? || geojson.Undefined? ==> r == Err(TypeError)
    // An array of bare geometries: the survivors, in order
    ensures geojson.Arr? && geojson.items == [] ==> r == Err(TypeError)
    ensures geojson.Arr? && geojson.items != [] && !geojson.items[0].Null? && !geojson.items[0].Undefined?
            && !Truthy(Member(geojson.items[0], "geometry").value) ==>
              (r.Ok? <==> AllPresent(geojson.items))
              && (r.Ok? ==> r.value == Arr(Kept(geojson.items, deleted)))
    // A feature collection: the features whose geometry survives, in order, and the same type
    ensures r.Ok? && geojson.Obj? && Truthy(Get(geojson.fields, "features")) && Truthy(Get(geojson.fields, "type")) ==>
              var features := Get(geojson.fields, "features");
              && features.Arr? && AllPresent(features.items)
              && r.value == Obj(map["features" := Arr(FeaturesKept(features.items, deleted)),
                                    "type" := Get(geojson.fields, "type")])
  {
    var features :- Member(geojson, "features");
    var temp := if Truthy(features) then features else geojson;
    var firstGeometry :- Member(First(temp).value, "geometry");
    var newGeo :- if Truthy(firstGeometry) then KeepAllCheckingCoordinates(temp)
                  else if temp.Arr? then
                    var kept :- WithoutDeleted(temp.items, deleted);
                    Ok(Arr(kept))
                  else Err(TypeError);
    var kind := Member(geojson, "type").value;
    if Truthy(features) && Truthy(kind) then
      Ok(Obj(map["features" := Arr(FeaturesKept(temp.items, deleted)), "type" := kind]))
    else Ok(newGeo)
  }

  /** Deleting geometries from a collection built by the hearing clean-up (one feature per
      geometry) keeps the features of exactly the geometries that were not deleted. */
  lemma DeleteFromFeatureCollection(geometries: seq<Value>, deleted: seq<Value>)
    requires DeletedGeojson(HearingEditor.FeatureCollectionOf(geometries), deleted).Ok?
    ensures var r := DeletedGeojson(HearingEditor.FeatureCollectionOf(geometries), deleted).value;
            && r.Obj? && r.fields["type"] == Str("FeatureCollection") && r.fields["features"].Arr?
            && forall f :: f in r.fields["features"].items <==>
                 exists g :: g in geometries && g !in deleted && f == HearingEditor.FeatureOf(g)
  {
    var collection := HearingEditor.FeatureCollectionOf(geometries);
    var features := collection.fields["features"].items;
    assert Truthy(Member(collection, "features").value);
    FeaturesKeptMembers(features, deleted);
    forall f ensures f in FeaturesKept(features, deleted) <==>
                     exists g :: g in geometries && g !in deleted && f == HearingEditor.FeatureOf(g)
    {
      if f in FeaturesKept(features, deleted) {
        var i :| 0 <= i < |features| && features[i] == f;
        assert GeometryOf(features[i]) == geometries[i];
      }
      if exists g :: g in geometries && g !in deleted && f == HearingEditor.FeatureOf(g) {
        var g :| g in geometries && g !in deleted && f == HearingEditor.FeatureOf(g);
        var i :| 0 <= i < |geometries| && geometries[i] == g;
        assert features[i] == f;
      }
    }
  }

  // ----------------------------------------------------------------------------------------
  // The upload check

  /** The condition `onUploadGeoJSON` puts on a parsed file; it throws when the file parsed to
      `null`. Only the first feature is inspected. */
  function CheckUpload(featureCollection: Value): (r: Result<bool>)
    ensures r.Err? <==> featureCollection.Null? || featureCollection.Undefined?
    ensures r == Ok(true) ==> featureCollection.Obj?
    ensures featureCollection.Obj? && Get(featureCollection.fields, "features").Arr? ==>
              var features := Get(featureCollection.fields, "features").items;
              (r == Ok(true) <==>
                 && Get(featureCollection.fields, "type") == Str("FeatureCollection")
                 && features != []
                 && HasKey(features[0], "geometry")
                 && HasKey(features[0].fields["geometry"], "type")
                 && HasKey(features[0].fields["geometry"], "coordinates"))
  {
    var kind :- Member(featureCollection, "type");
    if kind != Str("FeatureCollection") then Ok(false)
    else
      var features := Get(featureCollection.fields, "features");
      if IsEmpty(features) then Ok(false)
      else
        var first := First(features).value;
        if !HasKey(first, "geometry") then Ok(false)
        else
          var geometry := first.fields["geometry"];
          Ok(HasKey(geometry, "type") && HasKey(geometry, "coordinates"))
  }

  /** Features after the first are never looked at by the upload check. */
  lemma UploadCheckIgnoresLaterFeatures(featureCollection: Object, first: Value, rest: seq<Value>, otherRest: seq<Value>)
    ensures CheckUpload(Obj(featureCollection["features" := Arr([first] + rest)]))
         == CheckUpload(Obj(featureCollection["features" := Arr([first] + otherRest)]))
  {
  }

  /** What happens to an upload: its features are converted and handed on, it is rejected by
      the upload check, or it is unreadable (the text did not parse, or that check or the conversion
      threw). */
  datatype UploadOutcome = Accepted(features: seq<Value>) | Rejected | Unreadable

  /** The outcome for a file whose text parsed to `parsed` (`None` when `JSON.parse` threw). */
  function Upload(parsed: Option<Value>, codec: HearingEditor.LatLngCodec): (r: UploadOutcome)
    ensures parsed.None? ==> r == Unreadable
    ensures parsed.Some? ==>
              && (r.Accepted? <==> (CheckUpload(parsed.value) == Ok(true)
                                    && HearingEditor.ParseCollection(Get(parsed.value.fields, "features"), codec).Ok?))
              && (r.Rejected? <==> CheckUpload(parsed.value) == Ok(false))
    ensures r.Accepted? ==> HearingEditor.ParseCollection(Get(parsed.value.fields, "features"), codec) == Ok(r.features)
  {
    match parsed
    case None => Unreadable
    case Some(featureCollection) =>
      match CheckUpload(featureCollection)
      case Err(_) => Unreadable
      case Ok(accepted) =>
        if !accepted then Rejected
        else
          match HearingEditor.ParseCollection(Get(featureCollection.fields, "features"), codec)
          case Ok(features) => Accepted(features)
          case Err(_) => Unreadable
  }

  // ----------------------------------------------------------------------------------------
  // componentDidUpdate

  /** `geojson.features.length`, which throws when the geojson or its features are missing. */
  function FeaturesLength(geojson: Value): Result<Value> {
    var features :- Member(geojson, "features");
    Member(features, "length")
  }

  /** The new `state.geojson` after the hearing's geojson prop changed from `previous` to
      `next` (a different reference): an array is adopted, and so is a feature collection with
      fewer features than before. Reading the features' lengths can throw. */
  function SyncedGeojson(previous: Value, next: Value, geojson: Value): (r: Result<Value>)
    ensures r.Err? ==> r.error == TypeError
    ensures next.Arr? ==> r == Ok(next)
    ensures next.Null? || next.Undefined? ==> r == Err(TypeError)
    ensures r.Ok? ==> r.value == geojson || r.value == next
    ensures r.Ok? && !next.Arr? && r.value != geojson ==>
              && next.Obj? && Truthy(Get(next.fields, "type"))
              && FeaturesLength(next).Ok? && FeaturesLength(previous).Ok?
              && NumLess(FeaturesLength(next).value, FeaturesLength(previous).value)
    ensures next.Obj? && Truthy(Get(next.fields, "type"))
            && FeaturesLength(next).Ok? && FeaturesLength(previous).Ok?
            && NumLess(FeaturesLength(next).value, FeaturesLength(previous).value)
            ==> r == Ok(next)
  {
    var adopted := if next.Arr? then next else geojson;
    var kind :- Member(next, "type");
    if !Truthy(kind) then Ok(adopted)
    else
      var nextLength :- FeaturesLength(next);
      var previousLength :- FeaturesLength(previous);
      if NumLess(nextLength, previousLength) then Ok(next) else Ok(adopted)
  }

  // ----------------------------------------------------------------------------------------
  // getDrawOptions

  datatype MarkerIcon = MarkerIcon(iconSize: (int, int), iconAnchor: (int, int))
  datatype DrawOptions = DrawOptions(circle: bool, circlemarker: bool, polyline: bool, marker: MarkerIcon)

  /** `getDrawOptions()`: the drawing toolbar's options. The two branches of the source list the
      same options in a different order. */
  function GetDrawOptions(geojson: Value): (r: DrawOptions)
    ensures !r.circle && !r.circlemarker && !r.polyline
    ensures r.marker == MarkerIcon((25, 41), (13, 41))
  {
    if !Truthy(geojson) || IsEmpty(geojson) then
      DrawOptions(false, false, false, MarkerIcon((25, 41), (13, 41)))
    else
      DrawOptions(false, false, false, MarkerIcon((25, 41), (13, 41)))
  }

  lemma DrawOptionsIgnoreGeojson(a: Value, b: Value)
    ensures GetDrawOptions(a) == GetDrawOptions(b)
  {
  }

  // ----------------------------------------------------------------------------------------
  // The component

  class HearingFormStep3 {
    /** `state.isEdited`. */
    var isEdited: bool
    /** `state.uploadedFile`. */
    var uploadedFile: bool
    /** `state.geojson`. */
    var geojson: Value
    /** `props.hearing.geojson`, which the parent owns. */
    var hearingGeojson: Value
    /** The callbacks fired so far, oldest first. */
    var emitted: seq<Emit>
    /** The map library's coordinate conversions. */
    const codec: HearingEditor.LatLngCodec

    /** The constructor's initial state. */
    constructor (hearingGeojson: Value, codec: HearingEditor.LatLngCodec)
      ensures !isEdited && !uploadedFile
      ensures geojson == if Truthy(hearingGeojson) then hearingGeojson else Arr([])
      ensures this.hearingGeojson == hearingGeojson && emitted == [] && this.codec == codec
    {
      isEdited := false;
      uploadedFile := false;
      geojson := if Truthy(hearingGeojson) then hearingGeojson else Arr([]);
      this.hearingGeojson := hearingGeojson;
      emitted := [];
      this.codec := codec;
    }

    /** `onDrawCreated`: marks the map edited and hands the new geometry to the parent, through
        the "existing" callback when the hearing geojson already has features. */
    method OnDrawCreated(geometry: Value) returns (outcome: Outcome)
      modifies this`isEdited, this`emitted
      ensures isEdited
      ensures hearingGeojson.Null? || hearingGeojson.Undefined? ==> outcome == Threw(TypeError) && emitted == old(emitted)
      ensures !hearingGeojson.Null? && !hearingGeojson.Undefined? ==>
                && outcome == Done
                && emitted == old(emitted) + [if Truthy(Member(hearingGeojson, "features").value)
                                              then AddMapMarkerExisting(geometry) else AddMapMarker(geometry)]
    {
      isEdited := true;
      var features := Member(hearingGeojson, "features");
      if features.Err? {
        return Threw(features.error);
      }
      if Truthy(features.value) {
        emitted := emitted + [AddMapMarkerExisting(geometry)];
      } else {
        emitted := emitted + [AddMapMarker(geometry)];
      }
      return Done;
    }

    /** `onDrawEdited`: marks the map edited and hands the edited geometry to the parent. */
    method OnDrawEdited(geometry: Value)
      modifies this`isEdited, this`emitted
      ensures isEdited
      ensures emitted == old(emitted) + [HearingChangeMap("geojson", geometry)]
    {
      isEdited := true;
      emitted := emitted + [HearingChangeMap("geojson", geometry)];
    }

    /** The reduce over bare geometries, element by element. */
    static method FilterDeletedGeometries(geometries: seq<Value>, deleted: seq<Value>) returns (r: Result<seq<Value>>)
      ensures r == WithoutDeleted(geometries, deleted)
    {
      var kept: seq<Value> := [];
      var i := 0;
      while i < |geometries|
        invariant 0 <= i <= |geometries|
        invariant AllPresent(geometries[..i])
        invariant kept == Kept(geometries[..i], deleted)
      {
        var geometry := geometries[i];
        assert geometries[..i + 1][..i] == geometries[..i];
        if geometry.Null? || geometry.Undefined? {
          return Err(TypeError);
        }
        if geometry !in deleted {
          kept := kept + [geometry];
        }
        i := i + 1;
      }
      assert geometries[..i] == geometries;
      return Ok(kept);
    }

    /** The reduce over the features of a collection, element by element. */
    static method FilterDeletedFeatures(features: seq<Value>, deleted: seq<Value>) returns (kept: seq<Value>)
      requires AllPresent(features)
      ensures kept == FeaturesKept(features, deleted)
    {
      kept := [];
      var i := 0;
      while i < |features|
        invariant 0 <= i <= |features|
        invariant kept == FeaturesKept(features[..i], deleted)
      {
        assert features[..i + 1][..i] == features[..i];
        if GeometryOf(features[i]) !in deleted {
          kept := kept + [features[i]];
        }
        i := i + 1;
      }
      assert features[..i] == features;
    }

    /** `onDrawDeleted`: `deleted` holds, per removed layer, the geometry the handler reads from
        it (`None` when the event carries no layers). Nothing happens for an empty deletion;
        otherwise the parent receives the geojson without the deleted geometries. */
    method OnDrawDeleted(layers: Option<seq<Value>>) returns (outcome: Outcome)
      modifies this`emitted
      ensures layers.None? || layers == Some([]) ==> outcome == Done && emitted == old(emitted)
      ensures layers.Some? && layers.value != [] && DeletedGeojson(hearingGeojson, layers.value).Ok? ==>
                && outcome == Done
                && emitted == old(emitted) + [HearingChange("geojson", DeletedGeojson(hearingGeojson, layers.value).value)]
      ensures layers.Some? && layers.value != [] && DeletedGeojson(hearingGeojson, layers.value).Err? ==>
                && outcome == Threw(DeletedGeojson(hearingGeojson, layers.value).error)
                && emitted == old(emitted)
    {
      if layers.None? || layers.value == [] {
        return Done;
      }
      var deleted := layers.value;
      var featuresRead := Member(hearingGeojson, "features");
      if featuresRead.Err? {
        return Threw(featuresRead.error);
      }
      var features := featuresRead.value;
      var temp := if Truthy(features) then features else hearingGeojson;
      var firstGeometry := Member(First(temp).value, "geometry");
      if firstGeometry.Err? {
        return Threw(firstGeometry.error);
      }
      var newGeo: Value;
      if Truthy(firstGeometry.value) {
        var checked := KeepAllCheckingCoordinates(temp);
        if checked.Err? {
          return Threw(checked.error);
        }
        newGeo := temp;
      } else {
        if !temp.Arr? {
          return Threw(TypeError);
        }
        var kept := FilterDeletedGeometries(temp.items, deleted);
        if kept.Err? {
          return Threw(kept.error);
        }
        newGeo := Arr(kept.value);
      }
      var kind := Member(hearingGeojson, "type").value;
      if Truthy(features) && Truthy(kind) {
        var feats := FilterDeletedFeatures(temp.items, deleted);
        newGeo := Obj(map["features" := Arr(feats), "type" := kind]);
      }
      emitted := emitted + [HearingChange("geojson", newGeo)];
      return Done;
    }

    /** `onUploadGeoJSON`'s callback on the file's parsed content: an accepted file is converted
        and handed to the parent, and the state records the upload; otherwise an error is
        notified and nothing else changes. */
    method UploadGeoJson(parsed: Option<Value>)
      modifies this`isEdited, this`uploadedFile, this`emitted
      ensures Upload(parsed, codec).Accepted? ==>
                && emitted == old(emitted) + [HearingChange("geojson", Arr(Upload(parsed, codec).features))]
                && !isEdited && uploadedFile
      ensures Upload(parsed, codec).Rejected? ==>
                && emitted == old(emitted) + [NotifyError(RejectedUploadMessage)]
                && isEdited == old(isEdited) && uploadedFile == old(uploadedFile)
      ensures Upload(parsed, codec).Unreadable? ==>
                && emitted == old(emitted) + [NotifyError(UnreadableUploadMessage)]
                && isEdited == old(isEdited) && uploadedFile == old(uploadedFile)
    {
      if parsed.None? {
        emitted := emitted + [NotifyError(UnreadableUploadMessage)];
        return;
      }
      var featureCollection := parsed.value;
      var check := CheckUpload(featureCollection);
      if check.Err? {
        emitted := emitted + [NotifyError(UnreadableUploadMessage)];
      } else if !check.value {
        emitted := emitted + [NotifyError(RejectedUploadMessage)];
      } else {
        var converted := HearingEditor.ParseCollection(Get(featureCollection.fields, "features"), codec);
        if converted.Err? {
          emitted := emitted + [NotifyError(UnreadableUploadMessage)];
        } else {
          emitted := emitted + [HearingChange("geojson", Arr(converted.value))];
          isEdited := false;
          uploadedFile := true;
        }
      }
    }

    /** The parent re-renders with the hearing geojson `next`; `sameReference` says whether it is
        the very object passed before. Then `componentDidUpdate` syncs `state.geojson`. */
    method ReceiveProps(next: Value, sameReference: bool) returns (outcome: Outcome)
      requires sameReference ==> next == hearingGeojson
      modifies this`hearingGeojson, this`geojson
      ensures hearingGeojson == next
      ensures sameReference ==> outcome == Done && geojson == old(geojson)
      ensures !sameReference && SyncedGeojson(old(hearingGeojson), next, old(geojson)).Ok? ==>
                outcome == Done && geojson == SyncedGeojson(old(hearingGeojson), next, old(geojson)).value
      ensures !sameReference && SyncedGeojson(old(hearingGeojson), next, old(geojson)).Err? ==>
                outcome == Threw(TypeError) && geojson == old(geojson)
    {
      var previous := hearingGeojson;
      hearingGeojson := next;
      if sameReference {
        return Done;
      }
      var synced := SyncedGeojson(previous, next, geojson);
      if synced.Err? {
        return Threw(synced.error);
      }
      geojson := synced.value;
      return Done;
    }
  }
}
