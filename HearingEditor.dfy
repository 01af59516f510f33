/** The hearing editor's data transforms (src/utils/hearingEditor.js): front-id bookkeeping
    for records the editor creates, language filtering of localized strings, reordering of
    sections, and the GeoJSON clean-up done before a hearing is saved. */
module HearingEditor {
  import opened Js

  /** The hearing attributes whose records carry a front-end id. */
  const AttrWithFrontId: seq<string> := ["sections", "labels", "contact_persons"]

  // ----------------------------------------------------------------------------------------
  // Front ids

  /** `fillFrontId` has to call the id generator: neither `frontId` nor `id` is truthy. */
  predicate NeedsGeneratedId(obj: Object) {
    !Truthy(Get(obj, "frontId")) && !Truthy(Get(obj, "id"))
  }

  /** `filled` is `obj` with a `frontId` set and every other field as it was. */
  predicate KeepsFieldsAddsFrontId(obj: Object, filled: Object) {
    && filled.Keys == obj.Keys + {"frontId"}
    && forall k :: k in obj && k != "frontId" ==> filled[k] == obj[k]
  }

  /** `fillFrontId(obj, idGenerator)`. The generator is modelled as the stream `gen`, of which
      `next` values have already been handed out; the second component of the result is the
      number handed out after this call (the generator is called only when it is needed). */
  function FillFrontId(obj: Object, gen: nat -> string, next: nat): (r: (Object, nat))
    ensures KeepsFieldsAddsFrontId(obj, r.0)
    ensures Truthy(Get(obj, "frontId")) ==> r.0["frontId"] == obj["frontId"]
    ensures !Truthy(Get(obj, "frontId")) && Truthy(Get(obj, "id")) ==> r.0["frontId"] == obj["id"]
    ensures NeedsGeneratedId(obj) ==> r.0["frontId"] == Str(gen(next)) && r.1 == next + 1
    ensures !NeedsGeneratedId(obj) ==> r.1 == next
  {
    var frontId := Get(obj, "frontId");
    var id := Get(obj, "id");
    if Truthy(frontId) then (obj["frontId" := frontId], next)
    else if Truthy(id) then (obj["frontId" := id], next)
    else (obj["frontId" := Str(gen(next))], next + 1)
  }

  /** How many records of `things` need a generated id. */
  function GeneratedCount(things: seq<Object>): nat {
    if things == [] then 0
    else (if NeedsGeneratedId(things[0]) then 1 else 0) + GeneratedCount(things[1..])
  }

  /** `fillFrontIds(thingz, idGenerator)`: `fillFrontId` on every record, left to right,
      sharing one generator. */
  function FillFrontIds(things: seq<Object>, gen: nat -> string, next: nat): (r: (seq<Object>, nat))
    ensures |r.0| == |things|
    ensures r.1 == next + GeneratedCount(things)
    decreases |things|
  {
    if things == [] then ([], next)
    else
      var head := FillFrontId(things[0], gen, next);
      var tail := FillFrontIds(things[1..], gen, head.1);
      ([head.0] + tail.0, tail.1)
  }

  lemma {:induction false} GeneratedCountAppend(a: seq<Object>, b: seq<Object>)
    ensures GeneratedCount(a + b) == GeneratedCount(a) + GeneratedCount(b)
    decreases |a|
  {
    if a == [] {
      assert a + b == b;
    } else {
      assert (a + b)[1..] == a[1..] + b;
      GeneratedCountAppend(a[1..], b);
    }
  }

  /** The `i`-th record comes out as `fillFrontId` would fill it after the generator has been
      called once for every earlier record that needed an id. */
  lemma {:induction false} FillFrontIdsAt(things: seq<Object>, gen: nat -> string, next: nat, i: nat)
    requires i < |things|
    ensures FillFrontIds(things, gen, next).0[i]
         == FillFrontId(things[i], gen, next + GeneratedCount(things[..i])).0
    decreases i
  {
    var head := FillFrontId(things[0], gen, next);
    var tail := FillFrontIds(things[1..], gen, head.1);
    assert FillFrontIds(things, gen, next).0 == [head.0] + tail.0;
    if i == 0 {
      assert things[..0] == [];
    } else {
      FillFrontIdsAt(things[1..], gen, head.1, i - 1);
      assert things[1..][i - 1] == things[i];
      assert things[..i][1..] == things[1..][..i - 1];
      assert GeneratedCount(things[..i])
          == (if NeedsGeneratedId(things[0]) then 1 else 0) + GeneratedCount(things[1..][..i - 1]);
    }
  }

  /** Every record keeps its fields and gains a front id. */
  lemma FillFrontIdsKeepsFields(things: seq<Object>, gen: nat -> string, next: nat)
    ensures forall i :: 0 <= i < |things| ==> KeepsFieldsAddsFrontId(things[i], FillFrontIds(things, gen, next).0[i])
  {
    forall i | 0 <= i < |things|
      ensures KeepsFieldsAddsFrontId(things[i], FillFrontIds(things, gen, next).0[i])
    {
      FillFrontIdsAt(things, gen, next, i);
    }
  }

  /** An id is generated for the `i`-th record once more ids were handed out before `j`. */
  lemma {:induction false} GeneratedCountGrows(things: seq<Object>, i: nat, j: nat)
    requires i < j <= |things| && NeedsGeneratedId(things[i])
    ensures GeneratedCount(things[..i]) < GeneratedCount(things[..j])
  {
    assert things[..j] == things[..i] + things[i..j];
    GeneratedCountAppend(things[..i], things[i..j]);
    assert things[i..j][0] == things[i];
    assert GeneratedCount(things[i..j]) >= 1;
  }

  /** With a generator that never repeats itself (uuid), two records that both needed a
      generated id get different front ids. */
  lemma GeneratedFrontIdsDistinct(things: seq<Object>, gen: nat -> string, next: nat, i: nat, j: nat)
    requires forall a: nat, b: nat :: gen(a) == gen(b) ==> a == b
    requires i < j < |things|
    requires NeedsGeneratedId(things[i]) && NeedsGeneratedId(things[j])
    ensures Get(FillFrontIds(things, gen, next).0[i], "frontId") != Get(FillFrontIds(things, gen, next).0[j], "frontId")
  {
    var filled := FillFrontIds(things, gen, next).0;
    var ni := next + GeneratedCount(things[..i]);
    var nj := next + GeneratedCount(things[..j]);
    FillFrontIdsAt(things, gen, next, i);
    FillFrontIdsAt(things, gen, next, j);
    assert filled[i]["frontId"] == Str(gen(ni));
    assert filled[j]["frontId"] == Str(gen(nj));
    GeneratedCountGrows(things, i, j);
    assert gen(ni) != gen(nj);
  }

  /** `removeFrontId(obj)`: a copy without `frontId`. Only the copy is changed, so the model is
      a value. */
  function RemoveFrontId(obj: Object): (r: Object)
    ensures "frontId" !in r
    ensures r.Keys == obj.Keys - {"frontId"}
    ensures forall k :: k in r ==> r[k] == obj[k]
  {
    obj - {"frontId"}
  }

  /** `filterFrontIds(thingz)`: `removeFrontId` on every record, in order. */
  function FilterFrontIds(things: seq<Object>): (r: seq<Object>)
    ensures |r| == |things|
    ensures forall i :: 0 <= i < |things| ==> r[i] == RemoveFrontId(things[i])
  {
    seq(|things|, i requires 0 <= i < |things| => RemoveFrontId(things[i]))
  }

  /** Removing a front id undoes adding one to a record that had none. */
  lemma RemoveUndoesFill(obj: Object, filled: Object)
    requires "frontId" !in obj
    requires KeepsFieldsAddsFrontId(obj, filled)
    ensures RemoveFrontId(filled) == obj
  {
    assert RemoveFrontId(filled).Keys == obj.Keys;
  }

  /** `filterFrontIds` undoes `fillFrontIds` on records that had no front id. */
  lemma FilterUndoesFill(things: seq<Object>, filled: seq<Object>)
    requires forall i :: 0 <= i < |things| ==> "frontId" !in things[i]
    requires |filled| == |things|
    requires forall i :: 0 <= i < |things| ==> KeepsFieldsAddsFrontId(things[i], filled[i])
    ensures FilterFrontIds(filled) == things
  {
    forall i | 0 <= i < |things| ensures FilterFrontIds(filled)[i] == things[i] {
      RemoveUndoesFill(things[i], filled[i]);
    }
  }

  lemma FilterFrontIdsIdempotent(things: seq<Object>)
    ensures FilterFrontIds(FilterFrontIds(things)) == FilterFrontIds(things)
  {
    forall i | 0 <= i < |things|
      ensures FilterFrontIds(FilterFrontIds(things))[i] == FilterFrontIds(things)[i]
    {
      assert RemoveFrontId(RemoveFrontId(things[i])).Keys == RemoveFrontId(things[i]).Keys;
    }
  }

  /** `filterFrontIds(v)` on an attribute value, as an array value. */
  function FilterFrontIdsValue(v: Value): Result<Value> {
    var records :- Records(v);
    Ok(FromRecords(FilterFrontIds(records)))
  }

  /** `fillFrontIds(v)` on an attribute value, as an array value. */
  function FillFrontIdsValue(v: Value, gen: nat -> string, next: nat): (r: Result<(Value, nat)>)
    ensures r.Ok? <==> Records(v).Ok?
    ensures r.Ok? ==> Records(r.value.0).Ok? && |Records(r.value.0).value| == |Records(v).value|
    ensures r.Ok? ==> forall i :: 0 <= i < |Records(v).value| ==>
                        KeepsFieldsAddsFrontId(Records(v).value[i], Records(r.value.0).value[i])
  {
    var records :- Records(v);
    var filled := FillFrontIds(records, gen, next);
    FillFrontIdsKeepsFields(records, gen, next);
    RecordsFromRecords(filled.0);
    Ok((FromRecords(filled.0), filled.1))
  }

  /** The `reduce` of `fillFrontIdsForAttributes`: fill every listed attribute of `source`,
      collecting into `acc` and threading the generator from key to key. */
  function FillAttributes(source: Object, keys: seq<string>, acc: Object, gen: nat -> string, next: nat)
    : (r: Result<(Object, nat)>)
    ensures r.Ok? <==> forall k :: k in keys ==> Records(Get(source, k)).Ok?
    ensures r.Ok? ==> r.value.0.Keys == acc.Keys + (set k | k in keys)
    ensures r.Ok? ==> forall k :: k in acc && k !in keys ==> r.value.0[k] == acc[k]
    ensures r.Ok? ==> forall k :: k in keys ==>
                        && Records(r.value.0[k]).Ok?
                        && |Records(r.value.0[k]).value| == |Records(Get(source, k)).value|
                        && forall i :: 0 <= i < |Records(Get(source, k)).value| ==>
                             KeepsFieldsAddsFrontId(Records(Get(source, k)).value[i], Records(r.value.0[k]).value[i])
    decreases |keys|
  {
    if keys == [] then Ok((acc, next))
    else
      var filled :- FillFrontIdsValue(Get(source, keys[0]), gen, next);
      FillAttributes(source, keys[1..], acc[keys[0] := filled.0], gen, filled.1)
  }

  /** `fillFrontIdsForAttributes(data, attrKeys)`. */
  function FillFrontIdsForAttributes(data: Object, attrKeys: seq<string>, gen: nat -> string, next: nat)
    : (r: Result<(Object, nat)>)
    ensures r.Ok? <==> forall k :: k in attrKeys ==> Records(Get(data, k)).Ok?
    ensures r.Ok? ==> r.value.0.Keys == data.Keys + (set k | k in attrKeys)
    ensures r.Ok? ==> forall k :: k in data && k !in attrKeys ==> r.value.0[k] == data[k]
    ensures r.Ok? ==> forall k :: k in attrKeys ==>
                        && Records(r.value.0[k]).Ok?
                        && |Records(r.value.0[k]).value| == |Records(Get(data, k)).value|
                        && forall i :: 0 <= i < |Records(Get(data, k)).value| ==>
                             KeepsFieldsAddsFrontId(Records(Get(data, k)).value[i], Records(r.value.0[k]).value[i])
  {
    var filled :- FillAttributes(data, attrKeys, map[], gen, next);
    Ok((data + filled.0, filled.1))
  }

  // ----------------------------------------------------------------------------------------
  // Phases

  /** One phase as `filterFrontIdFromPhases` cleans it: a phase with a front id gets `id: ''`
      and loses the front id; any other phase is kept as it is. */
  function CleanPhase(phase: Value): (r: Result<Value>)
    ensures r.Err? <==> phase.Null? || phase.Undefined?
    ensures r.Ok? && phase.Obj? && Truthy(Get(phase.fields, "frontId")) ==>
              && r.value.Obj?
              && r.value.fields.Keys == phase.fields.Keys - {"frontId"} + {"id"}
              && r.value.fields["id"] == Str("")
              && forall k :: k in phase.fields && k != "id" && k != "frontId" ==> r.value.fields[k] == phase.fields[k]
    ensures r.Ok? && !(phase.Obj? && Truthy(Get(phase.fields, "frontId"))) ==> r.value == phase
  {
    match phase
    case Null => Err(TypeError)
    case Undefined => Err(TypeError)
    case Obj(f) =>
      if Truthy(Get(f, "frontId")) then Ok(Obj(RemoveFrontId(f["id" := Str("")]))) else Ok(phase)
    case _ => Ok(phase)
  }

  /** `filterFrontIdFromPhases(data)`: replaces `data.project.phases` by the cleaned phases,
      in order, and keeps everything else. */
  function FilterFrontIdFromPhases(data: Object): (r: Result<Object>)
    ensures Get(data, "project").Null? || Get(data, "project").Undefined? ==> r == Err(TypeError)
    ensures r.Ok? ==> "project" in data && data["project"].Obj? && "phases" in data["project"].fields
                      && data["project"].fields["phases"].Arr?
    ensures r.Ok? ==> r.value.Keys == data.Keys && forall k :: k in data && k != "project" ==> r.value[k] == data[k]
    ensures r.Ok? ==> && r.value["project"].Obj? && "phases" in r.value["project"].fields
                      && r.value["project"] == Obj(data["project"].fields["phases" := r.value["project"].fields["phases"]])
    ensures r.Ok? ==> && r.value["project"].fields["phases"].Arr?
                      && MapResult(data["project"].fields["phases"].items, CleanPhase)
                         == Ok(r.value["project"].fields["phases"].items)
  {
    var project := Get(data, "project");
    var phases :- Member(project, "phases");
    if !phases.Arr? then Err(TypeError)
    else
      var cleaned :- MapResult(phases.items, CleanPhase);
      Ok(data["project" := Obj(project.fields["phases" := Arr(cleaned)])])
  }

  /** The guard `data.project && data.project.phases`. */
  predicate PhasesPresent(data: Object) {
    Truthy(Get(data, "project")) && Truthy(Member(Get(data, "project"), "phases").value)
  }

  /** The `reduce` of `filterFrontIdsFromAttributes`: filter every listed attribute of `source`. */
  function FilterAttributes(source: Object, keys: seq<string>, acc: Object): (r: Result<Object>)
    ensures r.Ok? <==> forall k :: k in keys ==> Records(Get(source, k)).Ok?
    ensures r.Ok? ==> r.value.Keys == acc.Keys + (set k | k in keys)
    ensures r.Ok? ==> forall k :: k in acc && k !in keys ==> r.value[k] == acc[k]
    ensures r.Ok? ==> forall k :: k in keys ==> FilterFrontIdsValue(Get(source, k)) == Ok(r.value[k])
    decreases |keys|
  {
    if keys == [] then Ok(acc)
    else
      var filtered :- FilterFrontIdsValue(Get(source, keys[0]));
      FilterAttributes(source, keys[1..], acc[keys[0] := filtered])
  }

  /** `filterFrontIdsFromAttributes(data, attrKeys)`: clean the project phases when there are
      any, then drop the front ids of every listed attribute. */
  function FilterFrontIdsFromAttributes(data: Object, attrKeys: seq<string>): (r: Result<Object>)
    ensures !PhasesPresent(data) ==> (r.Ok? <==> forall k :: k in attrKeys ==> Records(Get(data, k)).Ok?)
    ensures PhasesPresent(data) ==>
              (r.Ok? <==> && FilterFrontIdFromPhases(data).Ok?
                          && forall k :: k in attrKeys ==> Records(Get(FilterFrontIdFromPhases(data).value, k)).Ok?)
    ensures r.Ok? && PhasesPresent(data) && "project" !in attrKeys ==>
              Get(r.value, "project") == Get(FilterFrontIdFromPhases(data).value, "project")
    ensures r.Ok? ==> r.value.Keys == data.Keys + (set k | k in attrKeys)
    ensures r.Ok? ==> forall k :: k in data && k !in attrKeys && k != "project" ==> r.value[k] == data[k]
    ensures r.Ok? && !PhasesPresent(data) ==>
              forall k :: k in data && k !in attrKeys ==> r.value[k] == data[k]
    ensures r.Ok? ==> forall k :: k in attrKeys && k != "project" ==>
                        FilterFrontIdsValue(Get(data, k)) == Ok(r.value[k])
    ensures r.Ok? && !PhasesPresent(data) ==> forall k :: k in attrKeys ==>
                        FilterFrontIdsValue(Get(data, k)) == Ok(r.value[k])
  {
    var base :- if PhasesPresent(data) then FilterFrontIdFromPhases(data) else Ok(data);
    var filtered :- FilterAttributes(base, attrKeys, map[]);
    Ok(base + filtered)
  }

  /** Filling front ids and then filtering them restores the hearing data, when no listed
      record had a front id and there are no project phases to clean. */
  lemma FilterUndoesFillForAttributes(data: Object, attrKeys: seq<string>, gen: nat -> string, next: nat)
    requires !PhasesPresent(data)
    requires forall k :: k in attrKeys ==> k in data && Records(data[k]).Ok?
    requires forall k, i :: k in attrKeys && 0 <= i < |Records(data[k]).value| ==>
               "frontId" !in Records(data[k]).value[i]
    ensures FillFrontIdsForAttributes(data, attrKeys, gen, next).Ok?
    ensures FilterFrontIdsFromAttributes(FillFrontIdsForAttributes(data, attrKeys, gen, next).value.0, attrKeys) == Ok(data)
  {
    var filled := FillFrontIdsForAttributes(data, attrKeys, gen, next).value.0;
    var inner := FillAttributes(data, attrKeys, map[], gen, next).value.0;
    forall k | k in attrKeys ensures Records(Get(filled, k)).Ok? && FilterFrontIdsValue(Get(filled, k)) == Ok(data[k]) {
      assert filled[k] == inner[k];
      FilterUndoesFillValue(data[k], inner[k]);
    }
    assert !PhasesPresent(filled) by {
      if "project" in attrKeys {
        assert filled["project"] == inner["project"];
      } else if "project" in data {
        assert filled["project"] == data["project"];
      }
    }
    FilterRestores(filled, data, attrKeys);
  }

  /** The round trip with the default attribute list, `ATTR_WITH_FRONT_ID`: a hearing whose
      sections, labels and contact persons have no front ids yet comes back unchanged. */
  lemma FilterUndoesFillForDefaultAttributes(data: Object, gen: nat -> string, next: nat)
    requires !PhasesPresent(data)
    requires forall k :: k in AttrWithFrontId ==> k in data && Records(data[k]).Ok?
    requires forall k, i :: k in AttrWithFrontId && 0 <= i < |Records(data[k]).value| ==>
               "frontId" !in Records(data[k]).value[i]
    ensures FillFrontIdsForAttributes(data, AttrWithFrontId, gen, next).Ok?
    ensures forall k :: k in AttrWithFrontId ==>
              Records(FillFrontIdsForAttributes(data, AttrWithFrontId, gen, next).value.0[k]).Ok?
    ensures FilterFrontIdsFromAttributes(FillFrontIdsForAttributes(data, AttrWithFrontId, gen, next).value.0,
                                         AttrWithFrontId) == Ok(data)
  {
    FilterUndoesFillForAttributes(data, AttrWithFrontId, gen, next);
  }

  /** Filtering a hearing that differs from `data` only in attributes whose filtered form is
      `data`'s gives back `data`. */
  lemma FilterRestores(filled: Object, data: Object, attrKeys: seq<string>)
    requires !PhasesPresent(filled)
    requires filled.Keys == data.Keys
    requires forall k :: k in attrKeys ==> k in data && FilterFrontIdsValue(Get(filled, k)) == Ok(data[k])
    requires forall k :: k in data && k !in attrKeys ==> filled[k] == data[k]
    ensures FilterFrontIdsFromAttributes(filled, attrKeys) == Ok(data)
  {
    assert forall k :: k in attrKeys ==> Records(Get(filled, k)).Ok?;
    var result := FilterFrontIdsFromAttributes(filled, attrKeys);
    assert result.value.Keys == data.Keys;
    assert result.value == data;
  }

  /** One attribute: removing front ids from records that gained one restores the original array. */
  lemma FilterUndoesFillValue(v: Value, w: Value)
    requires Records(v).Ok? && Records(w).Ok? && |Records(w).value| == |Records(v).value|
    requires forall i :: 0 <= i < |Records(v).value| ==>
               "frontId" !in Records(v).value[i] && KeepsFieldsAddsFrontId(Records(v).value[i], Records(w).value[i])
    ensures FilterFrontIdsValue(w) == Ok(v)
  {
    FilterUndoesFill(Records(v).value, Records(w).value);
    FromRecordsOfRecords(v);
  }

  // ----------------------------------------------------------------------------------------
  // Language filtering

  /** `filterObjectByLanguages(obj, languages)` (lodash `pickBy` on the language codes).
      A value that is not an object gives `{}`. */
  function FilterObjectByLanguages(obj: Value, languages: seq<string>): (r: Object)
    ensures obj.Obj? ==> r.Keys == obj.fields.Keys * (set l | l in languages)
    ensures obj.Obj? ==> forall k :: k in r ==> r[k] == obj.fields[k]
    ensures !obj.Obj? ==> r == map[]
  {
    match obj
    case Obj(f) => map k | k in f && k in languages :: f[k]
    case _ => map[]
  }

  /** Filtering leaves an object alone exactly when all its keys are among the languages. */
  lemma FilterObjectKeepsWithinLanguages(obj: Object, languages: seq<string>)
    ensures FilterObjectByLanguages(Obj(obj), languages) == obj
        <==> forall k :: k in obj ==> k in languages
  {
    var r := FilterObjectByLanguages(Obj(obj), languages);
    if forall k :: k in obj ==> k in languages {
      assert r.Keys == obj.Keys;
    } else {
      var k :| k in obj && k !in languages;
      assert k !in r;
    }
  }

  /** Every key of a localized string is one of the languages. */
  predicate LocalizedWithin(v: Value, languages: seq<string>) {
    v.Obj? && forall k :: k in v.fields ==> k in languages
  }

  /** The filtered form of a localized string is localized within the languages. */
  lemma FilteredIsLocalized(v: Value, languages: seq<string>)
    ensures LocalizedWithin(Obj(FilterObjectByLanguages(v, languages)), languages)
  {
  }

  /** One image of a section. As written (`intended` false) the code assigns
      `filterObjectByLanguages(image.abstract)` into the image: the languages argument is
      missing, the filter keeps nothing, and the image comes back unchanged. As evidently
      intended, the image's abstract is replaced by its filtered form. */
  function FilterImage(image: Value, languages: seq<string>, intended: bool): (r: Result<Value>)
    ensures r.Err? <==> !image.Obj?
    ensures r.Ok? && !intended ==> r.value == image
    ensures r.Ok? && intended ==>
              r.value == Obj(image.fields["abstract" := Obj(FilterObjectByLanguages(Get(image.fields, "abstract"), languages))])
  {
    match image
    case Obj(f) =>
      if intended then Ok(Obj(f["abstract" := Obj(FilterObjectByLanguages(Get(f, "abstract"), languages))]))
      else
        assert f + FilterObjectByLanguages(Get(f, "abstract"), []) == f;
        Ok(Obj(f + FilterObjectByLanguages(Get(f, "abstract"), [])))
    case Null => Err(TypeError)
    case Undefined => Err(TypeError)
    case _ => Err(NotARecord)
  }

  /** The localized keys of a section that are filtered by the languages. */
  const SectionLocalizedKeys: set<string> := {"abstract", "content", "title"}

  /** One section of `filterSectionsContentByLanguages`: abstract, content and title filtered,
      each image passed through `FilterImage`, everything else kept. A section without an
      `images` array throws. */
  function FilterSection(section: Value, languages: seq<string>, intended: bool): (r: Result<Value>)
    ensures r.Ok? ==> section.Obj? && Get(section.fields, "images").Arr?
    ensures r.Ok? ==> r.value.Obj? && r.value.fields.Keys == section.fields.Keys + SectionLocalizedKeys + {"images"}
    ensures r.Ok? ==> forall k :: k in section.fields && k !in SectionLocalizedKeys && k != "images" ==>
                        r.value.fields[k] == section.fields[k]
    ensures r.Ok? ==> forall k :: k in SectionLocalizedKeys ==>
                        r.value.fields[k] == Obj(FilterObjectByLanguages(Get(section.fields, k), languages))
    ensures r.Ok? ==> && r.value.fields["images"].Arr?
                      && MapResult(Get(section.fields, "images").items, im => FilterImage(im, languages, intended))
                         == Ok(r.value.fields["images"].items)
  {
    match section
    case Obj(f) =>
      var images := Get(f, "images");
      if !images.Arr? then Err(TypeError)
      else
        var mapped :- MapResult(images.items, im => FilterImage(im, languages, intended));
        Ok(Obj(f + map[
          "abstract" := Obj(FilterObjectByLanguages(Get(f, "abstract"), languages)),
          "content" := Obj(FilterObjectByLanguages(Get(f, "content"), languages)),
          "images" := Arr(mapped),
          "title" := Obj(FilterObjectByLanguages(Get(f, "title"), languages))]))
    case _ => Err(TypeError)
  }

  /** `filterSectionsContentByLanguages(sections, languages)`: every section filtered, in order. */
  function FilterSectionsContentByLanguages(sections: Value, languages: seq<string>, intended: bool): (r: Result<Value>)
    ensures !sections.Arr? ==> r == Err(TypeError)
    ensures r.Ok? ==> sections.Arr? && r.value.Arr? && |r.value.items| == |sections.items|
    ensures r.Ok? ==> forall i :: 0 <= i < |sections.items| ==>
                        FilterSection(sections.items[i], languages, intended) == Ok(r.value.items[i])
  {
    if !sections.Arr? then Err(TypeError)
    else
      var filtered :- MapResult(sections.items, s => FilterSection(s, languages, intended));
      Ok(Arr(filtered))
  }

  /** The keys `filterTitleAndContentByLanguage` assigns into the hearing. */
  const HearingLocalizedKeys: set<string> := {"abstract", "main_image", "title", "sections"}

  /** `assign(data, {abstract, main_image, title, sections})`. */
  function AssignLocalized(data: Object, abstr: Value, image: Value, title: Value, sections: Value): (r: Object)
    ensures r.Keys == data.Keys + HearingLocalizedKeys
    ensures forall k :: k in data && k !in HearingLocalizedKeys ==> r[k] == data[k]
    ensures r["abstract"] == abstr && r["main_image"] == image && r["title"] == title && r["sections"] == sections
  {
    data + map["abstract" := abstr, "main_image" := image, "title" := title, "sections" := sections]
  }

  /** The new `main_image`: `null` when there is none. As written, the caption's kept
      translations are assigned onto the image record; as intended, the caption is replaced by
      its filtered form. */
  function MainImage(mainImage: Value, languages: seq<string>, intended: bool): (r: Result<Value>)
    ensures !Truthy(mainImage) ==> r == Ok(Null)
    ensures Truthy(mainImage) ==> (r.Ok? <==> mainImage.Obj?)
    ensures r.Ok? && Truthy(mainImage) && !intended ==>
              r.value == Obj(mainImage.fields + FilterObjectByLanguages(Get(mainImage.fields, "caption"), languages))
    ensures r.Ok? && Truthy(mainImage) && intended ==>
              r.value == Obj(mainImage.fields["caption" :=
                               Obj(FilterObjectByLanguages(Get(mainImage.fields, "caption"), languages))])
  {
    if !Truthy(mainImage) then Ok(Null)
    else if !mainImage.Obj? then Err(NotARecord)
    else
      var caption := FilterObjectByLanguages(Get(mainImage.fields, "caption"), languages);
      if intended then Ok(Obj(mainImage.fields["caption" := Obj(caption)]))
      else Ok(Obj(mainImage.fields + caption))
  }

  /** `filterTitleAndContentByLanguage(data, languages)` as written: the abstract is filtered from
      the title, the caption's kept translations are merged into the main image record itself,
      and image abstracts are left alone. A missing main image becomes `null`. */
  function FilterTitleAndContentByLanguage(data: Object, languages: seq<string>): (r: Result<Object>)
    ensures !Get(data, "sections").Arr? ==> r.Err?
    ensures r.Ok? ==> r.value.Keys == data.Keys + HearingLocalizedKeys
    ensures r.Ok? ==> forall k :: k in data && k !in HearingLocalizedKeys ==> r.value[k] == data[k]
    ensures r.Ok? ==> r.value["title"] == Obj(FilterObjectByLanguages(Get(data, "title"), languages))
    ensures r.Ok? ==> r.value["abstract"] == r.value["title"]
    ensures r.Ok? && !Truthy(Get(data, "main_image")) ==> r.value["main_image"] == Null
    ensures r.Ok? && Truthy(Get(data, "main_image")) ==>
              && data["main_image"].Obj?
              && r.value["main_image"] == Obj(data["main_image"].fields
                   + FilterObjectByLanguages(Get(data["main_image"].fields, "caption"), languages))
    ensures r.Ok? ==> FilterSectionsContentByLanguages(Get(data, "sections"), languages, false) == Ok(r.value["sections"])
  {
    var image :- MainImage(Get(data, "main_image"), languages, false);
    var sections :- FilterSectionsContentByLanguages(Get(data, "sections"), languages, false);
    var title := Obj(FilterObjectByLanguages(Get(data, "title"), languages));
    Ok(AssignLocalized(data, title, image, title, sections))
  }

  /** `filterTitleAndContentByLanguage` with its three slips corrected: the abstract is filtered
      from the abstract, the caption is filtered in place, and image abstracts are filtered by
      the languages. */
  function FilterTitleAndContentByLanguageIntended(data: Object, languages: seq<string>): (r: Result<Object>)
    ensures !Get(data, "sections").Arr? ==> r.Err?
    ensures r.Ok? ==> r.value.Keys == data.Keys + HearingLocalizedKeys
    ensures r.Ok? ==> forall k :: k in data && k !in HearingLocalizedKeys ==> r.value[k] == data[k]
    ensures r.Ok? ==> r.value["abstract"] == Obj(FilterObjectByLanguages(Get(data, "abstract"), languages))
    ensures r.Ok? ==> r.value["title"] == Obj(FilterObjectByLanguages(Get(data, "title"), languages))
    ensures r.Ok? && !Truthy(Get(data, "main_image")) ==> r.value["main_image"] == Null
    ensures r.Ok? && Truthy(Get(data, "main_image")) ==>
              && data["main_image"].Obj?
              && r.value["main_image"] == Obj(data["main_image"].fields["caption" :=
                   Obj(FilterObjectByLanguages(Get(data["main_image"].fields, "caption"), languages))])
    ensures r.Ok? ==> FilterSectionsContentByLanguages(Get(data, "sections"), languages, true) == Ok(r.value["sections"])
  {
    var image :- MainImage(Get(data, "main_image"), languages, true);
    var sections :- FilterSectionsContentByLanguages(Get(data, "sections"), languages, true);
    Ok(AssignLocalized(data, Obj(FilterObjectByLanguages(Get(data, "abstract"), languages)), image,
                       Obj(FilterObjectByLanguages(Get(data, "title"), languages)), sections))
  }

  /** Every localized string of a section is within the languages, its images' abstracts included. */
  predicate SectionLocalizedWithin(section: Value, languages: seq<string>) {
    && section.Obj?
    && (forall k :: k in SectionLocalizedKeys ==> k in section.fields && LocalizedWithin(section.fields[k], languages))
    && "images" in section.fields && section.fields["images"].Arr?
    && forall j :: 0 <= j < |section.fields["images"].items| ==>
         var image := section.fields["images"].items[j];
         image.Obj? && "abstract" in image.fields && LocalizedWithin(image.fields["abstract"], languages)
  }

  /** A section filtered as intended has nothing left outside the languages. */
  lemma FilterSectionLocalizes(section: Value, languages: seq<string>)
    requires FilterSection(section, languages, true).Ok?
    ensures SectionLocalizedWithin(FilterSection(section, languages, true).value, languages)
  {
    var s := FilterSection(section, languages, true).value;
    var images := Get(section.fields, "images").items;
    var step := im => FilterImage(im, languages, true);
    assert MapResult(images, step) == Ok(s.fields["images"].items);
    forall j | 0 <= j < |s.fields["images"].items|
      ensures var image := s.fields["images"].items[j];
              image.Obj? && "abstract" in image.fields && LocalizedWithin(image.fields["abstract"], languages)
    {
      assert step(images[j]) == Ok(s.fields["images"].items[j]);
      FilteredIsLocalized(Get(images[j].fields, "abstract"), languages);
    }
    forall k | k in SectionLocalizedKeys ensures LocalizedWithin(s.fields[k], languages) {
      FilteredIsLocalized(Get(section.fields, k), languages);
    }
  }

  /** With the slips corrected, every localized string of the hearing ends up within the
      languages: abstract, title, main image caption, and every section's strings and image
      abstracts. */
  lemma IntendedFilterLocalizesEverything(data: Object, languages: seq<string>)
    requires FilterTitleAndContentByLanguageIntended(data, languages).Ok?
    ensures var r := FilterTitleAndContentByLanguageIntended(data, languages).value;
            && LocalizedWithin(r["abstract"], languages)
            && LocalizedWithin(r["title"], languages)
            && (r["main_image"] == Null || (r["main_image"].Obj? && "caption" in r["main_image"].fields
                                            && LocalizedWithin(r["main_image"].fields["caption"], languages)))
            && r["sections"].Arr?
            && forall i :: 0 <= i < |r["sections"].items| ==> SectionLocalizedWithin(r["sections"].items[i], languages)
  {
    var r := FilterTitleAndContentByLanguageIntended(data, languages).value;
    FilteredIsLocalized(Get(data, "abstract"), languages);
    FilteredIsLocalized(Get(data, "title"), languages);
    if Truthy(Get(data, "main_image")) {
      FilteredIsLocalized(Get(data["main_image"].fields, "caption"), languages);
    }
    var sections := Get(data, "sections").items;
    forall i | 0 <= i < |r["sections"].items|
      ensures SectionLocalizedWithin(r["sections"].items[i], languages)
    {
      FilterSectionLocalizes(sections[i], languages);
    }
  }

  /** As written, the abstract shown is the title's: a hearing whose abstract and title differ
      loses its abstract. */
  lemma AbstractCopiedFromTitle()
    ensures var data := map["title" := Obj(map["fi" := Str("Otsikko")]), "abstract" := Obj(map["fi" := Str("Tiivistelma")]),
                            "sections" := Arr([])];
            && FilterTitleAndContentByLanguage(data, ["fi"]).Ok?
            && FilterTitleAndContentByLanguage(data, ["fi"]).value["abstract"] == Obj(map["fi" := Str("Otsikko")])
            && FilterTitleAndContentByLanguageIntended(data, ["fi"]).Ok?
            && FilterTitleAndContentByLanguageIntended(data, ["fi"]).value["abstract"] == Obj(map["fi" := Str("Tiivistelma")])
  {
    var data := map["title" := Obj(map["fi" := Str("Otsikko")]), "abstract" := Obj(map["fi" := Str("Tiivistelma")]),
                    "sections" := Arr([])];
    assert FilterObjectByLanguages(Obj(map["fi" := Str("Otsikko")]), ["fi"]) == map["fi" := Str("Otsikko")];
    assert FilterObjectByLanguages(Obj(map["fi" := Str("Tiivistelma")]), ["fi"]) == map["fi" := Str("Tiivistelma")];
  }

  /** As written, an image abstract keeps the translations of languages that were filtered out. */
  lemma ImageAbstractUnfiltered()
    ensures var image := Obj(map["abstract" := Obj(map["fi" := Str("kuva"), "sv" := Str("bild")])]);
            && FilterImage(image, ["fi"], false) == Ok(image)
            && FilterImage(image, ["fi"], true) == Ok(Obj(map["abstract" := Obj(map["fi" := Str("kuva")])]))
  {
    var imageAbstract := map["fi" := Str("kuva"), "sv" := Str("bild")];
    var image := map["abstract" := Obj(imageAbstract)];
    assert FilterObjectByLanguages(Obj(imageAbstract), ["fi"]) == map["fi" := Str("kuva")];
    assert image["abstract" := Obj(map["fi" := Str("kuva")])] == map["abstract" := Obj(map["fi" := Str("kuva")])];
  }

  /** As written, the caption's translations land on the main image record itself, and the
      caption keeps the filtered-out languages. */
  lemma CaptionMergedIntoImage()
    ensures var caption := Obj(map["fi" := Str("kuvateksti"), "sv" := Str("bildtext")]);
            var data := map["main_image" := Obj(map["caption" := caption]), "sections" := Arr([])];
            && FilterTitleAndContentByLanguage(data, ["fi"]).Ok?
            && FilterTitleAndContentByLanguage(data, ["fi"]).value["main_image"]
               == Obj(map["caption" := caption, "fi" := Str("kuvateksti")])
  {
    var caption := map["fi" := Str("kuvateksti"), "sv" := Str("bildtext")];
    var image := map["caption" := Obj(caption)];
    var data := map["main_image" := Obj(image), "sections" := Arr([])];
    assert FilterSectionsContentByLanguages(Arr([]), ["fi"], false) == Ok(Arr([]));
    assert FilterObjectByLanguages(Obj(caption), ["fi"]) == map["fi" := Str("kuvateksti")];
    assert image + map["fi" := Str("kuvateksti")] == map["caption" := Obj(caption), "fi" := Str("kuvateksti")];
  }

  /** With the correction, the caption is filtered where it is and the image gains no keys. */
  lemma CaptionFilteredWhenCorrected()
    ensures var caption := Obj(map["fi" := Str("kuvateksti"), "sv" := Str("bildtext")]);
            var data := map["main_image" := Obj(map["caption" := caption]), "sections" := Arr([])];
            && FilterTitleAndContentByLanguageIntended(data, ["fi"]).Ok?
            && FilterTitleAndContentByLanguageIntended(data, ["fi"]).value["main_image"]
               == Obj(map["caption" := Obj(map["fi" := Str("kuvateksti")])])
  {
    var caption := map["fi" := Str("kuvateksti"), "sv" := Str("bildtext")];
    var image := map["caption" := Obj(caption)];
    assert FilterSectionsContentByLanguages(Arr([]), ["fi"], true) == Ok(Arr([]));
    assert FilterObjectByLanguages(Obj(caption), ["fi"]) == map["fi" := Str("kuvateksti")];
    assert image["caption" := Obj(map["fi" := Str("kuvateksti")])] == map["caption" := Obj(map["fi" := Str("kuvateksti")])];
  }

  // ----------------------------------------------------------------------------------------
  // Section order

  /** `array[i]`: `undefined` outside the array. */
  function ElementAt(s: seq<Value>, i: int): Value {
    if 0 <= i < |s| then s[i] else Undefined
  }

  /** `Array.prototype.splice(start, deleteCount, ...items)` on a copy: the array afterwards.
      A negative start counts from the end; both bounds are clamped to the array. */
  function Splice(s: seq<Value>, start: int, deleteCount: int, items: seq<Value>): (r: seq<Value>)
    ensures 0 <= start && deleteCount >= 0 && start + deleteCount <= |s| ==>
              r == s[..start] + items + s[start + deleteCount..]
  {
    var from := if start < 0 then (if |s| + start < 0 then 0 else |s| + start)
                else if start > |s| then |s| else start;
    var count := if deleteCount < 0 then 0
                 else if deleteCount > |s| - from then |s| - from else deleteCount;
    s[..from] + items + s[from + count..]
  }

  /** `moveSubsectionInArray(array, index, delta)`: the code copies the array and splices the
      copy, so the input is never changed and the model is a value. */
  function MoveSubsectionInArray(list: seq<Value>, index: int, delta: int): (r: seq<Value>)
    ensures 0 <= index < |list| && 1 <= index + delta < |list| && delta != 0 ==>
              var low := if delta > 0 then index else index + delta;
              var high := if delta > 0 then index + delta else index;
              && |r| == |list|
              && r[low] == list[high] && r[low + 1] == list[low]
              && forall k :: 0 <= k < |list| && k != low && k != low + 1 ==> r[k] == list[k]
  {
    var newIndex := index + delta;
    if newIndex < 1 || newIndex == |list| || newIndex == index then list
    else
      var low := if index < newIndex then index else newIndex;
      var high := if index < newIndex then newIndex else index;
      Splice(list, low, 2, [ElementAt(list, high), ElementAt(list, low)])
  }

  /** Already at the top (the first subsection stays first), at the bottom, or no move: the
      list comes back as it was. */
  lemma MoveSubsectionNoOp(list: seq<Value>, index: int, delta: int)
    requires index + delta < 1 || index + delta == |list| || delta == 0
    ensures MoveSubsectionInArray(list, index, delta) == list
  {
  }

  /** A move by one step inside the list swaps the two neighbours and changes nothing else,
      so position 0 never moves. */
  lemma MoveSubsectionSwaps(list: seq<Value>, index: int, delta: int)
    requires delta == 1 || delta == -1
    requires 0 <= index < |list| && 1 <= index + delta < |list|
    ensures var r := MoveSubsectionInArray(list, index, delta);
            && |r| == |list|
            && r[index] == list[index + delta] && r[index + delta] == list[index]
            && (forall k :: 0 <= k < |list| && k != index && k != index + delta ==> r[k] == list[k])
            && multiset(r) == multiset(list)
  {
    var low := if delta == 1 then index else index + delta;
    var r := MoveSubsectionInArray(list, index, delta);
    var before, x, y, after := list[..low], list[low], list[low + 1], list[low + 2..];
    assert r == before + [y, x] + after;
    assert list == before + [x, y] + after;
    assert multiset([y, x]) == multiset([x, y]);
  }

  /** A move by more than one step is not a swap: the element after the lower position is
      overwritten and the element at the higher position then appears twice. */
  lemma MoveSubsectionWideOverwrites(list: seq<Value>, index: int, delta: int)
    requires delta > 1 && 0 <= index && index + delta < |list|
    ensures var r := MoveSubsectionInArray(list, index, delta);
            && |r| == |list|
            && r[index] == list[index + delta] && r[index + 1] == list[index]
            && r[index + delta] == list[index + delta]
            && (forall k :: 0 <= k < |list| && k != index && k != index + 1 ==> r[k] == list[k])
  {
    var r := MoveSubsectionInArray(list, index, delta);
    assert r == list[..index] + [list[index + delta], list[index]] + list[index + 2..];
  }

  // ----------------------------------------------------------------------------------------
  // GeoJSON clean-up before saving

  /** `{type: 'Feature', geometry}`: the code emits no `properties` member. */
  function FeatureOf(geometry: Value): Value {
    Obj(map["type" := Str("Feature"), "geometry" := geometry])
  }

  /** `{type: 'FeatureCollection', features}` with one feature per geometry, in order. */
  function FeatureCollectionOf(geometries: seq<Value>): (v: Value)
    ensures v.Obj? && v.fields.Keys == {"type", "features"}
    ensures v.fields["type"] == Str("FeatureCollection") && v.fields["features"].Arr?
    ensures |v.fields["features"].items| == |geometries|
    ensures forall i :: 0 <= i < |geometries| ==> v.fields["features"].items[i] == FeatureOf(geometries[i])
  {
    Obj(map[
      "type" := Str("FeatureCollection"),
      "features" := Arr(seq(|geometries|, i requires 0 <= i < |geometries| => FeatureOf(geometries[i])))])
  }

  /** The geometries of a feature collection, `features.map(f => f.geometry)`. */
  function GeometriesOf(featureCollection: Value): Result<seq<Value>> {
    var features :- Member(featureCollection, "features");
    if !features.Arr? then Err(TypeError)
    else MapResult(features.items, f => Member(f, "geometry"))
  }

  /** Reading the geometries back out of the wrapped collection gives the array that was wrapped. */
  lemma GeometriesOfFeatureCollection(geometries: seq<Value>)
    ensures GeometriesOf(FeatureCollectionOf(geometries)) == Ok(geometries)
  {
    var features := FeatureCollectionOf(geometries).fields["features"].items;
    var r := MapResult(features, f => Member(f, "geometry"));
    forall i | 0 <= i < |features| ensures Member(features[i], "geometry") == Ok(geometries[i]) {
    }
    assert r.Ok?;
    assert r.value == geometries;
  }

  /** `tempArr.reduce(featureCollectionReducer, [])` wrapped into a collection: only an array
      has `reduce`. */
  function WrapGeometries(geojson: Value): (r: Result<Value>)
    ensures r.Ok? <==> geojson.Arr?
    ensures r.Ok? ==> r.value == FeatureCollectionOf(geojson.items)
  {
    if geojson.Arr? then Ok(FeatureCollectionOf(geojson.items)) else Err(TypeError)
  }

  /** `hearing.sections.reduce(...)` giving each section `id: ''`. */
  function CleanSections(sections: Value): (r: Result<Value>)
    ensures r.Ok? <==> Records(sections).Ok?
    ensures r.Ok? ==> r.value.Arr? && |r.value.items| == |sections.items|
    ensures r.Ok? ==> forall i :: 0 <= i < |sections.items| ==> r.value.items[i] == Obj(sections.items[i].fields["id" := Str("")])
  {
    var records :- Records(sections);
    Ok(FromRecords(seq(|records|, i requires 0 <= i < |records| => records[i]["id" := Str("")])))
  }

  /** `cleanHearing(hearing)`, branch by branch as written. */
  function CleanHearing(hearing: Object): (r: Result<Object>)
    // Errors: no geojson at all, or sections that are not an array of records
    ensures Get(hearing, "geojson").Null? || Get(hearing, "geojson").Undefined? ==> r == Err(TypeError)
    ensures r.Ok? ==> Records(Get(hearing, "sections")).Ok?
    // The rest of the hearing is kept; sections keep count and order and get id ''
    ensures r.Ok? ==> r.value.Keys == hearing.Keys + {"sections", "geojson"}
    ensures r.Ok? ==> forall k :: k in hearing && k != "sections" && k != "geojson" ==> r.value[k] == hearing[k]
    ensures r.Ok? ==> CleanSections(Get(hearing, "sections")) == Ok(r.value["sections"])
    // A non-empty array of geometries is wrapped, one feature per geometry, in order
    ensures Get(hearing, "geojson").Arr? && Get(hearing, "geojson").items != [] && r.Ok? ==>
              r.value["geojson"] == FeatureCollectionOf(Get(hearing, "geojson").items)
    // A feature collection, an empty array and a bare geometry pass through unchanged
    ensures Get(hearing, "geojson") == Arr([]) && r.Ok? ==> r.value["geojson"] == Arr([])
    ensures var g := Get(hearing, "geojson");
            (g.Obj? && Get(g.fields, "type") == Str("FeatureCollection") && Get(g.fields, "length") != Num(1.0) && r.Ok?)
            ==> r.value["geojson"] == g
    ensures var g := Get(hearing, "geojson");
            (g.Obj? && "length" !in g.fields && r.Ok?) ==> r.value["geojson"] == g
    // Success exactly when sections clean up and any wrapping is of an array
    ensures Get(hearing, "geojson").Arr? ==> (r.Ok? <==> Records(Get(hearing, "sections")).Ok?)
  {
    var geojson := Get(hearing, "geojson");
    var length :- Member(geojson, "length");
    if length == Num(1.0) then
      var sections :- CleanSections(Get(hearing, "sections"));
      var wrapped :- WrapGeometries(geojson);
      Ok(hearing + map["sections" := sections, "geojson" := wrapped])
    else if Member(geojson, "type") == Ok(Str("FeatureCollection")) then
      var sections :- CleanSections(Get(hearing, "sections"));
      Ok(hearing + map["sections" := sections, "geojson" := geojson])
    else if length.Num? && length.n > 1.0 then
      var sections :- CleanSections(Get(hearing, "sections"));
      var wrapped :- WrapGeometries(geojson);
      Ok(hearing + map["sections" := sections, "geojson" := wrapped])
    else
      var sections :- CleanSections(Get(hearing, "sections"));
      Ok(hearing + map["sections" := sections, "geojson" := geojson])
  }

  // ----------------------------------------------------------------------------------------
  // Uploaded feature collections

  /** The map library's coordinate conversions, which the model does not interpret:
      `coordsToLatLngs(c, 1)` then `latLngsToCoords(_, 1)` for a single-ring value, and
      `coordsToLatLng(c)` then `latLngToCoords(_, 6)` otherwise. Either may throw. */
  datatype LatLngCodec = LatLngCodec(rings: Value -> Result<Value>, point: Value -> Result<Value>)

  /** The converted coordinates of one geometry. */
  function ConvertCoordinates(coordinates: Value, codec: LatLngCodec): Result<Value> {
    var length :- Member(coordinates, "length");
    if length == Num(1.0) then codec.rings(coordinates) else codec.point(coordinates)
  }

  /** One feature of `parseCollection`: `{coordinates, type}` of its geometry. */
  function ParseFeature(feature: Value, codec: LatLngCodec): (r: Result<Value>)
    ensures r.Ok? ==> HasKey(feature, "geometry") && feature.fields["geometry"].Obj?
    ensures r.Ok? ==>
              var geometry := feature.fields["geometry"].fields;
              && ConvertCoordinates(Get(geometry, "coordinates"), codec).Ok?
              && r.value == Obj(map[
                   "coordinates" := ConvertCoordinates(Get(geometry, "coordinates"), codec).value,
                   "type" := Get(geometry, "type")])
  {
    var geometry :- Member(feature, "geometry");
    // A geometry that is not an object has no coordinates, and reading their length throws.
    if !geometry.Obj? then Err(TypeError)
    else
      var converted :- ConvertCoordinates(Get(geometry.fields, "coordinates"), codec);
      Ok(Obj(map["coordinates" := converted, "type" := Get(geometry.fields, "type")]))
  }

  /** `parseCollection(features)`: one `{coordinates, type}` per feature, in order, the type
      copied from the feature's geometry. */
  function ParseCollection(features: Value, codec: LatLngCodec): (r: Result<seq<Value>>)
    ensures !features.Arr? ==> r == Err(TypeError)
    ensures r.Ok? ==> features.Arr? && |r.value| == |features.items|
    ensures r.Ok? ==> forall i :: 0 <= i < |features.items| ==>
                        && HasKey(features.items[i], "geometry")
                        && features.items[i].fields["geometry"].Obj?
                        && r.value[i].Obj? && r.value[i].fields.Keys == {"coordinates", "type"}
                        && r.value[i].fields["type"] == Get(features.items[i].fields["geometry"].fields, "type")
    ensures features.Arr? ==> (r.Ok? <==> forall i :: 0 <= i < |features.items| ==> ParseFeature(features.items[i], codec).Ok?)
    ensures r.Ok? ==> forall i :: 0 <= i < |features.items| ==> ParseFeature(features.items[i], codec) == Ok(r.value[i])
  {
    if !features.Arr? then Err(TypeError)
    else MapResult(features.items, f => ParseFeature(f, codec))
  }
}
