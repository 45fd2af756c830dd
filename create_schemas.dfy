/**
 * The generator of the Berlin-model JSON schema. Every condition, clinical
 * finding, attribute and attribute value of the fixture data becomes a
 * definition built from one concept template (id, name and SNOMED URIs as
 * JSON-schema constants); findings list the attributes scoped to them, and
 * attributes list their values. The nested `schema_json["definitions"]`
 * dict is updated in place; a concept's own properties are a small fixed
 * set, so their names are a datatype here rather than strings.
 */
module CreateSchemas {
  import opened Wrappers
  import opened Dicts
  import opened Text

  const SNOMED_PREFIX: string := "http://snomed.info/id/"
  const DEFINITIONS_PREFIX: string := "#/definitions/"
  const SCHEMA_ID: string :=
    "https://raw.githubusercontent.com/FG-AI4H-TG-Symptom/fgai4h-tg-symptom-models-schemas/master/schemas/berlin-model.schema.json"
  /** The description as the script spells it: an en dash mis-decoded into three characters. */
  const SCHEMA_DESCRIPTION: string := "FGAI4H TG Symptom Cases Schema \U{E2}\U{20AC}\U{201C} Berlin (generated)"
  const SCHEMA_COMMENT: string := "This model is auto-generated! Don't manually make changes you wish to persist."
  const SCOPE_DESCRIPTION: string := "ID of clinical finding this attribute is scoped to"

  /** The property names of a concept definition. */
  datatype Key = Id | Name | StandardOntologyUris | State | Attributes | Values | Value | Scope

  /** A constant's value: a string, or a list of URIs. */
  datatype ConstValue = Text(text: string) | Uris(uris: seq<string>)

  /** `{"title": ..., "$ref": "#/definitions/<id>"}` */
  datatype Ref = Ref(title: ConstValue, ref: string)

  datatype Property =
    | Const(constant: ConstValue, default: ConstValue, description: string)  // create_const
    | StateRef                                                             // {"$ref": "#/definitions/clinicalFindingState"}
    | AttributeList(entries: Option<seq<Ref>>, constEmpty: bool)             // array of attribute refs; items dropped, const [] set
    | ValueList(items: seq<Ref>)                                           // "values": array, uniqueItems, minItems 1
    | ValueChoice(oneOf: seq<Ref>)                                         // "value": exactly one

  datatype Definition =
    | Concept(title: string, properties: map<Key, Property>, required: seq<Key>)  // "type": "object", no additional properties
    | OneOf(refs: seq<Ref>)
    | Given   // a definition of the generic schema file, left as read

  /** A condition, finding, attribute or value record of the fixture data. */
  datatype ConceptRecord = ConceptRecord(sctid: string, shortName: string, id: string)
  datatype AttributeRecord = AttributeRecord(concept: ConceptRecord, multiselect: bool, valueSet: seq<ConceptRecord>)
  datatype FindingRecord = FindingRecord(concept: ConceptRecord, attributes: seq<AttributeRecord>)

  /** `schema_json["definitions"]`, by id. */
  type Definitions = map<string, Definition>

  /** `schema_json["definitions"][id] = d` */
  function Store(defs: Definitions, id: string, d: Definition): Definitions {
    defs[id := d]
  }

  /** `schema_json["definitions"].get(id)` */
  function Lookup(defs: Definitions, id: string): Option<Definition> {
    if id in defs then Some(defs[id]) else None
  }

  // ------------------------------------------------------------ constants and templates

  /**
   * `create_const`: one object is both the constant and the default, so
   * they are equal now and stay equal through any later append.
   */
  function CreateConst(value: ConstValue, description: string): (r: Property)
    ensures r.Const? && r.constant == value && r.default == value && r.description == description
  {
    Const(value, value, description)
  }

  /** The property k of a concept, if it has one. */
  function Prop(d: Definition, k: Key): Option<Property> {
    if d.Concept? && k in d.properties then Some(d.properties[k]) else None
  }

  /** The attribute refs a finding lists, or none when it has no list to append to. */
  function ListedAttributes(d: Definition): Option<seq<Ref>> {
    var p := Prop(d, Attributes);
    if p.Some? && p.value.AttributeList? then p.value.entries else None
  }

  /** `lookup_const`: the constant of a concept's property; a missing one is a KeyError. */
  function LookupConst(d: Definition, k: Key): (r: Result<ConstValue>)
    ensures r.Ok? <==> Prop(d, k).Some? && (Prop(d, k).value.Const? || (Prop(d, k).value.AttributeList? && Prop(d, k).value.constEmpty))
    ensures r.Ok? && Prop(d, k).value.Const? ==> r.value == Prop(d, k).value.constant
    ensures r.Ok? && !Prop(d, k).value.Const? ==> r.value == Uris([])
    ensures r.Err? ==> r.error == KeyError
  {
    if Prop(d, k).None? then Err(KeyError)
    else
      var p := Prop(d, k).value;
      if p.Const? then Ok(p.constant)
      else if p.AttributeList? && p.constEmpty then Ok(Uris([]))
      else Err(KeyError)
  }

  function RefTo(title: ConstValue, id: string): Ref {
    Ref(title, DEFINITIONS_PREFIX + id)
  }

  /** `ref.split('/')[-1]`: what follows the last slash, or all of it. */
  function LastSegment(s: string): string
    decreases |s|
  {
    if s == [] then []
    else if s[|s| - 1] == '/' then []
    else LastSegment(s[..|s| - 1]) + [s[|s| - 1]]
  }

  /** The last segment is a suffix without a slash. */
  lemma {:induction false} LastSegmentSuffix(s: string)
    ensures var r := LastSegment(s);
      |r| <= |s| && r == s[|s| - |r|..] && '/' !in r
    decreases |s|
  {
    if s != [] && s[|s| - 1] != '/' {
      var front := s[..|s| - 1];
      LastSegmentSuffix(front);
      var r := LastSegment(front);
      assert s[|s| - |r| - 1..] == front[|front| - |r|..] + [s[|s| - 1]];
    }
  }

  /** A reference to a definition whose id has no slash leads back to that id. */
  lemma {:induction false} LastSegmentOfRef(prefix: string, id: string)
    requires '/' !in id && (prefix == [] || prefix[|prefix| - 1] == '/')
    ensures LastSegment(prefix + id) == id
    decreases |id|
  {
    if id == [] {
      assert prefix + id == prefix;
    } else {
      var front := id[..|id| - 1];
      assert (prefix + id)[..|prefix + id| - 1] == prefix + front;
      LastSegmentOfRef(prefix, front);
      assert id == front + [id[|id| - 1]];
    }
  }

  /** The concept before its URI is appended. */
  function Template(conceptName: string, name: string, generatedId: string): Definition {
    Concept(name,
      map[Id := CreateConst(Text(generatedId), conceptName + " ID"),
          Name := CreateConst(Text(name), conceptName + " name"),
          StandardOntologyUris := CreateConst(Uris([]), "URIs referencing this " + Lower(conceptName) + " in standard ontologies")],
      [Id, Name, StandardOntologyUris])
  }

  /**
   * `concept["properties"]["standardOntologyUris"]["const"].append(uri)`:
   * the default is the same list, so it gains the URI too.
   */
  function WithUri(c: Definition, uri: string): Definition
    requires Prop(c, StandardOntologyUris).Some? && Prop(c, StandardOntologyUris).value.Const?
    requires Prop(c, StandardOntologyUris).value.constant.Uris?
  {
    var p := c.properties[StandardOntologyUris];
    var uris := Uris(p.constant.uris + [uri]);
    c.(properties := c.properties[StandardOntologyUris := p.(constant := uris, default := uris)])
  }

  /** The ontology URIs of an id: none for a custom concept, else the SNOMED URI of `int(id)`. */
  function OntologyUris(idRaw: string): Result<seq<string>> {
    if Contains(idRaw, "CUSTOM") then Ok([])
    else
      var sctid :- ParseInt(idRaw);
      Ok([SNOMED_PREFIX + IntToString(sctid)])
  }

  /**
   * An id containing "CUSTOM" has no ontology URI; any other is read as an
   * integer, the ValueError of a malformed one escaping, and gives
   * `http://snomed.info/id/<int>`.
   */
  lemma OntologyUrisCases(idRaw: string)
    ensures Contains(idRaw, "CUSTOM") ==> OntologyUris(idRaw) == Ok([])
    ensures !Contains(idRaw, "CUSTOM") ==>
      (OntologyUris(idRaw).Ok? <==> ParseInt(idRaw).Ok?) &&
      (OntologyUris(idRaw).Ok? ==> OntologyUris(idRaw).value == [SNOMED_PREFIX + IntToString(ParseInt(idRaw).value)])
    ensures OntologyUris(idRaw).Err? ==> OntologyUris(idRaw).error == ValueError
  {
    if !Contains(idRaw, "CUSTOM") && ParseInt(idRaw).Err? {
      assert ParseInt(idRaw).error == ValueError;
    }
  }

  /** `concept_template`. */
  function ConceptTemplate(conceptName: string, idRaw: string, name: string, generatedId: string): Result<Definition> {
    if Contains(idRaw, "CUSTOM") then Ok(Template(conceptName, name, generatedId))
    else
      var sctid :- ParseInt(idRaw);
      Ok(WithUri(Template(conceptName, name, generatedId), SNOMED_PREFIX + IntToString(sctid)))
  }

  /**
   * A concept is an object titled by its name whose id, name and URIs are
   * constants, all three required; its URIs are the SNOMED one unless the
   * id is custom, and they are also its default.
   */
  lemma ConceptTemplateShape(conceptName: string, idRaw: string, name: string, generatedId: string)
    ensures var r := ConceptTemplate(conceptName, idRaw, name, generatedId);
      (r.Ok? <==> OntologyUris(idRaw).Ok?) && (r.Err? ==> r.error == ValueError)
    ensures var r := ConceptTemplate(conceptName, idRaw, name, generatedId);
      r.Ok? ==>
        var c := r.value;
        c.Concept? && c.title == name && c.required == [Id, Name, StandardOntologyUris] &&
        c.properties.Keys == {Id, Name, StandardOntologyUris} &&
        c.properties[Id] == CreateConst(Text(generatedId), conceptName + " ID") &&
        c.properties[Name] == CreateConst(Text(name), conceptName + " name") &&
        c.properties[StandardOntologyUris] ==
          CreateConst(Uris(OntologyUris(idRaw).value), "URIs referencing this " + Lower(conceptName) + " in standard ontologies") &&
        ConceptWellformed(c)
  {
    OntologyUrisCases(idRaw);
  }

  // ------------------------------------------------------------ add_properties

  /** The concept after the first n properties are added: each set, and its name appended to required. */
  function Added(c: Definition, props: Dict<Key, Property>, n: nat): Definition
    requires c.Concept? && n <= |props|
    decreases n
  {
    if n == 0 then c
    else
      var d := Added(c, props, n - 1);
      d.(properties := d.properties[props[n - 1].0 := props[n - 1].1], required := d.required + [props[n - 1].0])
  }

  /**
   * `add_properties`: the title stays, the names are appended to required in
   * order, and the properties afterwards are those before and the added ones.
   */
  lemma {:induction false} AddedShape(c: Definition, props: Dict<Key, Property>, n: nat)
    requires c.Concept? && n <= |props|
    ensures var r := Added(c, props, n);
      r.Concept? && r.title == c.title && r.required == c.required + Keys(props)[..n] &&
      forall k :: k in r.properties <==> k in c.properties || k in Keys(props)[..n]
    decreases n
  {
    if n > 0 {
      var ks := Keys(props);
      assert ks[..n] == ks[..n - 1] + [props[n - 1].0];
      AddedShape(c, props, n - 1);
    }
  }

  /** Each added property holds its value afterwards, as the names of a dict are distinct; the others are kept. */
  lemma {:induction false} AddedValues(c: Definition, props: Dict<Key, Property>, n: nat)
    requires c.Concept? && n <= |props| && DistinctKeys(props)
    ensures forall i :: 0 <= i < n ==> Prop(Added(c, props, n), props[i].0) == Some(props[i].1)
    ensures forall k :: k !in Keys(props)[..n] ==> Prop(Added(c, props, n), k) == Prop(c, k)
    decreases n
  {
    if n > 0 {
      var ks := Keys(props);
      assert ks[..n] == ks[..n - 1] + [props[n - 1].0];
      AddedValues(c, props, n - 1);
    }
  }

  /** `add_properties` with one property, as every caller uses it. */
  function AddProperty(c: Definition, k: Key, v: Property): Definition
    requires c.Concept?
  {
    c.(properties := c.properties[k := v], required := c.required + [k])
  }

  /** `add_properties` with a one-entry dict is AddProperty. */
  lemma AddedOne(c: Definition, k: Key, v: Property)
    requires c.Concept?
    ensures Added(c, [(k, v)], 1) == AddProperty(c, k, v)
  {
    assert Added(c, [(k, v)], 0) == c;
  }

  /** `add_properties`: the loop over the new properties, each set and appended to required. */
  method AddProperties(c: Definition, props: Dict<Key, Property>) returns (r: Definition)
    requires c.Concept?
    ensures r == Added(c, props, |props|)
  {
    r := c;
    for n := 0 to |props|
      invariant r == Added(c, props, n)
    {
      r := r.(properties := r.properties[props[n].0 := props[n].1], required := r.required + [props[n].0]);
    }
  }

  // ------------------------------------------------------------ registering definitions

  /** `register_clinical_finding`'s definition: the template plus a state ref and an empty attribute list. */
  function FindingDefinition(f: ConceptRecord): Result<Definition> {
    var c :- ConceptTemplate("Clinical finding", f.sctid, f.shortName, f.id);
    Ok(AddProperty(AddProperty(c, State, StateRef), Attributes, AttributeList(Some([]), false)))
  }

  /** A concept made a finding has a state ref and an attribute list as well, both required. */
  lemma FindingPropertiesAdded(c: Definition)
    requires c.Concept? && ConceptWellformed(c)
    ensures var d := AddProperty(AddProperty(c, State, StateRef), Attributes, AttributeList(Some([]), false));
      d.Concept? && d.title == c.title && d.required == c.required + [State, Attributes] &&
      Prop(d, State) == Some(StateRef) && Prop(d, Attributes) == Some(AttributeList(Some([]), false)) &&
      ConceptWellformed(d)
  {
    AddPropertyWellformed(c, State, StateRef);
    AddPropertyWellformed(AddProperty(c, State, StateRef), Attributes, AttributeList(Some([]), false));
  }

  /** A finding requires id, name, URIs, state and attributes, and starts with no attribute refs. */
  lemma FindingDefinitionShape(f: ConceptRecord)
    ensures FindingDefinition(f).Ok? <==> OntologyUris(f.sctid).Ok?
    ensures FindingDefinition(f).Ok? ==>
      var d := FindingDefinition(f).value;
      d.Concept? && d.title == f.shortName && d.required == [Id, Name, StandardOntologyUris, State, Attributes] &&
      Prop(d, State) == Some(StateRef) &&
      Prop(d, Attributes) == Some(AttributeList(Some([]), false)) &&
      ConceptWellformed(d)
  {
    ConceptTemplateShape("Clinical finding", f.sctid, f.shortName, f.id);
    if OntologyUris(f.sctid).Ok? {
      FindingPropertiesAdded(ConceptTemplate("Clinical finding", f.sctid, f.shortName, f.id).value);
    }
  }

  function WithFinding(defs: Definitions, f: ConceptRecord): Result<Definitions> {
    var d :- FindingDefinition(f);
    Ok(Store(defs, f.id, d))
  }

  /** The attribute's own definition: the template plus "values" or "value". */
  function AttributeDefinition(a: AttributeRecord): Result<Definition> {
    var c :- ConceptTemplate("Attribute", a.concept.sctid, a.concept.shortName, a.concept.id);
    if a.multiselect then Ok(AddProperty(c, Values, ValueList([])))
    else Ok(AddProperty(c, Value, ValueChoice([])))
  }

  /** The finding's `attributes.items.oneOf` gains a ref; a definition without one is a KeyError. */
  function WithAttributeRef(d: Definition, ref: Ref): Result<Definition> {
    if ListedAttributes(d).None? then Err(KeyError)
    else
      var p := Prop(d, Attributes).value;
      Ok(d.(properties := d.properties[Attributes := p.(entries := Some(p.entries.value + [ref]))]))
  }

  /** The finding's attribute list gains the ref at its end and nothing else changes; a definition without a list is a KeyError. */
  lemma AttributeRefAppended(d: Definition, ref: Ref)
    ensures var r := WithAttributeRef(d, ref);
      (r.Ok? <==> ListedAttributes(d).Some?) && (r.Err? ==> r.error == KeyError)
    ensures var r := WithAttributeRef(d, ref);
      r.Ok? ==>
        r.value.Concept? && r.value.title == d.title && r.value.required == d.required &&
        ListedAttributes(r.value) == Some(ListedAttributes(d).value + [ref]) &&
        Prop(r.value, Attributes).value.constEmpty == Prop(d, Attributes).value.constEmpty &&
        forall k :: k != Attributes ==> Prop(r.value, k) == Prop(d, k)
  {
  }

  /** The title of an attribute's ref: its name, or the name of the definition already under its id. */
  function AttributeTitle(defs: Definitions, a: AttributeRecord): Result<ConstValue> {
    match Lookup(defs, a.concept.id)
    case None => Ok(Text(a.concept.shortName))
    case Some(existing) => LookupConst(existing, Name)
  }

  /**
   * `register_attribute`: the ref is appended to the finding's attribute
   * list, then the attribute, scoped to the finding, is stored under its id.
   */
  function WithAttribute(defs: Definitions, a: AttributeRecord, findingId: string): Result<(Definitions, Ref)> {
    var attribute :- AttributeDefinition(a);
    var title :- AttributeTitle(defs, a);
    var ref := RefTo(title, a.concept.id);
    var finding :- if Lookup(defs, findingId).Some? then WithAttributeRef(Lookup(defs, findingId).value, ref) else Err(KeyError);
    var scoped := attribute.(properties := attribute.properties[Scope := CreateConst(Text(findingId), SCOPE_DESCRIPTION)]);
    Ok((Store(Store(defs, findingId, finding), a.concept.id, scoped), ref))
  }

  /** The list an attribute's values go to: "values" for a multiselect attribute, "value" otherwise. */
  function ValueKey(a: AttributeRecord): Key {
    if a.multiselect then Values else Value
  }

  /**
   * A multiselect attribute gets an empty "values" list and any other an
   * empty "value" choice, either one required after id, name and URIs.
   */
  lemma AttributeDefinitionShape(a: AttributeRecord)
    ensures AttributeDefinition(a).Ok? <==> OntologyUris(a.concept.sctid).Ok?
    ensures AttributeDefinition(a).Ok? ==>
      var d := AttributeDefinition(a).value;
      d.Concept? && d.title == a.concept.shortName &&
      d.required == [Id, Name, StandardOntologyUris, ValueKey(a)] &&
      Prop(d, ValueKey(a)) == Some(if a.multiselect then ValueList([]) else ValueChoice([])) &&
      Prop(d, Scope).None? && ConceptWellformed(d)
  {
    ConceptTemplateShape("Attribute", a.concept.sctid, a.concept.shortName, a.concept.id);
    if OntologyUris(a.concept.sctid).Ok? {
      var c := ConceptTemplate("Attribute", a.concept.sctid, a.concept.shortName, a.concept.id).value;
      AddPropertyWellformed(c, ValueKey(a), if a.multiselect then ValueList([]) else ValueChoice([]));
    }
  }

  /**
   * The attribute stored under its id is its definition with a "scope"
   * constant naming the finding, which is not required; the finding lists
   * the attribute's ref last.
   */
  lemma RegisteredAttribute(defs: Definitions, a: AttributeRecord, findingId: string)
    requires WithAttribute(defs, a, findingId).Ok? && a.concept.id != findingId
    ensures var after := WithAttribute(defs, a, findingId).value.0;
      Lookup(after, a.concept.id).Some? &&
      var d := Lookup(after, a.concept.id).value;
      d.Concept? && d.required == [Id, Name, StandardOntologyUris, ValueKey(a)] &&
      Prop(d, ValueKey(a)) == Some(if a.multiselect then ValueList([]) else ValueChoice([])) &&
      Prop(d, Scope) == Some(CreateConst(Text(findingId), SCOPE_DESCRIPTION)) &&
      Scope !in d.required
    ensures var (after, ref) := WithAttribute(defs, a, findingId).value;
      Lookup(after, findingId).Some? && Lookup(defs, findingId).Some? &&
      ListedAttributes(Lookup(after, findingId).value) == Some(ListedAttributes(Lookup(defs, findingId).value).value + [ref]) &&
      ref.ref == DEFINITIONS_PREFIX + a.concept.id
  {
    AttributeDefinitionShape(a);
    var attribute := AttributeDefinition(a).value;
    var title := AttributeTitle(defs, a).value;
    var ref := RefTo(title, a.concept.id);
    AttributeRefAppended(Lookup(defs, findingId).value, ref);
    var finding := WithAttributeRef(Lookup(defs, findingId).value, ref).value;
    var scope := CreateConst(Text(findingId), SCOPE_DESCRIPTION);
    var scoped := attribute.(properties := attribute.properties[Scope := scope]);
    var mid := Store(defs, findingId, finding);
    assert WithAttribute(defs, a, findingId).value == (Store(mid, a.concept.id, scoped), ref);
  }

  /** An attribute's "values" or "value" list gains a ref; an attribute with neither is a KeyError. */
  function WithValueRef(d: Definition, ref: Ref): Result<Definition> {
    if !d.Concept? then Err(KeyError)
    else if Prop(d, Values).Some? then
      var p := Prop(d, Values).value;
      if p.ValueList? then Ok(d.(properties := d.properties[Values := ValueList(p.items + [ref])]))
      else Err(KeyError)
    else if Prop(d, Value).Some? && Prop(d, Value).value.ValueChoice? then
      Ok(d.(properties := d.properties[Value := ValueChoice(Prop(d, Value).value.oneOf + [ref])]))
    else Err(KeyError)
  }

  /**
   * The ref goes to the end of "values" when the attribute has that
   * property, and to the end of "value" otherwise; nothing else changes.
   * An attribute with neither list is a KeyError.
   */
  lemma ValueRefAppended(d: Definition, ref: Ref)
    ensures var r := WithValueRef(d, ref);
      (Prop(d, Values).Some? ==> (r.Ok? <==> Prop(d, Values).value.ValueList?)) &&
      (Prop(d, Values).None? ==> (r.Ok? <==> Prop(d, Value).Some? && Prop(d, Value).value.ValueChoice?)) &&
      (r.Err? ==> r.error == KeyError)
    ensures var r := WithValueRef(d, ref);
      r.Ok? ==> r.value.Concept? && r.value.title == d.title && r.value.required == d.required
    ensures var r := WithValueRef(d, ref);
      Prop(d, Values).Some? && r.Ok? ==>
        Prop(r.value, Values) == Some(ValueList(Prop(d, Values).value.items + [ref])) &&
        forall k :: k != Values ==> Prop(r.value, k) == Prop(d, k)
    ensures var r := WithValueRef(d, ref);
      Prop(d, Values).None? && r.Ok? ==>
        Prop(r.value, Value) == Some(ValueChoice(Prop(d, Value).value.oneOf + [ref])) &&
        forall k :: k != Value ==> Prop(r.value, k) == Prop(d, k)
  {
  }

  /** The refs the loops collect, `{"title": name, "$ref": "#/definitions/<id>"}`, one per concept in order. */
  function RefsTo(cs: seq<ConceptRecord>): (r: seq<Ref>)
    ensures |r| == |cs| && forall i :: 0 <= i < |cs| ==> r[i] == RefTo(Text(cs[i].shortName), cs[i].id)
  {
    seq(|cs|, i requires 0 <= i < |cs| => RefTo(Text(cs[i].shortName), cs[i].id))
  }

  /** The refs of one more concept are those before and its own. */
  lemma RefsToSnoc(cs: seq<ConceptRecord>, n: nat)
    requires n < |cs|
    ensures RefsTo(cs[..n + 1]) == RefsTo(cs[..n]) + [RefTo(Text(cs[n].shortName), cs[n].id)]
  {
    assert RefsTo(cs[..n + 1]) == RefsTo(cs[..n]) + [RefTo(Text(cs[n].shortName), cs[n].id)];
  }

  /** One value: stored under its id, then its ref appended to its attribute's list. */
  function ValueStep(defs: Definitions, v: ConceptRecord, attributeId: string): Result<Definitions> {
    var value :- ConceptTemplate("Value", v.sctid, v.shortName, v.id);
    var stored := Store(defs, v.id, value);
    var attribute :- if Lookup(stored, attributeId).Some? then WithValueRef(Lookup(stored, attributeId).value, RefTo(Text(v.shortName), v.id))
                     else Err(KeyError);
    Ok(Store(stored, attributeId, attribute))
  }

  /** The value loop from the n-th value of an attribute on; the first raise ends it. */
  function ValuesFrom(defs: Definitions, a: AttributeRecord, n: nat): Result<Definitions>
    requires n <= |a.valueSet|
    decreases |a.valueSet| - n
  {
    if n == |a.valueSet| then Ok(defs)
    else
      var d :- ValueStep(defs, a.valueSet[n], a.concept.id);
      ValuesFrom(d, a, n + 1)
  }

  /** `register_attribute_value_set`: every value, then "value" lists this attribute's values. */
  function WithValueSet(defs: Definitions, a: AttributeRecord): (r: Result<Definitions>)
    ensures r.Ok? ==> Lookup(r.value, "value") == Some(OneOf(RefsTo(a.valueSet)))
  {
    var d :- ValuesFrom(defs, a, 0);
    Ok(Store(d, "value", OneOf(RefsTo(a.valueSet))))
  }

  // ------------------------------------------------------------ conditions

  /** The n-th condition (from 0): stored under its id, and "condition" rewritten with the refs so far. */
  function ConditionStep(defs: Definitions, conditions: seq<ConceptRecord>, n: nat): Result<Definitions>
    requires n < |conditions|
  {
    var c := conditions[n];
    var d :- ConceptTemplate("Condition", c.sctid, c.shortName, c.id);
    Ok(Store(Store(defs, c.id, d), "condition", OneOf(RefsTo(conditions[..n + 1]))))
  }

  /** The condition loop from the n-th condition on. */
  function ConditionsFrom(defs: Definitions, conditions: seq<ConceptRecord>, n: nat): Result<Definitions>
    requires n <= |conditions|
    decreases |conditions| - n
  {
    if n == |conditions| then Ok(defs)
    else
      var d :- ConditionStep(defs, conditions, n);
      ConditionsFrom(d, conditions, n + 1)
  }

  /** `register_conditions`. */
  function WithConditions(defs: Definitions, conditions: seq<ConceptRecord>): Result<Definitions> {
    ConditionsFrom(defs, conditions, 0)
  }

  /**
   * Every condition is registered and "condition" is one-of the refs of all
   * of them, in order; without conditions nothing changes. A condition that
   * is not custom and has no integer id is a ValueError.
   */
  lemma RegisteredConditions(defs: Definitions, conditions: seq<ConceptRecord>)
    ensures conditions == [] ==> WithConditions(defs, conditions) == Ok(defs)
    ensures conditions != [] && WithConditions(defs, conditions).Ok? ==>
      Lookup(WithConditions(defs, conditions).value, "condition") == Some(OneOf(RefsTo(conditions)))
    ensures WithConditions(defs, conditions).Err? ==>
      WithConditions(defs, conditions).error == ValueError &&
      exists i :: 0 <= i < |conditions| && OntologyUris(conditions[i].sctid).Err?
  {
    if conditions != [] {
      ConditionsListed(defs, conditions, 0);
    }
    ConditionsFail(defs, conditions, 0);
  }

  /** Whatever condition the loop starts from, it ends with "condition" listing them all. */
  lemma {:induction false} ConditionsListed(defs: Definitions, conditions: seq<ConceptRecord>, n: nat)
    requires n < |conditions|
    ensures ConditionsFrom(defs, conditions, n).Ok? ==>
      Lookup(ConditionsFrom(defs, conditions, n).value, "condition") == Some(OneOf(RefsTo(conditions)))
    decreases |conditions| - n
  {
    if ConditionStep(defs, conditions, n).Ok? {
      if n + 1 < |conditions| {
        ConditionsListed(ConditionStep(defs, conditions, n).value, conditions, n + 1);
      } else {
        assert conditions[..n + 1] == conditions;
      }
    }
  }

  /** The loop raises only the ValueError of a condition whose id is neither custom nor an integer. */
  lemma {:induction false} ConditionsFail(defs: Definitions, conditions: seq<ConceptRecord>, n: nat)
    requires n <= |conditions|
    ensures ConditionsFrom(defs, conditions, n).Err? ==>
      ConditionsFrom(defs, conditions, n).error == ValueError &&
      exists i :: n <= i < |conditions| && OntologyUris(conditions[i].sctid).Err?
    decreases |conditions| - n
  {
    if n < |conditions| {
      var c := conditions[n];
      ConceptTemplateShape("Condition", c.sctid, c.shortName, c.id);
      if ConditionStep(defs, conditions, n).Ok? {
        ConditionsFail(ConditionStep(defs, conditions, n).value, conditions, n + 1);
      }
    }
  }

  // ------------------------------------------------------------ findings and attributes

  function Concepts(findings: seq<FindingRecord>): (r: seq<ConceptRecord>)
    ensures |r| == |findings| && forall i :: 0 <= i < |findings| ==> r[i] == findings[i].concept
  {
    seq(|findings|, i requires 0 <= i < |findings| => findings[i].concept)
  }

  /** The finding loop's state: the definitions and the attribute refs so far. */
  datatype FindingLoop = FindingLoop(defs: Definitions, attributeRefs: seq<Ref>)

  /** The first loop over a finding's attributes, from the n-th: each registered, its ref collected. */
  function AttributesFrom(s: FindingLoop, f: FindingRecord, n: nat): Result<FindingLoop>
    requires n <= |f.attributes|
    decreases |f.attributes| - n
  {
    if n == |f.attributes| then Ok(s)
    else
      var registered :- WithAttribute(s.defs, f.attributes[n], f.concept.id);
      AttributesFrom(FindingLoop(registered.0, s.attributeRefs + [registered.1]), f, n + 1)
  }

  /** The second loop, from the n-th attribute: each attribute's value set. */
  function ValueSetsFrom(defs: Definitions, f: FindingRecord, n: nat): Result<Definitions>
    requires n <= |f.attributes|
    decreases |f.attributes| - n
  {
    if n == |f.attributes| then Ok(defs)
    else
      var d :- WithValueSet(defs, f.attributes[n]);
      ValueSetsFrom(d, f, n + 1)
  }

  /** One finding: its definition, then its attributes, then their values. */
  function FindingStep(s: FindingLoop, f: FindingRecord): Result<FindingLoop> {
    var defs :- WithFinding(s.defs, f.concept);
    var t :- AttributesFrom(FindingLoop(defs, s.attributeRefs), f, 0);
    var valued :- ValueSetsFrom(t.defs, f, 0);
    Ok(FindingLoop(valued, t.attributeRefs))
  }

  /** The finding loop from the n-th finding on. */
  function FindingsFrom(s: FindingLoop, findings: seq<FindingRecord>, n: nat): Result<FindingLoop>
    requires n <= |findings|
    decreases |findings| - n
  {
    if n == |findings| then Ok(s)
    else
      var t :- FindingStep(s, findings[n]);
      FindingsFrom(t, findings, n + 1)
  }

  /** A finding with no attribute refs loses its `items` and gets `const: []`; an unreadable one is a KeyError. */
  function Pruned(d: Definition): Result<Definition> {
    if ListedAttributes(d).None? then Err(KeyError)
    else if ListedAttributes(d).value == [] then Ok(d.(properties := d.properties[Attributes := AttributeList(None, true)]))
    else Ok(d)
  }

  /**
   * A finding whose attribute list is empty has it replaced by the constant
   * empty list, one with refs is kept as it is, and one without a list is a
   * KeyError; nothing else changes.
   */
  lemma PrunedCases(d: Definition)
    ensures var r := Pruned(d);
      (r.Ok? <==> ListedAttributes(d).Some?) && (r.Err? ==> r.error == KeyError)
    ensures var r := Pruned(d);
      r.Ok? ==>
        r.value.Concept? && r.value.title == d.title && r.value.required == d.required &&
        (ListedAttributes(d).value == [] ==> Prop(r.value, Attributes) == Some(AttributeList(None, true))) &&
        (ListedAttributes(d).value != [] ==> r.value == d) &&
        forall k :: k != Attributes ==> Prop(r.value, k) == Prop(d, k)
  {
  }

  /** One turn of the clean-up: the definition the ref leads to, pruned; a missing one is a KeyError. */
  function PruneStep(defs: Definitions, ref: Ref): Result<Definitions> {
    var id := LastSegment(ref.ref);
    var finding :- if id in defs then Ok(defs[id]) else Err(KeyError);
    var pruned :- Pruned(finding);
    Ok(Store(defs, id, pruned))
  }

  /** The clean-up loop from the n-th finding ref on. */
  function PrunedFrom(defs: Definitions, refs: seq<Ref>, n: nat): Result<Definitions>
    requires n <= |refs|
    decreases |refs| - n
  {
    if n == |refs| then Ok(defs)
    else
      var d :- PruneStep(defs, refs[n]);
      PrunedFrom(d, refs, n + 1)
  }

  /** A finding in its final form: it lists attribute refs, or has the constant empty list instead. */
  predicate Settled(d: Definition) {
    (ListedAttributes(d).Some? && ListedAttributes(d).value != []) || Prop(d, Attributes) == Some(AttributeList(None, true))
  }

  /**
   * After a clean-up that raises nothing, every finding a ref leads to is
   * settled, and every definition that did not have an empty attribute list
   * is as it was; no id is added or removed.
   */
  lemma {:induction false} PrunedSettles(defs: Definitions, refs: seq<Ref>, n: nat)
    requires n <= |refs| && PrunedFrom(defs, refs, n).Ok?
    ensures var after := PrunedFrom(defs, refs, n).value;
      after.Keys == defs.Keys &&
      (forall id :: id in defs && ListedAttributes(defs[id]) != Some([]) ==> after[id] == defs[id]) &&
      forall j :: n <= j < |refs| ==> LastSegment(refs[j].ref) in after && Settled(after[LastSegment(refs[j].ref)])
    decreases |refs| - n
  {
    if n < |refs| {
      var id := LastSegment(refs[n].ref);
      PrunedCases(defs[id]);
      var d := PruneStep(defs, refs[n]).value;
      assert Settled(d[id]);
      PrunedSettles(d, refs, n + 1);
    }
  }

  /** The id at the end of a finding's ref is the finding's own, when it has no slash. */
  lemma FindingRefIds(findings: seq<FindingRecord>)
    ensures forall i :: 0 <= i < |findings| && '/' !in findings[i].concept.id ==>
      LastSegment(RefsTo(Concepts(findings))[i].ref) == findings[i].concept.id
  {
    forall i | 0 <= i < |findings| && '/' !in findings[i].concept.id
      ensures LastSegment(RefsTo(Concepts(findings))[i].ref) == findings[i].concept.id
    {
      LastSegmentOfRef(DEFINITIONS_PREFIX, findings[i].concept.id);
    }
  }

  /** `register_clinical_findings_and_attributes`. */
  function WithFindings(defs: Definitions, findings: seq<FindingRecord>): Result<Definitions> {
    var s :- FindingsFrom(FindingLoop(defs, []), findings, 0);
    var findingRefs := RefsTo(Concepts(findings));
    var listed := Store(Store(s.defs, "clinicalFinding", OneOf(findingRefs)), "attribute", OneOf(s.attributeRefs));
    PrunedFrom(listed, findingRefs, 0)
  }

  /**
   * Once every finding is registered, "clinicalFinding" is one-of the refs
   * of all findings in order, and "attribute" one-of the attribute refs the
   * loop collected.
   */
  lemma RegisteredFindings(defs: Definitions, findings: seq<FindingRecord>)
    requires WithFindings(defs, findings).Ok?
    ensures var r := WithFindings(defs, findings).value;
      Lookup(r, "clinicalFinding") == Some(OneOf(RefsTo(Concepts(findings)))) &&
      Lookup(r, "attribute") == Some(OneOf(FindingsFrom(FindingLoop(defs, []), findings, 0).value.attributeRefs))
  {
    var s := FindingsFrom(FindingLoop(defs, []), findings, 0).value;
    var findingRefs := RefsTo(Concepts(findings));
    var listed := Store(Store(s.defs, "clinicalFinding", OneOf(findingRefs)), "attribute", OneOf(s.attributeRefs));
    PrunedKeeps(listed, findingRefs, "clinicalFinding");
    PrunedKeeps(listed, findingRefs, "attribute");
  }

  /** Every registered finding is settled: it lists its attributes or has the constant empty list. */
  lemma FindingsSettled(defs: Definitions, findings: seq<FindingRecord>)
    requires WithFindings(defs, findings).Ok?
    ensures var r := WithFindings(defs, findings).value;
      forall i :: 0 <= i < |findings| && '/' !in findings[i].concept.id ==>
        findings[i].concept.id in r && Settled(r[findings[i].concept.id])
  {
    var s := FindingsFrom(FindingLoop(defs, []), findings, 0).value;
    var findingRefs := RefsTo(Concepts(findings));
    var listed := Store(Store(s.defs, "clinicalFinding", OneOf(findingRefs)), "attribute", OneOf(s.attributeRefs));
    PrunedSettles(listed, findingRefs, 0);
    FindingRefIds(findings);
  }

  /** A one-of list survives the clean-up, which touches only findings. */
  lemma PrunedKeeps(listed: Definitions, refs: seq<Ref>, id: string)
    requires PrunedFrom(listed, refs, 0).Ok? && id in listed && listed[id].OneOf?
    ensures Lookup(PrunedFrom(listed, refs, 0).value, id) == Some(listed[id])
  {
    PrunedSettles(listed, refs, 0);
  }

  // ------------------------------------------------------------ the whole schema

  /** The generated document's top level. */
  datatype Schema = Schema(id: string, description: string, comment: string, definitions: Definitions)

  /** `generate_schema` once the generic schema is read: the three header fields, conditions, then findings. */
  function Generated(base: Schema, conditions: seq<ConceptRecord>, findings: seq<FindingRecord>): Result<Schema> {
    var defs :- WithConditions(base.definitions, conditions);
    var all :- WithFindings(defs, findings);
    Ok(Schema(SCHEMA_ID, SCHEMA_DESCRIPTION, SCHEMA_COMMENT, all))
  }

  // ------------------------------------------------------------ the dict updated in place

  /** `schema_json`: the generic schema, extended in place. */
  class SchemaJson {
    var id: string
    var description: string
    var comment: string
    var definitions: Definitions

    function Document(): Schema
      reads this
    {
      Schema(id, description, comment, definitions)
    }

    /** The schema as read from the generic schema file. */
    constructor (base: Schema)
      ensures Document() == base
    {
      id := base.id;
      description := base.description;
      comment := base.comment;
      definitions := base.definitions;
    }

    /** `register_conditions`. */
    method RegisterConditions(conditions: seq<ConceptRecord>) returns (error: Option<Exception>)
      modifies this`definitions
      ensures WithConditions(old(definitions), conditions) == if error.None? then Ok(definitions) else Err(error.value)
    {
      var refs: seq<Ref> := [];
      for n := 0 to |conditions|
        invariant WithConditions(old(definitions), conditions) == ConditionsFrom(definitions, conditions, n)
        invariant refs == RefsTo(conditions[..n])
      {
        var c := conditions[n];
        var condition := ConceptTemplate("Condition", c.sctid, c.shortName, c.id);
        if condition.Err? {
          return Some(condition.error);
        }
        definitions := Store(definitions, c.id, condition.value);
        refs := refs + [RefTo(Text(c.shortName), c.id)];
        RefsToSnoc(conditions, n);
        definitions := Store(definitions, "condition", OneOf(refs));
      }
      error := None;
    }

    /** `register_clinical_finding`. */
    method RegisterClinicalFinding(f: ConceptRecord) returns (error: Option<Exception>)
      modifies this`definitions
      ensures WithFinding(old(definitions), f) == if error.None? then Ok(definitions) else Err(error.value)
    {
      var finding := ConceptTemplate("Clinical finding", f.sctid, f.shortName, f.id);
      if finding.Err? {
        return Some(finding.error);
      }
      var d := AddProperties(finding.value, [(State, StateRef)]);
      AddedOne(finding.value, State, StateRef);
      var withState := d;
      d := AddProperties(d, [(Attributes, AttributeList(Some([]), false))]);
      AddedOne(withState, Attributes, AttributeList(Some([]), false));
      definitions := Store(definitions, f.id, d);
      error := None;
    }

    /** `register_attribute`: returns the attribute's ref. */
    method RegisterAttribute(a: AttributeRecord, findingId: string) returns (ref: Ref, error: Option<Exception>)
      modifies this`definitions
      ensures WithAttribute(old(definitions), a, findingId) == if error.None? then Ok((definitions, ref)) else Err(error.value)
    {
      ref := RefTo(Text(a.concept.shortName), a.concept.id);
      var attribute := ConceptTemplate("Attribute", a.concept.sctid, a.concept.shortName, a.concept.id);
      if attribute.Err? {
        return ref, Some(attribute.error);
      }
      var d := attribute.value;
      if a.multiselect {
        d := AddProperties(d, [(Values, ValueList([]))]);
        AddedOne(attribute.value, Values, ValueList([]));
      } else {
        d := AddProperties(d, [(Value, ValueChoice([]))]);
        AddedOne(attribute.value, Value, ValueChoice([]));
      }
      var existing := Lookup(definitions, a.concept.id);
      if existing.Some? {
        var title := LookupConst(existing.value, Name);
        if title.Err? {
          return ref, Some(title.error);
        }
        ref := RefTo(title.value, a.concept.id);
      }
      var finding := Lookup(definitions, findingId);
      if finding.None? {
        return ref, Some(KeyError);
      }
      var listed := WithAttributeRef(finding.value, ref);
      if listed.Err? {
        return ref, Some(listed.error);
      }
      definitions := Store(definitions, findingId, listed.value);
      d := d.(properties := d.properties[Scope := CreateConst(Text(findingId), SCOPE_DESCRIPTION)]);
      definitions := Store(definitions, a.concept.id, d);
      error := None;
    }

    /** `register_attribute_value_set`; the finding's id it is given is not used. */
    method RegisterAttributeValueSet(a: AttributeRecord) returns (error: Option<Exception>)
      modifies this`definitions
      ensures WithValueSet(old(definitions), a) == if error.None? then Ok(definitions) else Err(error.value)
    {
      var values;
      values, error := RegisterValues(a);
      if error.Some? {
        return;
      }
      definitions := Store(definitions, "value", OneOf(values));
    }

    /** The loop of `register_attribute_value_set`, returning the refs it collects. */
    method RegisterValues(a: AttributeRecord) returns (values: seq<Ref>, error: Option<Exception>)
      modifies this`definitions
      ensures ValuesFrom(old(definitions), a, 0) == if error.None? then Ok(definitions) else Err(error.value)
      ensures error.None? ==> values == RefsTo(a.valueSet)
    {
      values := [];
      for n := 0 to |a.valueSet|
        invariant ValuesFrom(old(definitions), a, 0) == ValuesFrom(definitions, a, n)
        invariant values == RefsTo(a.valueSet[..n])
      {
        var v := a.valueSet[n];
        ghost var before := definitions;
        error := RegisterValue(v, a.concept.id);
        if error.Some? {
          assert ValuesFrom(before, a, n) == Err(error.value);
          return;
        }
        values := values + [RefTo(Text(v.shortName), v.id)];
        RefsToSnoc(a.valueSet, n);
      }
      assert a.valueSet[..|a.valueSet|] == a.valueSet;
      error := None;
    }

    /** One turn of the value loop. */
    method RegisterValue(v: ConceptRecord, attributeId: string) returns (error: Option<Exception>)
      modifies this`definitions
      ensures ValueStep(old(definitions), v, attributeId) == if error.None? then Ok(definitions) else Err(error.value)
    {
      var value := ConceptTemplate("Value", v.sctid, v.shortName, v.id);
      if value.Err? {
        return Some(value.error);
      }
      definitions := Store(definitions, v.id, value.value);
      var attribute := Lookup(definitions, attributeId);
      if attribute.None? {
        return Some(KeyError);
      }
      var listed := WithValueRef(attribute.value, RefTo(Text(v.shortName), v.id));
      if listed.Err? {
        return Some(listed.error);
      }
      definitions := Store(definitions, attributeId, listed.value);
      error := None;
    }

    /** The first loop over a finding's attributes, collecting their refs after `refs`. */
    method RegisterFindingAttributes(f: FindingRecord, refs: seq<Ref>) returns (collected: seq<Ref>, error: Option<Exception>)
      modifies this`definitions
      ensures AttributesFrom(FindingLoop(old(definitions), refs), f, 0) ==
        if error.None? then Ok(FindingLoop(definitions, collected)) else Err(error.value)
    {
      collected := refs;
      for n := 0 to |f.attributes|
        invariant AttributesFrom(FindingLoop(old(definitions), refs), f, 0) == AttributesFrom(FindingLoop(definitions, collected), f, n)
      {
        ghost var before := definitions;
        var ref;
        ref, error := RegisterAttribute(f.attributes[n], f.concept.id);
        if error.Some? {
          assert AttributesFrom(FindingLoop(before, collected), f, n) == Err(error.value);
          return;
        }
        collected := collected + [ref];
      }
      error := None;
    }

    /** The second loop over a finding's attributes: their value sets. */
    method RegisterFindingValueSets(f: FindingRecord) returns (error: Option<Exception>)
      modifies this`definitions
      ensures ValueSetsFrom(old(definitions), f, 0) == if error.None? then Ok(definitions) else Err(error.value)
    {
      for n := 0 to |f.attributes|
        invariant ValueSetsFrom(old(definitions), f, 0) == ValueSetsFrom(definitions, f, n)
      {
        ghost var before := definitions;
        error := RegisterAttributeValueSet(f.attributes[n]);
        if error.Some? {
          assert ValueSetsFrom(before, f, n) == Err(error.value);
          return;
        }
      }
      error := None;
    }

    /** One finding of the outer loop. */
    method RegisterFinding(f: FindingRecord, refs: seq<Ref>) returns (collected: seq<Ref>, error: Option<Exception>)
      modifies this`definitions
      ensures FindingStep(FindingLoop(old(definitions), refs), f) ==
        if error.None? then Ok(FindingLoop(definitions, collected)) else Err(error.value)
    {
      collected := refs;
      error := RegisterClinicalFinding(f.concept);
      if error.Some? {
        return;
      }
      collected, error := RegisterFindingAttributes(f, refs);
      if error.Some? {
        return;
      }
      error := RegisterFindingValueSets(f);
    }

    /** The clean-up loop: findings without attribute refs lose `items` and get `const: []`. */
    method PruneFindings(refs: seq<Ref>) returns (error: Option<Exception>)
      modifies this`definitions
      ensures PrunedFrom(old(definitions), refs, 0) == if error.None? then Ok(definitions) else Err(error.value)
    {
      for n := 0 to |refs|
        invariant PrunedFrom(old(definitions), refs, 0) == PrunedFrom(definitions, refs, n)
      {
        var id := LastSegment(refs[n].ref);
        var finding := Lookup(definitions, id);
        if finding.None? {
          return Some(KeyError);
        }
        var pruned := Pruned(finding.value);
        if pruned.Err? {
          return Some(pruned.error);
        }
        definitions := Store(definitions, id, pruned.value);
      }
      error := None;
    }

    /** The loop of `register_clinical_findings_and_attributes`, returning the finding and attribute refs. */
    method RegisterFindings(findings: seq<FindingRecord>) returns (findingRefs: seq<Ref>, attributeRefs: seq<Ref>, error: Option<Exception>)
      modifies this`definitions
      ensures FindingsFrom(FindingLoop(old(definitions), []), findings, 0) ==
        if error.None? then Ok(FindingLoop(definitions, attributeRefs)) else Err(error.value)
      ensures error.None? ==> findingRefs == RefsTo(Concepts(findings))
    {
      findingRefs := [];
      attributeRefs := [];
      for n := 0 to |findings|
        invariant FindingsFrom(FindingLoop(old(definitions), []), findings, 0) ==
          FindingsFrom(FindingLoop(definitions, attributeRefs), findings, n)
        invariant findingRefs == RefsTo(Concepts(findings)[..n])
      {
        var f := findings[n];
        ghost var before := FindingLoop(definitions, attributeRefs);
        attributeRefs, error := RegisterFinding(f, attributeRefs);
        if error.Some? {
          assert FindingsFrom(before, findings, n) == Err(error.value);
          return;
        }
        findingRefs := findingRefs + [RefTo(Text(f.concept.shortName), f.concept.id)];
        RefsToSnoc(Concepts(findings), n);
      }
      assert Concepts(findings)[..|findings|] == Concepts(findings);
      error := None;
    }

    /** `register_clinical_findings_and_attributes`. */
    method RegisterClinicalFindingsAndAttributes(findings: seq<FindingRecord>) returns (error: Option<Exception>)
      modifies this`definitions
      ensures WithFindings(old(definitions), findings) == if error.None? then Ok(definitions) else Err(error.value)
    {
      var findingRefs, attributeRefs;
      findingRefs, attributeRefs, error := RegisterFindings(findings);
      if error.Some? {
        return;
      }
      definitions := Store(definitions, "clinicalFinding", OneOf(findingRefs));
      definitions := Store(definitions, "attribute", OneOf(attributeRefs));
      error := PruneFindings(findingRefs);
    }

    /** `generate_schema` between reading the generic schema and writing the result. */
    method GenerateSchema(conditions: seq<ConceptRecord>, findings: seq<FindingRecord>) returns (error: Option<Exception>)
      modifies this
      ensures Generated(old(Document()), conditions, findings) == if error.None? then Ok(Document()) else Err(error.value)
    {
      id := SCHEMA_ID;
      description := SCHEMA_DESCRIPTION;
      comment := SCHEMA_COMMENT;
      error := RegisterConditions(conditions);
      if error.Some? {
        return;
      }
      error := RegisterClinicalFindingsAndAttributes(findings);
    }
  }

  // ------------------------------------------------------------ what every step keeps

  /** Every constant equals its default, and every required name is a property. */
  predicate ConceptWellformed(d: Definition) {
    d.Concept? ==>
      (forall k :: k in d.properties && d.properties[k].Const? ==> d.properties[k].constant == d.properties[k].default) &&
      (forall k :: k in d.required ==> k in d.properties)
  }

  predicate Wellformed(defs: Definitions) {
    forall id :: id in defs ==> ConceptWellformed(defs[id])
  }

  lemma AddPropertyWellformed(c: Definition, k: Key, v: Property)
    requires c.Concept? && ConceptWellformed(c) && (v.Const? ==> v.constant == v.default)
    ensures ConceptWellformed(AddProperty(c, k, v))
  {
  }

  /** A value and the attribute it extends stay well formed. */
  lemma ValueStepWellformed(defs: Definitions, v: ConceptRecord, attributeId: string)
    requires Wellformed(defs) && ValueStep(defs, v, attributeId).Ok?
    ensures Wellformed(ValueStep(defs, v, attributeId).value)
  {
    ConceptTemplateShape("Value", v.sctid, v.shortName, v.id);
    var stored := Store(defs, v.id, ConceptTemplate("Value", v.sctid, v.shortName, v.id).value);
    ValueRefAppended(stored[attributeId], RefTo(Text(v.shortName), v.id));
  }

  lemma {:induction false} ValuesWellformed(defs: Definitions, a: AttributeRecord, n: nat)
    requires n <= |a.valueSet| && Wellformed(defs) && ValuesFrom(defs, a, n).Ok?
    ensures Wellformed(ValuesFrom(defs, a, n).value)
    decreases |a.valueSet| - n
  {
    if n < |a.valueSet| {
      ValueStepWellformed(defs, a.valueSet[n], a.concept.id);
      ValuesWellformed(ValueStep(defs, a.valueSet[n], a.concept.id).value, a, n + 1);
    }
  }

  lemma {:induction false} ConditionsWellformed(defs: Definitions, conditions: seq<ConceptRecord>, n: nat)
    requires n <= |conditions| && Wellformed(defs) && ConditionsFrom(defs, conditions, n).Ok?
    ensures Wellformed(ConditionsFrom(defs, conditions, n).value)
    decreases |conditions| - n
  {
    if n < |conditions| {
      var c := conditions[n];
      ConceptTemplateShape("Condition", c.sctid, c.shortName, c.id);
      ConditionsWellformed(ConditionStep(defs, conditions, n).value, conditions, n + 1);
    }
  }

  /** The attribute, scoped, and the finding that lists it stay well formed. */
  lemma WithAttributeWellformed(defs: Definitions, a: AttributeRecord, findingId: string)
    requires Wellformed(defs) && WithAttribute(defs, a, findingId).Ok?
    ensures Wellformed(WithAttribute(defs, a, findingId).value.0)
  {
    AttributeDefinitionShape(a);
    var ref := RefTo(AttributeTitle(defs, a).value, a.concept.id);
    AttributeRefAppended(defs[findingId], ref);
  }

  lemma {:induction false} AttributesWellformed(s: FindingLoop, f: FindingRecord, n: nat)
    requires n <= |f.attributes| && Wellformed(s.defs) && AttributesFrom(s, f, n).Ok?
    ensures Wellformed(AttributesFrom(s, f, n).value.defs)
    decreases |f.attributes| - n
  {
    if n < |f.attributes| {
      WithAttributeWellformed(s.defs, f.attributes[n], f.concept.id);
      var registered := WithAttribute(s.defs, f.attributes[n], f.concept.id).value;
      AttributesWellformed(FindingLoop(registered.0, s.attributeRefs + [registered.1]), f, n + 1);
    }
  }

  lemma {:induction false} ValueSetsWellformed(defs: Definitions, f: FindingRecord, n: nat)
    requires n <= |f.attributes| && Wellformed(defs) && ValueSetsFrom(defs, f, n).Ok?
    ensures Wellformed(ValueSetsFrom(defs, f, n).value)
    decreases |f.attributes| - n
  {
    if n < |f.attributes| {
      ValuesWellformed(defs, f.attributes[n], 0);
      ValueSetsWellformed(WithValueSet(defs, f.attributes[n]).value, f, n + 1);
    }
  }

  lemma FindingStepWellformed(s: FindingLoop, f: FindingRecord)
    requires Wellformed(s.defs) && FindingStep(s, f).Ok?
    ensures Wellformed(FindingStep(s, f).value.defs)
  {
    FindingDefinitionShape(f.concept);
    var defs := WithFinding(s.defs, f.concept).value;
    AttributesWellformed(FindingLoop(defs, s.attributeRefs), f, 0);
    ValueSetsWellformed(AttributesFrom(FindingLoop(defs, s.attributeRefs), f, 0).value.defs, f, 0);
  }

  lemma {:induction false} FindingsWellformed(s: FindingLoop, findings: seq<FindingRecord>, n: nat)
    requires n <= |findings| && Wellformed(s.defs) && FindingsFrom(s, findings, n).Ok?
    ensures Wellformed(FindingsFrom(s, findings, n).value.defs)
    decreases |findings| - n
  {
    if n < |findings| {
      FindingStepWellformed(s, findings[n]);
      FindingsWellformed(FindingStep(s, findings[n]).value, findings, n + 1);
    }
  }

  lemma {:induction false} PrunedWellformed(defs: Definitions, refs: seq<Ref>, n: nat)
    requires n <= |refs| && Wellformed(defs) && PrunedFrom(defs, refs, n).Ok?
    ensures Wellformed(PrunedFrom(defs, refs, n).value)
    decreases |refs| - n
  {
    if n < |refs| {
      PrunedCases(defs[LastSegment(refs[n].ref)]);
      PrunedWellformed(PruneStep(defs, refs[n]).value, refs, n + 1);
    }
  }

  /**
   * Generating keeps the schema well formed: every constant the script
   * writes is still its own default, and every required name a property.
   */
  lemma GeneratedWellformed(base: Schema, conditions: seq<ConceptRecord>, findings: seq<FindingRecord>)
    requires Wellformed(base.definitions) && Generated(base, conditions, findings).Ok?
    ensures Wellformed(Generated(base, conditions, findings).value.definitions)
  {
    ConditionsWellformed(base.definitions, conditions, 0);
    var defs := WithConditions(base.definitions, conditions).value;
    FindingsWellformed(FindingLoop(defs, []), findings, 0);
    var s := FindingsFrom(FindingLoop(defs, []), findings, 0).value;
    var findingRefs := RefsTo(Concepts(findings));
    PrunedWellformed(Store(Store(s.defs, "clinicalFinding", OneOf(findingRefs)), "attribute", OneOf(s.attributeRefs)), findingRefs, 0);
  }
}
