/** Options, with `:-` propagation, and looking up in a map. */
module Options {
  datatype Option<+T> = None | Some(value: T) {
    predicate IsFailure() { None? }
    function PropagateFailure<U>(): Option<U> requires None? { None }
    function Extract(): T requires Some? { value }
  }

  function Present<T>(m: map<string, T>, key: string): Option<T> {
    if key in m then Some(m[key]) else None
  }
}

/** JSON documents as trees. Two spellings of one document (white space, escapes) are one tree. */
module Json {
  import opened Options

  datatype Json =
    | Null
    | Bool(b: bool)
    | Num(literal: string)
    | Str(s: string)
    | Arr(items: seq<Json>)
    | Obj(fields: map<string, Json>)

  /** The value under `key`; an absent key decodes like an explicit null. */
  function Field(fields: map<string, Json>, key: string): Json {
    if Present(fields, key).Some? then fields[key] else Null
  }

  /** The members of an encoded struct: `omitempty` leaves out the absent ones. */
  function Members(m: map<string, Option<Json>>): (fields: map<string, Json>)
    ensures forall k :: k in fields <==> k in m && m[k].Some?
    ensures forall k :: k in m ==> Present(fields, k) == m[k]
  {
    map k | k in m && m[k].Some? :: m[k].value
  }

  /** Decoding into a Go string: null leaves the zero value. */
  function DecodeString(j: Json): Option<string> {
    match j
    case Str(s) => Some(s)
    case Null => Some("")
    case _ => None
  }

  /** Decoding into a Go *bool. */
  function DecodeBoolPtr(j: Json): Option<Option<bool>> {
    match j
    case Bool(b) => Some(Some(b))
    case Null => Some(None)
    case _ => None
  }

  function DecodeStringItems(items: seq<Json>): (r: Option<seq<string>>)
    ensures r.Some? ==> |r.value| == |items|
  {
    if items == [] then Some([])
    else
      var first :- DecodeString(items[0]);
      var rest :- DecodeStringItems(items[1..]);
      Some([first] + rest)
  }

  /** Decoding into a Go []string. */
  function DecodeStrings(j: Json): Option<seq<string>> {
    match j
    case Arr(items) => DecodeStringItems(items)
    case Null => Some([])
    case _ => None
  }

  // ----- reading a tree directly -----

  /** The string under a key, empty when there is none. */
  function StringAt(f: map<string, Json>, key: string): string {
    if key in f && f[key].Str? then f[key].s else ""
  }

  function BoolAt(f: map<string, Json>, key: string): Option<bool> {
    if key in f && f[key].Bool? then Some(f[key].b) else None
  }

  function ObjectAt(f: map<string, Json>, key: string): map<string, Json> {
    if key in f && f[key].Obj? then f[key].fields else map[]
  }

  function ItemsAt(f: map<string, Json>, key: string): seq<Json> {
    if key in f && f[key].Arr? then f[key].items else []
  }

  predicate StringOrNull(f: map<string, Json>, key: string) {
    key in f ==> f[key].Str? || f[key].Null?
  }

  predicate BoolOrNull(f: map<string, Json>, key: string) {
    key in f ==> f[key].Bool? || f[key].Null?
  }

  predicate StringsOrNull(f: map<string, Json>, key: string) {
    && (key in f ==> f[key].Arr? || f[key].Null?)
    && forall i :: 0 <= i < |ItemsAt(f, key)| ==> ItemsAt(f, key)[i].Str? || ItemsAt(f, key)[i].Null?
  }

  /** An array decodes as strings when its items are strings or null. */
  lemma {:induction false} StringItemsAre(items: seq<Json>)
    ensures DecodeStringItems(items).Some? <==> forall i :: 0 <= i < |items| ==> items[i].Str? || items[i].Null?
    ensures DecodeStringItems(items).Some? ==> forall i :: 0 <= i < |items| ==>
      DecodeStringItems(items).value[i] == if items[i].Str? then items[i].s else ""
  {
    if items != [] { StringItemsAre(items[1..]); }
  }

  function NonEmpty(s: string): Option<Json> {
    if s != "" then Some(Str(s)) else None
  }

  function EncodeItems(xs: seq<string>): seq<Json> {
    if xs == [] then [] else [Str(xs[0])] + EncodeItems(xs[1..])
  }

  function EncodeStrings(xs: seq<string>): Json {
    Arr(EncodeItems(xs))
  }

  lemma {:induction false} StringsRoundTrip(xs: seq<string>)
    ensures DecodeStrings(EncodeStrings(xs)) == Some(xs)
  {
    if xs != [] {
      StringsRoundTrip(xs[1..]);
      assert EncodeItems(xs)[1..] == EncodeItems(xs[1..]);
      assert xs == [xs[0]] + xs[1..];
    }
  }
}

/** mcp/types.go: tools, their schemas, and how both cross the on-disk cache. */
module Schema {
  import opened Options
  import opened Json

  datatype SchemaProp = SchemaProp(typ: string, nullable: bool, description: string, raw: Option<Json>)

  datatype InputSchema = InputSchema(typ: string, properties: map<string, SchemaProp>, required: seq<string>)

  datatype ToolAnnotation = ToolAnnotation(
    title: string,
    readOnlyHint: Option<bool>,
    destructiveHint: Option<bool>,
    idempotentHint: Option<bool>,
    openWorldHint: Option<bool>)

  datatype Tool = Tool(
    name: string,
    description: string,
    inputSchema: InputSchema,
    outputSchema: Option<Json>,
    annotations: Option<ToolAnnotation>,
    meta: Option<Json>)

  // ----- SchemaProp -----

  /** The declared type of a type array: its first element other than "null", and the
      array's first element when there is no other. */
  function PickType(types: seq<string>): string {
    if types == [] then ""
    else if types[0] != "null" then types[0]
    else if forall t :: t in types ==> t == "null" then "null"
    else PickType(types[1..])
  }

  /** What SchemaProp.UnmarshalJSON leaves in its receiver; None for an error. */
  function UnmarshalProp(data: Json): Option<SchemaProp> {
    match data
    case Null => Some(SchemaProp("", false, "", Some(data)))
    case Obj(fields) =>
      var description :- DecodeString(Field(fields, "description"));
      (match Field(fields, "type")
       case Str(s) => Some(SchemaProp(s, false, description, Some(data)))
       case other =>
         var types :- DecodeStrings(other);
         Some(SchemaProp(PickType(types), "null" in types, description, Some(data))))
    case _ => None
  }

  /** SchemaProp.MarshalJSON. */
  function MarshalProp(p: SchemaProp): Json {
    match p.raw
    case Some(raw) => raw
    case None =>
      Obj(Members(map["type" := Some(Str(p.typ)), "description" := NonEmpty(p.description)]))
  }

  /** SchemaProp.UnmarshalJSON with its two passes over the type array. */
  method UnmarshalJSON(data: Json) returns (r: Option<SchemaProp>)
    ensures r == UnmarshalProp(data)
  {
    if !data.Null? && !data.Obj? { return None; }
    var fields := if data.Obj? then data.fields else map[];
    var description := DecodeString(Field(fields, "description"));
    if description.None? { return None; }
    var p := SchemaProp("", false, description.value, Some(data));
    var declared := Field(fields, "type");
    if declared.Str? { return Some(p.(typ := declared.s)); }
    var decoded := DecodeStrings(declared);
    if decoded.None? { return None; }
    var types := decoded.value;
    for i := 0 to |types|
      invariant p == SchemaProp("", "null" in types[..i], description.value, Some(data))
    {
      if types[i] == "null" { p := p.(nullable := true); }
    }
    assert types[..|types|] == types;
    for i := 0 to |types|
      invariant forall j :: 0 <= j < i ==> types[j] == "null"
    {
      if types[i] != "null" {
        PickTypeIsFirst(types, i);
        return Some(p.(typ := types[i]));
      }
    }
    if |types| > 0 { p := p.(typ := types[0]); }
    return Some(p);
  }

  lemma {:induction false} PickTypeIsFirst(types: seq<string>, i: nat)
    requires i < |types| && types[i] != "null"
    requires forall j :: 0 <= j < i ==> types[j] == "null"
    ensures PickType(types) == types[i]
  {
    assert types[i] in types;
    if i > 0 { PickTypeIsFirst(types[1..], i - 1); }
  }

  /** A property is coherent when it carries its own JSON and agrees with what that JSON says. */
  predicate Coherent(p: SchemaProp) {
    p.raw.Some? && UnmarshalProp(p.raw.value) == Some(p)
  }

  // ----- tools -----

  function EncodeBoolPtr(b: Option<bool>): Option<Json> {
    if b.Some? then Some(Bool(b.value)) else None
  }

  function AnnotationMembers(a: ToolAnnotation): map<string, Option<Json>> {
    map["title" := NonEmpty(a.title),
        "readOnlyHint" := EncodeBoolPtr(a.readOnlyHint),
        "destructiveHint" := EncodeBoolPtr(a.destructiveHint),
        "idempotentHint" := EncodeBoolPtr(a.idempotentHint),
        "openWorldHint" := EncodeBoolPtr(a.openWorldHint)]
  }

  function EncodeAnnotation(a: ToolAnnotation): Json {
    Obj(Members(AnnotationMembers(a)))
  }

  /** Decoding into a Go *ToolAnnotation. */
  function DecodeAnnotation(j: Json): Option<Option<ToolAnnotation>> {
    match j
    case Null => Some(None)
    case Obj(f) =>
      var title :- DecodeString(Field(f, "title"));
      var ro :- DecodeBoolPtr(Field(f, "readOnlyHint"));
      var de :- DecodeBoolPtr(Field(f, "destructiveHint"));
      var id :- DecodeBoolPtr(Field(f, "idempotentHint"));
      var ow :- DecodeBoolPtr(Field(f, "openWorldHint"));
      Some(Some(ToolAnnotation(title, ro, de, id, ow)))
    case _ => None
  }

  function EncodeProperties(ps: map<string, SchemaProp>): Json {
    Obj(map k | k in ps :: MarshalProp(ps[k]))
  }

  function DecodeProperties(j: Json): Option<map<string, SchemaProp>> {
    match j
    case Null => Some(map[])
    case Obj(f) =>
      if forall k :: k in f ==> UnmarshalProp(f[k]).Some?
      then Some(map k | k in f :: UnmarshalProp(f[k]).value)
      else None
    case _ => None
  }

  function EncodeSchema(s: InputSchema): Json {
    Obj(Members(SchemaMembers(s)))
  }

  function SchemaMembers(s: InputSchema): map<string, Option<Json>> {
    map["type" := Some(Str(s.typ)),
        "properties" := if s.properties != map[] then Some(EncodeProperties(s.properties)) else None,
        "required" := if s.required != [] then Some(EncodeStrings(s.required)) else None]
  }

  function DecodeSchema(j: Json): Option<InputSchema> {
    match j
    case Null => Some(InputSchema("", map[], []))
    case Obj(f) =>
      var typ :- DecodeString(Field(f, "type"));
      var properties :- DecodeProperties(Field(f, "properties"));
      var required :- DecodeStrings(Field(f, "required"));
      Some(InputSchema(typ, properties, required))
    case _ => None
  }

  function EncodeTool(t: Tool): Json {
    Obj(Members(ToolMembers(t)))
  }

  function ToolMembers(t: Tool): map<string, Option<Json>> {
    map["name" := Some(Str(t.name)),
        "description" := Some(Str(t.description)),
        "inputSchema" := Some(EncodeSchema(t.inputSchema)),
        "outputSchema" := t.outputSchema,
        "annotations" := if t.annotations.Some? then Some(EncodeAnnotation(t.annotations.value)) else None,
        "_meta" := t.meta]
  }

  function DecodeTool(j: Json): Option<Tool> {
    match j
    case Null => Some(Tool("", "", InputSchema("", map[], []), None, None, None))
    case Obj(f) =>
      var name :- DecodeString(Field(f, "name"));
      var description :- DecodeString(Field(f, "description"));
      var inputSchema :- DecodeSchema(Field(f, "inputSchema"));
      var annotations :- DecodeAnnotation(Field(f, "annotations"));
      Some(Tool(name, description, inputSchema, Present(f, "outputSchema"), annotations, Present(f, "_meta")))
    case _ => None
  }

  // ----- what a decoded tool says, by its tree -----

  ghost predicate FirstOther(items: seq<Json>, i: int) {
    0 <= i < |items| && items[i] != Str("null") && forall j :: 0 <= j < i ==> items[j] == Str("null")
  }

  /** The declared type in a type array: the first element other than "null", and whether "null" occurs. */
  ghost predicate TypesSay(items: seq<Json>, typ: string, nullable: bool) {
    && (nullable <==> Str("null") in items)
    && (items == [] ==> typ == "")
    && (items != [] && (forall i :: 0 <= i < |items| ==> items[i] == Str("null")) ==> typ == "null")
    && forall i :: FirstOther(items, i) ==> typ == if items[i].Str? then items[i].s else ""
  }

  ghost predicate PropSays(j: Json, p: SchemaProp) {
    && p.raw == Some(j)
    && (j.Null? ==> p.typ == "" && p.description == "" && !p.nullable)
    && (j.Obj? ==>
          && p.description == StringAt(j.fields, "description")
          && if "type" in j.fields && j.fields["type"].Str? then p.typ == j.fields["type"].s && !p.nullable
             else TypesSay(ItemsAt(j.fields, "type"), p.typ, p.nullable))
  }

  ghost predicate SchemaSays(f: map<string, Json>, s: InputSchema) {
    && s.typ == StringAt(f, "type")
    && s.properties.Keys == ObjectAt(f, "properties").Keys
    && (forall k :: k in s.properties ==> PropSays(ObjectAt(f, "properties")[k], s.properties[k]))
    && |s.required| == |ItemsAt(f, "required")|
    && forall i :: 0 <= i < |s.required| ==>
         ItemsAt(f, "required")[i] == Str(s.required[i]) || (ItemsAt(f, "required")[i].Null? && s.required[i] == "")
  }

  ghost predicate AnnotationSays(f: map<string, Json>, a: ToolAnnotation) {
    && a.title == StringAt(f, "title")
    && a.readOnlyHint == BoolAt(f, "readOnlyHint")
    && a.destructiveHint == BoolAt(f, "destructiveHint")
    && a.idempotentHint == BoolAt(f, "idempotentHint")
    && a.openWorldHint == BoolAt(f, "openWorldHint")
  }

  predicate PropSound(j: Json) {
    j.Null? || (j.Obj? && StringOrNull(j.fields, "description")
                && (StringOrNull(j.fields, "type") || StringsOrNull(j.fields, "type")))
  }

  predicate SchemaSound(j: Json) {
    j.Null? || (j.Obj? && StringOrNull(j.fields, "type") && StringsOrNull(j.fields, "required")
                && ("properties" in j.fields ==> j.fields["properties"].Obj? || j.fields["properties"].Null?)
                && forall k :: k in ObjectAt(j.fields, "properties") ==>
                     PropSound(ObjectAt(j.fields, "properties")[k]))
  }

  predicate AnnotationSound(j: Json) {
    j.Null? || (j.Obj? && StringOrNull(j.fields, "title") && BoolOrNull(j.fields, "readOnlyHint")
                && BoolOrNull(j.fields, "destructiveHint") && BoolOrNull(j.fields, "idempotentHint")
                && BoolOrNull(j.fields, "openWorldHint"))
  }

  predicate ToolSound(j: Json) {
    j.Null? || (j.Obj? && StringOrNull(j.fields, "name") && StringOrNull(j.fields, "description")
                && ("inputSchema" in j.fields ==> SchemaSound(j.fields["inputSchema"]))
                && ("annotations" in j.fields ==> AnnotationSound(j.fields["annotations"])))
  }

  lemma StringsSound(f: map<string, Json>, key: string)
    ensures DecodeStrings(Field(f, key)).Some? <==> StringsOrNull(f, key)
  {
    StringItemsAre(ItemsAt(f, key));
    hide DecodeStringItems;
  }

  lemma PropSoundExactly(j: Json)
    ensures UnmarshalProp(j).Some? <==> PropSound(j)
  {
    if j.Obj? { StringsSound(j.fields, "type"); }
    hide StringsOrNull, DecodeStringItems, PickType;
  }

  lemma PropertiesSound(f: map<string, Json>)
    ensures DecodeProperties(Obj(f)).Some? <==> forall k :: k in f ==> PropSound(f[k])
  {
    hide PropSound, UnmarshalProp;
    forall k | k in f ensures UnmarshalProp(f[k]).Some? <==> PropSound(f[k]) { PropSoundExactly(f[k]); }
  }

  lemma SchemaSoundExactly(j: Json)
    ensures DecodeSchema(j).Some? <==> SchemaSound(j)
  {
    if j.Obj? {
      StringsSound(j.fields, "required");
      PropertiesSound(ObjectAt(j.fields, "properties"));
      assert Field(j.fields, "properties").Obj? ==>
        Field(j.fields, "properties") == Obj(ObjectAt(j.fields, "properties"));
    }
    hide PropSound, UnmarshalProp, StringsOrNull, DecodeStrings, DecodeProperties;
    assert DecodeProperties(Null).Some?;
  }

  lemma AnnotationSoundExactly(j: Json)
    ensures DecodeAnnotation(j).Some? <==> AnnotationSound(j)
  {
  }

  /** Which trees decode as a tool: members of the right kind, or null, or absent. */
  lemma ToolSoundExactly(j: Json)
    ensures DecodeTool(j).Some? <==> ToolSound(j)
  {
    if j.Obj? {
      SchemaSoundExactly(Field(j.fields, "inputSchema"));
      AnnotationSoundExactly(Field(j.fields, "annotations"));
    }
    hide SchemaSound, DecodeSchema, AnnotationSound, DecodeAnnotation;
    assert SchemaSound(Null) && AnnotationSound(Null);
  }

  lemma {:induction false} PickTypeSays(items: seq<Json>, types: seq<string>)
    requires DecodeStringItems(items) == Some(types)
    ensures TypesSay(items, PickType(types), "null" in types)
  {
    StringItemsAre(items);
    hide DecodeStringItems;
    if "null" in types {
      var i :| 0 <= i < |types| && types[i] == "null";
      assert items[i] == Str("null");
    }
    if Str("null") in items {
      var i :| 0 <= i < |items| && items[i] == Str("null");
      assert types[i] == "null";
    }
    forall i | FirstOther(items, i) ensures PickType(types) == if items[i].Str? then items[i].s else "" {
      PickTypeIsFirst(types, i);
    }
  }

  lemma PropFromTree(j: Json)
    requires UnmarshalProp(j).Some?
    ensures PropSays(j, UnmarshalProp(j).value)
  {
    if j.Obj? {
      var declared := Field(j.fields, "type");
      if declared.Arr? { PickTypeSays(declared.items, DecodeStringItems(declared.items).value); }
      hide DecodeStringItems;
      if declared.Null? { assert TypesSay([], PickType([]), false); }
    }
  }

  lemma SchemaFromTree(f: map<string, Json>)
    requires DecodeSchema(Obj(f)).Some?
    ensures SchemaSays(f, DecodeSchema(Obj(f)).value)
  {
    var g := ObjectAt(f, "properties");
    forall k | k in g ensures PropSays(g[k], UnmarshalProp(g[k]).value) { PropFromTree(g[k]); }
    StringItemsAre(ItemsAt(f, "required"));
    hide PropSays, UnmarshalProp, DecodeStringItems;
  }

  lemma AnnotationFromTree(j: Json)
    requires DecodeAnnotation(j).Some?
    ensures DecodeAnnotation(j).value.Some? <==> j.Obj?
    ensures j.Obj? ==> AnnotationSays(j.fields, DecodeAnnotation(j).value.value)
  {
  }

  lemma InputSchemaFromTree(f: map<string, Json>)
    requires DecodeSchema(Field(f, "inputSchema")).Some?
    ensures SchemaSays(ObjectAt(f, "inputSchema"), DecodeSchema(Field(f, "inputSchema")).value)
  {
    if Field(f, "inputSchema").Obj? { SchemaFromTree(f["inputSchema"].fields); }
    hide DecodeProperties, DecodeStrings;
  }

  /** Every part of a tool that was decoded comes from the member of that name in its tree. */
  lemma ToolFromTree(f: map<string, Json>, t: Tool)
    requires DecodeTool(Obj(f)) == Some(t)
    ensures t.name == StringAt(f, "name") && t.description == StringAt(f, "description")
    ensures SchemaSays(ObjectAt(f, "inputSchema"), t.inputSchema)
    ensures t.annotations.Some? <==> "annotations" in f && f["annotations"].Obj?
    ensures t.annotations.Some? ==> AnnotationSays(ObjectAt(f, "annotations"), t.annotations.value)
    ensures t.outputSchema == (if "outputSchema" in f then Some(f["outputSchema"]) else None)
    ensures t.meta == (if "_meta" in f then Some(f["_meta"]) else None)
  {
    InputSchemaFromTree(f);
    AnnotationFromTree(Field(f, "annotations"));
    hide SchemaSays, DecodeSchema, AnnotationSays, DecodeAnnotation;
  }

  function EncodeTools(ts: seq<Tool>): seq<Json> {
    if ts == [] then [] else [EncodeTool(ts[0])] + EncodeTools(ts[1..])
  }

  function DecodeTools(items: seq<Json>): Option<seq<Tool>> {
    if items == [] then Some([])
    else
      var first :- DecodeTool(items[0]);
      var rest :- DecodeTools(items[1..]);
      Some([first] + rest)
  }

  /** Decoding a member of type []Tool, as in a tools/list result and in the cache file. */
  function DecodeToolList(j: Json): Option<seq<Tool>> {
    match j
    case Null => Some([])
    case Arr(items) => DecodeTools(items)
    case _ => None
  }

  predicate CoherentTool(t: Tool) {
    forall k :: k in t.inputSchema.properties ==> Coherent(t.inputSchema.properties[k])
  }

  /** Every tool that came out of a server's JSON has coherent properties. */
  lemma {:induction false} DecodedToolsCoherent(items: seq<Json>)
    requires DecodeTools(items).Some?
    ensures forall t :: t in DecodeTools(items).value ==> CoherentTool(t)
  {
    if items != [] {
      DecodedToolsCoherent(items[1..]);
      DecodedToolCoherent(items[0]);
    }
  }

  lemma DecodedToolCoherent(j: Json)
    requires DecodeTool(j).Some?
    ensures CoherentTool(DecodeTool(j).value)
  {
    if j.Obj? && Field(j.fields, "inputSchema").Obj? {
      var s := Field(j.fields, "inputSchema").fields;
      if Field(s, "properties").Obj? {
        var f := Field(s, "properties").fields;
        forall k | k in f ensures Coherent(UnmarshalProp(f[k]).value) { UnmarshalKeepsRaw(f[k]); }
      }
    }
  }

  lemma UnmarshalKeepsRaw(j: Json)
    requires UnmarshalProp(j).Some?
    ensures UnmarshalProp(j).value.raw == Some(j)
  {
  }

  /** Looking a member up in an encoded struct. */
  lemma FieldOfMembers(m: map<string, Option<Json>>, key: string)
    requires key in m
    ensures Field(Members(m), key) == if m[key].Some? then m[key].value else Null
  {
    assert Present(Members(m), key) == m[key];
  }

  lemma HintRoundTrip(m: map<string, Option<Json>>, key: string, b: Option<bool>)
    requires key in m && m[key] == EncodeBoolPtr(b)
    ensures DecodeBoolPtr(Field(Members(m), key)) == Some(b)
  {
    FieldOfMembers(m, key);
  }

  lemma AnnotationRoundTrip(a: ToolAnnotation)
    ensures DecodeAnnotation(EncodeAnnotation(a)) == Some(Some(a))
  {
    var m := AnnotationMembers(a);
    FieldOfMembers(m, "title");
    HintRoundTrip(m, "readOnlyHint", a.readOnlyHint);
    HintRoundTrip(m, "destructiveHint", a.destructiveHint);
    HintRoundTrip(m, "idempotentHint", a.idempotentHint);
    HintRoundTrip(m, "openWorldHint", a.openWorldHint);
    hide Members, AnnotationMembers, Field, DecodeBoolPtr;
  }

  lemma PropertiesRoundTrip(ps: map<string, SchemaProp>)
    requires forall k :: k in ps ==> Coherent(ps[k])
    ensures DecodeProperties(EncodeProperties(ps)) == Some(ps)
  {
    var f := EncodeProperties(ps).fields;
    assert forall k :: k in f ==> UnmarshalProp(f[k]) == Some(ps[k]);
    assert DecodeProperties(EncodeProperties(ps)).value == ps;
  }

  lemma SchemaRoundTrip(s: InputSchema)
    requires forall k :: k in s.properties ==> Coherent(s.properties[k])
    ensures DecodeSchema(EncodeSchema(s)) == Some(s)
  {
    var m := SchemaMembers(s);
    FieldOfMembers(m, "type");
    FieldOfMembers(m, "properties");
    FieldOfMembers(m, "required");
    StringsRoundTrip(s.required);
    PropertiesRoundTrip(s.properties);
    hide Members, Field, Coherent, EncodeProperties, EncodeStrings, DecodeStringItems;
  }

  lemma EncodedMembers(t: Tool)
    ensures EncodeTool(t).Obj?
    ensures var f := EncodeTool(t).fields;
      && Present(f, "name") == Some(Str(t.name))
      && Present(f, "description") == Some(Str(t.description))
      && Present(f, "inputSchema") == Some(EncodeSchema(t.inputSchema))
      && Present(f, "outputSchema") == t.outputSchema
      && Present(f, "annotations")
        == (if t.annotations.Some? then Some(EncodeAnnotation(t.annotations.value)) else None)
      && Present(f, "_meta") == t.meta
  {
    var m := ToolMembers(t);
    hide EncodeSchema, EncodeAnnotation, Members, Present;
    assert forall k :: k in m ==> Present(Members(m), k) == m[k];
  }

  lemma DecodeToolFrom(f: map<string, Json>, t: Tool)
    requires DecodeString(Field(f, "name")) == Some(t.name)
    requires DecodeString(Field(f, "description")) == Some(t.description)
    requires DecodeSchema(Field(f, "inputSchema")) == Some(t.inputSchema)
    requires DecodeAnnotation(Field(f, "annotations")) == Some(t.annotations)
    requires Present(f, "outputSchema") == t.outputSchema && Present(f, "_meta") == t.meta
    ensures DecodeTool(Obj(f)) == Some(t)
  {
  }

  lemma ToolRoundTrip(t: Tool)
    requires CoherentTool(t)
    ensures DecodeTool(EncodeTool(t)) == Some(t)
  {
    hide EncodeSchema, DecodeSchema, EncodeAnnotation;
    var f := EncodeTool(t).fields;
    EncodedMembers(t);
    SchemaRoundTrip(t.inputSchema);
    if t.annotations.Some? { AnnotationRoundTrip(t.annotations.value); }
    DecodeToolFrom(f, t);
  }

  lemma DecodeToolsCons(items: seq<Json>, first: Tool, rest: seq<Tool>)
    requires items != [] && DecodeTool(items[0]) == Some(first) && DecodeTools(items[1..]) == Some(rest)
    ensures DecodeTools(items) == Some([first] + rest)
  {
  }

  lemma {:induction false} ToolsRoundTrip(ts: seq<Tool>)
    requires forall t :: t in ts ==> CoherentTool(t)
    ensures DecodeTools(EncodeTools(ts)) == Some(ts)
  {
    if ts != [] {
      hide EncodeTool, DecodeTool, CoherentTool;
      ToolsRoundTrip(ts[1..]);
      ToolRoundTrip(ts[0]);
      var items := EncodeTools(ts);
      assert items[1..] == EncodeTools(ts[1..]);
      DecodeToolsCons(items, ts[0], ts[1..]);
      assert ts == [ts[0]] + ts[1..];
    }
  }
}
