/** plugin/handler.go: the argument passes of Execute. Values are JSON trees. */
module ToolArguments {
  import opened Options
  import opened Json
  import opened Schema
  import opened Text
  import opened Naming
  import opened RegistrySpec

  type Args = map<string, Json>

  // ----- decoding the host's flat strings -----

  /** strconv and encoding/json: what each accepts, and as what. */
  datatype Parsers = Parsers(
    number: string -> Option<string>,
    integer: string -> Option<string>,
    boolean: string -> Option<bool>,
    json: string -> Option<Json>)

  function Coerce(p: Parsers, v: string, schemaType: string, nullable: bool): Json {
    if nullable && v == "null" then Null
    else
      match ToLower(schemaType)
      case "number" => (match p.number(v) case Some(f) => Num(f) case None => Str(v))
      case "integer" => (match p.integer(v) case Some(i) => Num(i) case None => Str(v))
      case "boolean" => (match p.boolean(v) case Some(b) => Json.Bool(b) case None => Str(v))
      case "object" => (match p.json(v) case Some(j) => j case None => Str(v))
      case "array" =>
        (match p.json(v)
         case Some(j) => if j.Arr? then j else Arr([j])
         case None => Arr([Str(v)]))
      case _ => Str(v)
  }

  function Converted(p: Parsers, raw: map<string, string>, schema: InputSchema): Args {
    map k | k in raw ::
      if k in schema.properties then Coerce(p, raw[k], schema.properties[k].typ, schema.properties[k].nullable)
      else Str(raw[k])
  }

  // ----- tool names as values -----

  const DEFAULT_TOOL_NAME := "default_tool_name"
  const TOOL_NAME := "tool_name"
  const TASKS := "tasks"
  const INCLUDE_FIELDS := "include_fields"

  function Resolve(actions: map<string, Entry>, v: string): Option<string> {
    if v in actions then Some(actions[v].toolName)
    else
      var i := Index(v, SEPARATOR);
      if i >= 0 && v[i + 2..] in actions then Some(actions[v[i + 2..]].toolName) else None
  }

  function ResolveValue(actions: map<string, Entry>, j: Json): Json {
    if j.Str? && Resolve(actions, j.s).Some? then Str(Resolve(actions, j.s).value) else j
  }

  function ResolveAt(actions: map<string, Entry>, fields: map<string, Json>, key: string): map<string, Json> {
    if key in fields then fields[key := ResolveValue(actions, fields[key])] else fields
  }

  function ResolveTask(actions: map<string, Entry>, task: Json): Json {
    if task.Obj? then Obj(ResolveAt(actions, task.fields, TOOL_NAME)) else task
  }

  function ResolveTasks(actions: map<string, Entry>, items: seq<Json>): (r: seq<Json>)
    ensures |r| == |items|
    ensures forall i :: 0 <= i < |items| ==> r[i] == ResolveTask(actions, items[i])
  {
    seq(|items|, i requires 0 <= i < |items| => ResolveTask(actions, items[i]))
  }

  function Resolved(actions: map<string, Entry>, args: Args): Args {
    var a := ResolveAt(actions, ResolveAt(actions, args, DEFAULT_TOOL_NAME), TOOL_NAME);
    if TASKS in a && a[TASKS].Arr? then a[TASKS := Arr(ResolveTasks(actions, a[TASKS].items))] else a
  }

  /** Decoding inverts naming: with servers apart, an action's key resolves to its tool. */
  lemma KeyResolves(cfgs: seq<ServerConfig>, outs: seq<Outcome>, i: nat, k: nat, j: nat)
    requires |cfgs| == |outs| && AllApart(cfgs) && k < |cfgs| && j < |Tools(outs[k])|
    requires i < |Listings(cfgs, outs)|
      && Listings(cfgs, outs)[i] == MakeListing(cfgs[k], ClientOf(outs[k]), Tools(outs[k])[j])
    ensures Resolve(Built(cfgs, outs).actions, ActionName(cfgs[k].server, Tools(outs[k])[j].name))
      == Some(Tools(outs[k])[j].name)
  {
    EntryServer(cfgs, outs, i, k, j);
  }

  /** The name that the model sees resolves like the key behind it, if the plugin's name is clean
      and the whole is not itself a key. */
  lemma QualifiedResolves(actions: map<string, Entry>, plugin: string, key: string)
    requires key in actions && ActionName(plugin, key) !in actions
    requires Clean(plugin)
    ensures Resolve(actions, ActionName(plugin, key)) == Resolve(actions, key) == Some(actions[key].toolName)
  {
    FirstSeparator(plugin, key);
    assert ActionName(plugin, key)[|plugin| + 2..] == key;
  }

  /** For any table: the qualified name fails exactly when it is no key itself and neither is what follows
      its first separator. That is `tail` below; it is the key itself exactly for clean plugin names. */
  lemma QualifiedFailsExactly(actions: map<string, Entry>, plugin: string, key: string)
      returns (head: string, tail: string)
    ensures ActionName(plugin, key) == ActionName(head, tail) && Clean(head) && |head| <= |plugin|
    ensures Resolve(actions, ActionName(plugin, key)) == None <==>
      ActionName(plugin, key) !in actions && tail !in actions
    ensures tail == key <==> Clean(plugin)
  {
    var v := ActionName(plugin, key);
    var i := Index(v, SEPARATOR);
    assert OccursAt(v, SEPARATOR, |plugin|);
    head, tail := v[..i], v[i + 2..];
    assert v == head + SEPARATOR + tail;
    FirstSeparator(head, tail);
    FirstSeparator(plugin, key);
    if tail == key { assert |v| == |head| + 2 + |key| == |plugin| + 2 + |key|; }
    if Clean(plugin) { assert v[|plugin| + 2..] == key; }
  }

  /** The qualified name of an action finds that action, in every table in which the whole is not itself a
      key, exactly when the plugin's name is clean. */
  lemma QualifiedNeedsCleanPlugin(plugin: string, key: string)
    ensures Clean(plugin) <==>
      forall actions: map<string, Entry> :: key in actions && ActionName(plugin, key) !in actions ==>
        Resolve(actions, ActionName(plugin, key)) == Some(actions[key].toolName)
  {
    if Clean(plugin) {
      forall actions: map<string, Entry> | key in actions && ActionName(plugin, key) !in actions
        ensures Resolve(actions, ActionName(plugin, key)) == Some(actions[key].toolName)
      {
        QualifiedResolves(actions, plugin, key);
      }
    } else {
      var cfg := ServerConfig("", "", map[], map[]);
      var actions := map[key := Entry(None, "", InputSchema("", map[], []), cfg)];
      var head, tail := QualifiedFailsExactly(actions, plugin, key);
      assert |ActionName(plugin, key)| > |key|;
      assert key in actions && ActionName(plugin, key) !in actions && tail !in actions;
    }
  }

  /** Only the tool-name arguments change, and those only to what they resolve to. */
  lemma ResolvedChangesOnlyToolNames(actions: map<string, Entry>, args: Args)
    ensures var r := Resolved(actions, args);
      && r.Keys == args.Keys
      && (forall k :: k in args && k != DEFAULT_TOOL_NAME && k != TOOL_NAME && k != TASKS ==> r[k] == args[k])
      && (forall k :: k in args && (k == DEFAULT_TOOL_NAME || k == TOOL_NAME) ==>
        r[k] == ResolveValue(actions, args[k]))
      && (TASKS in args && !args[TASKS].Arr? ==> r[TASKS] == args[TASKS])
      && (TASKS in args && args[TASKS].Arr? ==>
            r[TASKS].Arr? && |r[TASKS].items| == |args[TASKS].items|
            && forall i :: 0 <= i < |args[TASKS].items| ==>
              TaskResolved(actions, args[TASKS].items[i], r[TASKS].items[i]))
  {
    NamesDiffer();
    hide ResolveValue, Resolve;
    var a := ResolveAt(actions, ResolveAt(actions, args, DEFAULT_TOOL_NAME), TOOL_NAME);
    assert a.Keys == args.Keys;
  }

  lemma NamesDiffer()
    ensures DEFAULT_TOOL_NAME != TOOL_NAME && DEFAULT_TOOL_NAME != TASKS && TOOL_NAME != TASKS
    ensures INCLUDE_FIELDS != DEFAULT_TOOL_NAME && INCLUDE_FIELDS != TOOL_NAME && INCLUDE_FIELDS != TASKS
  {
    assert |DEFAULT_TOOL_NAME| == 17 && |TOOL_NAME| == 9 && |TASKS| == 5 && |INCLUDE_FIELDS| == 14;
  }

  predicate TaskResolved(actions: map<string, Entry>, before: Json, after: Json) {
    if !before.Obj? then after == before
    else
      && after.Obj? && after.fields.Keys == before.fields.Keys
      && forall k :: k in before.fields ==>
           after.fields[k] == if k == TOOL_NAME then ResolveValue(actions, before.fields[k]) else before.fields[k]
  }

  /** Resolving again changes nothing. */
  predicate Final(actions: map<string, Entry>, v: string) {
    Resolve(actions, v) == None || Resolve(actions, v) == Some(v)
  }

  /** No raw tool name is taken for another action. */
  ghost predicate FinalTools(actions: map<string, Entry>) {
    forall k :: k in actions ==> Final(actions, actions[k].toolName)
  }

  /** In a registry made by Build it is so when no raw tool name contains the separator. */
  lemma PlainToolsAreFinal(cfgs: seq<ServerConfig>, outs: seq<Outcome>)
    requires |cfgs| == |outs|
    requires forall k :: k in Built(cfgs, outs).actions ==> Index(Built(cfgs, outs).actions[k].toolName, SEPARATOR) < 0
    ensures FinalTools(Built(cfgs, outs).actions)
  {
    hide Built;
    forall k | k in Built(cfgs, outs).actions
      ensures Resolve(Built(cfgs, outs).actions, Built(cfgs, outs).actions[k].toolName) == None {
      PlainIsFinal(cfgs, outs, Built(cfgs, outs).actions[k].toolName);
    }
  }

  lemma PlainIsFinal(cfgs: seq<ServerConfig>, outs: seq<Outcome>, v: string)
    requires |cfgs| == |outs| && Index(v, SEPARATOR) < 0
    ensures Resolve(Built(cfgs, outs).actions, v) == None
  {
    var actions := Built(cfgs, outs).actions;
    if v in actions {
      KeyNamesTool(cfgs, outs, v);
      assert OccursAt(v, SEPARATOR, |actions[v].cfg.server|);
    }
  }

  lemma ResolveValueTwice(actions: map<string, Entry>, j: Json)
    requires FinalTools(actions)
    ensures ResolveValue(actions, ResolveValue(actions, j)) == ResolveValue(actions, j)
  {
    if j.Str? && Resolve(actions, j.s).Some? {
      var k := if j.s in actions then j.s else j.s[Index(j.s, SEPARATOR) + 2..];
      assert Final(actions, actions[k].toolName);
    }
  }

  lemma ResolveTaskTwice(actions: map<string, Entry>, j: Json)
    requires FinalTools(actions)
    ensures ResolveTask(actions, ResolveTask(actions, j)) == ResolveTask(actions, j)
  {
    hide ResolveValue, FinalTools;
    if j.Obj? && TOOL_NAME in j.fields { ResolveValueTwice(actions, j.fields[TOOL_NAME]); }
  }

  lemma ResolveTasksTwice(actions: map<string, Entry>, items: seq<Json>)
    requires FinalTools(actions)
    ensures ResolveTasks(actions, ResolveTasks(actions, items)) == ResolveTasks(actions, items)
  {
    hide FinalTools, ResolveTask;
    forall i | 0 <= i < |items| { ResolveTaskTwice(actions, items[i]); }
  }

  lemma ResolvedTwice(actions: map<string, Entry>, args: Args)
    requires FinalTools(actions)
    ensures Resolved(actions, Resolved(actions, args)) == Resolved(actions, args)
  {
    hide FinalTools, ResolveTask, ResolveValue;
    NamesDiffer();
    if DEFAULT_TOOL_NAME in args { ResolveValueTwice(actions, args[DEFAULT_TOOL_NAME]); }
    if TOOL_NAME in args { ResolveValueTwice(actions, args[TOOL_NAME]); }
    if TASKS in args && args[TASKS].Arr? { ResolveTasksTwice(actions, args[TASKS].items); }
    hide ResolveTasks;
  }

  /** Resolving twice is resolving once, for all arguments, exactly when no raw tool name is taken for
      another action. */
  lemma ResolvedIsIdempotent(actions: map<string, Entry>)
    ensures (forall args :: Resolved(actions, Resolved(actions, args)) == Resolved(actions, args)) <==>
      FinalTools(actions)
  {
    if FinalTools(actions) {
      forall args ensures Resolved(actions, Resolved(actions, args)) == Resolved(actions, args) {
        ResolvedTwice(actions, args);
      }
    } else {
      var k :| k in actions && !Final(actions, actions[k].toolName);
      OneArgument(actions, k);
      OneArgument(actions, actions[k].toolName);
      var args: Args := map[TOOL_NAME := Str(k)];
      assert Resolved(actions, Resolved(actions, args)) != Resolved(actions, args);
    }
  }

  lemma OneArgument(actions: map<string, Entry>, v: string)
    ensures Resolved(actions, map[TOOL_NAME := Str(v)]) == map[TOOL_NAME := ResolveValue(actions, Str(v))]
  {
    NamesDiffer();
  }

  /** Otherwise a second pass may go on: a tool `s__t` next to a tool `t` of server `s`. */
  lemma ResolvingTwiceDiffers(cfg: ServerConfig, c: ClientId, t: Tool, u: Tool)
    requires cfg.server == "s" && t.name == "t" && u.name == "s__t"
    ensures var actions := Built([cfg], [Live([t, u], c)]).actions;
      && Resolve(actions, "s__s__t") == Some("s__t") && Resolve(actions, "s__t") == Some("t")
  {
    var cfgs, outs := [cfg], [Live([t, u], c)];
    assert AllApart(cfgs);
    assert ActionName("s", "t") == "s__t" && ActionName("s", "s__t") == "s__s__t";
    var i := ToolListed(cfgs, outs, 0, 0);
    KeyResolves(cfgs, outs, i, 0, 0);
    var k := ToolListed(cfgs, outs, 0, 1);
    KeyResolves(cfgs, outs, k, 0, 1);
  }

  // ----- opt-in fields -----

  const MARKER := "a subset of:"

  function Upto(s: string, c: char): string {
    var dot := Index(s, [c]);
    if dot >= 0 then s[..dot] else s
  }

  ghost function TrimmedParts(parts: seq<string>): set<string> {
    set f | f in parts && TrimSpace(f) != "" :: TrimSpace(f)
  }

  /** The names a description offers; none when it does not use the phrase. */
  ghost function OptInFields(desc: string): set<string> {
    var idx := Index(ToLower(desc), MARKER);
    if idx < 0 then {} else TrimmedParts(Split(Upto(desc[idx + |MARKER|..], '.'), ','))
  }

  lemma TrimmedPartsAppend(parts: seq<string>, f: string)
    ensures TrimmedParts(parts + [f]) == TrimmedParts(parts) + (if TrimSpace(f) != "" then {TrimSpace(f)} else {})
  {
    hide TrimSpace;
    assert f in parts + [f];
  }

  lemma NoParts()
    ensures TrimmedParts([]) == {}
  {
  }

  method ParseOptInFields(desc: string) returns (fields: set<string>)
    ensures fields == OptInFields(desc)
  {
    hide TrimSpace, Split, ToLower, TrimmedParts;
    fields := {};
    assert TrimmedParts([]) == {} by { NoParts(); }
    var idx := Index(ToLower(desc), MARKER);
    if idx < 0 { return; }
    var rest := desc[idx + |MARKER|..];
    var dot := Index(rest, ".");
    if dot >= 0 { rest := rest[..dot]; }
    var parts := Split(rest, ',');
    for i := 0 to |parts|
      invariant fields == TrimmedParts(parts[..i])
    {
      var f := TrimSpace(parts[i]);
      TrimmedPartsAppend(parts[..i], parts[i]);
      assert parts[..i + 1] == parts[..i] + [parts[i]];
      if f != "" { fields := fields + {f}; }
    }
    assert parts[..|parts|] == parts;
  }

  function Spaced(fields: seq<string>): (r: seq<string>)
    ensures |r| == |fields| && forall i :: 0 <= i < |r| ==> r[i] == " " + fields[i]
  {
    seq(|fields|, i requires 0 <= i < |fields| => " " + fields[i])
  }

  /** The phrase that parameter descriptions use: `... a subset of: f1, f2, f3.` */
  function Phrase(before: string, fields: seq<string>, after: string): string {
    before + MARKER + Join(Spaced(fields), ",") + after
  }

  predicate FieldName(f: string) {
    f != "" && Trimmed(f) && ',' !in f && '.' !in f
  }

  lemma {:induction false} JoinOf(parts: seq<string>, c: char)
    requires c != ',' && forall i :: 0 <= i < |parts| ==> c !in parts[i]
    ensures c !in Join(parts, ",")
  {
    if |parts| > 1 { JoinOf(parts[1..], c); }
  }

  lemma UptoStops(s: string, rest: string, c: char)
    requires c !in s && (rest == "" || rest[0] == c)
    ensures Upto(s + rest, c) == s
  {
    var t := s + rest;
    assert forall i :: OccursAt(t, [c], i) ==> t[i] == c;
    if rest != "" { assert OccursAt(t, [c], |s|); }
  }

  lemma MarkerShape()
    ensures |MARKER| == 12
    ensures forall k :: 0 <= k < 12 ==> LowerChar(MARKER[k]) == MARKER[k] && (MARKER[k] == ':' <==> k == 11)
  {
  }

  lemma LowerConcat(a: string, b: string)
    ensures ToLower(a + b) == ToLower(a) + ToLower(b)
  {
  }

  /** The phrase is found where it stands: it cannot begin in the text before it. */
  lemma MarkerFound(before: string, tail: string)
    requires Index(ToLower(before), MARKER) < 0
    ensures Index(ToLower(before + MARKER + tail), MARKER) == |before|
  {
    MarkerShape();
    LowerConcat(before + MARKER, tail);
    LowerConcat(before, MARKER);
    assert ToLower(MARKER) == MARKER;
    MarkerFoundIn(ToLower(before), MARKER, ToLower(tail));
  }

  lemma MarkerFoundIn(b: string, m: string, tail: string)
    requires Index(b, m) < 0 && |m| == 12 && forall k :: 0 <= k < 12 ==> (m[k] == ':' <==> k == 11)
    ensures Index(b + m + tail, m) == |b|
  {
    var s := b + m + tail;
    assert s[|b|..|b| + 12] == m;
    assert OccursAt(s, m, |b|);
    forall i | 0 <= i < |b| ensures !OccursAt(s, m, i) {
      var w := s[i..i + 12];
      if i + 12 <= |b| {
        assert w == b[i..i + 12];
        assert !OccursAt(b, m, i);
      } else {
        assert w[11] == s[i + 11] == m[i + 11 - |b|];
      }
    }
  }

  /** Parsing inverts the documented phrase: exactly the listed names come back. */
  lemma ParseInvertsPhrase(before: string, fields: seq<string>, after: string)
    requires Index(ToLower(before), MARKER) < 0
    requires forall i :: 0 <= i < |fields| ==> FieldName(fields[i])
    requires after == "" || after[0] == '.'
    ensures OptInFields(Phrase(before, fields, after)) == Elements(fields)
  {
    var list := Join(Spaced(fields), ",");
    JoinOf(Spaced(fields), '.');
    UptoStops(list, after, '.');
    PartsAreFields(fields);
    MarkerFound(before, list + after);
    hide Join, Split, TrimmedParts, Upto, Index, ToLower, Elements, FieldName, Spaced;
    TailOfPhrase(before, MARKER, list, after);
  }

  lemma TailOfPhrase(before: string, m: string, list: string, after: string)
    ensures before + m + list + after == before + m + (list + after)
    ensures (before + m + list + after)[|before| + |m|..] == list + after
  {
  }

  /** A description without the phrase offers nothing. */
  lemma WithoutPhraseNothing(desc: string)
    requires forall i :: !OccursAt(ToLower(desc), "a subset of:", i)
    ensures OptInFields(desc) == {}
  {
  }

  lemma PartsAreFields(fields: seq<string>)
    requires forall i :: 0 <= i < |fields| ==> FieldName(fields[i])
    ensures TrimmedParts(Split(Join(Spaced(fields), ","), ',')) == Elements(fields)
  {
    var parts := Spaced(fields);
    if fields == [] {
      assert Split("", ',') == [""];
      assert TrimSpace("") == "";
    } else {
      SplitJoin(parts, ',');
      forall i | 0 <= i < |fields| ensures TrimSpace(parts[i]) == fields[i] { TrimmedIsFixed(fields[i]); }
      forall f | f in fields ensures f in TrimmedParts(parts) {
        var i :| 0 <= i < |fields| && fields[i] == f;
        assert parts[i] in parts;
      }
    }
  }

  // ----- include_fields -----

  predicate IsValid(item: Json, valid: set<string>) {
    item.Str? && item.s in valid
  }

  function ValidOnly(items: seq<Json>, valid: set<string>): seq<Json> {
    if items == [] then []
    else
      var n := |items| - 1;
      if IsValid(items[n], valid) then ValidOnly(items[..n], valid) + [items[n]] else ValidOnly(items[..n], valid)
  }

  predicate IsAll(items: seq<Json>) {
    items == [Str("all")]
  }

  function Filtered(args: Args, items: seq<Json>, valid: set<string>): Args {
    if valid == {} then args
    else
      var kept := ValidOnly(items, valid);
      if kept == [] then args - {INCLUDE_FIELDS} else args[INCLUDE_FIELDS := Arr(kept)]
  }

  ghost function Sanitized(args: Args, schema: InputSchema): Args {
    if INCLUDE_FIELDS !in args then args
    else if args[INCLUDE_FIELDS].Null? then args - {INCLUDE_FIELDS}
    else if !args[INCLUDE_FIELDS].Arr? then args
    else if args[INCLUDE_FIELDS].items == [] || IsAll(args[INCLUDE_FIELDS].items) then args
    else if INCLUDE_FIELDS !in schema.properties then args
    else Filtered(args, args[INCLUDE_FIELDS].items, OptInFields(schema.properties[INCLUDE_FIELDS].description))
  }

  /** The positions of the valid names, in order. */
  function ValidAt(items: seq<Json>, valid: set<string>): seq<nat> {
    if items == [] then []
    else
      var n := |items| - 1;
      if IsValid(items[n], valid) then ValidAt(items[..n], valid) + [n] else ValidAt(items[..n], valid)
  }

  lemma {:induction false} ValidAtMember(items: seq<Json>, valid: set<string>, p: nat)
    ensures p in ValidAt(items, valid) <==> p < |items| && IsValid(items[p], valid)
  {
    hide IsValid;
    if items != [] {
      var n := |items| - 1;
      ValidAtMember(items[..n], valid, p);
      if p < n { assert items[..n][p] == items[p]; }
    }
  }

  lemma {:induction false} ValidAtIncreases(items: seq<Json>, valid: set<string>)
    ensures forall i :: 0 <= i < |ValidAt(items, valid)| ==> ValidAt(items, valid)[i] < |items|
    ensures forall i, j :: 0 <= i < j < |ValidAt(items, valid)| ==> ValidAt(items, valid)[i] < ValidAt(items, valid)[j]
  {
    hide IsValid;
    if items != [] { ValidAtIncreases(items[..|items| - 1], valid); }
  }

  /** What is kept is a sublist in order: at increasing positions, namely those of the valid names. */
  lemma {:induction false} ValidOnlyIsSublist(items: seq<Json>, valid: set<string>)
    ensures var at := ValidAt(items, valid);
      && |at| == |ValidOnly(items, valid)|
      && (forall i, j :: 0 <= i < j < |at| ==> at[i] < at[j])
      && (forall i :: 0 <= i < |at| ==> at[i] < |items| && ValidOnly(items, valid)[i] == items[at[i]])
      && (forall p: nat :: p in at <==> p < |items| && IsValid(items[p], valid))
  {
    ValidAtIncreases(items, valid);
    forall p: nat ensures p in ValidAt(items, valid) <==> p < |items| && IsValid(items[p], valid) {
      ValidAtMember(items, valid, p);
    }
    ValidOnlyContent(items, valid);
  }

  lemma {:induction false} ValidOnlyContent(items: seq<Json>, valid: set<string>)
    ensures |ValidAt(items, valid)| == |ValidOnly(items, valid)|
    ensures forall i :: 0 <= i < |ValidAt(items, valid)| ==>
      ValidAt(items, valid)[i] < |items| && ValidOnly(items, valid)[i] == items[ValidAt(items, valid)[i]]
  {
    hide IsValid;
    if items != [] { ValidOnlyContent(items[..|items| - 1], valid); }
  }

  lemma ValidOnlyAppend(items: seq<Json>, x: Json, valid: set<string>)
    ensures ValidOnly(items + [x], valid)
      == if IsValid(x, valid) then ValidOnly(items, valid) + [x] else ValidOnly(items, valid)
  {
    assert (items + [x])[..|items|] == items;
  }

  lemma {:induction false} ValidOnlyTwice(items: seq<Json>, valid: set<string>)
    ensures ValidOnly(ValidOnly(items, valid), valid) == ValidOnly(items, valid)
  {
    if items != [] {
      var n := |items| - 1;
      ValidOnlyTwice(items[..n], valid);
      ValidOnlyAppend(ValidOnly(items[..n], valid), items[n], valid);
    }
  }

  /** Sanitising twice is sanitising once. */
  lemma SanitizedIsIdempotent(args: Args, schema: InputSchema)
    ensures Sanitized(Sanitized(args, schema), schema) == Sanitized(args, schema)
  {
    hide OptInFields;
    if INCLUDE_FIELDS in args && args[INCLUDE_FIELDS].Arr? && INCLUDE_FIELDS in schema.properties {
      ValidOnlyTwice(args[INCLUDE_FIELDS].items, OptInFields(schema.properties[INCLUDE_FIELDS].description));
    }
    hide ValidOnly;
  }

  /** No other argument changes, and no null is sent. */
  lemma SanitizedLeavesTheRest(args: Args, schema: InputSchema)
    ensures var r := Sanitized(args, schema);
      && (forall k :: k != INCLUDE_FIELDS ==> (k in r <==> k in args) && (k in args ==> r[k] == args[k]))
      && (INCLUDE_FIELDS in r ==> INCLUDE_FIELDS in args && !r[INCLUDE_FIELDS].Null?)
  {
    hide OptInFields, ValidOnly;
  }

  /** When the valid names are known and the list is not empty and not `["all"]`, the server gets the
      valid names of the list in its order or, if there are none, no argument at all. */
  lemma SanitizedKeepsExactlyValidNames(args: Args, schema: InputSchema)
    requires INCLUDE_FIELDS in args && args[INCLUDE_FIELDS].Arr? && INCLUDE_FIELDS in schema.properties
    requires args[INCLUDE_FIELDS].items != [] && !IsAll(args[INCLUDE_FIELDS].items)
    requires OptInFields(schema.properties[INCLUDE_FIELDS].description) != {}
    ensures var items, r := args[INCLUDE_FIELDS].items, Sanitized(args, schema);
      var valid := OptInFields(schema.properties[INCLUDE_FIELDS].description);
      var at := ValidAt(items, valid);
      && (INCLUDE_FIELDS in r <==> exists p: nat :: p < |items| && IsValid(items[p], valid))
      && (INCLUDE_FIELDS in r ==>
            r[INCLUDE_FIELDS].Arr? && |r[INCLUDE_FIELDS].items| == |at|
            && forall i :: 0 <= i < |at| ==> at[i] < |items| && r[INCLUDE_FIELDS].items[i] == items[at[i]])
  {
    var items := args[INCLUDE_FIELDS].items;
    var valid := OptInFields(schema.properties[INCLUDE_FIELDS].description);
    ValidOnlyIsSublist(items, valid);
    hide OptInFields, ValidAt, ValidOnly, IsValid;
    var at := ValidAt(items, valid);
    assert at != [] ==> at[0] in at;
  }

  // ----- what the server is sent, by the request, the schema and the table -----

  /** What string v is for a property, by its declared type. What does not parse stays a string. */
  predicate ReadAs(p: Parsers, v: string, prop: SchemaProp, j: Json) {
    var typ := ToLower(prop.typ);
    if prop.nullable && v == "null" then j == Null
    else
      && (typ == "number" && p.number(v).Some? ==> j == Num(p.number(v).value))
      && (typ == "integer" && p.integer(v).Some? ==> j == Num(p.integer(v).value))
      && (typ == "boolean" && p.boolean(v).Some? ==> j == Json.Bool(p.boolean(v).value))
      && (typ == "object" && p.json(v).Some? ==> j == p.json(v).value)
      && (typ == "array" ==>
            && j.Arr?
            && (p.json(v).Some? && p.json(v).value.Arr? ==> j == p.json(v).value)
            && (p.json(v).Some? && !p.json(v).value.Arr? ==> j.items == [p.json(v).value])
            && (p.json(v).None? ==> j.items == [Str(v)]))
      && (!Parsed(p, v, typ) && typ != "array" ==> j == Str(v))
  }

  predicate Parsed(p: Parsers, v: string, typ: string) {
    || (typ == "number" && p.number(v).Some?) || (typ == "integer" && p.integer(v).Some?)
    || (typ == "boolean" && p.boolean(v).Some?) || (typ == "object" && p.json(v).Some?)
  }

  lemma CoerceReads(p: Parsers, v: string, prop: SchemaProp)
    ensures ReadAs(p, v, prop, Coerce(p, v, prop.typ, prop.nullable))
  {
    hide ToLower;
  }

  /** A string that is a key becomes the tool name of that action; one that is none, but `plugin__key` for a
      clean plugin name, that of the key; nothing else changes. */
  ghost predicate Renames(actions: map<string, Entry>, before: Json, after: Json) {
    if !before.Str? then after == before
    else if before.s in actions then after == Str(actions[before.s].toolName)
    else
      && (forall plugin, key :: before.s == ActionName(plugin, key) && Clean(plugin) && key in actions ==>
            after == Str(actions[key].toolName))
      && ((forall plugin, key :: before.s == ActionName(plugin, key) && Clean(plugin) ==> key !in actions) ==>
            after == before)
  }

  ghost predicate TaskRenames(actions: map<string, Entry>, before: Json, after: Json) {
    if !before.Obj? then after == before
    else
      && after.Obj? && after.fields.Keys == before.fields.Keys
      && forall k :: k in before.fields ==>
           if k == "tool_name" then Renames(actions, before.fields[k], after.fields[k])
           else after.fields[k] == before.fields[k]
  }

  ghost predicate TasksRename(actions: map<string, Entry>, before: Json, after: Json) {
    if !before.Arr? then after == before
    else
      && after.Arr? && |after.items| == |before.items|
      && forall i :: 0 <= i < |before.items| ==> TaskRenames(actions, before.items[i], after.items[i])
  }

  /** The positions of the offered names, in order. */
  ghost predicate OfferedAt(items: seq<Json>, offered: set<string>, at: seq<nat>) {
    && (forall i, j :: 0 <= i < j < |at| ==> at[i] < at[j])
    && (forall i :: 0 <= i < |at| ==> at[i] < |items|)
    && (forall p: nat :: p in at <==> p < |items| && items[p].Str? && items[p].s in offered)
  }

  /** `kept` is the list without the names that are not offered. */
  ghost predicate KeepsOffered(items: seq<Json>, offered: set<string>, kept: seq<Json>) {
    exists at :: OfferedAt(items, offered, at) && |kept| == |at| && forall i :: 0 <= i < |at| ==>
      at[i] < |items| && kept[i] == items[at[i]]
  }

  /** What becomes of include_fields: null is not sent; a proper list whose names the schema offers is cut
      down to those, and not sent when none is left; anything else is sent as it is. */
  ghost predicate FieldsArrive(schema: InputSchema, before: Json, after: Option<Json>) {
    if before.Null? then after == None
    else if before.Arr? && before.items != [] && before.items != [Str("all")] && "include_fields" in schema.properties
      && OptInFields(schema.properties["include_fields"].description) != {}
    then
      var offered := OptInFields(schema.properties["include_fields"].description);
      if after.None? then KeepsOffered(before.items, offered, [])
      else after.value.Arr? && after.value.items != [] && KeepsOffered(before.items, offered, after.value.items)
    else after == Some(before)
  }

  /** What arrives for the argument k when `before` is what its string was read as. */
  ghost predicate Arrives(schema: InputSchema, actions: map<string, Entry>, k: string, before: Json,
      after: Option<Json>) {
    if k == "tool_name" || k == "default_tool_name" then after.Some? && Renames(actions, before, after.value)
    else if k == "tasks" then after.Some? && TasksRename(actions, before, after.value)
    else if k == "include_fields" then FieldsArrive(schema, before, after)
    else after == Some(before)
  }

  ghost predicate Argument(p: Parsers, raw: map<string, string>, schema: InputSchema, k: string, j: Json) {
    k in raw && if k in schema.properties then ReadAs(p, raw[k], schema.properties[k], j) else j == Str(raw[k])
  }

  ghost predicate ArgumentArrives(p: Parsers, raw: map<string, string>, schema: InputSchema,
      actions: map<string, Entry>, k: string, after: Option<Json>) {
    exists j :: Argument(p, raw, schema, k, j) && Arrives(schema, actions, k, j, after)
  }

  /** The arguments sent: each of the request except those in `without`, and no others. */
  ghost predicate Delivered(p: Parsers, raw: map<string, string>, schema: InputSchema, actions: map<string, Entry>,
      without: set<string>, sent: Args) {
    && (forall k :: k in sent ==> k in raw && k !in without)
    && (forall k :: k in raw && k !in without ==> ArgumentArrives(p, raw, schema, actions, k, Present(sent, k)))
  }

  lemma ResolveRenames(actions: map<string, Entry>, j: Json)
    ensures Renames(actions, j, ResolveValue(actions, j))
  {
    if j.Str? && j.s !in actions {
      forall plugin, key | j.s == ActionName(plugin, key) && Clean(plugin) && key in actions
        ensures ResolveValue(actions, j) == Str(actions[key].toolName)
      {
        QualifiedResolves(actions, plugin, key);
      }
      if Resolve(actions, j.s).Some? {
        var i := Index(j.s, SEPARATOR);
        assert j.s == ActionName(j.s[..i], j.s[i + 2..]);
        FirstSeparator(j.s[..i], j.s[i + 2..]);
      }
    }
  }

  lemma ResolveRenamesTask(actions: map<string, Entry>, before: Json, after: Json)
    requires TaskResolved(actions, before, after)
    ensures TaskRenames(actions, before, after)
  {
    hide Resolve, ResolveValue, Renames;
    if before.Obj? && TOOL_NAME in before.fields { ResolveRenames(actions, before.fields[TOOL_NAME]); }
  }

  lemma SanitizedFieldsArrive(args: Args, schema: InputSchema)
    requires INCLUDE_FIELDS in args
    ensures FieldsArrive(schema, args[INCLUDE_FIELDS], Present(Sanitized(args, schema), INCLUDE_FIELDS))
  {
    hide OptInFields, KeepsOffered;
    if args[INCLUDE_FIELDS].Arr? && INCLUDE_FIELDS in schema.properties {
      var items := args[INCLUDE_FIELDS].items;
      var offered := OptInFields(schema.properties[INCLUDE_FIELDS].description);
      ValidOnlyKeeps(items, offered);
      hide ValidOnly;
    }
  }

  lemma ValidOnlyKeeps(items: seq<Json>, offered: set<string>)
    ensures KeepsOffered(items, offered, ValidOnly(items, offered))
  {
    ValidOnlyIsSublist(items, offered);
    hide ValidOnly, ValidAt;
    assert OfferedAt(items, offered, ValidAt(items, offered));
  }

  lemma ConvertedIsArgument(p: Parsers, raw: map<string, string>, schema: InputSchema, k: string)
    requires k in raw
    ensures Argument(p, raw, schema, k, Converted(p, raw, schema)[k])
  {
    if k in schema.properties { CoerceReads(p, raw[k], schema.properties[k]); }
    hide ReadAs, Coerce;
  }

  lemma ResolvedArrives(actions: map<string, Entry>, args: Args, schema: InputSchema, k: string)
    requires k in args && k != INCLUDE_FIELDS
    ensures k in Resolved(actions, args) && Arrives(schema, actions, k, args[k], Some(Resolved(actions, args)[k]))
  {
    ResolvedChangesOnlyToolNames(actions, args);
    NamesDiffer();
    hide Resolved, Renames, TaskRenames, TaskResolved, ResolveValue, FieldsArrive;
    if k == TOOL_NAME || k == DEFAULT_TOOL_NAME {
      ResolveRenames(actions, args[k]);
    } else if k == TASKS && args[TASKS].Arr? {
      forall i | 0 <= i < |args[TASKS].items| {
        ResolveRenamesTask(actions, args[TASKS].items[i], Resolved(actions, args)[TASKS].items[i]);
      }
    }
  }

  lemma PassesArrive(actions: map<string, Entry>, args: Args, schema: InputSchema, k: string)
    requires k in args
    ensures Arrives(schema, actions, k, args[k], Present(Sanitized(Resolved(actions, args), schema), k))
  {
    var resolved := Resolved(actions, args);
    NamesDiffer();
    SanitizedLeavesTheRest(resolved, schema);
    if k == INCLUDE_FIELDS {
      ResolvedChangesOnlyToolNames(actions, args);
      hide Resolved, Sanitized, TaskResolved, ResolveValue, FieldsArrive;
      SanitizedFieldsArrive(resolved, schema);
    } else {
      ResolvedArrives(actions, args, schema, k);
      hide Resolved, Sanitized, Arrives;
    }
  }

  /** A string is read in one way only. */
  lemma ReadOnce(p: Parsers, raw: map<string, string>, schema: InputSchema, k: string, i: Json, j: Json)
    requires Argument(p, raw, schema, k, i) && Argument(p, raw, schema, k, j)
    ensures i == j
  {
    hide ToLower;
  }

  /** The three passes over the arguments deliver every argument as it should arrive. */
  lemma PassesDeliver(p: Parsers, raw: map<string, string>, schema: InputSchema, actions: map<string, Entry>,
      without: set<string>)
    ensures Delivered(p, raw, schema, actions, without,
                      Sanitized(Resolved(actions, Converted(p, raw, schema)), schema) - without)
  {
    var converted := Converted(p, raw, schema);
    var args := Sanitized(Resolved(actions, converted), schema);
    assert args.Keys <= raw.Keys by {
      ResolvedChangesOnlyToolNames(actions, converted);
      SanitizedLeavesTheRest(Resolved(actions, converted), schema);
      hide Resolved, Sanitized, TaskResolved, ResolveValue;
    }
    hide Resolved, Sanitized, Arrives, Argument;
    forall k | k in raw && k !in without
      ensures ArgumentArrives(p, raw, schema, actions, k, Present(args - without, k))
    {
      ConvertedIsArgument(p, raw, schema, k);
      PassesArrive(actions, converted, schema, k);
      assert Present(args - without, k) == Present(args, k);
    }
  }

  method KeepValid(items: seq<Json>, valid: set<string>) returns (kept: seq<Json>)
    ensures kept == ValidOnly(items, valid)
  {
    kept := [];
    for i := 0 to |items|
      invariant kept == ValidOnly(items[..i], valid)
    {
      assert items[..i + 1] == items[..i] + [items[i]];
      ValidOnlyAppend(items[..i], items[i], valid);
      if IsValid(items[i], valid) { kept := kept + [items[i]]; }
    }
    assert items[..|items|] == items;
  }

  // ----- the passes, in place -----

  class Arguments {
    var args: Args

    constructor ()
      ensures args == map[]
    {
      args := map[];
    }

    method ConvertArgs(p: Parsers, raw: map<string, string>, schema: InputSchema)
      modifies this
      ensures args == Converted(p, raw, schema)
    {
      args := map[];
      var todo := raw.Keys;
      while todo != {}
        invariant todo <= raw.Keys
        invariant args == map k | k in raw && k !in todo :: Converted(p, raw, schema)[k]
      {
        var k :| k in todo;
        if k !in schema.properties {
          args := args[k := Str(raw[k])];
        } else {
          args := args[k := Coerce(p, raw[k], schema.properties[k].typ, schema.properties[k].nullable)];
        }
        todo := todo - {k};
      }
    }

    method ResolveToolNameArgs(actions: map<string, Entry>)
      modifies this
      ensures args == Resolved(actions, old(args))
    {
      var keys := [DEFAULT_TOOL_NAME, TOOL_NAME];
      for i := 0 to 2
        invariant i == 0 ==> args == old(args)
        invariant i == 1 ==> args == ResolveAt(actions, old(args), DEFAULT_TOOL_NAME)
        invariant i == 2 ==> args == ResolveAt(actions, ResolveAt(actions, old(args), DEFAULT_TOOL_NAME), TOOL_NAME)
      {
        ResolveArg(actions, keys[i]);
      }
      if TASKS !in args || !args[TASKS].Arr? { return; }
      var tasks := args[TASKS].items;
      ghost var before := tasks;
      for i := 0 to |tasks|
        invariant |tasks| == |before|
        invariant forall k :: 0 <= k < i ==> tasks[k] == ResolveTask(actions, before[k])
        invariant forall k :: i <= k < |tasks| ==> tasks[k] == before[k]
      {
        if tasks[i].Obj? && TOOL_NAME in tasks[i].fields && tasks[i].fields[TOOL_NAME].Str? {
          var raw := Resolve(actions, tasks[i].fields[TOOL_NAME].s);
          if raw.Some? {
            tasks := tasks[i := Obj(tasks[i].fields[TOOL_NAME := Str(raw.value)])];
          }
        }
      }
      assert tasks == ResolveTasks(actions, before);
      args := args[TASKS := Arr(tasks)];
    }

    method ResolveArg(actions: map<string, Entry>, key: string)
      modifies this
      ensures args == ResolveAt(actions, old(args), key)
    {
      if key in args && args[key].Str? {
        var raw := Resolve(actions, args[key].s);
        if raw.Some? { args := args[key := Str(raw.value)]; }
      }
    }

    method SanitizeIncludeFields(schema: InputSchema)
      modifies this
      ensures args == Sanitized(old(args), schema)
    {
      if INCLUDE_FIELDS !in args { return; }
      var raw := args[INCLUDE_FIELDS];
      if raw.Null? { args := args - {INCLUDE_FIELDS}; return; }
      if !raw.Arr? || |raw.items| == 0 { return; }
      var items := raw.items;
      if |items| == 1 && items[0].Str? && items[0].s == "all" {
        assert IsAll(items);
        return;
      }
      if INCLUDE_FIELDS !in schema.properties { return; }
      var valid := ParseOptInFields(schema.properties[INCLUDE_FIELDS].description);
      if valid == {} { return; }
      var kept := KeepValid(items, valid);
      if |kept| == 0 { args := args - {INCLUDE_FIELDS}; } else { args := args[INCLUDE_FIELDS := Arr(kept)]; }
    }
  }
}
