/** plugin/registry.go as code: Build and its cache, and the registry's locked sections. */
module RegistryBuild {
  import opened Options
  import opened Json
  import opened Schema
  import opened Text
  import opened Naming
  import opened RegistrySpec

  // ----- the cache -----

  /** Cache files by path, with their contents as JSON trees. */
  type Disk = map<string, Json>

  function Sanitized(server: string): (r: string)
    ensures |r| == |server|
  {
    if server == "" then "" else [if server[0] == '/' then '_' else server[0]] + Sanitized(server[1..])
  }

  function CacheFile(dir: string, server: string): string {
    dir + "/" + Sanitized(server) + ".json"
  }

  lemma CacheFileInjective(dir: string, a: string, b: string)
    ensures CacheFile(dir, a) == CacheFile(dir, b) <==> Sanitized(a) == Sanitized(b)
  {
    var n := |dir| + 1;
    assert CacheFile(dir, a)[n..n + |a|] == Sanitized(a);
    assert CacheFile(dir, b)[n..n + |b|] == Sanitized(b);
  }

  function CachedServer(server: string, tools: seq<Tool>): Json {
    Obj(map["server" := Str(server), "tools" := Arr(EncodeTools(tools))])
  }

  function SaveCache(disk: Disk, dir: string, server: string, tools: seq<Tool>): Disk {
    disk[CacheFile(dir, server) := CachedServer(server, tools)]
  }

  /** Unreadable and malformed files count as holding no tools. */
  function LoadCache(disk: Disk, dir: string, server: string): seq<Tool> {
    var f := CacheFile(dir, server);
    if f in disk && disk[f].Obj? && DecodeString(Field(disk[f].fields, "server")).Some? then
      match DecodeToolList(Field(disk[f].fields, "tools"))
      case Some(tools) => tools
      case None => []
    else []
  }

  // ----- upstream answers -----

  datatype GlossaryEntry = GlossaryEntry(term: string, definition: string, category: string, tags: seq<string>,
      synonyms: seq<string>)

  datatype Article = Article(id: string, title: string, content: string, tags: seq<string>)

  /** What a server told about itself on initialize. */
  datatype ServerInfo = ServerInfo(instructions: string, glossary: seq<GlossaryEntry>, knowledge: seq<Article>)

  datatype Fetch = Fetched(tools: seq<Tool>, client: ClientId, info: ServerInfo) | Unreachable

  /** What becomes of the cache file on a save. A save that fails may leave the file alone, or cut short:
      then it holds no JSON document any more. */
  datatype Save = Saved | Untouched | Damaged

  /** What fetchTools returned for a server, and how writing its cache file went. */
  datatype Answer = Answer(fetch: Fetch, save: Save)

  function OutcomeOf(a: Answer, dir: Option<string>, disk: Disk, server: string): Outcome {
    match a.fetch
    case Fetched(tools, client, _) => Live(tools, client)
    case Unreachable =>
      var cached := if dir.Some? then LoadCache(disk, dir.value, server) else [];
      if |cached| == 0 then Failed else Offline(cached)
  }

  function DiskAfter(a: Answer, dir: Option<string>, disk: Disk, server: string): Disk {
    if !a.fetch.Fetched? || dir.None? || a.save.Untouched? then disk
    else if a.save.Saved? then SaveCache(disk, dir.value, server, a.fetch.tools)
    else disk - {CacheFile(dir.value, server)}
  }

  /** The outcomes of the first n servers of a Build, and the disk as it is then. */
  function OutcomesUpTo(cfgs: seq<ServerConfig>, answers: seq<Answer>, dir: Option<string>, disk: Disk, n: nat)
      : (r: (seq<Outcome>, Disk))
    requires n <= |cfgs| == |answers|
    ensures |r.0| == n
  {
    if n == 0 then ([], disk)
    else
      var (outs, d) := OutcomesUpTo(cfgs, answers, dir, disk, n - 1);
      (outs + [OutcomeOf(answers[n - 1], dir, d, cfgs[n - 1].server)],
        DiskAfter(answers[n - 1], dir, d, cfgs[n - 1].server))
  }

  function Outcomes(cfgs: seq<ServerConfig>, answers: seq<Answer>, dir: Option<string>, disk: Disk)
      : (r: (seq<Outcome>, Disk))
    requires |cfgs| == |answers|
    ensures |r.0| == |cfgs|
  {
    OutcomesUpTo(cfgs, answers, dir, disk, |cfgs|)
  }

  // ----- what servers say about themselves -----

  /** The registry's instruction sections, glossary and knowledge articles. */
  datatype Extras = Extras(sections: seq<string>, glossary: seq<GlossaryEntry>, knowledge: seq<Article>)

  function Joined(a: Extras, b: Extras): Extras {
    Extras(a.sections + b.sections, a.glossary + b.glossary, a.knowledge + b.knowledge)
  }

  function Section(server: string, instructions: string): string {
    "## " + server + "\n" + instructions
  }

  /** Entries without a term or a definition are left out. */
  function Terms(entries: seq<GlossaryEntry>): seq<GlossaryEntry> {
    if entries == [] then []
    else
      var n := |entries| - 1;
      if entries[n].term == "" || entries[n].definition == "" then Terms(entries[..n])
      else Terms(entries[..n]) + [entries[n]]
  }

  /** Incomplete articles are left out; ids are prefixed like action names. */
  function Articles(server: string, articles: seq<Article>): seq<Article> {
    if articles == [] then []
    else
      var n := |articles| - 1;
      var a := articles[n];
      if a.id == "" || a.title == "" || a.content == "" then Articles(server, articles[..n])
      else Articles(server, articles[..n]) + [a.(id := ActionName(server, a.id))]
  }

  function ServerExtras(server: string, info: ServerInfo): Extras {
    var sections := if info.instructions != "" then [Section(server, info.instructions)] else [];
    Extras(sections, Terms(info.glossary), Articles(server, info.knowledge))
  }

  /** Only servers that answered have a say. */
  function ExtrasOf(a: Answer, server: string): Extras {
    if a.fetch.Fetched? then ServerExtras(server, a.fetch.info) else Extras([], [], [])
  }

  function AllExtras(cfgs: seq<ServerConfig>, answers: seq<Answer>): Extras
    requires |cfgs| == |answers|
  {
    if cfgs == [] then Extras([], [], [])
    else
      var n := |cfgs| - 1;
      Joined(AllExtras(cfgs[..n], answers[..n]), ExtrasOf(answers[n], cfgs[n].server))
  }

  predicate Complete(a: Article) {
    a.id != "" && a.title != "" && a.content != ""
  }

  /** Article p of the prefixed list is a complete one of the server, under its prefixed id. */
  ghost predicate ArticleFrom(server: string, articles: seq<Article>, k: int, a: Article) {
    0 <= k < |articles| && Complete(articles[k]) && a == articles[k].(id := ActionName(server, articles[k].id))
  }

  ghost predicate DistinctIds(articles: seq<Article>) {
    forall i, j :: 0 <= i < j < |articles| ==> articles[i].id != articles[j].id
  }

  lemma {:induction false} ArticlesFrom(server: string, articles: seq<Article>, p: nat) returns (k: nat)
    requires p < |Articles(server, articles)|
    ensures ArticleFrom(server, articles, k, Articles(server, articles)[p])
  {
    var n := |articles| - 1;
    if p < |Articles(server, articles[..n])| {
      k := ArticlesFrom(server, articles[..n], p);
      assert articles[..n][k] == articles[k];
    } else {
      k := n;
    }
  }

  lemma {:induction false} ArticlesDistinct(server: string, articles: seq<Article>)
    requires DistinctIds(articles)
    ensures DistinctIds(Articles(server, articles))
  {
    if articles != [] {
      var n := |articles| - 1;
      var before := Articles(server, articles[..n]);
      ArticlesDistinct(server, articles[..n]);
      forall p | 0 <= p < |before| ensures before[p].id != ActionName(server, articles[n].id) {
        var k := ArticlesFrom(server, articles[..n], p);
        SameServerIds(server, articles[k].id, articles[n].id);
      }
    }
  }

  lemma SameServerIds(server: string, a: string, b: string)
    requires a != b
    ensures ActionName(server, a) != ActionName(server, b)
  {
    assert ActionName(server, a)[|server| + 2..] == a;
    assert ActionName(server, b)[|server| + 2..] == b;
  }

  /** Every article of the registry is a complete one of a server that answered. */
  lemma {:induction false} KnowledgeOrigin(cfgs: seq<ServerConfig>, answers: seq<Answer>, p: nat)
      returns (s: nat, k: nat)
    requires |cfgs| == |answers| && p < |AllExtras(cfgs, answers).knowledge|
    ensures s < |cfgs| && answers[s].fetch.Fetched?
    ensures ArticleFrom(cfgs[s].server, answers[s].fetch.info.knowledge, k, AllExtras(cfgs, answers).knowledge[p])
  {
    hide ArticleFrom;
    var n := |cfgs| - 1;
    var before := AllExtras(cfgs[..n], answers[..n]).knowledge;
    if p < |before| {
      s, k := KnowledgeOrigin(cfgs[..n], answers[..n], p);
    } else {
      s := n;
      k := ArticlesFrom(cfgs[n].server, answers[n].fetch.info.knowledge, p - |before|);
    }
  }

  /** With servers apart and distinct ids on each server, no article id is used twice. */
  lemma {:induction false} KnowledgeIdsDistinct(cfgs: seq<ServerConfig>, answers: seq<Answer>)
    requires |cfgs| == |answers| && AllApart(cfgs)
    requires forall s :: 0 <= s < |answers| && answers[s].fetch.Fetched? ==>
      DistinctIds(answers[s].fetch.info.knowledge)
    ensures DistinctIds(AllExtras(cfgs, answers).knowledge)
  {
    hide Apart;
    if cfgs != [] {
      var n := |cfgs| - 1;
      var before := AllExtras(cfgs[..n], answers[..n]).knowledge;
      var here := ExtrasOf(answers[n], cfgs[n].server).knowledge;
      KnowledgeIdsDistinct(cfgs[..n], answers[..n]);
      if answers[n].fetch.Fetched? { ArticlesDistinct(cfgs[n].server, answers[n].fetch.info.knowledge); }
      forall p, q | 0 <= p < |before| && 0 <= q < |here| ensures before[p].id != here[q].id {
        var s, k := KnowledgeOrigin(cfgs[..n], answers[..n], p);
        var m := ArticlesFrom(cfgs[n].server, answers[n].fetch.info.knowledge, q);
        ApartPair(cfgs, s, n);
        if before[p].id == here[q].id {
          var mine, other := answers[s].fetch.info.knowledge, answers[n].fetch.info.knowledge;
          NameInjective(cfgs[s].server, mine[k].id, cfgs[n].server, other[m].id);
        }
      }
    }
  }

  // ----- which of them are kept, and in which order -----

  /** The positions at which some list of entries is kept: those of the entries with both parts. */
  lemma {:induction false} TermsKept(entries: seq<GlossaryEntry>) returns (at: seq<nat>)
    ensures Increasing(at)
    ensures forall p: nat :: p in at <==> p < |entries| && entries[p].term != "" && entries[p].definition != ""
    ensures |at| == |Terms(entries)| && forall i :: 0 <= i < |at| ==>
      at[i] < |entries| && Terms(entries)[i] == entries[at[i]]
  {
    at := [];
    if entries != [] {
      var n := |entries| - 1;
      var before := TermsKept(entries[..n]);
      assert forall i :: 0 <= i < |before| ==> before[i] in before;
      assert forall p: nat :: p < n ==> entries[..n][p] == entries[p];
      var kept := entries[n].term != "" && entries[n].definition != "";
      at := before + (if kept then [n] else []);
      if kept { assert at[|before|] == n; }
    }
  }

  lemma {:induction false} ArticlesKept(server: string, articles: seq<Article>) returns (at: seq<nat>)
    ensures Increasing(at)
    ensures forall p: nat :: p in at <==> p < |articles| && Complete(articles[p])
    ensures |at| == |Articles(server, articles)| && forall i :: 0 <= i < |at| ==>
      ArticleFrom(server, articles, at[i], Articles(server, articles)[i])
  {
    at := [];
    if articles != [] {
      var n := |articles| - 1;
      var before := ArticlesKept(server, articles[..n]);
      assert forall i :: 0 <= i < |before| ==> before[i] in before;
      assert forall p: nat :: p < n ==> articles[..n][p] == articles[p];
      at := before + (if Complete(articles[n]) then [n] else []);
      if Complete(articles[n]) { assert at[|before|] == n; }
    }
  }

  /** Places: which server, and which of its entries. */
  type Place = (nat, nat)

  /** By server first, and then in the server's order. */
  ghost predicate PlacesInOrder(at: seq<Place>) {
    forall i, j :: 0 <= i < j < |at| ==> at[i].0 < at[j].0 || (at[i].0 == at[j].0 && at[i].1 < at[j].1)
  }

  lemma AppendPlaces(before: seq<Place>, n: nat, here: seq<nat>) returns (at: seq<Place>)
    requires PlacesInOrder(before) && (forall p :: p in before ==> p.0 < n) && Increasing(here)
    ensures PlacesInOrder(at) && |at| == |before| + |here|
    ensures forall i :: 0 <= i < |before| ==> at[i] == before[i]
    ensures forall i :: |before| <= i < |at| ==> at[i] == (n, here[i - |before|])
    ensures forall p :: p in at <==> p in before || (p.0 == n && p.1 in here)
  {
    var more := seq(|here|, i requires 0 <= i < |here| => (n, here[i]));
    at := before + more;
    assert forall i :: 0 <= i < |before| ==> before[i] in before;
    forall p ensures p in more <==> p.0 == n && p.1 in here {
      if p.0 == n && p.1 in here {
        var i :| 0 <= i < |here| && here[i] == p.1;
        assert more[i] == p;
      }
    }
  }

  /** The complete articles of the servers that answered. */
  ghost predicate CompleteAt(cfgs: seq<ServerConfig>, answers: seq<Answer>, p: Place) {
    && p.0 < |cfgs| == |answers| && answers[p.0].fetch.Fetched?
    && p.1 < |answers[p.0].fetch.info.knowledge| && Complete(answers[p.0].fetch.info.knowledge[p.1])
  }

  /** The registry lists exactly the complete articles of the servers that answered, under prefixed ids, in
      configuration order and each server's own. */
  lemma {:induction false} KnowledgeIsComplete(cfgs: seq<ServerConfig>, answers: seq<Answer>)
      returns (at: seq<Place>)
    requires |cfgs| == |answers|
    ensures PlacesInOrder(at) && forall p :: p in at <==> CompleteAt(cfgs, answers, p)
    ensures |at| == |AllExtras(cfgs, answers).knowledge|
    ensures forall i :: 0 <= i < |at| ==>
      CompleteAt(cfgs, answers, at[i]) && ArticleFrom(cfgs[at[i].0].server, answers[at[i].0].fetch.info.knowledge,
        at[i].1, AllExtras(cfgs, answers).knowledge[i])
  {
    at := [];
    if cfgs != [] {
      var n := |cfgs| - 1;
      var before := KnowledgeIsComplete(cfgs[..n], answers[..n]);
      var here := [];
      if answers[n].fetch.Fetched? { here := ArticlesKept(cfgs[n].server, answers[n].fetch.info.knowledge); }
      hide Complete, ArticleFrom;
      assert forall p: Place :: p.0 < n ==> (CompleteAt(cfgs[..n], answers[..n], p) <==> CompleteAt(cfgs, answers, p));
      at := AppendPlaces(before, n, here);
      assert forall i :: 0 <= i < |before| ==> at[i] in before;
      assert forall i :: 0 <= i < |here| ==> here[i] in here;
    }
  }

  ghost predicate TermAt(cfgs: seq<ServerConfig>, answers: seq<Answer>, p: Place) {
    && p.0 < |cfgs| == |answers| && answers[p.0].fetch.Fetched? && p.1 < |answers[p.0].fetch.info.glossary|
    && answers[p.0].fetch.info.glossary[p.1].term != "" && answers[p.0].fetch.info.glossary[p.1].definition != ""
  }

  /** And exactly their glossary entries that have a term and a definition, as they are. */
  lemma {:induction false} GlossaryIsComplete(cfgs: seq<ServerConfig>, answers: seq<Answer>)
      returns (at: seq<Place>)
    requires |cfgs| == |answers|
    ensures PlacesInOrder(at) && forall p :: p in at <==> TermAt(cfgs, answers, p)
    ensures |at| == |AllExtras(cfgs, answers).glossary|
    ensures forall i :: 0 <= i < |at| ==>
      TermAt(cfgs, answers, at[i])
      && AllExtras(cfgs, answers).glossary[i] == answers[at[i].0].fetch.info.glossary[at[i].1]
  {
    at := [];
    if cfgs != [] {
      var n := |cfgs| - 1;
      var before := GlossaryIsComplete(cfgs[..n], answers[..n]);
      var here := [];
      if answers[n].fetch.Fetched? { here := TermsKept(answers[n].fetch.info.glossary); }
      assert forall p: Place :: p.0 < n ==> (TermAt(cfgs[..n], answers[..n], p) <==> TermAt(cfgs, answers, p));
      at := AppendPlaces(before, n, here);
      assert forall i :: 0 <= i < |before| ==> at[i] in before;
      assert forall i :: 0 <= i < |here| ==> here[i] in here;
    }
  }

  ghost predicate Instructs(answers: seq<Answer>, k: nat) {
    k < |answers| && answers[k].fetch.Fetched? && answers[k].fetch.info.instructions != ""
  }

  /** The prompt has one section for each server that gave instructions, under the server's name, in
      configuration order. */
  lemma {:induction false} SectionsAreComplete(cfgs: seq<ServerConfig>, answers: seq<Answer>)
      returns (at: seq<nat>)
    requires |cfgs| == |answers|
    ensures Increasing(at) && forall k: nat :: k in at <==> Instructs(answers, k)
    ensures |at| == |AllExtras(cfgs, answers).sections|
    ensures forall i :: 0 <= i < |at| ==>
      Instructs(answers, at[i]) && AllExtras(cfgs, answers).sections[i]
        == "## " + cfgs[at[i]].server + "\n" + answers[at[i]].fetch.info.instructions
  {
    at := [];
    if cfgs != [] {
      var n := |cfgs| - 1;
      var before := SectionsAreComplete(cfgs[..n], answers[..n]);
      assert forall i :: 0 <= i < |before| ==> before[i] in before;
      assert forall k: nat :: k < n ==> (Instructs(answers[..n], k) <==> Instructs(answers, k));
      at := before + (if Instructs(answers, n) then [n] else []);
      if Instructs(answers, n) { assert at[|before|] == n; }
    }
  }

  lemma AppendExtras(cfgs: seq<ServerConfig>, answers: seq<Answer>, n: nat)
    requires n < |cfgs| == |answers|
    ensures AllExtras(cfgs[..n + 1], answers[..n + 1])
      == Joined(AllExtras(cfgs[..n], answers[..n]), ExtrasOf(answers[n], cfgs[n].server))
  {
    assert cfgs[..n + 1][..n] == cfgs[..n] && answers[..n + 1][..n] == answers[..n];
  }

  // ----- sorting -----

  /** One step of a sort: the lists sorted here have distinct keys, so the result is unique. */
  function Insert<T>(x: T, ys: seq<T>, key: T -> string): seq<T> {
    if ys == [] then [x]
    else if Less(key(x), key(ys[0])) then [x] + ys
    else [ys[0]] + Insert(x, ys[1..], key)
  }

  ghost predicate SortedByKey<T>(ys: seq<T>, key: T -> string) {
    forall i, j :: 0 <= i < j < |ys| ==> Less(key(ys[i]), key(ys[j]))
  }

  lemma {:induction false} InsertSorts<T(!new)>(x: T, ys: seq<T>, key: T -> string)
    requires SortedByKey(ys, key)
    requires forall y :: y in ys ==> key(y) != key(x)
    ensures SortedByKey(Insert(x, ys, key), key)
    ensures forall y :: y in Insert(x, ys, key) <==> y == x || y in ys
  {
    if ys != [] {
      LessTrichotomy(key(x), key(ys[0]));
      if Less(key(x), key(ys[0])) {
        forall i | 0 < i < |ys| ensures Less(key(x), key(ys[i])) { LessTransitive(key(x), key(ys[0]), key(ys[i])); }
      } else {
        InsertSorts(x, ys[1..], key);
        var rest := Insert(x, ys[1..], key);
        forall i | 0 <= i < |rest| ensures Less(key(ys[0]), key(rest[i])) {
          assert rest[i] in rest;
        }
        assert ys == [ys[0]] + ys[1..];
      }
    }
  }

  ghost predicate DistinctKeys<T>(xs: seq<T>, key: T -> string) {
    forall i, j :: 0 <= i < j < |xs| ==> key(xs[i]) != key(xs[j])
  }

  method Sort<T(!new)>(xs: seq<T>, key: T -> string) returns (ys: seq<T>)
    requires DistinctKeys(xs, key)
    ensures SortedByKey(ys, key)
    ensures forall y :: y in ys <==> y in xs
  {
    ys := [];
    for i := 0 to |xs|
      invariant SortedByKey(ys, key)
      invariant forall y :: y in ys <==> y in xs[..i]
    {
      InsertSorts(xs[i], ys, key);
      ys := Insert(xs[i], ys, key);
      assert xs[..i + 1] == xs[..i] + [xs[i]];
    }
    assert xs[..|xs|] == xs;
  }

  /** schemaToParams: whatever order the properties are visited in, the result is the same. */
  method SchemaToParams(schema: InputSchema) returns (params: seq<Parameter>)
    ensures params == Params(schema) && ParamsSay(schema, params)
  {
    ParamsCoverProperties(schema);
    hide ParamsSay;
    var required: set<string> := {};
    for i := 0 to |schema.required|
      invariant forall name :: name in required <==> name in schema.required[..i]
    {
      required := required + {schema.required[i]};
    }
    assert schema.required[..|schema.required|] == schema.required;
    params := [];
    var todo := schema.properties.Keys;
    var byName := (p: Parameter) => p.name;
    while todo != {}
      invariant todo <= schema.properties.Keys
      invariant forall p :: p in params ==>
        p.name in schema.properties.Keys - todo && p == MakeParameter(schema, p.name)
      invariant forall name :: name in schema.properties.Keys - todo ==> MakeParameter(schema, name) in params
      invariant DistinctKeys(params, byName)
    {
      var name :| name in todo;
      var prop := schema.properties[name];
      params := params + [Parameter(name, prop.description, prop.raw, name in required)];
      todo := todo - {name};
    }
    params := Sort(params, byName);
    SortedParamsUnique(schema, params, byName);
  }

  lemma SortedParamsUnique(schema: InputSchema, params: seq<Parameter>, byName: Parameter -> string)
    requires forall p :: byName(p) == p.name
    requires SortedByKey(params, byName)
    requires forall p :: p in params ==> p.name in schema.properties && p == MakeParameter(schema, p.name)
    requires forall name :: name in schema.properties ==> MakeParameter(schema, name) in params
    ensures params == Params(schema)
  {
    var names := seq(|params|, i requires 0 <= i < |params| => params[i].name);
    forall i, j | 0 <= i < j < |names| ensures Less(names[i], names[j]) {
      assert Less(byName(params[i]), byName(params[j]));
    }
    forall name ensures name in Elements(names) <==> name in schema.properties {
      if name in schema.properties {
        var i :| 0 <= i < |params| && params[i] == MakeParameter(schema, name);
        assert names[i] == name;
      }
      if name in names {
        var i :| 0 <= i < |names| && names[i] == name;
        assert params[i] in params;
      }
    }
    assert Elements(names) == schema.properties.Keys;
    SortedIs(schema.properties.Keys, names);
    forall i | 0 <= i < |params| ensures params[i] == Params(schema)[i] {
      assert params[i] in params && Params(schema)[i] == MakeParameter(schema, names[i]);
    }
  }

  /** The sorted context arguments of a server, for any visiting order of the map. */
  method InjectContextArgs(headers: map<string, string>) returns (args: seq<string>)
    ensures args == Sorted(headers.Keys)
  {
    args := [];
    var todo := headers.Keys;
    var self := (s: string) => s;
    while todo != {}
      invariant todo <= headers.Keys
      invariant forall a :: a in args <==> a in headers.Keys - todo
      invariant forall i, j :: 0 <= i < j < |args| ==> args[i] != args[j]
    {
      var a :| a in todo;
      assert forall i :: 0 <= i < |args| ==> args[i] in args;
      args := args + [a];
      todo := todo - {a};
    }
    args := Sort(args, self);
    assert StrictlySorted(args) by {
      forall i, j | 0 <= i < j < |args| ensures Less(args[i], args[j]) {
        assert Less(self(args[i]), self(args[j]));
      }
    }
    assert Elements(args) == headers.Keys;
    SortedIs(headers.Keys, args);
  }

  /** companionsFromMeta's loop. */
  method CompanionsFromMeta(server: string, meta: Option<Json>) returns (names: seq<string>)
    ensures names == Companions(server, meta)
  {
    if meta.None? || !meta.value.Obj? { return []; }
    var decoded := DecodeStrings(Field(meta.value.fields, "companions"));
    if decoded.None? { return []; }
    var given := decoded.value;
    names := [];
    for i := 0 to |given|
      invariant "" !in given[..i]
      invariant |names| == i && forall k :: 0 <= k < i ==> names[k] == ActionName(server, given[k])
    {
      if given[i] == "" { return []; }
      names := names + [ActionName(server, given[i])];
      assert given[..i + 1] == given[..i] + [given[i]];
    }
    assert given[..|given|] == given;
  }

  /** The message Build lists for one tool. */
  method ActionFor(cfg: ServerConfig, client: Option<ClientId>, tool: Tool, injectContextArgs: seq<string>)
    returns (action: Action)
    requires injectContextArgs == Sorted(cfg.contextHeaders.Keys)
    ensures action == MakeAction(cfg, client, tool)
  {
    var text := tool.description;
    if client.None? { text := OFFLINE + text; }
    var parameters := SchemaToParams(tool.inputSchema);
    var companions := CompanionsFromMeta(cfg.server, tool.meta);
    action := Action(ActionName(cfg.server, tool.name), Description(text, tool.outputSchema), parameters,
                     ReadOnly(tool.annotations), AlwaysInclude(tool.meta), ConfirmationHint(tool.meta),
                     companions, injectContextArgs);
  }

  lemma AppendListing(ls: seq<Listing>, l: Listing)
    ensures IndexOf(ls + [l]) == IndexOf(ls)[l.action.name := l.entry]
    ensures Caps(ls + [l]) == Caps(ls) + [l.action]
  {
    var next := ls + [l];
    assert next[..|next| - 1] == ls;
  }

  lemma AppendServer(cfgs: seq<ServerConfig>, outs: seq<Outcome>, cfg: ServerConfig, o: Outcome)
    requires |cfgs| == |outs|
    ensures var all := Listings(cfgs, outs) + ServerListings(cfg, o);
      Built(cfgs + [cfg], outs + [o]) ==
        Reg(IndexOf(all), Caps(all),
            Having(cfgs, outs, IsFailed) + (if o.Failed? then [cfg] else []),
            Having(cfgs, outs, IsOffline) + (if o.Offline? then [cfg] else []))
  {
    assert (cfgs + [cfg])[..|cfgs|] == cfgs && (outs + [o])[..|cfgs|] == outs;
  }

  lemma BuildNothing()
    ensures Built([], []) == Reg(map[], [], [], [])
  {
  }

  // ----- the registry -----

  class Registry {
    var actions: map<string, Entry>
    var caps: seq<Action>
    var failedServers: seq<ServerConfig>
    var offlineServers: seq<ServerConfig>
    var sections: seq<string>
    var glossary: seq<GlossaryEntry>
    var knowledge: seq<Article>
    var systemPromptAddition: string

    constructor ()
      ensures State() == Reg(map[], [], [], []) && Said() == Extras([], [], []) && systemPromptAddition == ""
    {
      actions, caps, failedServers, offlineServers := map[], [], [], [];
      sections, glossary, knowledge, systemPromptAddition := [], [], [], "";
    }

    ghost function Said(): Extras
      reads this
    {
      Extras(sections, glossary, knowledge)
    }

    /** What a reachable server says about itself. */
    method AddInfo(server: string, info: ServerInfo)
      modifies this`sections, this`glossary, this`knowledge
      ensures Said() == Joined(old(Said()), ServerExtras(server, info))
    {
      if info.instructions != "" { sections := sections + [Section(server, info.instructions)]; }
      AddTerms(info.glossary);
      AddArticles(server, info.knowledge);
    }

    /** The instruction sections become one prompt. */
    method Finish()
      requires systemPromptAddition == ""
      modifies this`systemPromptAddition
      ensures systemPromptAddition == Join(sections, "\n\n")
    {
      if |sections| > 0 { systemPromptAddition := Join(sections, "\n\n"); }
    }

    method AddTerms(entries: seq<GlossaryEntry>)
      modifies this`glossary
      ensures glossary == old(glossary) + Terms(entries)
    {
      for i := 0 to |entries|
        invariant glossary == old(glossary) + Terms(entries[..i])
      {
        assert entries[..i + 1][..i] == entries[..i];
        if entries[i].term == "" || entries[i].definition == "" { continue; }
        glossary := glossary + [entries[i]];
      }
      assert entries[..|entries|] == entries;
    }

    method AddArticles(server: string, articles: seq<Article>)
      modifies this`knowledge
      ensures knowledge == old(knowledge) + Articles(server, articles)
    {
      for i := 0 to |articles|
        invariant knowledge == old(knowledge) + Articles(server, articles[..i])
      {
        assert articles[..i + 1][..i] == articles[..i];
        var a := articles[i];
        if a.id == "" || a.title == "" || a.content == "" { continue; }
        knowledge := knowledge + [a.(id := ActionName(server, a.id))];
      }
      assert articles[..|articles|] == articles;
    }

    ghost function State(): Reg
      reads this
    {
      Reg(actions, caps, failedServers, offlineServers)
    }

    /** One round of Build's inner loop. */
    method AddTool(cfg: ServerConfig, client: Option<ClientId>, tool: Tool, injectContextArgs: seq<string>,
        ghost before: seq<Listing>)
      requires injectContextArgs == Sorted(cfg.contextHeaders.Keys)
      requires actions == IndexOf(before) && caps == Caps(before)
      modifies this`actions, this`caps
      ensures actions == IndexOf(before + [MakeListing(cfg, client, tool)])
      ensures caps == Caps(before + [MakeListing(cfg, client, tool)])
    {
      var action := ActionFor(cfg, client, tool, injectContextArgs);
      actions := actions[ActionName(cfg.server, tool.name) := Entry(client, tool.name, tool.inputSchema, cfg)];
      caps := caps + [action];
      AppendListing(before, MakeListing(cfg, client, tool));
    }

    /** Build's inner loop: index and list one server's tools. */
    method AddServer(cfg: ServerConfig, client: Option<ClientId>, tools: seq<Tool>, ghost before: seq<Listing>,
        ghost here: seq<Listing>)
      requires |here| == |tools| && forall j :: 0 <= j < |tools| ==> here[j] == MakeListing(cfg, client, tools[j])
      requires actions == IndexOf(before) && caps == Caps(before)
      modifies this`actions, this`caps
      ensures actions == IndexOf(before + here) && caps == Caps(before + here)
    {
      hide RegistrySpec.MakeListing;
      var injectContextArgs := InjectContextArgs(cfg.contextHeaders);
      ghost var listed := before;
      for j := 0 to |tools|
        invariant listed == before + here[..j]
        invariant actions == IndexOf(listed) && caps == Caps(listed)
      {
        AddTool(cfg, client, tools[j], injectContextArgs, listed);
        listed := listed + [here[j]];
      }
      assert listed == before + here;
    }

    /** One round of Build's outer loop: a reachable server is cached and listed, an unreachable one
        is listed from its cache, or skipped and recorded as failed. */
    method AddConfigured(cfg: ServerConfig, answer: Answer, dir: Option<string>, disk: Disk,
                         ghost cfgs: seq<ServerConfig>, ghost outs: seq<Outcome>)
      returns (disk': Disk)
      requires |cfgs| == |outs| && State() == Built(cfgs, outs)
      modifies this
      ensures State() == Built(cfgs + [cfg], outs + [OutcomeOf(answer, dir, disk, cfg.server)])
      ensures Said() == Joined(old(Said()), ExtrasOf(answer, cfg.server))
        && systemPromptAddition == old(systemPromptAddition)
      ensures disk' == DiskAfter(answer, dir, disk, cfg.server)
    {
      hide RegistrySpec.MakeListing, RegistrySpec.Listings, RegistrySpec.IndexOf, RegistrySpec.Caps;
      hide RegistrySpec.Having, LoadCache, SaveCache;
      ghost var o := OutcomeOf(answer, dir, disk, cfg.server);
      ghost var before := Listings(cfgs, outs);
      ghost var here := ServerListings(cfg, o);
      AppendServer(cfgs, outs, cfg, o);
      disk' := disk;
      var tools: seq<Tool> := [];
      match answer.fetch
      case Unreachable =>
        if dir.Some? { tools := LoadCache(disk, dir.value, cfg.server); }
        if |tools| == 0 {
          failedServers := failedServers + [cfg];
          assert before + here == before;
        } else {
          offlineServers := offlineServers + [cfg];
          AddServer(cfg, None, tools, before, here);
        }
      case Fetched(fetched, client, info) =>
        tools := fetched;
        if dir.Some? {
          match answer.save
          case Saved => disk' := SaveCache(disk, dir.value, cfg.server, tools);
          case Damaged => disk' := disk - {CacheFile(dir.value, cfg.server)};
          case Untouched =>
        }
        AddInfo(cfg.server, info);
        AddServer(cfg, Some(client), tools, before, here);
    }

    /** The locked section of reconnect. */
    method SetClient(server: string, client: ClientId)
      modifies this`actions
      ensures actions == WithClient(old(actions), server, client)
      ensures actions.Keys == old(actions).Keys && forall k :: k in actions ==> actions[k] == old(actions)[k].(client :=
        if old(actions)[k].cfg.server == server then Some(client) else old(actions)[k].client)
    {
      ghost var before := actions;
      var todo := actions.Keys;
      while todo != {}
        invariant todo <= before.Keys && actions.Keys == before.Keys
        invariant forall k :: k in before ==>
          actions[k] == if k in todo then before[k] else WithClient(before, server, client)[k]
      {
        var k :| k in todo;
        var e := actions[k];
        if e.cfg.server == server { actions := actions[k := e.(client := Some(client))]; }
        todo := todo - {k};
      }
    }

    /** The locked section that strips a reconnected server's prefixes. */
    method StripOffline(server: string)
      modifies this`caps
      ensures caps == Strip(old(caps), server)
    {
      ghost var before := caps;
      for i := 0 to |caps|
        invariant |caps| == |before|
        invariant forall k :: 0 <= k < |caps| ==> caps[k] == if k < i then StripAction(before[k], server) else before[k]
      {
        var a := caps[i];
        if server + SEPARATOR <= a.name {
          caps := caps[i := a.(description := a.description.(text := TrimPrefix(a.description.text, OFFLINE)))];
        }
      }
    }

    /** Close: each distinct client once. */
    method Close() returns (closed: seq<ClientId>)
      ensures forall c :: c in closed <==> c in ClientsOf(actions)
      ensures forall i, j :: 0 <= i < j < |closed| ==> closed[i] != closed[j]
    {
      closed := [];
      var todo := actions.Keys;
      while todo != {}
        invariant todo <= actions.Keys
        invariant forall c :: c in closed <==> exists k :: k in actions.Keys - todo && actions[k].client == Some(c)
        invariant forall i, j :: 0 <= i < j < |closed| ==> closed[i] != closed[j]
      {
        var k :| k in todo;
        var client := actions[k].client;
        if client.Some? && client.value !in closed { closed := closed + [client.value]; }
        todo := todo - {k};
      }
    }
  }

  /** Build: the registry is the one its outcomes determine, so equal answers give equal registries. */
  method Build(cfgs: seq<ServerConfig>, answers: seq<Answer>, dir: Option<string>, disk: Disk)
    returns (r: Registry, disk': Disk)
    requires |cfgs| == |answers|
    ensures fresh(r)
    ensures r.State() == Built(cfgs, Outcomes(cfgs, answers, dir, disk).0)
    ensures r.Said() == AllExtras(cfgs, answers)
      && r.systemPromptAddition == Join(AllExtras(cfgs, answers).sections, "\n\n")
    ensures disk' == Outcomes(cfgs, answers, dir, disk).1
  {
    BuildNothing();
    hide RegistrySpec.Built, OutcomeOf, DiskAfter, Text.Join, Joined, ExtrasOf;
    r := new Registry();
    assert AllExtras(cfgs[..0], answers[..0]) == Extras([], [], []);
    hide AllExtras;
    disk' := disk;
    ghost var done: seq<ServerConfig>, outs: seq<Outcome> := [], [];
    for i := 0 to |cfgs|
      invariant done == cfgs[..i] && |outs| == i && r.State() == Built(done, outs)
      invariant (outs, disk') == OutcomesUpTo(cfgs, answers, dir, disk, i)
      invariant r.Said() == AllExtras(cfgs[..i], answers[..i]) && r.systemPromptAddition == ""
    {
      AppendExtras(cfgs, answers, i);
      ghost var o := OutcomeOf(answers[i], dir, disk', cfgs[i].server);
      disk' := r.AddConfigured(cfgs[i], answers[i], dir, disk', done, outs);
      done, outs := done + [cfgs[i]], outs + [o];
    }
    assert done == cfgs && answers[..|answers|] == answers;
    r.Finish();
  }

  // ----- the cache stands in for the server -----

  /** loadCache does not look at whose tools the file holds. */
  lemma LoadSavedUnder(disk: Disk, dir: string, server: string, writer: string, tools: seq<Tool>)
    requires CacheFile(dir, server) in disk && disk[CacheFile(dir, server)] == CachedServer(writer, tools)
    requires forall t :: t in tools ==> CoherentTool(t)
    ensures LoadCache(disk, dir, server) == tools
  {
    ToolsRoundTrip(tools);
    var f := CachedServer(writer, tools).fields;
    assert Field(f, "server") == Str(writer) && Field(f, "tools") == Arr(EncodeTools(tools));
  }

  predicate Writes(cfgs: seq<ServerConfig>, answers: seq<Answer>, server: string, i: nat)
    requires i < |cfgs| == |answers|
  {
    answers[i].fetch.Fetched? && !answers[i].save.Untouched? && Sanitized(cfgs[i].server) == Sanitized(server)
  }

  /** The last of the first n servers of a Build that writes the file of `server`. */
  function LastWriter(cfgs: seq<ServerConfig>, answers: seq<Answer>, server: string, n: nat): (w: Option<nat>)
    requires n <= |cfgs| == |answers|
    ensures w.Some? ==> w.value < n && Writes(cfgs, answers, server, w.value)
    ensures forall i: nat :: i < n && Writes(cfgs, answers, server, i) ==> w.Some? && i <= w.value
  {
    if n == 0 then None
    else if Writes(cfgs, answers, server, n - 1) then Some(n - 1)
    else LastWriter(cfgs, answers, server, n - 1)
  }

  /** After the first n servers of a Build a file holds what the last of them to write it was sent, or
      nothing if that save failed half-way, and is as before if none did. */
  lemma {:induction false} FileOf(cfgs: seq<ServerConfig>, answers: seq<Answer>, dir: string, disk: Disk,
      server: string, n: nat)
    requires n <= |cfgs| == |answers|
    ensures var f, d := CacheFile(dir, server), OutcomesUpTo(cfgs, answers, Some(dir), disk, n).1;
      Present(d, f) ==
        match LastWriter(cfgs, answers, server, n)
        case Some(i) =>
          if answers[i].save.Saved? then Some(CachedServer(cfgs[i].server, answers[i].fetch.tools)) else None
        case None => Present(disk, f)
  {
    if n > 0 {
      FileOf(cfgs, answers, dir, disk, server, n - 1);
      var (outs, d) := OutcomesUpTo(cfgs, answers, Some(dir), disk, n - 1);
      FileAfter(answers[n - 1], dir, d, cfgs[n - 1].server, server);
      hide DiskAfter, OutcomeOf, CacheFile, CachedServer, Sanitized;
    }
  }

  lemma FileAfter(a: Answer, dir: string, disk: Disk, writer: string, server: string)
    ensures Present(DiskAfter(a, Some(dir), disk, writer), CacheFile(dir, server)) ==
      if !a.fetch.Fetched? || a.save.Untouched? || Sanitized(writer) != Sanitized(server) then
        Present(disk, CacheFile(dir, server))
      else if a.save.Saved? then Some(CachedServer(writer, a.fetch.tools))
      else None
  {
    CacheFileInjective(dir, writer, server);
    hide CacheFile, CachedServer;
  }

  lemma {:induction false} OutcomeAt(cfgs: seq<ServerConfig>, answers: seq<Answer>, dir: Option<string>, disk: Disk,
      k: nat, n: nat)
    requires k < n <= |cfgs| == |answers|
    ensures OutcomesUpTo(cfgs, answers, dir, disk, n).0[k] ==
      OutcomeOf(answers[k], dir, OutcomesUpTo(cfgs, answers, dir, disk, k).1, cfgs[k].server)
  {
    if k < n - 1 { OutcomeAt(cfgs, answers, dir, disk, k, n - 1); }
  }

  /** A Build that reaches server k and saves it, anything that leaves its file alone, then a Build that
      cannot reach the server, as k', and has not written the file before its turn. */
  ghost predicate SavedThenLost(cfgs: seq<ServerConfig>, answers: seq<Answer>, k: nat,
                                cfgs': seq<ServerConfig>, answers': seq<Answer>, k': nat,
                                dir: string, disk: Disk, disk': Disk)
  {
    && |cfgs| == |answers| && k < |cfgs| && |cfgs'| == |answers'| && k' < |cfgs'|
    && cfgs'[k'].server == cfgs[k].server
    && answers[k].fetch.Fetched? && answers[k].save.Saved? && answers'[k'].fetch.Unreachable?
    && (forall i :: 0 <= i < |answers| && answers[i].fetch.Fetched? ==> FromUpstream(answers[i].fetch.tools))
    && LastWriter(cfgs', answers', cfgs[k].server, k') == None
    && var f := CacheFile(dir, cfgs[k].server);
       Present(disk', f) == Present(Outcomes(cfgs, answers, Some(dir), disk).1, f)
  }

  /** A tool list that was decoded from what a server sent. */
  ghost predicate FromUpstream(tools: seq<Tool>) {
    exists upstream :: DecodeToolList(upstream) == Some(tools)
  }

  lemma FromUpstreamCoherent(tools: seq<Tool>)
    requires FromUpstream(tools)
    ensures forall t :: t in tools ==> CoherentTool(t)
  {
    var upstream :| DecodeToolList(upstream) == Some(tools);
    if upstream.Arr? { DecodedToolsCoherent(upstream.items); }
  }

  /** The tools that a writer leaves in the file. */
  function LeftBehind(a: Answer): seq<Tool> {
    if a.fetch.Fetched? && a.save.Saved? then a.fetch.tools else []
  }

  /** Then the server's outcome is the tool list that the last server of the first Build to write the file
      left there, or failure for an empty one. */
  lemma LastWriterIsLoaded(cfgs: seq<ServerConfig>, answers: seq<Answer>, k: nat,
                           cfgs': seq<ServerConfig>, answers': seq<Answer>, k': nat,
                           dir: string, disk: Disk, disk': Disk)
    requires SavedThenLost(cfgs, answers, k, cfgs', answers', k', dir, disk, disk')
    ensures var w := LastWriter(cfgs, answers, cfgs[k].server, |cfgs|);
      && Outcomes(cfgs, answers, Some(dir), disk).0[k] == Live(answers[k].fetch.tools, answers[k].fetch.client)
      && w.Some? && k <= w.value
      && var tools := LeftBehind(answers[w.value]);
         Outcomes(cfgs', answers', Some(dir), disk').0[k'] == if tools == [] then Failed else Offline(tools)
  {
    var server := cfgs[k].server;
    FileOf(cfgs, answers, dir, disk, server, |cfgs|);
    FileOf(cfgs', answers', dir, disk', server, k');
    OutcomeAt(cfgs, answers, Some(dir), disk, k, |cfgs|);
    OutcomeAt(cfgs', answers', Some(dir), disk', k', |cfgs'|);
    assert Writes(cfgs, answers, server, k);
    var w := LastWriter(cfgs, answers, server, |cfgs|).value;
    FromUpstreamCoherent(answers[w].fetch.tools);
    var d := OutcomesUpTo(cfgs', answers', Some(dir), disk', k').1;
    if answers[w].save.Saved? { LoadSavedUnder(d, dir, server, cfgs[w].server, answers[w].fetch.tools); }
  }

  /** The cache stands in for the server exactly when the last server that wrote the file, itself or one
      whose name differs in slashes only, left the same list there. */
  lemma CacheSubstitutes(cfgs: seq<ServerConfig>, answers: seq<Answer>, k: nat,
                         cfgs': seq<ServerConfig>, answers': seq<Answer>, k': nat,
                         dir: string, disk: Disk, disk': Disk)
    requires SavedThenLost(cfgs, answers, k, cfgs', answers', k', dir, disk, disk')
    ensures var tools, w := answers[k].fetch.tools, LastWriter(cfgs, answers, cfgs[k].server, |cfgs|);
      && w.Some?
      && var expected := if tools == [] then Failed else Offline(tools);
         Outcomes(cfgs', answers', Some(dir), disk').0[k'] == expected <==> LeftBehind(answers[w.value]) == tools
  {
    LastWriterIsLoaded(cfgs, answers, k, cfgs', answers', k', dir, disk, disk');
    hide SavedThenLost, Outcomes;
  }

  /** Without a file of its name a server that cannot be reached has failed. */
  lemma LostWithoutFile(cfgs: seq<ServerConfig>, answers: seq<Answer>, k: nat, dir: string, disk: Disk)
    requires |cfgs| == |answers| && k < |cfgs| && answers[k].fetch.Unreachable?
    requires LastWriter(cfgs, answers, cfgs[k].server, k) == None && CacheFile(dir, cfgs[k].server) !in disk
    ensures Outcomes(cfgs, answers, Some(dir), disk).0[k] == Failed
  {
    FileOf(cfgs, answers, dir, disk, cfgs[k].server, k);
    OutcomeAt(cfgs, answers, Some(dir), disk, k, |cfgs|);
    hide CacheFile, Sanitized;
  }

  ghost predicate OnlyUserOfFile(cfgs: seq<ServerConfig>, k: nat)
    requires k < |cfgs|
  {
    forall i :: 0 <= i < |cfgs| && i != k ==> Sanitized(cfgs[i].server) != Sanitized(cfgs[k].server)
  }

  /** It does whenever no other server of the first Build shares the file. */
  lemma UnsharedFileSubstitutes(cfgs: seq<ServerConfig>, answers: seq<Answer>, k: nat)
    requires |cfgs| == |answers| && k < |cfgs| && OnlyUserOfFile(cfgs, k) && Writes(cfgs, answers, cfgs[k].server, k)
    ensures LastWriter(cfgs, answers, cfgs[k].server, |cfgs|) == Some(k)
  {
  }

  /** And with the same configuration for the server, each of its tools is listed by the second registry
      as it was by the first, but for the prefix and the missing client. */
  lemma CachedListingIsLiveListing(cfgs: seq<ServerConfig>, answers: seq<Answer>, k: nat,
                                   cfgs': seq<ServerConfig>, answers': seq<Answer>, k': nat,
                                   dir: string, disk: Disk, disk': Disk, j: nat) returns (i: nat, i': nat)
    requires SavedThenLost(cfgs, answers, k, cfgs', answers', k', dir, disk, disk')
    requires LastWriter(cfgs, answers, cfgs[k].server, |cfgs|) == Some(k)
    requires cfgs'[k'] == cfgs[k] && j < |answers[k].fetch.tools|
    ensures var outs := Outcomes(cfgs, answers, Some(dir), disk).0;
      var outs' := Outcomes(cfgs', answers', Some(dir), disk').0;
      && i < |Listings(cfgs, outs)| && i' < |Listings(cfgs', outs')|
      && var live, off := Listings(cfgs, outs)[i], Listings(cfgs', outs')[i'];
         && live == MakeListing(cfgs[k], Some(answers[k].fetch.client), answers[k].fetch.tools[j])
         && off.entry == live.entry.(client := None)
         && off.action
           == live.action.(description := live.action.description.(text := OFFLINE + live.action.description.text))
  {
    LastWriterIsLoaded(cfgs, answers, k, cfgs', answers', k', dir, disk, disk');
    var outs, outs' := Outcomes(cfgs, answers, Some(dir), disk).0, Outcomes(cfgs', answers', Some(dir), disk').0;
    var tools := answers[k].fetch.tools;
    hide Outcomes, Listings, SavedThenLost;
    i := ToolListed(cfgs, outs, k, j);
    i' := ToolListed(cfgs', outs', k', j);
    OfflineListingIsLiveListing(cfgs[k], tools, answers[k].fetch.client, j);
  }

  /** What offline and live listings of one tool have in common. */
  lemma OfflineListingIsLiveListing(cfg: ServerConfig, tools: seq<Tool>, client: ClientId, j: nat)
    requires j < |tools|
    ensures var live, off := ServerListings(cfg, Live(tools, client))[j], ServerListings(cfg, Offline(tools))[j];
      && off.entry == live.entry.(client := None)
      && off.action
        == live.action.(description := live.action.description.(text := OFFLINE + live.action.description.text))
  {
  }

  /** Different names may share a file. */
  lemma NamesShareFile(dir: string)
    ensures CacheFile(dir, "x/y") == CacheFile(dir, "x_y")
  {
    assert Sanitized("x/y") == "x_y" == Sanitized("x_y") by {
      assert Sanitized("y") == "y" && Sanitized("_y") == "_y" && Sanitized("/y") == "_y";
    }
  }
}
