/** Execute's credential and context headers, headerTransport, and both passes end to end.
    Every loop over a map takes its keys in an arbitrary order. */
module Headers {
  import opened Options
  import opened Json
  import opened Schema
  import opened Text
  import opened RegistrySpec
  import opened ToolArguments

  // ----- canonical names -----

  predicate TokenChar(c: char) {
    'a' <= c <= 'z' || 'A' <= c <= 'Z' || '0' <= c <= '9' || c in "!#$%&'*+-.^_`|~"
  }

  /** Upper case at the start and after each '-', lower case elsewhere. */
  function Cased(s: string): (r: string)
    ensures |r| == |s|
    ensures forall i :: 0 <= i < |s| ==> r[i] == if i == 0 || s[i - 1] == '-' then UpperChar(s[i]) else LowerChar(s[i])
  {
    seq(|s|, i requires 0 <= i < |s| => if i == 0 || s[i - 1] == '-' then UpperChar(s[i]) else LowerChar(s[i]))
  }

  predicate Token(s: string) {
    forall i :: 0 <= i < |s| ==> TokenChar(s[i])
  }

  /** net/http's CanonicalHeaderKey. A name with a character no header name may have stays as it is. */
  function Canonical(s: string): string {
    if Token(s) then Cased(s) else s
  }

  lemma CaseFacts(c: char)
    ensures UpperChar(UpperChar(c)) == UpperChar(c) && LowerChar(LowerChar(c)) == LowerChar(c)
    ensures (UpperChar(c) == '-' <==> c == '-') && (LowerChar(c) == '-' <==> c == '-')
    ensures TokenChar(c) ==> TokenChar(UpperChar(c)) && TokenChar(LowerChar(c))
  {
  }

  lemma CanonicalTwice(s: string)
    ensures Canonical(Canonical(s)) == Canonical(s)
  {
    hide TokenChar, UpperChar, LowerChar;
    var r := Cased(s);
    forall i | 0 <= i < |s| ensures TokenChar(s[i]) ==> TokenChar(r[i]) { CaseFacts(s[i]); }
    forall i | 0 <= i < |s| ensures Cased(r)[i] == r[i] {
      CaseFacts(s[i]);
      if i > 0 { CaseFacts(s[i - 1]); }
    }
    assert Cased(r) == r;
  }

  lemma OneCase(c: char, d: char)
    ensures UpperChar(c) == UpperChar(d) <==> LowerChar(c) == LowerChar(d)
    ensures !('a' <= UpperChar(c) <= 'z') && !('A' <= LowerChar(c) <= 'Z')
  {
  }

  /** Proper names are one header exactly when they differ in case only; the canonical form starts each part
      in upper case and goes on in lower case; other names are left as they are. */
  lemma OneHeaderExactly(a: string, b: string)
    ensures Token(a) && Token(b) ==> (Canonical(a) == Canonical(b) <==> ToLower(a) == ToLower(b))
    ensures Token(a) ==> |Canonical(a)| == |a| && forall i :: 0 <= i < |a| ==>
      if i == 0 || a[i - 1] == '-' then !('a' <= Canonical(a)[i] <= 'z') else !('A' <= Canonical(a)[i] <= 'Z')
    ensures !Token(a) ==> Canonical(a) == a
  {
    hide TokenChar, UpperChar, LowerChar;
    forall i | 0 <= i < |a| ensures !('a' <= UpperChar(a[i]) <= 'z') && !('A' <= LowerChar(a[i]) <= 'Z') {
      OneCase(a[i], a[i]);
    }
    if Token(a) && Token(b) && |a| == |b| {
      if Cased(a) == Cased(b) { SameCased(a, b); }
      if ToLower(a) == ToLower(b) { SameLower(a, b); }
    }
    hide ToLower;
    assert Token(a) && Token(b) && |a| != |b| ==> |Cased(a)| != |Cased(b)| && |ToLower(a)| != |ToLower(b)|;
  }

  lemma {:induction false} SameCased(a: string, b: string)
    requires |a| == |b| && Cased(a) == Cased(b)
    ensures ToLower(a) == ToLower(b)
  {
    hide UpperChar, LowerChar;
    forall i | 0 <= i < |a| ensures LowerChar(a[i]) == LowerChar(b[i]) { SameUpTo(a, b, i); }
  }

  /** Where the canonical forms agree, the letters do, and a '-' is one in both. */
  lemma {:induction false} SameUpTo(a: string, b: string, i: nat)
    requires |a| == |b| && Cased(a) == Cased(b) && i < |a|
    ensures LowerChar(a[i]) == LowerChar(b[i]) && (a[i] == '-' <==> b[i] == '-')
  {
    hide UpperChar, LowerChar;
    if i > 0 { SameUpTo(a, b, i - 1); }
    assert Cased(a)[i] == Cased(b)[i];
    OneCase(a[i], b[i]);
    CaseFacts(a[i]);
    CaseFacts(b[i]);
  }

  lemma SameLower(a: string, b: string)
    requires |a| == |b| && ToLower(a) == ToLower(b)
    ensures Cased(a) == Cased(b)
  {
    hide UpperChar, LowerChar;
    forall i | 0 <= i < |a| ensures UpperChar(a[i]) == UpperChar(b[i]) && LowerChar(a[i]) == LowerChar(b[i])
      && (a[i] == '-' <==> b[i] == '-')
    {
      assert ToLower(a)[i] == ToLower(b)[i];
      OneCase(a[i], b[i]);
      CaseFacts(a[i]);
      CaseFacts(b[i]);
    }
  }

  // ----- Header.Set, repeatedly -----

  datatype Pair = Pair(name: string, value: string)

  type Header = map<string, string>

  function Set(h: Header, p: Pair): Header {
    h[Canonical(p.name) := p.value]
  }

  function SetAll(h: Header, ps: seq<Pair>): Header {
    if ps == [] then h else Set(SetAll(h, ps[..|ps| - 1]), ps[|ps| - 1])
  }

  ghost predicate Names(ps: seq<Pair>, c: string) {
    exists i :: 0 <= i < |ps| && Canonical(ps[i].name) == c
  }

  /** All pairs for one header agree. */
  ghost predicate Consistent(ps: seq<Pair>) {
    forall i, j :: 0 <= i < |ps| && 0 <= j < |ps| && Canonical(ps[i].name) == Canonical(ps[j].name) ==>
      ps[i].value == ps[j].value
  }

  lemma {:induction false} SetAllValue(h: Header, ps: seq<Pair>, c: string)
    ensures c in SetAll(h, ps) <==> c in h || Names(ps, c)
    ensures !Names(ps, c) && c in h ==> SetAll(h, ps)[c] == h[c]
    ensures Names(ps, c) ==> exists i :: 0 <= i < |ps| && Canonical(ps[i].name) == c && SetAll(h, ps)[c] == ps[i].value
  {
    hide Canonical;
    if ps != [] {
      var n := |ps| - 1;
      SetAllValue(h, ps[..n], c);
      assert forall i :: 0 <= i < n ==> ps[..n][i] == ps[i];
      if Canonical(ps[n].name) == c {
        assert SetAll(h, ps)[c] == ps[n].value;
      } else {
        assert Names(ps, c) <==> Names(ps[..n], c);
        if Names(ps[..n], c) {
          var i :| 0 <= i < n && Canonical(ps[..n][i].name) == c && SetAll(h, ps[..n])[c] == ps[..n][i].value;
          assert SetAll(h, ps)[c] == ps[i].value;
        }
      }
    }
  }

  lemma SetAllConsistent(h: Header, ps: seq<Pair>, i: nat)
    requires Consistent(ps) && i < |ps|
    ensures Canonical(ps[i].name) in SetAll(h, ps) && SetAll(h, ps)[Canonical(ps[i].name)] == ps[i].value
  {
    hide Canonical;
    SetAllValue(h, ps, Canonical(ps[i].name));
  }

  // ----- orders of iteration -----

  /** `order` lists each key of a map once. */
  ghost predicate Enumerates(order: seq<string>, keys: set<string>) {
    (forall i, j :: 0 <= i < j < |order| ==> order[i] != order[j]) && (forall k :: k in order <==> k in keys)
  }

  /** A context argument that is turned into a header. */
  predicate Forwardable(args: Args, ctx: map<string, string>, a: string) {
    a in args && args[a].Str? && args[a].s != "" && a in ctx && ctx[a] != ""
  }

  function ContextPair(args: Args, ctx: map<string, string>, a: string): Pair
    requires Forwardable(args, ctx, a)
  {
    Pair(ctx[a], args[a].s)
  }

  function ContextPairs(args: Args, ctx: map<string, string>, order: seq<string>): seq<Pair> {
    if order == [] then []
    else
      var n := |order| - 1;
      var a := order[n];
      if Forwardable(args, ctx, a) then ContextPairs(args, ctx, order[..n]) + [ContextPair(args, ctx, a)]
      else ContextPairs(args, ctx, order[..n])
  }

  function MapPairs(m: map<string, string>, order: seq<string>): (ps: seq<Pair>)
    requires forall i :: 0 <= i < |order| ==> order[i] in m
    ensures |ps| == |order| && forall i :: 0 <= i < |order| ==> ps[i] == Pair(order[i], m[order[i]])
  {
    seq(|order|, i requires 0 <= i < |order| => Pair(order[i], m[order[i]]))
  }

  lemma {:induction false} PairFromArg(args: Args, ctx: map<string, string>, order: seq<string>, i: nat)
      returns (a: string)
    requires i < |ContextPairs(args, ctx, order)|
    ensures a in order && Forwardable(args, ctx, a) && ContextPairs(args, ctx, order)[i] == ContextPair(args, ctx, a)
  {
    hide Forwardable;
    var n := |order| - 1;
    a := order[n];
    if i < |ContextPairs(args, ctx, order[..n])| { a := PairFromArg(args, ctx, order[..n], i); }
  }

  lemma {:induction false} ArgHasPair(args: Args, ctx: map<string, string>, order: seq<string>, a: string)
    requires a in order && Forwardable(args, ctx, a)
    ensures ContextPair(args, ctx, a) in ContextPairs(args, ctx, order)
  {
    hide Forwardable;
    var n := |order| - 1;
    if a != order[n] { ArgHasPair(args, ctx, order[..n], a); }
  }

  /** `after` is `before` with the headers of `m` set, in some order. */
  ghost predicate SetsMap(before: Header, m: map<string, string>, after: Header) {
    exists order :: Enumerates(order, m.Keys) && SetsInOrder(before, m, order, after)
  }

  ghost predicate SetsInOrder(before: Header, m: map<string, string>, order: seq<string>, after: Header) {
    (forall i :: 0 <= i < |order| ==> order[i] in m) && after == SetAll(before, MapPairs(m, order))
  }

  /** `after` is `before` with the forwardable context arguments set, in some order. */
  ghost predicate SetsContext(before: Header, args: Args, ctx: map<string, string>, after: Header) {
    exists order :: Enumerates(order, ctx.Keys) && after == SetAll(before, ContextPairs(args, ctx, order))
  }

  // ----- the passes -----

  datatype Credential = Credential(header: string, value: string)

  function CredentialPairs(creds: map<string, Credential>, server: string): seq<Pair> {
    if server in creds && creds[server].header != "" then [Pair(creds[server].header, creds[server].value)] else []
  }

  class Outgoing {
    var arguments: Arguments
    var extra: Header

    constructor ()
      ensures fresh(arguments) && extra == map[]
    {
      arguments := new Arguments();
      extra := map[];
    }

    method SetHeader(name: string, value: string)
      modifies this`extra
      ensures extra == Set(old(extra), Pair(name, value))
    {
      extra := extra[Canonical(name) := value];
    }

    method AddCredential(creds: map<string, Credential>, server: string)
      modifies this`extra
      ensures extra == SetAll(old(extra), CredentialPairs(creds, server))
    {
      if server in creds && creds[server].header != "" {
        SetHeader(creds[server].header, creds[server].value);
        SetAllOne(old(extra), Pair(creds[server].header, creds[server].value));
      }
    }

    /** Context arguments move to headers; forwardable or not, they leave the arguments. */
    method ForwardContext(ctx: map<string, string>)
      modifies this`extra, arguments
      ensures arguments == old(arguments)
      ensures arguments.args == old(arguments.args) - ctx.Keys
      ensures SetsContext(old(extra), old(arguments.args), ctx, extra)
    {
      ghost var order := [];
      ghost var start := arguments.args;
      var todo := ctx.Keys;
      while todo != {}
        invariant arguments == old(arguments)
        invariant todo <= ctx.Keys && Enumerates(order, ctx.Keys - todo)
        invariant arguments.args == start - (ctx.Keys - todo)
        invariant extra == SetAll(old(extra), ContextPairs(start, ctx, order))
      {
        var a :| a in todo;
        todo := todo - {a};
        ContextPairsStep(old(extra), start, ctx, order, a);
        order := order + [a];
        if a in arguments.args {
          var raw := arguments.args[a];
          if raw.Str? && ctx[a] != "" && raw.s != "" { SetHeader(ctx[a], raw.s); }
          arguments.args := arguments.args - {a};
        }
      }
      assert ctx.Keys - todo == ctx.Keys;
    }

    /** The passes of Execute over the arguments of one call, up to CallTool. */
    method Prepare(p: Parsers, raw: map<string, string>, schema: InputSchema, actions: map<string, Entry>,
                   creds: map<string, Credential>, cfg: ServerConfig)
      requires extra == map[]
      modifies this`extra, arguments
      ensures arguments == old(arguments)
      ensures arguments.args == BeforeContext(p, raw, schema, actions) - cfg.contextHeaders.Keys
      ensures Delivered(p, raw, schema, actions, cfg.contextHeaders.Keys, arguments.args)
      ensures IsExtra(BeforeContext(p, raw, schema, actions), creds, cfg, extra)
    {
      PassesDeliver(p, raw, schema, actions, cfg.contextHeaders.Keys);
      hide Delivered, Sanitized, Resolved, Converted;
      arguments.ConvertArgs(p, raw, schema);
      arguments.ResolveToolNameArgs(actions);
      arguments.SanitizeIncludeFields(schema);
      AddCredential(creds, cfg.server);
      ForwardContext(cfg.contextHeaders);
    }
  }

  ghost function BeforeContext(p: Parsers, raw: map<string, string>, schema: InputSchema,
      actions: map<string, Entry>): Args {
    Sanitized(Resolved(actions, Converted(p, raw, schema)), schema)
  }

  /** Possible extra headers of a call: the credential, then the context arguments. */
  ghost predicate IsExtra(args: Args, creds: map<string, Credential>, cfg: ServerConfig, extra: Header) {
    SetsContext(SetAll(map[], CredentialPairs(creds, cfg.server)), args, cfg.contextHeaders, extra)
  }

  lemma SetAllNone(h: Header)
    ensures SetAll(h, []) == h
  {
  }

  lemma SetAllOne(h: Header, p: Pair)
    ensures SetAll(h, [p]) == Set(h, p)
  {
    assert [p][..0] == [];
  }

  lemma SetAllAppend(h: Header, ps: seq<Pair>, p: Pair)
    ensures SetAll(h, ps + [p]) == Set(SetAll(h, ps), p)
  {
    assert (ps + [p])[..|ps|] == ps;
  }

  lemma ContextPairsStep(h: Header, args: Args, ctx: map<string, string>, order: seq<string>, a: string)
    ensures SetAll(h, ContextPairs(args, ctx, order + [a])) ==
      if Forwardable(args, ctx, a) then Set(SetAll(h, ContextPairs(args, ctx, order)), ContextPair(args, ctx, a))
      else SetAll(h, ContextPairs(args, ctx, order))
  {
    hide Forwardable, Set;
    assert (order + [a])[..|order|] == order;
    if Forwardable(args, ctx, a) { SetAllAppend(h, ContextPairs(args, ctx, order), ContextPair(args, ctx, a)); }
    else { assert ContextPairs(args, ctx, order + [a]) == ContextPairs(args, ctx, order); }
  }

  /** headerTransport.RoundTrip: the client's own headers, then the extra ones. */
  method RoundTrip(base: Header, headers: map<string, string>, extra: Header) returns (sent: Header)
    ensures exists mid :: SetsMap(base, headers, mid) && SetsMap(mid, extra, sent)
  {
    var mid := SetHeaders(base, headers);
    sent := SetHeaders(mid, extra);
  }

  lemma MapPairsStep(h: Header, m: map<string, string>, order: seq<string>, k: string)
    requires k in m && forall i :: 0 <= i < |order| ==> order[i] in m
    ensures SetAll(h, MapPairs(m, order + [k])) == Set(SetAll(h, MapPairs(m, order)), Pair(k, m[k]))
  {
    hide Set;
    SetAllAppend(h, MapPairs(m, order), Pair(k, m[k]));
    assert MapPairs(m, order + [k]) == MapPairs(m, order) + [Pair(k, m[k])];
  }

  method SetHeaders(base: Header, m: map<string, string>) returns (sent: Header)
    ensures SetsMap(base, m, sent)
  {
    hide Canonical, SetAll;
    ghost var order := [];
    sent := base;
    assert SetAll(base, MapPairs(m, [])) == base by { SetAllNone(base); }
    var todo := m.Keys;
    while todo != {}
      invariant todo <= m.Keys && Enumerates(order, m.Keys - todo)
      invariant SetsInOrder(base, m, order, sent)
    {
      var k :| k in todo;
      todo := todo - {k};
      MapPairsStep(base, m, order, k);
      order := order + [k];
      sent := sent[Canonical(k) := m[k]];
    }
    assert m.Keys - todo == m.Keys;
  }

  // ----- what arrives -----

  /** The argument keys sent: those of the request, without context arguments, and without
      include_fields if sanitising drops it. */
  lemma KeysSent(p: Parsers, raw: map<string, string>, schema: InputSchema, actions: map<string, Entry>,
      ctx: map<string, string>)
    ensures var before := Resolved(actions, Converted(p, raw, schema));
      (BeforeContext(p, raw, schema, actions) - ctx.Keys).Keys
        == raw.Keys - ctx.Keys
           - (if INCLUDE_FIELDS in before && INCLUDE_FIELDS !in Sanitized(before, schema) then {INCLUDE_FIELDS} else {})
  {
    var converted := Converted(p, raw, schema);
    assert converted.Keys == raw.Keys;
    ResolvedChangesOnlyToolNames(actions, converted);
    SanitizedLeavesTheRest(Resolved(actions, converted), schema);
    hide Sanitized, Resolved, Converted;
  }

  /** A tool name that is a key reaches the server as the name of that action's tool. */
  lemma KeyArrivesAsToolName(p: Parsers, raw: map<string, string>, schema: InputSchema, actions: map<string, Entry>,
      ctx: map<string, string>, k: string, key: string)
    requires k == "tool_name" || k == "default_tool_name"
    requires k !in ctx && Argument(p, raw, schema, k, Str(key)) && key in actions
    ensures var sent := BeforeContext(p, raw, schema, actions) - ctx.Keys;
      k in sent && sent[k] == Str(actions[key].toolName)
  {
    PassesDeliver(p, raw, schema, actions, ctx.Keys);
    var sent := BeforeContext(p, raw, schema, actions) - ctx.Keys;
    hide Sanitized, Resolved, Converted, Argument, TasksRename, FieldsArrive;
    assert k in raw by { ArgumentGiven(p, raw, schema, k, Str(key)); }
    assert ArgumentArrives(p, raw, schema, actions, k, Present(sent, k));
    var j :| Argument(p, raw, schema, k, j) && Arrives(schema, actions, k, j, Present(sent, k));
    ReadOnce(p, raw, schema, k, j, Str(key));
  }

  lemma ArgumentGiven(p: Parsers, raw: map<string, string>, schema: InputSchema, k: string, j: Json)
    requires Argument(p, raw, schema, k, j)
    ensures k in raw
  {
  }

  /** An argument that the schema does not declare, and that is none of the special ones, reaches the server
      as the string it is. */
  lemma UndeclaredArrives(p: Parsers, raw: map<string, string>, schema: InputSchema, actions: map<string, Entry>,
      ctx: map<string, string>, k: string)
    requires k in raw && k !in ctx && k !in schema.properties
    requires k != "tool_name" && k != "default_tool_name" && k != "tasks" && k != "include_fields"
    ensures var sent := BeforeContext(p, raw, schema, actions) - ctx.Keys; k in sent && sent[k] == Str(raw[k])
  {
    PassesDeliver(p, raw, schema, actions, ctx.Keys);
    var sent := BeforeContext(p, raw, schema, actions) - ctx.Keys;
    hide Sanitized, Resolved, Converted, TasksRename, FieldsArrive, Renames, ReadAs;
    assert ArgumentArrives(p, raw, schema, actions, k, Present(sent, k));
  }

  /** A context argument that is a non-empty string, mapped to a non-empty name that no other one is mapped
      to, is sent as that header. */
  lemma ContextArgumentIsHeader(args: Args, creds: map<string, Credential>, cfg: ServerConfig, extra: Header,
      a: string)
    requires IsExtra(args, creds, cfg, extra)
    requires a in cfg.contextHeaders && cfg.contextHeaders[a] != "" && a in args && args[a].Str? && args[a].s != ""
    requires forall b :: b in cfg.contextHeaders && b != a ==>
      Canonical(cfg.contextHeaders[b]) != Canonical(cfg.contextHeaders[a])
    ensures var c := Canonical(cfg.contextHeaders[a]); c in extra && extra[c] == args[a].s
  {
    var ctx := cfg.contextHeaders;
    var c := Canonical(ctx[a]);
    var h := SetAll(map[], CredentialPairs(creds, cfg.server));
    var order :| Enumerates(order, ctx.Keys) && extra == SetAll(h, ContextPairs(args, ctx, order));
    var ps := ContextPairs(args, ctx, order);
    hide Canonical, SetAll, ContextPairs;
    ArgHasPair(args, ctx, order, a);
    SetAllValue(h, ps, c);
    assert Names(ps, c);
    var i :| 0 <= i < |ps| && Canonical(ps[i].name) == c && extra[c] == ps[i].value;
    var b := PairFromArg(args, ctx, order, i);
  }

  /** Every extra header is such an argument or the credential. */
  lemma ExtraHeaderOrigin(args: Args, creds: map<string, Credential>, cfg: ServerConfig, extra: Header, c: string)
    requires IsExtra(args, creds, cfg, extra) && c in extra
    ensures
      || (exists a ::
            && a in cfg.contextHeaders && cfg.contextHeaders[a] != "" && Canonical(cfg.contextHeaders[a]) == c
            && a in args && args[a] == Str(extra[c]) && extra[c] != "")
      || (cfg.server in creds && creds[cfg.server].header != "" && Canonical(creds[cfg.server].header) == c
          && extra[c] == creds[cfg.server].value)
  {
    var ctx := cfg.contextHeaders;
    var creds_ := CredentialPairs(creds, cfg.server);
    var h := SetAll(map[], creds_);
    var order :| Enumerates(order, ctx.Keys) && extra == SetAll(h, ContextPairs(args, ctx, order));
    var ps := ContextPairs(args, ctx, order);
    hide Canonical, SetAll, ContextPairs;
    SetAllValue(map[], creds_, c);
    SetAllValue(h, ps, c);
    if Names(ps, c) {
      var i :| 0 <= i < |ps| && Canonical(ps[i].name) == c && extra[c] == ps[i].value;
      var a := PairFromArg(args, ctx, order, i);
      assert a in ctx && args[a] == Str(extra[c]);
    }
  }

  /** Forwardable context arguments for one header agree (they do if no two share a canonical name). */
  ghost predicate ContextAgrees(args: Args, ctx: map<string, string>) {
    forall a, b :: Forwardable(args, ctx, a) && Forwardable(args, ctx, b) && Canonical(ctx[a]) == Canonical(ctx[b]) ==>
      args[a].s == args[b].s
  }

  ghost predicate HeadersAgree(m: map<string, string>) {
    forall a, b :: a in m && b in m && Canonical(a) == Canonical(b) ==> m[a] == m[b]
  }

  /** Context argument `a` is to become header `c`. */
  ghost predicate ForHeader(args: Args, ctx: map<string, string>, a: string, c: string) {
    Forwardable(args, ctx, a) && Canonical(ContextPair(args, ctx, a).name) == c
  }

  ghost predicate FromContext(args: Args, ctx: map<string, string>, c: string) {
    exists a :: ForHeader(args, ctx, a, c)
  }

  ghost predicate FromMap(m: map<string, string>, c: string) {
    exists k :: k in m && Canonical(k) == c
  }

  lemma MapPairsName(m: map<string, string>, order: seq<string>, c: string)
    requires Enumerates(order, m.Keys)
    ensures Names(MapPairs(m, order), c) <==> FromMap(m, c)
    ensures HeadersAgree(m) ==> Consistent(MapPairs(m, order))
  {
    hide Canonical;
    var ps := MapPairs(m, order);
    forall i | 0 <= i < |order| ensures ps[i].name in m && ps[i].value == m[ps[i].name] { assert order[i] in order; }
    if FromMap(m, c) {
      var k :| k in m && Canonical(k) == c;
      assert k in order;
      var i :| 0 <= i < |order| && order[i] == k;
      assert Canonical(ps[i].name) == c;
    }
  }

  lemma ContextPairsName(args: Args, ctx: map<string, string>, order: seq<string>, c: string)
    requires Enumerates(order, ctx.Keys)
    ensures Names(ContextPairs(args, ctx, order), c) <==> FromContext(args, ctx, c)
    ensures ContextAgrees(args, ctx) ==> Consistent(ContextPairs(args, ctx, order))
  {
    var ps := ContextPairs(args, ctx, order);
    assert forall a :: Forwardable(args, ctx, a) ==> a in order;
    hide Canonical, ContextPairs, Forwardable;
    if Names(ps, c) {
      var i :| 0 <= i < |ps| && Canonical(ps[i].name) == c;
      var a := PairFromArg(args, ctx, order, i);
      assert ForHeader(args, ctx, a, c);
    }
    forall i, j | 0 <= i < |ps| && 0 <= j < |ps| && Canonical(ps[i].name) == Canonical(ps[j].name)
      && ContextAgrees(args, ctx)
      ensures ps[i].value == ps[j].value
    {
      var a := PairFromArg(args, ctx, order, i);
      var b := PairFromArg(args, ctx, order, j);
    }
    if FromContext(args, ctx, c) {
      var a :| ForHeader(args, ctx, a, c);
      var p := ContextPair(args, ctx, a);
      ArgHasPair(args, ctx, order, a);
      var i :| 0 <= i < |ps| && ps[i] == p;
      assert Canonical(ps[i].name) == c;
    }
  }

  /** After a consistent series of settings, a header has the value set for it, or what it had. */
  lemma SetAllDetermined(h: Header, m: map<string, string>, r: Header, c: string)
    requires SetsMap(h, m, r) && HeadersAgree(m)
    ensures c in r <==> c in h || FromMap(m, c)
    ensures !FromMap(m, c) && c in h ==> r[c] == h[c]
    ensures forall k :: k in m && Canonical(k) == c ==> c in r && r[c] == m[k]
  {
    var order :| Enumerates(order, m.Keys) && SetsInOrder(h, m, order, r);
    MapPairsName(m, order, c);
    SetAllValue(h, MapPairs(m, order), c);
    hide Canonical, SetAll;
    forall k | k in m && Canonical(k) == c ensures c in r && r[c] == m[k] {
      assert k in order;
      var i :| 0 <= i < |order| && order[i] == k;
      SetAllConsistent(h, MapPairs(m, order), i);
    }
  }

  lemma ContextDetermined(h: Header, args: Args, ctx: map<string, string>, r: Header, c: string)
    requires SetsContext(h, args, ctx, r) && ContextAgrees(args, ctx)
    ensures c in r <==> c in h || FromContext(args, ctx, c)
    ensures !FromContext(args, ctx, c) && c in h ==> r[c] == h[c]
    ensures forall a :: ForHeader(args, ctx, a, c) ==> c in r && r[c] == ContextPair(args, ctx, a).value
  {
    var order :| Enumerates(order, ctx.Keys) && r == SetAll(h, ContextPairs(args, ctx, order));
    ContextPairsName(args, ctx, order, c);
    var ps := ContextPairs(args, ctx, order);
    SetAllValue(h, ps, c);
    hide Canonical, SetAll, ContextPairs;
    forall a | ForHeader(args, ctx, a, c) ensures c in r && r[c] == ContextPair(args, ctx, a).value {
      ArgHasPair(args, ctx, order, a);
      var i :| 0 <= i < |ps| && ps[i] == ContextPair(args, ctx, a);
      SetAllConsistent(h, ps, i);
    }
  }

  /** Setting only makes canonical names, and canonical names never clash. */
  lemma {:induction false} ExtraNamesCanonical(h: Header, ps: seq<Pair>)
    requires forall k :: k in h ==> Canonical(k) == k
    ensures forall k :: k in SetAll(h, ps) ==> Canonical(k) == k
    ensures HeadersAgree(SetAll(h, ps))
  {
    if ps != [] {
      ExtraNamesCanonical(h, ps[..|ps| - 1]);
      CanonicalTwice(ps[|ps| - 1].name);
    }
    hide Canonical;
  }

  /** Who decides a header: a context argument, else the credential, else the client's own
      configuration, else the request as it was. */
  datatype Source = ByContext(arg: string) | ByCredential | ByClient(name: string) | ByRequest

  ghost predicate Decides(src: Source, args: Args, creds: map<string, Credential>, cfg: ServerConfig, c: string) {
    var byCred := cfg.server in creds && creds[cfg.server].header != "" && Canonical(creds[cfg.server].header) == c;
    match src
    case ByContext(a) => ForHeader(args, cfg.contextHeaders, a, c)
    case ByCredential => !FromContext(args, cfg.contextHeaders, c) && byCred
    case ByClient(k) => !FromContext(args, cfg.contextHeaders, c) && !byCred && k in cfg.headers && Canonical(k) == c
    case ByRequest => !FromContext(args, cfg.contextHeaders, c) && !byCred && !FromMap(cfg.headers, c)
  }

  ghost function Decided(src: Source, args: Args, creds: map<string, Credential>, cfg: ServerConfig, base: Header,
      c: string)
    : Option<string>
    requires Decides(src, args, creds, cfg, c)
  {
    match src
    case ByContext(a) => Some(ContextPair(args, cfg.contextHeaders, a).value)
    case ByCredential => Some(creds[cfg.server].value)
    case ByClient(k) => Some(cfg.headers[k])
    case ByRequest => if c in base then Some(base[c]) else None
  }

  /** Some source decides each header. */
  lemma SomeSourceDecides(args: Args, creds: map<string, Credential>, cfg: ServerConfig, c: string)
      returns (src: Source)
    ensures Decides(src, args, creds, cfg, c)
  {
    hide Canonical, Forwardable;
    if FromContext(args, cfg.contextHeaders, c) {
      var a :| ForHeader(args, cfg.contextHeaders, a, c);
      src := ByContext(a);
    } else if cfg.server in creds && creds[cfg.server].header != "" && Canonical(creds[cfg.server].header) == c {
      src := ByCredential;
    } else if FromMap(cfg.headers, c) {
      var k :| k in cfg.headers && Canonical(k) == c;
      src := ByClient(k);
    } else {
      src := ByRequest;
    }
  }

  lemma ExtraDecided(args: Args, creds: map<string, Credential>, cfg: ServerConfig, extra: Header, c: string)
    requires IsExtra(args, creds, cfg, extra) && ContextAgrees(args, cfg.contextHeaders)
    ensures (forall k :: k in extra ==> Canonical(k) == k) && HeadersAgree(extra)
    ensures forall src :: Decides(src, args, creds, cfg, c) ==>
      if src.ByContext? || src.ByCredential?
        then c in extra && Some(extra[c]) == Decided(src, args, creds, cfg, map[], c)
      else c !in extra
  {
    var byCred := SetAll(map[], CredentialPairs(creds, cfg.server));
    var order :| Enumerates(order, cfg.contextHeaders.Keys)
      && extra == SetAll(byCred, ContextPairs(args, cfg.contextHeaders, order));
    ExtraNamesCanonical(map[], CredentialPairs(creds, cfg.server));
    ExtraNamesCanonical(byCred, ContextPairs(args, cfg.contextHeaders, order));
    ContextDetermined(byCred, args, cfg.contextHeaders, extra, c);
    SetAllValue(map[], CredentialPairs(creds, cfg.server), c);
    hide Canonical, SetAll, ContextPairs, Forwardable;
  }

  /** Whatever the orders in which the three maps are gone through, each header of the request has
      the value of its source. */
  lemma HeaderPrecedence(args: Args, creds: map<string, Credential>, cfg: ServerConfig, base: Header,
                         extra: Header, mid: Header, sent: Header, c: string, src: Source)
    requires IsExtra(args, creds, cfg, extra) && SetsMap(base, cfg.headers, mid) && SetsMap(mid, extra, sent)
    requires ContextAgrees(args, cfg.contextHeaders) && HeadersAgree(cfg.headers)
    requires Decides(src, args, creds, cfg, c)
    ensures (if c in sent then Some(sent[c]) else None) == Decided(src, args, creds, cfg, base, c)
  {
    ExtraDecided(args, creds, cfg, extra, c);
    SetAllDetermined(base, cfg.headers, mid, c);
    SetAllDetermined(mid, extra, sent, c);
    hide Canonical, Forwardable, SetsMap, IsExtra;
    assert FromMap(extra, c) <==> c in extra;
  }

  /** Distinct canonical names suffice for agreement. */
  lemma DistinctNamesAgree(args: Args, ctx: map<string, string>)
    requires forall a, b :: a in ctx && b in ctx && a != b ==> Canonical(ctx[a]) != Canonical(ctx[b])
    ensures ContextAgrees(args, ctx)
  {
  }

  // ----- when the order shows -----

  lemma {:induction false} SomeOrder(keys: set<string>) returns (order: seq<string>)
    ensures Enumerates(order, keys)
  {
    if keys == {} {
      order := [];
    } else {
      var k :| k in keys;
      var rest := SomeOrder(keys - {k});
      order := rest + [k];
    }
  }

  /** An order with two given keys at its end. */
  lemma OrderEndingIn(keys: set<string>, a: string, b: string) returns (rest: seq<string>)
    requires a in keys && b in keys && a != b
    ensures Enumerates(rest + [a] + [b], keys) && Enumerates(rest + [b] + [a], keys)
  {
    rest := SomeOrder(keys - {a, b});
    EndsIn(rest, keys, a, b);
    EndsIn(rest, keys, b, a);
  }

  lemma EndsIn(rest: seq<string>, keys: set<string>, a: string, b: string)
    requires Enumerates(rest, keys - {a, b}) && a in keys && b in keys && a != b
    ensures Enumerates(rest + [a] + [b], keys)
  {
    var order := rest + [a] + [b];
    assert forall i :: 0 <= i < |rest| ==> order[i] == rest[i] && rest[i] in rest;
    assert order[|rest|] == a && order[|rest| + 1] == b;
    forall k ensures k in order <==> k in keys {
      if k in keys && k != a && k != b {
        assert k in rest;
        var i :| 0 <= i < |rest| && rest[i] == k;
        assert order[i] == k;
      }
    }
  }

  /** The order in which context arguments are forwarded never shows exactly when those for one header
      have one value. */
  lemma ContextOrderShows(h: Header, args: Args, ctx: map<string, string>)
    ensures ContextAgrees(args, ctx) <==>
      forall x, y :: SetsContext(h, args, ctx, x) && SetsContext(h, args, ctx, y) ==> x == y
  {
    hide Canonical, Forwardable;
    if ContextAgrees(args, ctx) {
      forall x, y | SetsContext(h, args, ctx, x) && SetsContext(h, args, ctx, y) ensures x == y {
        ContextResultUnique(h, args, ctx, x, y);
      }
    } else {
      var a, b :| Forwardable(args, ctx, a) && Forwardable(args, ctx, b)
        && Canonical(ContextPair(args, ctx, a).name) == Canonical(ContextPair(args, ctx, b).name)
        && ContextPair(args, ctx, a).value != ContextPair(args, ctx, b).value;
      ClashingArgumentsDependOnOrder(h, args, ctx, a, b);
    }
  }

  lemma ContextResultUnique(h: Header, args: Args, ctx: map<string, string>, x: Header, y: Header)
    requires ContextAgrees(args, ctx) && SetsContext(h, args, ctx, x) && SetsContext(h, args, ctx, y)
    ensures x == y
  {
    hide SetsContext, ContextAgrees, Canonical, Forwardable;
    forall c ensures (c in x <==> c in y) && (c in x ==> x[c] == y[c]) {
      ContextDetermined(h, args, ctx, x, c);
      ContextDetermined(h, args, ctx, y, c);
      if FromContext(args, ctx, c) { var a :| ForHeader(args, ctx, a, c); }
    }
  }

  lemma ClashingArgumentsDependOnOrder(h: Header, args: Args, ctx: map<string, string>, a: string, b: string)
    requires Forwardable(args, ctx, a) && Forwardable(args, ctx, b)
    requires Canonical(ContextPair(args, ctx, a).name) == Canonical(ContextPair(args, ctx, b).name)
    requires ContextPair(args, ctx, a).value != ContextPair(args, ctx, b).value
    ensures exists x, y :: SetsContext(h, args, ctx, x) && SetsContext(h, args, ctx, y) && x != y
  {
    assert a in ctx && b in ctx;
    hide Canonical, Forwardable;
    var rest := OrderEndingIn(ctx.Keys, a, b);
    LastArgumentWins(h, args, ctx, rest + [a], b);
    LastArgumentWins(h, args, ctx, rest + [b], a);
    var x, y := SetAll(h, ContextPairs(args, ctx, rest + [a] + [b])),
      SetAll(h, ContextPairs(args, ctx, rest + [b] + [a]));
    hide SetAll, ContextPairs;
    assert SetsContext(h, args, ctx, x) && SetsContext(h, args, ctx, y) && x != y;
  }

  lemma LastArgumentWins(h: Header, args: Args, ctx: map<string, string>, order: seq<string>, b: string)
    requires Forwardable(args, ctx, b)
    ensures var p, r := ContextPair(args, ctx, b), SetAll(h, ContextPairs(args, ctx, order + [b]));
      Canonical(p.name) in r && r[Canonical(p.name)] == p.value
  {
    hide Canonical, Forwardable;
    ContextPairsStep(h, args, ctx, order, b);
  }

  /** The same for a map of fixed headers. */
  lemma HeaderOrderShows(h: Header, m: map<string, string>)
    ensures HeadersAgree(m) <==> forall x, y :: SetsMap(h, m, x) && SetsMap(h, m, y) ==> x == y
  {
    hide Canonical;
    if HeadersAgree(m) {
      forall x, y | SetsMap(h, m, x) && SetsMap(h, m, y) ensures x == y { HeaderResultUnique(h, m, x, y); }
    } else {
      var a, b :| a in m && b in m && Canonical(a) == Canonical(b) && m[a] != m[b];
      ClashingHeadersDependOnOrder(h, m, a, b);
    }
  }

  lemma HeaderResultUnique(h: Header, m: map<string, string>, x: Header, y: Header)
    requires HeadersAgree(m) && SetsMap(h, m, x) && SetsMap(h, m, y)
    ensures x == y
  {
    hide SetsMap, HeadersAgree, Canonical;
    forall c ensures (c in x <==> c in y) && (c in x ==> x[c] == y[c]) {
      SetAllDetermined(h, m, x, c);
      SetAllDetermined(h, m, y, c);
      if FromMap(m, c) { var k :| k in m && Canonical(k) == c; }
    }
  }

  lemma ClashingHeadersDependOnOrder(h: Header, m: map<string, string>, a: string, b: string)
    requires a in m && b in m && Canonical(a) == Canonical(b) && m[a] != m[b]
    ensures exists x, y :: SetsMap(h, m, x) && SetsMap(h, m, y) && x != y
  {
    hide Canonical, SetsMap;
    var rest := OrderEndingIn(m.Keys, a, b);
    var x := LastHeaderWins(h, m, rest, a, b);
    var y := LastHeaderWins(h, m, rest, b, a);
    assert x != y;
  }

  lemma LastHeaderWins(h: Header, m: map<string, string>, rest: seq<string>, a: string, b: string) returns (x: Header)
    requires b in m && Enumerates(rest + [a] + [b], m.Keys)
    ensures SetsMap(h, m, x) && Canonical(b) in x && x[Canonical(b)] == m[b]
  {
    var order := rest + [a];
    OnlyKeys(order + [b], m);
    assert forall i :: 0 <= i < |order| ==> order[i] == (order + [b])[i];
    MapPairsStep(h, m, order, b);
    x := SetAll(h, MapPairs(m, order + [b]));
    hide Canonical, SetAll;
    assert SetsInOrder(h, m, order + [b], x);
  }

  lemma OnlyKeys(order: seq<string>, m: map<string, string>)
    requires Enumerates(order, m.Keys)
    ensures forall i :: 0 <= i < |order| ==> order[i] in m
  {
    forall i | 0 <= i < |order| ensures order[i] in m { assert order[i] in order; }
  }
}
