/** Extraction of a service's action records (src/parser.ts): the handler
    signatures found in its definition file, the retained actions of its
    schema, the imports their types need, and the builtins run after. */
module Parser {
  import opened TypeTree
  import opened Utils
  import opened DbMixin

  // ---------------------------------------------------------------------
  // The handler search
  // ---------------------------------------------------------------------

  /** The property name of a node that is a property assignment. */
  function PropOf(n: AstNode): Option<string>
  {
    if n.PropertyAssignment? then Some(n.propName) else None
  }

  /** A `handler(ctx: T<...>)` method with exactly one parameter, typed by a
      type reference, whose grandparent is a property assignment (`grand`
      is that property's name). */
  predicate IsHandlerMatch(n: AstNode, grand: Option<string>)
  {
    && n.MethodDecl? && n.methodName == "handler" && |n.parameters| == 1
    && grand.Some?
    && n.parameters[0].paramType.Some? && n.parameters[0].paramType.value.Ref?
  }

  /** What a matched handler contributes: the context's first type argument
      as params unless it is absent or `never`, and the method's own return
      type and type parameters. */
  function HandlerOf(n: AstNode, grand: Option<string>): (h: HandlerTypes)
    requires IsHandlerMatch(n, grand)
    ensures h.returnType == n.returnType && h.typeParameters == n.typeParameters
    ensures var args := n.parameters[0].paramType.value.args;
      h.params.Some? <==> |args| > 0 && args[0] != Kw(NeverKw)
    ensures h.params.Some? ==> h.params.value == n.parameters[0].paramType.value.args[0]
  {
    var args := n.parameters[0].paramType.value.args;
    HandlerTypes(if |args| > 0 && args[0] != Kw(NeverKw) then Some(args[0]) else None,
                 n.returnType, n.typeParameters)
  }

  /** The (action name, handler) pairs the search records, in visiting
      order. `parent` and `grand` are the property names of the node's
      parent and grandparent when those are property assignments. A match
      is not searched further. */
  ghost function MatchesOf(n: AstNode, parent: Option<string>, grand: Option<string>)
    : seq<(string, HandlerTypes)>
    decreases n
  {
    if IsHandlerMatch(n, grand) then [(grand.value, HandlerOf(n, grand))]
    else MatchesSeq(Children(n), PropOf(n), parent, n)
  }

  ghost function MatchesSeq(ns: seq<AstNode>, parent: Option<string>, grand: Option<string>, bound: AstNode)
    : seq<(string, HandlerTypes)>
    requires forall k :: 0 <= k < |ns| ==> ns[k] < bound
    decreases bound, |ns|
  {
    if ns == [] then [] else MatchesOf(ns[0], parent, grand) + MatchesSeq(ns[1..], parent, grand, bound)
  }

  lemma {:induction false} MatchesSeqSnoc(ns: seq<AstNode>, parent: Option<string>, grand: Option<string>,
                                          bound: AstNode, i: nat)
    requires forall k :: 0 <= k < |ns| ==> ns[k] < bound
    requires i < |ns|
    ensures MatchesSeq(ns[..i + 1], parent, grand, bound)
            == MatchesSeq(ns[..i], parent, grand, bound) + MatchesOf(ns[i], parent, grand)
  {
    if i == 0 {
      assert ns[..1] == [ns[0]];
      assert ns[..1][1..] == [];
    } else {
      assert ns[..i + 1][1..] == ns[1..][..i];
      assert ns[..i][1..] == ns[1..][..i - 1];
      MatchesSeqSnoc(ns[1..], parent, grand, bound, i - 1);
    }
  }

  /** `Map.set` for each pair in turn: a later pair for a name replaces an
      earlier one. */
  function Record(m: map<string, HandlerTypes>, ps: seq<(string, HandlerTypes)>): map<string, HandlerTypes>
    decreases ps
  {
    if ps == [] then m else Record(m[ps[0].0 := ps[0].1], ps[1..])
  }

  lemma {:induction false} RecordAppend(m: map<string, HandlerTypes>, a: seq<(string, HandlerTypes)>,
                                        b: seq<(string, HandlerTypes)>)
    ensures Record(m, a + b) == Record(Record(m, a), b)
    decreases a
  {
    if a == [] {
      assert a + b == b;
    } else {
      assert (a + b)[0] == a[0];
      assert (a + b)[1..] == a[1..] + b;
      RecordAppend(m[a[0].0 := a[0].1], a[1..], b);
    }
  }

  /** The table holds a name exactly when it held it before or some pair
      names it. */
  lemma {:induction false} RecordDomain(m: map<string, HandlerTypes>, ps: seq<(string, HandlerTypes)>, name: string)
    ensures name in Record(m, ps) <==> name in m || exists j :: 0 <= j < |ps| && ps[j].0 == name
    decreases ps
  {
    if ps != [] {
      RecordDomain(m[ps[0].0 := ps[0].1], ps[1..], name);
      if exists j :: 0 <= j < |ps[1..]| && ps[1..][j].0 == name {
        var j :| 0 <= j < |ps[1..]| && ps[1..][j].0 == name;
        assert ps[j + 1].0 == name;
      }
      if exists j :: 0 <= j < |ps| && ps[j].0 == name {
        var j :| 0 <= j < |ps| && ps[j].0 == name;
        if j > 0 {
          assert ps[1..][j - 1].0 == name;
        }
      }
    }
  }

  /** A name no pair mentions keeps its old entry. */
  lemma {:induction false} RecordUntouched(m: map<string, HandlerTypes>, ps: seq<(string, HandlerTypes)>, name: string)
    requires forall j :: 0 <= j < |ps| ==> ps[j].0 != name
    requires name in m
    ensures name in Record(m, ps) && Record(m, ps)[name] == m[name]
    decreases ps
  {
    if ps != [] {
      assert ps[0].0 != name;
      forall j | 0 <= j < |ps[1..]| ensures ps[1..][j].0 != name {
        assert ps[1..][j] == ps[j + 1];
      }
      RecordUntouched(m[ps[0].0 := ps[0].1], ps[1..], name);
    }
  }

  /** The last pair naming an action decides its entry. */
  lemma {:induction false} RecordLastWins(m: map<string, HandlerTypes>, ps: seq<(string, HandlerTypes)>, j: nat)
    requires j < |ps|
    requires forall k :: j < k < |ps| ==> ps[k].0 != ps[j].0
    ensures ps[j].0 in Record(m, ps) && Record(m, ps)[ps[j].0] == ps[j].1
    decreases ps
  {
    var name := ps[j].0;
    if j == 0 {
      forall k | 0 <= k < |ps[1..]| ensures ps[1..][k].0 != name {
        assert ps[1..][k] == ps[k + 1];
      }
      RecordUntouched(m[name := ps[0].1], ps[1..], name);
    } else {
      assert ps[1..][j - 1] == ps[j];
      forall k | j - 1 < k < |ps[1..]| ensures ps[1..][k].0 != name {
        assert ps[1..][k] == ps[k + 1];
      }
      RecordLastWins(m[ps[0].0 := ps[0].1], ps[1..], j - 1);
    }
  }

  /** The handler table of a definition file; the top-level statements have
      no property-assignment parent or grandparent. */
  ghost function HandlersOf(file: SourceFile): map<string, HandlerTypes>
  {
    Record(map[], MatchesSeq(file.statements, None, None, OtherNode(file.statements)))
  }

  /** The recursive `visit` of the handler search; `handlers` is its
      closure's table. */
  method Visit(n: AstNode, parent: Option<string>, grand: Option<string>, handlers: map<string, HandlerTypes>)
    returns (r: map<string, HandlerTypes>)
    ensures r == Record(handlers, MatchesOf(n, parent, grand))
    decreases n
  {
    if !n.MethodDecl? || n.methodName != "handler" || |n.parameters| != 1 {
      r := VisitChildren(Children(n), PropOf(n), parent, handlers, n);
      return;
    }
    if grand.None? {
      r := VisitChildren(Children(n), PropOf(n), parent, handlers, n);
      return;
    }
    var ctxType := n.parameters[0].paramType;
    if ctxType.None? || !ctxType.value.Ref? {
      r := VisitChildren(Children(n), PropOf(n), parent, handlers, n);
      return;
    }
    var paramsType: Option<TypeExpr> := None;
    if |ctxType.value.args| > 0 && ctxType.value.args[0] != Kw(NeverKw) {
      paramsType := Some(ctxType.value.args[0]);
    }
    r := handlers[grand.value := HandlerTypes(paramsType, n.returnType, n.typeParameters)];
  }

  /** `forEachChild(visit)` over the children of one node. */
  method VisitChildren(ns: seq<AstNode>, parent: Option<string>, grand: Option<string>,
                       handlers: map<string, HandlerTypes>, ghost bound: AstNode)
    returns (r: map<string, HandlerTypes>)
    requires forall k :: 0 <= k < |ns| ==> ns[k] < bound
    ensures r == Record(handlers, MatchesSeq(ns, parent, grand, bound))
    decreases bound, |ns|
  {
    r := handlers;
    for i := 0 to |ns|
      invariant r == Record(handlers, MatchesSeq(ns[..i], parent, grand, bound))
    {
      r := Visit(ns[i], parent, grand, r);
      MatchesSeqSnoc(ns, parent, grand, bound, i);
      RecordAppend(handlers, MatchesSeq(ns[..i], parent, grand, bound), MatchesOf(ns[i], parent, grand));
    }
    assert ns[..|ns|] == ns;
  }

  method FindActionsTypes(file: SourceFile) returns (handlers: map<string, HandlerTypes>)
    ensures handlers == HandlersOf(file)
  {
    handlers := VisitChildren(file.statements, None, None, map[], OtherNode(file.statements));
  }

  // ---------------------------------------------------------------------
  // The records of a service
  // ---------------------------------------------------------------------

  /** Actions defined as `false` or with private visibility get no record. */
  predicate IsRetained(def: ActionDef)
  {
    def != BoolDef(false) && !(def.ObjectDef? && def.visibility == Some("private"))
  }

  /** The record of one retained action: its full id, and the handler's types
      when the search found one under its name. */
  function RecordFor(prefix: string, handlers: map<string, HandlerTypes>, name: string): (a: ActionRecord)
    ensures a.id == Some(prefix + name)
    ensures name in handlers ==> a.params == handlers[name].params && a.returnType == handlers[name].returnType
                                 && a.typeParameters == handlers[name].typeParameters
    ensures name !in handlers ==> a.params.None? && a.returnType.None? && a.typeParameters.None?
  {
    var h := if name in handlers then handlers[name] else HandlerTypes(None, None, None);
    ActionRecord(Some(prefix + name), h.params, h.returnType, h.typeParameters)
  }

  /** The records of the retained entries, in entry order. */
  function Extracted(entries: seq<(string, ActionDef)>, prefix: string, handlers: map<string, HandlerTypes>)
    : seq<ActionRecord>
    decreases |entries|
  {
    if entries == [] then []
    else
      var last := entries[|entries| - 1];
      Extracted(entries[..|entries| - 1], prefix, handlers)
      + (if IsRetained(last.1) then [RecordFor(prefix, handlers, last.0)] else [])
  }

  /** A record is extracted exactly for each retained entry. */
  lemma {:induction false} ExtractedMembers(entries: seq<(string, ActionDef)>, prefix: string,
                                            handlers: map<string, HandlerTypes>)
    ensures forall a :: a in Extracted(entries, prefix, handlers) <==>
      exists i :: 0 <= i < |entries| && IsRetained(entries[i].1) && a == RecordFor(prefix, handlers, entries[i].0)
    decreases |entries|
  {
    if entries != [] {
      var n := |entries| - 1;
      var init := entries[..n];
      ExtractedMembers(init, prefix, handlers);
      forall a ensures a in Extracted(entries, prefix, handlers) <==>
        exists i :: 0 <= i < |entries| && IsRetained(entries[i].1) && a == RecordFor(prefix, handlers, entries[i].0)
      {
        if a in Extracted(init, prefix, handlers) {
          var i :| 0 <= i < |init| && IsRetained(init[i].1) && a == RecordFor(prefix, handlers, init[i].0);
          assert entries[i] == init[i];
        }
        if exists i :: 0 <= i < |entries| && IsRetained(entries[i].1) && a == RecordFor(prefix, handlers, entries[i].0) {
          var i :| 0 <= i < |entries| && IsRetained(entries[i].1) && a == RecordFor(prefix, handlers, entries[i].0);
          if i < n {
            assert init[i] == entries[i];
          }
        }
      }
    }
  }

  /** The number of retained entries. */
  function RetainedCount(entries: seq<(string, ActionDef)>): nat
    decreases |entries|
  {
    if entries == [] then 0
    else RetainedCount(entries[..|entries| - 1]) + (if IsRetained(entries[|entries| - 1].1) then 1 else 0)
  }

  /** One record per retained entry, each in the service's namespace. */
  lemma {:induction false} ExtractedShape(entries: seq<(string, ActionDef)>, prefix: string,
                                          handlers: map<string, HandlerTypes>)
    ensures |Extracted(entries, prefix, handlers)| == RetainedCount(entries)
    ensures forall a :: a in Extracted(entries, prefix, handlers) ==>
      a.id.Some? && StartsWith(a.id.value, prefix)
    decreases |entries|
  {
    if entries != [] {
      ExtractedShape(entries[..|entries| - 1], prefix, handlers);
      var last := entries[|entries| - 1];
      var r := RecordFor(prefix, handlers, last.0);
      assert r.id.value[..|prefix|] == prefix;
    }
  }

  /** The references the imports are resolved for, in the order the
      extractor walks them: type parameters, return type, params. */
  function RecordRefs(a: ActionRecord): seq<RefSite>
  {
    (if a.typeParameters.Some? then ParamsRefs(a.typeParameters.value) else []) + RefsOpt(a.returnType) + RefsOpt(a.params)
  }

  function ParamsRefs(tps: seq<TypeParam>): seq<RefSite>
    decreases |tps|
  {
    if tps == [] then [] else ParamsRefs(tps[..|tps| - 1]) + RefsParam(tps[|tps| - 1])
  }

  lemma ParamsRefsSnoc(tps: seq<TypeParam>, i: nat)
    requires i < |tps|
    ensures ParamsRefs(tps[..i + 1]) == ParamsRefs(tps[..i]) + RefsParam(tps[i])
  {
    assert tps[..i + 1][..i] == tps[..i];
  }

  function RecordsRefs(rs: seq<ActionRecord>): seq<RefSite>
    decreases |rs|
  {
    if rs == [] then [] else RecordsRefs(rs[..|rs| - 1]) + RecordRefs(rs[|rs| - 1])
  }

  /** The `typeParameters.forEach` walk over a record's type parameters. */
  method FillParamsImports(ctx: CallWrapperContext, decls: seq<ImportDecl>, relocate: string -> string,
                           tps: seq<TypeParam>)
    requires ctx.Valid()
    modifies ctx`importKeys, ctx`imports, ctx`importMapping
    ensures ctx.Valid()
    ensures Advanced(old(ctx.importKeys), old(ctx.imports), old(ctx.importMapping),
                     ctx.importKeys, ctx.imports, ctx.importMapping,
                     HitsOf(decls, relocate, ParamsRefs(tps)), ctx.digest)
  {
    ghost var k0, i0, m0 := ctx.importKeys, ctx.imports, ctx.importMapping;
    assert k0[..|k0|] == k0;
    for i := 0 to |tps|
      invariant ctx.Valid()
      invariant Advanced(k0, i0, m0, ctx.importKeys, ctx.imports, ctx.importMapping,
                         HitsOf(decls, relocate, ParamsRefs(tps[..i])), ctx.digest)
    {
      ghost var k1, i1, m1 := ctx.importKeys, ctx.imports, ctx.importMapping;
      ctx.FillImportsParam(decls, relocate, tps[i]);
      AdvancedSites(k0, i0, m0, k1, i1, m1, ctx.importKeys, ctx.imports, ctx.importMapping,
                    decls, relocate, ParamsRefs(tps[..i]), RefsParam(tps[i]), ctx.digest);
      ParamsRefsSnoc(tps, i);
    }
    assert tps[..|tps|] == tps;
  }

  lemma RecordsRefsSnoc(rs: seq<ActionRecord>, a: ActionRecord)
    ensures RecordsRefs(rs + [a]) == RecordsRefs(rs) + RecordRefs(a)
  {
    assert (rs + [a])[..|rs|] == rs;
  }

  lemma ExtractedSnoc(entries: seq<(string, ActionDef)>, prefix: string, handlers: map<string, HandlerTypes>, i: nat)
    requires i < |entries|
    ensures Extracted(entries[..i + 1], prefix, handlers) == Extracted(entries[..i], prefix, handlers)
      + (if IsRetained(entries[i].1) then [RecordFor(prefix, handlers, entries[i].0)] else [])
  {
    assert entries[..i + 1][..i] == entries[..i];
  }

  /** Resolves the imports of one record's types. */
  method FillRecordImports(ctx: CallWrapperContext, decls: seq<ImportDecl>, relocate: string -> string,
                           a: ActionRecord)
    requires ctx.Valid()
    modifies ctx`importKeys, ctx`imports, ctx`importMapping
    ensures ctx.Valid()
    ensures Advanced(old(ctx.importKeys), old(ctx.imports), old(ctx.importMapping),
                     ctx.importKeys, ctx.imports, ctx.importMapping,
                     HitsOf(decls, relocate, RecordRefs(a)), ctx.digest)
  {
    ghost var k0, i0, m0 := ctx.importKeys, ctx.imports, ctx.importMapping;
    ghost var tpRefs: seq<RefSite> := [];
    if a.typeParameters.Some? {
      FillParamsImports(ctx, decls, relocate, a.typeParameters.value);
      tpRefs := ParamsRefs(a.typeParameters.value);
    } else {
      assert k0[..|k0|] == k0;
    }
    ghost var k1, i1, m1 := ctx.importKeys, ctx.imports, ctx.importMapping;
    ctx.FillImportsOpt(decls, relocate, a.returnType);
    AdvancedCompose(k0, i0, m0, k1, i1, m1, ctx.importKeys, ctx.imports, ctx.importMapping,
                    HitsOf(decls, relocate, tpRefs), HitsOf(decls, relocate, RefsOpt(a.returnType)), ctx.digest);
    HitsOfAppend(decls, relocate, tpRefs, RefsOpt(a.returnType));
    ghost var k2, i2, m2 := ctx.importKeys, ctx.imports, ctx.importMapping;
    ctx.FillImportsOpt(decls, relocate, a.params);
    AdvancedCompose(k0, i0, m0, k2, i2, m2, ctx.importKeys, ctx.imports, ctx.importMapping,
                    HitsOf(decls, relocate, tpRefs + RefsOpt(a.returnType)), HitsOf(decls, relocate, RefsOpt(a.params)),
                    ctx.digest);
    HitsOfAppend(decls, relocate, tpRefs + RefsOpt(a.returnType), RefsOpt(a.params));
  }

  /** The `Object.entries(...).forEach` loop: one record per retained entry,
      its imports resolved before it is pushed. */
  method ExtractRecords(ctx: CallWrapperContext, service: Service, file: SourceFile, relocate: string -> string,
                        handlers: map<string, HandlerTypes>)
    returns (records: seq<ActionRecord>)
    requires ctx.Valid()
    modifies ctx`importKeys, ctx`imports, ctx`importMapping
    ensures ctx.Valid()
    ensures records == Extracted(service.actions, ServicePrefix(service), handlers)
    ensures Advanced(old(ctx.importKeys), old(ctx.imports), old(ctx.importMapping),
                     ctx.importKeys, ctx.imports, ctx.importMapping,
                     HitsOf(file.imports, relocate, RecordsRefs(records)), ctx.digest)
  {
    var entries := service.actions;
    var prefix := ServicePrefix(service);
    ghost var k0, i0, m0 := ctx.importKeys, ctx.imports, ctx.importMapping;
    assert k0[..|k0|] == k0;
    records := [];
    for i := 0 to |entries|
      invariant ctx.Valid()
      invariant records == Extracted(entries[..i], prefix, handlers)
      invariant Advanced(k0, i0, m0, ctx.importKeys, ctx.imports, ctx.importMapping,
                         HitsOf(file.imports, relocate, RecordsRefs(records)), ctx.digest)
    {
      ExtractedSnoc(entries, prefix, handlers, i);
      var (name, def) := entries[i];
      if IsRetained(def) {
        var a := RecordFor(prefix, handlers, name);
        ghost var k1, i1, m1 := ctx.importKeys, ctx.imports, ctx.importMapping;
        FillRecordImports(ctx, file.imports, relocate, a);
        AdvancedSites(k0, i0, m0, k1, i1, m1, ctx.importKeys, ctx.imports, ctx.importMapping,
                      file.imports, relocate, RecordsRefs(records), RecordRefs(a), ctx.digest);
        RecordsRefsSnoc(records, a);
        records := records + [a];
      }
    }
    assert entries[..|entries|] == entries;
  }

  /** The builtins the generator knows. */
  datatype Builtin = DatabaseMixinV2

  /** Runs each builtin over the records, in order. */
  method RunBuiltins(ctx: CallWrapperContext, records: seq<ActionRecord>, service: Service, file: SourceFile,
                     relocate: string -> string, builtins: seq<Builtin>)
    returns (result: seq<ActionRecord>)
    requires ctx.Valid()
    modifies ctx`importKeys, ctx`imports, ctx`importMapping
    ensures ctx.Valid()
    ensures |result| == |records|
    ensures forall i :: 0 <= i < |records| ==> FillsOnly(records[i], result[i])
    ensures builtins == [] ==>
      result == records && ctx.importKeys == old(ctx.importKeys)
      && ctx.imports == old(ctx.imports) && ctx.importMapping == old(ctx.importMapping)
    ensures old(ctx.imports.Keys) <= ctx.imports.Keys
  {
    result := records;
    for b := 0 to |builtins|
      invariant ctx.Valid()
      invariant |result| == |records|
      invariant forall i :: 0 <= i < |records| ==> FillsOnly(records[i], result[i])
      invariant b == 0 ==> result == records && ctx.importKeys == old(ctx.importKeys)
                           && ctx.imports == old(ctx.imports) && ctx.importMapping == old(ctx.importMapping)
      invariant old(ctx.imports.Keys) <= ctx.imports.Keys
    {
      match builtins[b]
      case DatabaseMixinV2 =>
        var next := InjectDatabaseMixinV2Builtins(ctx, result, service, file, relocate);
        forall i | 0 <= i < |records| ensures FillsOnly(records[i], next[i]) {
          FillsOnlyTransitive(records[i], result[i], next[i]);
        }
        result := next;
    }
  }

  /** `parseService`: the records of one service. Before the builtins run,
      there is one record per retained action, in entry order, and the
      imports of their types have been resolved; the builtins then only
      fill absent fields. */
  method ParseService(ctx: CallWrapperContext, service: Service, file: SourceFile, relocate: string -> string,
                      builtins: seq<Builtin>)
    returns (records: seq<ActionRecord>)
    requires ctx.Valid()
    modifies ctx`importKeys, ctx`imports, ctx`importMapping
    ensures ctx.Valid()
    ensures var extracted := Extracted(service.actions, ServicePrefix(service), HandlersOf(file));
      && |records| == |extracted|
      && (forall i :: 0 <= i < |records| ==> FillsOnly(extracted[i], records[i]))
      && (builtins == [] ==>
            records == extracted
            && Advanced(old(ctx.importKeys), old(ctx.imports), old(ctx.importMapping),
                        ctx.importKeys, ctx.imports, ctx.importMapping,
                        HitsOf(file.imports, relocate, RecordsRefs(extracted)), ctx.digest))
      && old(ctx.imports.Keys) + HitKeys(HitsOf(file.imports, relocate, RecordsRefs(extracted))) <= ctx.imports.Keys
  {
    var handlers := FindActionsTypes(file);
    var extracted := ExtractRecords(ctx, service, file, relocate, handlers);
    records := RunBuiltins(ctx, extracted, service, file, relocate, builtins);
  }
}
