/** The database-mixin builtin (src/builtins/db-mixin-v2.ts): for a service
    using the database mixin, fills the still-absent params and return types
    of its CRUD actions from a fixed table, parameterised by the entity (and
    tenant) type given to the `DatabaseMethodsMixin<...>` marker call. */
module DbMixin {
  import opened TypeTree
  import opened Utils

  const MixinCollectionMethod := "_getDatabaseMixinCollection"
  const MarkerCallee := "DatabaseMethodsMixin"
  const DbMixinKey := "@treatwell/moleculer-essentials/mixins/database"
  const StreamKey := "stream"

  /** The marker's type arguments: the entity type and an optional tenant type. */
  datatype MixinTypes = MixinTypes(entityType: TypeExpr, tenantField: Option<TypeExpr>)

  /** Whether some mixin of the original schema provides the collection method. */
  predicate HasDatabaseMixin(mixins: seq<Mixin>)
  {
    exists i :: 0 <= i < |mixins| && MixinCollectionMethod in mixins[i].methodNames
  }

  predicate IsMarker(n: AstNode)
  {
    n.CallExpr? && n.calleeText == MarkerCallee
  }

  function TypesFrom(args: seq<TypeExpr>): MixinTypes
    requires |args| > 0
  {
    MixinTypes(args[0], if |args| > 1 then Some(args[1]) else None)
  }

  /** `[E, T]` with a tenant type, `[E]` without. */
  function TypeArgumentsOf(types: MixinTypes): seq<TypeExpr>
  {
    if types.tenantField.Some? then [types.entityType, types.tenantField.value] else [types.entityType]
  }

  // ---------------------------------------------------------------------
  // The marker search
  // ---------------------------------------------------------------------

  /** The type-argument lists of the marker calls the search reaches, in
      depth-first order; the search does not descend into a marker. */
  ghost function MarkersOf(n: AstNode): seq<seq<TypeExpr>>
    decreases n
  {
    if IsMarker(n) then [n.typeArgs] else MarkersSeq(Children(n), n)
  }

  ghost function MarkersSeq(ns: seq<AstNode>, parent: AstNode): seq<seq<TypeExpr>>
    requires forall k :: 0 <= k < |ns| ==> ns[k] < parent
    decreases parent, |ns|
  {
    if ns == [] then []
    else
      MarkersOf(ns[0]) + MarkersSeq(ns[1..], parent)
  }

  lemma {:induction false} MarkersSeqSnoc(ns: seq<AstNode>, parent: AstNode, i: nat)
    requires forall k :: 0 <= k < |ns| ==> ns[k] < parent
    requires i < |ns|
    ensures MarkersSeq(ns[..i + 1], parent) == MarkersSeq(ns[..i], parent) + MarkersOf(ns[i])
  {
    if i == 0 {
      assert ns[..1] == [ns[0]];
      assert ns[..1][1..] == [];
    } else {
      assert ns[..i + 1][1..] == ns[1..][..i];
      assert ns[..i][1..] == ns[1..][..i - 1];
      MarkersSeqSnoc(ns[1..], parent, i - 1);
    }
  }

  /** Folds the reached markers into the search result: a marker with type
      arguments replaces it, one without leaves it as it was. */
  function FoundTypes(res: Option<MixinTypes>, ms: seq<seq<TypeExpr>>): Option<MixinTypes>
    decreases ms
  {
    if ms == [] then res
    else FoundTypes(if |ms[0]| > 0 then Some(TypesFrom(ms[0])) else res, ms[1..])
  }

  lemma {:induction false} FoundTypesAppend(res: Option<MixinTypes>, a: seq<seq<TypeExpr>>, b: seq<seq<TypeExpr>>)
    ensures FoundTypes(res, a + b) == FoundTypes(FoundTypes(res, a), b)
    decreases a
  {
    if a == [] {
      assert a + b == b;
    } else {
      assert (a + b)[0] == a[0];
      assert (a + b)[1..] == a[1..] + b;
      FoundTypesAppend(if |a[0]| > 0 then Some(TypesFrom(a[0])) else res, a[1..], b);
    }
  }

  /** The last reached marker that has type arguments supplies the types;
      when there is none, the earlier result stands. */
  lemma {:induction false} LastMarkerWins(res: Option<MixinTypes>, ms: seq<seq<TypeExpr>>)
    ensures (forall i :: 0 <= i < |ms| ==> |ms[i]| == 0) ==> FoundTypes(res, ms) == res
    ensures forall j :: 0 <= j < |ms| && |ms[j]| > 0 && (forall k :: j < k < |ms| ==> |ms[k]| == 0) ==>
      FoundTypes(res, ms) == Some(TypesFrom(ms[j]))
    decreases ms
  {
    if ms != [] {
      var next := if |ms[0]| > 0 then Some(TypesFrom(ms[0])) else res;
      LastMarkerWins(next, ms[1..]);
      forall j | 0 <= j < |ms| && |ms[j]| > 0 && (forall k :: j < k < |ms| ==> |ms[k]| == 0)
        ensures FoundTypes(res, ms) == Some(TypesFrom(ms[j]))
      {
        if j == 0 {
          assert forall i :: 0 <= i < |ms[1..]| ==> |ms[1..][i]| == 0 by {
            forall i | 0 <= i < |ms[1..]| ensures |ms[1..][i]| == 0 {
              assert ms[1..][i] == ms[i + 1];
            }
          }
        } else {
          assert ms[1..][j - 1] == ms[j];
          assert forall k :: j - 1 < k < |ms[1..]| ==> |ms[1..][k]| == 0 by {
            forall k | j - 1 < k < |ms[1..]| ensures |ms[1..][k]| == 0 {
              assert ms[1..][k] == ms[k + 1];
            }
          }
        }
      }
      if forall i :: 0 <= i < |ms| ==> |ms[i]| == 0 {
        assert |ms[0]| == 0;
        forall i | 0 <= i < |ms[1..]| ensures |ms[1..][i]| == 0 {
          assert ms[1..][i] == ms[i + 1];
        }
      }
    }
  }

  /** The marker types a definition file yields. */
  ghost function MixinTypesOf(file: SourceFile): Option<MixinTypes>
  {
    FoundTypes(None, MarkersSeq(file.statements, OtherNode(file.statements)))
  }

  /** The recursive `visit` of the marker search, with its closure variable
      `res` passed in and returned. */
  method VisitMarkers(n: AstNode, res: Option<MixinTypes>) returns (r: Option<MixinTypes>)
    ensures r == FoundTypes(res, MarkersOf(n))
    decreases n
  {
    if !IsMarker(n) {
      r := VisitMarkerChildren(Children(n), res, n);
    } else if |n.typeArgs| == 0 {
      r := res;
    } else {
      r := Some(TypesFrom(n.typeArgs));
    }
  }

  method VisitMarkerChildren(ns: seq<AstNode>, res: Option<MixinTypes>, ghost parent: AstNode)
    returns (r: Option<MixinTypes>)
    requires forall k :: 0 <= k < |ns| ==> ns[k] < parent
    ensures r == FoundTypes(res, MarkersSeq(ns, parent))
    decreases parent, |ns|
  {
    r := res;
    for i := 0 to |ns|
      invariant r == FoundTypes(res, MarkersSeq(ns[..i], parent))
    {
      r := VisitMarkers(ns[i], r);
      MarkersSeqSnoc(ns, parent, i);
      FoundTypesAppend(res, MarkersSeq(ns[..i], parent), MarkersOf(ns[i]));
    }
    assert ns[..|ns|] == ns;
  }

  /** The type-reference hits of the marker's type arguments. */
  function TypesHits(decls: seq<ImportDecl>, relocate: string -> string, types: MixinTypes): seq<Hit>
  {
    HitsOf(decls, relocate, RefsOf(types.entityType) + RefsOpt(types.tenantField))
  }

  /** Searches the file for the marker call, then resolves the imports of
      the entity and tenant types it found. */
  method FindDatabaseMixinTypes(ctx: CallWrapperContext, file: SourceFile, relocate: string -> string)
    returns (types: Option<MixinTypes>)
    requires ctx.Valid()
    modifies ctx`importKeys, ctx`imports, ctx`importMapping
    ensures ctx.Valid()
    ensures types == MixinTypesOf(file)
    ensures types.None? ==> ctx.importKeys == old(ctx.importKeys) && ctx.imports == old(ctx.imports)
                            && ctx.importMapping == old(ctx.importMapping)
    ensures types.Some? ==> Advanced(old(ctx.importKeys), old(ctx.imports), old(ctx.importMapping),
                                     ctx.importKeys, ctx.imports, ctx.importMapping,
                                     TypesHits(file.imports, relocate, types.value), ctx.digest)
  {
    types := VisitMarkerChildren(file.statements, None, OtherNode(file.statements));
    if types.Some? {
      ctx.FillImports(file.imports, relocate, types.value.entityType);
      ghost var k1, i1, m1 := ctx.importKeys, ctx.imports, ctx.importMapping;
      ctx.FillImportsOpt(file.imports, relocate, types.value.tenantField);
      AdvancedCompose(old(ctx.importKeys), old(ctx.imports), old(ctx.importMapping), k1, i1, m1,
                      ctx.importKeys, ctx.imports, ctx.importMapping,
                      HitsOf(file.imports, relocate, RefsOf(types.value.entityType)),
                      HitsOf(file.imports, relocate, RefsOpt(types.value.tenantField)), ctx.digest);
      HitsOfAppend(file.imports, relocate, RefsOf(types.value.entityType), RefsOpt(types.value.tenantField));
    }
  }

  // ---------------------------------------------------------------------
  // The suffix tables
  // ---------------------------------------------------------------------

  /** The params template of each known action-name suffix. */
  function ParamsTemplate(suffix: string): Option<string>
  {
    if suffix == "find" || suffix == "findStream" then Some("DatabaseActionFindParams")
    else if suffix == "getInternal" then Some("DatabaseActionGetInternalParams")
    else if suffix == "get" then Some("DatabaseActionGetParams")
    else if suffix == "countInternal" then Some("DatabaseActionCountInternalParams")
    else if suffix == "count" then Some("DatabaseActionCountParams")
    else if suffix == "list" then Some("DatabaseActionListParams")
    else if suffix == "create" then Some("DatabaseActionCreateParams")
    else if suffix == "update" then Some("DatabaseActionUpdateParams")
    else if suffix == "remove" then Some("DatabaseActionRemoveParams")
    else None
  }

  /** The params type filled in for a suffix: the template instantiated with
      `[E]` for `create` and with `[E]` or `[E, T]` otherwise. */
  function ParamsFor(suffix: string, dbAlias: string, types: MixinTypes): Option<TypeExpr>
  {
    match ParamsTemplate(suffix)
    case None => None
    case Some(template) =>
      Some(Ref(Synthetic, Simple(dbAlias + "." + template),
               if suffix == "create" then [types.entityType] else TypeArgumentsOf(types)))
  }

  predicate IsEntityResultSuffix(suffix: string)
  {
    suffix == "create" || suffix == "update" || suffix == "remove" || suffix == "getInternal" || suffix == "get"
  }

  /** The return type filled in for a suffix. */
  function ReturnFor(suffix: string, dbAlias: string, streamAlias: string, types: MixinTypes): Option<TypeExpr>
  {
    if suffix == "find" then
      Some(Ref(Synthetic, Simple(dbAlias + ".DatabaseActionFindResult"), [types.entityType]))
    else if suffix == "findStream" then
      Some(Ref(Synthetic, Simple(streamAlias + ".Readable"), []))
    else if suffix == "countInternal" || suffix == "count" then
      Some(Kw(NumberKw))
    else if suffix == "list" then
      Some(Ref(Synthetic, Simple(dbAlias + ".DatabaseActionListResult"), [types.entityType]))
    else if IsEntityResultSuffix(suffix) then
      Some(Ref(Synthetic, Simple(dbAlias + ".DatabaseActionEntityResult"), [types.entityType]))
    else None
  }

  /** The ten suffixes the builtin knows; any other name is left alone. */
  predicate IsKnownSuffix(suffix: string)
  {
    suffix in ["find", "findStream", "get", "getInternal", "count", "countInternal", "list", "create", "update", "remove"]
  }

  lemma TablesCoverKnownSuffixes(suffix: string, dbAlias: string, streamAlias: string, types: MixinTypes)
    ensures ParamsFor(suffix, dbAlias, types).Some? <==> IsKnownSuffix(suffix)
    ensures ReturnFor(suffix, dbAlias, streamAlias, types).Some? <==> IsKnownSuffix(suffix)
  {
  }

  /** The params type arguments are the entity type, plus the tenant type
      when there is one, except for `create`, which takes the entity alone. */
  lemma ParamsTypeArguments(suffix: string, dbAlias: string, types: MixinTypes)
    requires IsKnownSuffix(suffix)
    ensures var p := ParamsFor(suffix, dbAlias, types);
      p.Some? && p.value.Ref? && p.value.origin == Synthetic
      && p.value.args == (if suffix != "create" && types.tenantField.Some? then [types.entityType, types.tenantField.value]
                          else [types.entityType])
  {
  }

  // ---------------------------------------------------------------------
  // Filling the records
  // ---------------------------------------------------------------------

  predicate StartsWith(s: string, prefix: string)
  {
    |prefix| <= |s| && s[..|prefix|] == prefix
  }

  /** A record the builtin looks at: in the service's namespace and missing
      its params or its return type. */
  predicate IsTarget(a: ActionRecord, prefix: string)
  {
    a.id.Some? && StartsWith(a.id.value, prefix) && (a.params.None? || a.returnType.None?)
  }

  /** A target record after the builtin: each missing field filled from the
      tables by the action's name within the namespace. */
  function FillRecord(a: ActionRecord, prefix: string, dbAlias: string, streamAlias: string, types: MixinTypes)
    : ActionRecord
  {
    if !IsTarget(a, prefix) then a
    else
      var suffix := a.id.value[|prefix|..];
      ActionRecord(a.id,
                   if a.params.None? then ParamsFor(suffix, dbAlias, types) else a.params,
                   if a.returnType.None? then ReturnFor(suffix, dbAlias, streamAlias, types) else a.returnType,
                   a.typeParameters)
  }

  /** The builtin only fills absent fields; records outside the namespace
      and complete records are untouched. */
  lemma FillRecordFillsOnly(a: ActionRecord, prefix: string, dbAlias: string, streamAlias: string, types: MixinTypes)
    ensures FillsOnly(a, FillRecord(a, prefix, dbAlias, streamAlias, types))
    ensures !IsTarget(a, prefix) ==> FillRecord(a, prefix, dbAlias, streamAlias, types) == a
  {
  }

  /** A missing field of a target is filled exactly when the action's name
      within the namespace is one of the known suffixes. */
  lemma FillRecordKnownSuffix(a: ActionRecord, prefix: string, dbAlias: string, streamAlias: string, types: MixinTypes)
    requires IsTarget(a, prefix)
    ensures var b := FillRecord(a, prefix, dbAlias, streamAlias, types);
      var suffix := a.id.value[|prefix|..];
      && prefix + suffix == a.id.value
      && (a.params.None? ==> (b.params.Some? <==> IsKnownSuffix(suffix)))
      && (a.returnType.None? ==> (b.returnType.Some? <==> IsKnownSuffix(suffix)))
  {
    TablesCoverKnownSuffixes(a.id.value[|prefix|..], dbAlias, streamAlias, types);
    assert a.id.value == a.id.value[..|prefix|] + a.id.value[|prefix|..];
  }

  /** Filling this record's return type registers the `stream` module. */
  predicate FillsStreamAt(a: ActionRecord, prefix: string)
  {
    IsTarget(a, prefix) && a.returnType.None? && a.id.value[|prefix|..] == "findStream"
  }

  /** Whether the loop fills some `findStream` return type. */
  predicate FillsStream(actions: seq<ActionRecord>, prefix: string)
  {
    exists i :: 0 <= i < |actions| && FillsStreamAt(actions[i], prefix)
  }

  lemma FillsStreamSnoc(actions: seq<ActionRecord>, prefix: string, i: nat)
    requires i < |actions|
    ensures FillsStream(actions[..i + 1], prefix) <==> FillsStream(actions[..i], prefix) || FillsStreamAt(actions[i], prefix)
  {
    if FillsStream(actions[..i + 1], prefix) && !FillsStreamAt(actions[i], prefix) {
      var k :| 0 <= k < i + 1 && FillsStreamAt(actions[..i + 1][k], prefix);
      assert actions[..i][k] == actions[..i + 1][k];
    }
    if FillsStream(actions[..i], prefix) {
      var k :| 0 <= k < i && FillsStreamAt(actions[..i][k], prefix);
      assert actions[..i + 1][k] == actions[..i][k];
    }
    if FillsStreamAt(actions[i], prefix) {
      assert actions[..i + 1][i] == actions[i];
    }
  }

  lemma StreamAliasIsStream(digest: string -> string)
    ensures UniqueNameFromKey(StreamKey, digest) == "stream"
  {
    assert IsIdentifierKey(StreamKey);
  }

  /** The loop body for one record: fills its missing fields, registering
      `stream` for a `findStream` return type. */
  method FillTarget(ctx: CallWrapperContext, a: ActionRecord, prefix: string, dbAlias: string, types: MixinTypes)
    returns (b: ActionRecord)
    requires ctx.Valid()
    modifies ctx`importKeys, ctx`imports
    ensures ctx.Valid()
    ensures b == FillRecord(a, prefix, dbAlias, "stream", types)
    ensures ctx.imports.Keys == old(ctx.imports.Keys) + (if FillsStreamAt(a, prefix) then {StreamKey} else {})
  {
    b := a;
    if IsTarget(a, prefix) {
      var suffix := a.id.value[|prefix|..];
      var params := a.params;
      var returnType := a.returnType;
      if params.None? {
        params := ParamsFor(suffix, dbAlias, types);
      }
      if returnType.None? {
        if suffix == "findStream" {
          var streamName := ctx.AddDepToImports(StreamKey);
          StreamAliasIsStream(ctx.digest);
          returnType := Some(Ref(Synthetic, Simple(streamName + ".Readable"), []));
        } else {
          returnType := ReturnFor(suffix, dbAlias, "stream", types);
        }
      }
      b := ActionRecord(a.id, params, returnType, a.typeParameters);
    }
  }

  /** The builtin's loop over the records of one service. */
  method FillRecords(ctx: CallWrapperContext, actions: seq<ActionRecord>, prefix: string, dbAlias: string,
                     types: MixinTypes)
    returns (result: seq<ActionRecord>)
    requires ctx.Valid()
    modifies ctx`importKeys, ctx`imports
    ensures ctx.Valid()
    ensures |result| == |actions|
    ensures forall j :: 0 <= j < |actions| ==> result[j] == FillRecord(actions[j], prefix, dbAlias, "stream", types)
    ensures ctx.imports.Keys == old(ctx.imports.Keys) + (if FillsStream(actions, prefix) then {StreamKey} else {})
  {
    result := actions;
    for i := 0 to |actions|
      invariant ctx.Valid()
      invariant |result| == |actions|
      invariant forall j :: 0 <= j < i ==> result[j] == FillRecord(actions[j], prefix, dbAlias, "stream", types)
      invariant forall j :: i <= j < |actions| ==> result[j] == actions[j]
      invariant ctx.imports.Keys == old(ctx.imports.Keys) + (if FillsStream(actions[..i], prefix) then {StreamKey} else {})
    {
      var b := FillTarget(ctx, actions[i], prefix, dbAlias, types);
      result := result[i := b];
      FillsStreamSnoc(actions, prefix, i);
    }
    assert actions[..|actions|] == actions;
  }

  /** The builtin once the marker types are known: registers the database
      module, then fills the records. */
  method FillWithDatabaseTypes(ctx: CallWrapperContext, actions: seq<ActionRecord>, prefix: string,
                               types: MixinTypes)
    returns (result: seq<ActionRecord>)
    requires ctx.Valid()
    modifies ctx`importKeys, ctx`imports
    ensures ctx.Valid()
    ensures |result| == |actions|
    ensures forall i :: 0 <= i < |actions| ==> FillsOnly(actions[i], result[i])
    ensures forall i :: 0 <= i < |actions| ==>
      result[i] == FillRecord(actions[i], prefix, UniqueNameFromKey(DbMixinKey, ctx.digest), "stream", types)
    ensures ctx.imports.Keys == old(ctx.imports.Keys) + {DbMixinKey}
                                + (if FillsStream(actions, prefix) then {StreamKey} else {})
  {
    var dbAlias := ctx.AddDepToImports(DbMixinKey);
    result := FillRecords(ctx, actions, prefix, dbAlias, types);
    forall j | 0 <= j < |actions| ensures FillsOnly(actions[j], result[j]) {
      FillRecordFillsOnly(actions[j], prefix, dbAlias, "stream", types);
    }
  }

  /** Runs the builtin over one service's records. Without the mixin, or
      without a marker carrying type arguments, nothing changes. Otherwise
      the database module is registered, every record becomes its
      `FillRecord`, and `stream` is registered when a `findStream` return
      type is filled. */
  method InjectDatabaseMixinV2Builtins(ctx: CallWrapperContext, actions: seq<ActionRecord>, service: Service,
                                       file: SourceFile, relocate: string -> string)
    returns (result: seq<ActionRecord>)
    requires ctx.Valid()
    modifies ctx`importKeys, ctx`imports, ctx`importMapping
    ensures ctx.Valid()
    ensures |result| == |actions|
    ensures forall i :: 0 <= i < |actions| ==> FillsOnly(actions[i], result[i])
    ensures !HasDatabaseMixin(service.mixins) || MixinTypesOf(file).None? ==>
      result == actions && ctx.importKeys == old(ctx.importKeys) && ctx.imports == old(ctx.imports)
      && ctx.importMapping == old(ctx.importMapping)
    ensures HasDatabaseMixin(service.mixins) && MixinTypesOf(file).Some? ==>
      var types := MixinTypesOf(file).value;
      var prefix := ServicePrefix(service);
      && (forall i :: 0 <= i < |actions| ==>
            result[i] == FillRecord(actions[i], prefix, UniqueNameFromKey(DbMixinKey, ctx.digest), "stream", types))
      && ctx.imports.Keys == old(ctx.imports.Keys) + HitKeys(TypesHits(file.imports, relocate, types)) + {DbMixinKey}
                             + (if FillsStream(actions, prefix) then {StreamKey} else {})
      && ctx.importMapping == ApplyHits(old(ctx.importMapping), TypesHits(file.imports, relocate, types), ctx.digest)
  {
    result := actions;
    if !HasDatabaseMixin(service.mixins) {
      return;
    }
    var found := FindDatabaseMixinTypes(ctx, file, relocate);
    if found.None? {
      return;
    }
    var types := found.value;
    ghost var hits := TypesHits(file.imports, relocate, types);
    ghost var keys1 := ctx.imports.Keys;
    assert keys1 == old(ctx.imports.Keys) + HitKeys(hits);
    ghost var mapping1 := ApplyHits(old(ctx.importMapping), hits, ctx.digest);
    assert ctx.importMapping == mapping1;
    var prefix := ServicePrefix(service);
    result := FillWithDatabaseTypes(ctx, actions, prefix, types);
    assert ctx.importMapping == mapping1;
  }
}
