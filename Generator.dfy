/** Synthesis of the typed call-wrapper module (src/generator.ts): the
    import section, the `Actions`/`ActionsU` interfaces and the `call` and
    `callT` overload groups, as a sequence of abstract statements. */
module Generator {
  import opened TypeTree
  import opened Ordering
  import opened Utils

  const ParamsActions := "Actions"
  const NoParamsActions := "ActionsU"

  /** One parameter of a generated function. */
  datatype Param = Param(name: string, optional: bool, paramType: TypeExpr)

  /** An exported function declaration; `hasBody` marks an implementation. */
  datatype FunctionDecl = FunctionDecl(name: string, typeParameters: seq<TypeParam>, parameters: seq<Param>,
                                       returnType: TypeExpr, hasBody: bool)

  /** A property of an interface: the quoted action id and its type. */
  datatype PropertySig = PropertySig(name: string, propType: TypeExpr)

  /** A top-level statement of the generated module. */
  datatype Statement =
    | ImportStmt(alias: string, path: string)
    | InterfaceDecl(name: string, members: seq<PropertySig>)
    | FunctionStmt(decl: FunctionDecl)

  /** A reference node built by the generator itself. */
  function Synth(name: string, args: seq<TypeExpr>): TypeExpr
  {
    Ref(Synthetic, Simple(name), args)
  }

  function PromiseOf(t: TypeExpr): TypeExpr
  {
    Synth("Promise", [t])
  }

  // ---------------------------------------------------------------------
  // Return types
  // ---------------------------------------------------------------------

  /** A `Promise` reference written in a parsed source file. */
  predicate IsSourcePromise(t: TypeExpr)
  {
    t.Ref? && t.origin.Parsed? && NameText(t.name) == "Promise"
  }

  /** The overload's return type: `Promise<void>` without a return type, a
      source `Promise` copied as is, anything else wrapped in `Promise` once. */
  function WrapperReturnType(a: ActionRecord, m: map<nat, string>): TypeExpr
  {
    if a.returnType.None? then PromiseOf(Kw(VoidKw))
    else if IsSourcePromise(a.returnType.value) then Clone(m, a.returnType.value)
    else PromiseOf(Clone(m, a.returnType.value))
  }

  /** The interface member's return type: `void` without a return type, the
      first argument of a source `Promise<T>`, the type itself otherwise. */
  function UnwrapReturnType(a: ActionRecord, m: map<nat, string>): TypeExpr
  {
    if a.returnType.None? then Kw(VoidKw)
    else if IsSourcePromise(a.returnType.value) && |a.returnType.value.args| > 0 then
      Clone(m, a.returnType.value.args[0])
    else Clone(m, a.returnType.value)
  }

  /** Wrapping and unwrapping agree: the wrapped type is `Promise` of the
      unwrapped one, except that a source `Promise` keeps its own reference
      node, whose first argument is then the unwrapped type. Only a bare
      source `Promise` without arguments unwraps to itself. */
  lemma WrapUnwrapAgree(a: ActionRecord, m: map<nat, string>)
    ensures !(a.returnType.Some? && IsSourcePromise(a.returnType.value)) ==>
      WrapperReturnType(a, m) == PromiseOf(UnwrapReturnType(a, m))
    ensures a.returnType.Some? && IsSourcePromise(a.returnType.value) && |a.returnType.value.args| > 0 ==>
      var w := WrapperReturnType(a, m);
      w.Ref? && w.origin == a.returnType.value.origin && |w.args| == |a.returnType.value.args|
      && w.args[0] == UnwrapReturnType(a, m)
    ensures a.returnType.Some? && IsSourcePromise(a.returnType.value) && |a.returnType.value.args| == 0 ==>
      WrapperReturnType(a, m) == UnwrapReturnType(a, m)
  {
    if a.returnType.Some? && IsSourcePromise(a.returnType.value) && |a.returnType.value.args| > 0 {
      var t := a.returnType.value;
      assert CloneSeq(m, t.args)[0] == Clone(m, t.args[0]);
      CloneSeqLength(m, t.args);
    }
  }

  lemma {:induction false} CloneSeqLength(m: map<nat, string>, ts: seq<TypeExpr>)
    ensures |CloneSeq(m, ts)| == |ts|
  {
    if ts != [] {
      CloneSeqLength(m, ts[1..]);
    }
  }

  /** A source `Promise` is never wrapped a second time: the overload's
      return type has its shape. */
  lemma SourcePromiseNotRewrapped(a: ActionRecord, m: map<nat, string>)
    requires a.returnType.Some? && IsSourcePromise(a.returnType.value)
    ensures Erase(WrapperReturnType(a, m)) == Erase(a.returnType.value)
  {
    CloneKeepsShape(m, a.returnType.value);
  }

  // ---------------------------------------------------------------------
  // Parameters and type parameters
  // ---------------------------------------------------------------------

  /** The `action` parameter's type: the generic name when one is given,
      else the literal id, else `string`. An empty string is absent. */
  function ActionParamType(a: ActionRecord, generic: string): TypeExpr
  {
    if generic != "" then Synth(generic, [])
    else if a.id.Some? && a.id.value != "" then StrLit(a.id.value)
    else Kw(StringKw)
  }

  /** `(ctx: m.Context, action, params, meta?: m.CallingOptions)`. */
  function WrapperParameters(a: ActionRecord, m: map<nat, string>, generic: string): seq<Param>
  {
    [ Param("ctx", false, Synth(MoleculerName + ".Context", [])),
      Param("action", false, ActionParamType(a, generic)),
      Param("params", a.params.None?, if a.params.Some? then Clone(m, a.params.value) else Kw(UndefinedKw)),
      Param("meta", true, Synth(MoleculerName + ".CallingOptions", [])) ]
  }

  /** The four parameters; `params` is optional and typed `undefined`
      exactly when the record has no params, and carries the rewritten
      params otherwise. */
  lemma WrapperParametersShape(a: ActionRecord, m: map<nat, string>, generic: string)
    ensures var ps := WrapperParameters(a, m, generic);
      && |ps| == 4
      && ps[0].name == "ctx" && ps[1].name == "action" && ps[2].name == "params" && ps[3].name == "meta"
      && !ps[0].optional && !ps[1].optional && ps[3].optional
      && (ps[2].optional <==> a.params.None?)
      && (a.params.None? ==> ps[2].paramType == Kw(UndefinedKw))
      && (a.params.Some? ==> Erase(ps[2].paramType) == Erase(a.params.value))
      && (generic != "" ==> ps[1].paramType == Synth(generic, []))
      && (generic == "" && a.id.Some? && a.id.value != "" ==> ps[1].paramType == StrLit(a.id.value))
      && (generic == "" && (a.id.None? || a.id.value == "") ==> ps[1].paramType == Kw(StringKw))
  {
    if a.params.Some? {
      CloneKeepsShape(m, a.params.value);
    }
  }

  function WrapperTypeParameters(a: ActionRecord, m: map<nat, string>): seq<TypeParam>
  {
    if a.typeParameters.None? then [] else CloneParams(m, a.typeParameters.value)
  }

  function Overload(a: ActionRecord, m: map<nat, string>, name: string, generic: string, hasBody: bool)
    : FunctionDecl
  {
    FunctionDecl(name, WrapperTypeParameters(a, m), WrapperParameters(a, m, generic), WrapperReturnType(a, m), hasBody)
  }

  // ---------------------------------------------------------------------
  // Fresh template names
  // ---------------------------------------------------------------------

  /** `k` letters `N`. */
  function Ns(k: nat): (r: string)
    ensures |r| == k
    ensures forall i :: 0 <= i < k ==> r[i] == 'N'
  {
    if k == 0 then "" else Ns(k - 1) + "N"
  }

  /** `N`, `NN`, ..., up to length `k - 1`. */
  function NsBelow(k: nat): set<string>
  {
    set j | 1 <= j < k :: Ns(j)
  }

  lemma NsBelowShorter(k: nat, s: string)
    requires s in NsBelow(k)
    ensures |s| < k
  {
  }

  lemma NsBelowStep(names: set<string>, k: nat)
    requires k >= 1
    requires NsBelow(k) <= names && Ns(k) in names
    ensures NsBelow(k + 1) <= names
    ensures |names - NsBelow(k + 1)| < |names - NsBelow(k)|
  {
    assert Ns(k) !in NsBelow(k) by {
      if Ns(k) in NsBelow(k) {
        NsBelowShorter(k, Ns(k));
      }
    }
    assert NsBelow(k + 1) == NsBelow(k) + {Ns(k)};
    assert names - NsBelow(k) == (names - NsBelow(k + 1)) + {Ns(k)};
  }

  /** The first string of `N`s, from length `k` on, that is not among `names`. */
  function FreshFrom(names: set<string>, k: nat): (r: string)
    requires k >= 1
    requires NsBelow(k) <= names
    ensures |r| >= k && r == Ns(|r|)
    ensures r !in names
    ensures NsBelow(|r|) <= names
    decreases |names - NsBelow(k)|
  {
    if Ns(k) !in names then Ns(k)
    else
      NsBelowStep(names, k);
      FreshFrom(names, k + 1)
  }

  /** The names of a record's type parameters. */
  function TemplateNames(a: ActionRecord): set<string>
  {
    if a.typeParameters.None? then {}
    else set i | 0 <= i < |a.typeParameters.value| :: a.typeParameters.value[i].name
  }

  function FreshTemplateName(a: ActionRecord): string
  {
    FreshFrom(TemplateNames(a), 1)
  }

  /** The template name is non-empty, made of `N`s only, names no type
      parameter of the action, and every shorter such string does. */
  lemma FreshTemplateNameShortest(a: ActionRecord)
    ensures var n := FreshTemplateName(a);
      && |n| >= 1 && (forall i :: 0 <= i < |n| ==> n[i] == 'N')
      && n !in TemplateNames(a)
      && (forall j :: 1 <= j < |n| ==> Ns(j) in TemplateNames(a))
  {
    var n := FreshTemplateName(a);
    forall j | 1 <= j < |n| ensures Ns(j) in TemplateNames(a) {
      assert Ns(j) in NsBelow(|n|);
    }
  }

  method FindUnusedTemplateName(a: ActionRecord) returns (name: string)
    ensures name == FreshTemplateName(a)
  {
    var typeNames := TemplateNames(a);
    name := "N";
    assert name == Ns(1);
    while name in typeNames
      invariant |name| >= 1 && name == Ns(|name|) && NsBelow(|name|) <= typeNames
      invariant FreshFrom(typeNames, |name|) == FreshFrom(typeNames, 1)
      decreases |typeNames - NsBelow(|name|)|
    {
      NsBelowStep(typeNames, |name|);
      name := name + "N";
    }
  }

  // ---------------------------------------------------------------------
  // Import ordering
  // ---------------------------------------------------------------------

  predicate IsScoped(k: string) { |k| > 0 && k[0] == '@' }
  predicate IsRelative(k: string) { |k| > 0 && k[0] == '.' }
  predicate IsBare(k: string) { !IsRelative(k) && !IsScoped(k) }

  function Identity(k: string): string { k }

  /** The emitted import order: sorted, then scoped packages, other
      packages and relative paths. */
  function OrderImports(keys: seq<string>): seq<string>
  {
    var s := SortBy(keys, Identity);
    Filter(s, IsScoped) + Filter(s, IsBare) + Filter(s, IsRelative)
  }

  /** The group of a key: 0 scoped, 1 other packages, 2 relative. */
  function Rank(k: string): nat
  {
    if IsScoped(k) then 0 else if IsRelative(k) then 2 else 1
  }

  ghost predicate ImportOrdered(r: seq<string>)
  {
    forall i, j :: 0 <= i < j < |r| ==> Rank(r[i]) < Rank(r[j]) || (Rank(r[i]) == Rank(r[j]) && StrLe(r[i], r[j]))
  }

  lemma GroupOrdered(s: seq<string>, p: string -> bool, rank: nat)
    requires SortedBy(s, Identity)
    requires forall x :: p(x) ==> Rank(x) == rank
    ensures ImportOrdered(Filter(s, p))
    ensures forall x :: x in Filter(s, p) ==> Rank(x) == rank
  {
    FilterSorted(s, p, Identity);
    forall x | x in Filter(s, p) ensures Rank(x) == rank {
      FilterMember(s, p, x);
    }
  }

  lemma AppendOrdered(a: seq<string>, b: seq<string>)
    requires ImportOrdered(a) && ImportOrdered(b)
    requires forall x, y :: x in a && y in b ==> Rank(x) < Rank(y)
    ensures ImportOrdered(a + b)
  {
    var r := a + b;
    forall i, j | 0 <= i < j < |r|
      ensures Rank(r[i]) < Rank(r[j]) || (Rank(r[i]) == Rank(r[j]) && StrLe(r[i], r[j]))
    {
      if j < |a| {
        assert r[i] == a[i] && r[j] == a[j];
      } else if i >= |a| {
        assert r[i] == b[i - |a|] && r[j] == b[j - |a|];
      } else {
        assert r[i] in a && r[j] in b;
      }
    }
  }

  /** Scoped keys come first, then other packages, then relative paths, and
      each group is in sorted order. */
  lemma OrderImportsGrouped(keys: seq<string>)
    ensures ImportOrdered(OrderImports(keys))
  {
    var s := SortBy(keys, Identity);
    GroupOrdered(s, IsScoped, 0);
    GroupOrdered(s, IsBare, 1);
    GroupOrdered(s, IsRelative, 2);
    AppendOrdered(Filter(s, IsScoped), Filter(s, IsBare));
    AppendOrdered(Filter(s, IsScoped) + Filter(s, IsBare), Filter(s, IsRelative));
  }

  /** The head of a key sequence falls in exactly one of the three groups. */
  lemma ThreeWayHead(x: string)
    ensures var h1 := if IsScoped(x) then [x] else [];
      var h2 := if IsBare(x) then [x] else [];
      var h3 := if IsRelative(x) then [x] else [];
      multiset(h1) + multiset(h2) + multiset(h3) == multiset{x}
  {
    if IsScoped(x) {
      assert !IsBare(x) && !IsRelative(x);
    } else if IsRelative(x) {
      assert !IsBare(x);
    }
  }

  lemma FilterConsMultiset(s: seq<string>, p: string -> bool)
    requires s != []
    ensures multiset(Filter(s, p)) == multiset(if p(s[0]) then [s[0]] else []) + multiset(Filter(s[1..], p))
  {
  }

  lemma MultisetCons(s: seq<string>)
    requires s != []
    ensures multiset(s) == multiset{s[0]} + multiset(s[1..])
  {
    assert s == [s[0]] + s[1..];
  }

  lemma MultisetSums(h1: multiset<string>, h2: multiset<string>, h3: multiset<string>,
                     r1: multiset<string>, r2: multiset<string>, r3: multiset<string>,
                     head: multiset<string>, rest: multiset<string>)
    requires h1 + h2 + h3 == head && r1 + r2 + r3 == rest
    ensures (h1 + r1) + (h2 + r2) + (h3 + r3) == head + rest
  {
  }

  lemma {:induction false} FilterThreeWay(s: seq<string>)
    ensures multiset(Filter(s, IsScoped)) + multiset(Filter(s, IsBare)) + multiset(Filter(s, IsRelative)) == multiset(s)
  {
    if s != [] {
      var x := s[0];
      FilterThreeWay(s[1..]);
      FilterConsMultiset(s, IsScoped);
      FilterConsMultiset(s, IsBare);
      FilterConsMultiset(s, IsRelative);
      ThreeWayHead(x);
      MultisetCons(s);
      MultisetSums(multiset(if IsScoped(x) then [x] else []), multiset(if IsBare(x) then [x] else []),
                   multiset(if IsRelative(x) then [x] else []),
                   multiset(Filter(s[1..], IsScoped)), multiset(Filter(s[1..], IsBare)),
                   multiset(Filter(s[1..], IsRelative)), multiset{x}, multiset(s[1..]));
    }
  }

  /** The emitted imports are a permutation of the registered keys. */
  lemma OrderImportsPermutation(keys: seq<string>)
    ensures multiset(OrderImports(keys)) == multiset(keys)
    ensures forall k :: k in OrderImports(keys) <==> k in keys
    ensures |OrderImports(keys)| == |keys|
  {
    var s := SortBy(keys, Identity);
    FilterThreeWay(s);
    assert multiset(OrderImports(keys)) == multiset(keys);
    assert |OrderImports(keys)| == |multiset(OrderImports(keys))|;
    forall k ensures k in OrderImports(keys) <==> k in keys {
      assert k in OrderImports(keys) <==> k in multiset(OrderImports(keys));
      assert k in keys <==> k in multiset(keys);
    }
  }

  /** One `import type * as alias from 'path'` per path, in order. */
  function ImportSection(paths: seq<string>, imports: map<string, string>): (r: seq<Statement>)
    requires forall i :: 0 <= i < |paths| ==> paths[i] in imports
    ensures |r| == |paths|
    ensures forall i :: 0 <= i < |paths| ==> r[i] == ImportStmt(imports[paths[i]], paths[i])
    decreases |paths|
  {
    if paths == [] then []
    else ImportSection(paths[..|paths| - 1], imports) + [ImportStmt(imports[paths[|paths| - 1]], paths[|paths| - 1])]
  }

  // ---------------------------------------------------------------------
  // Action partitioning
  // ---------------------------------------------------------------------

  /** The sort key: the id, or the empty string without one. */
  function ActionKey(a: ActionRecord): string
  {
    if a.id.Some? then a.id.value else ""
  }

  datatype Bucket = CallTBucket | CallBucket | ActionsBucket | ActionsUBucket

  predicate HasTypeParameters(a: ActionRecord)
  {
    a.typeParameters.Some? && |a.typeParameters.value| > 0
  }

  /** Where an action's signature goes. */
  function BucketOf(a: ActionRecord): (b: Bucket)
    ensures b == CallTBucket <==> HasTypeParameters(a) && a.params.Some?
    ensures b == CallBucket <==> HasTypeParameters(a) && a.params.None?
    ensures b == ActionsBucket <==> !HasTypeParameters(a) && a.params.Some?
    ensures b == ActionsUBucket <==> !HasTypeParameters(a) && a.params.None?
  {
    if HasTypeParameters(a) then (if a.params.Some? then CallTBucket else CallBucket)
    else if a.params.Some? then ActionsBucket else ActionsUBucket
  }

  /** A generic action with params after the rewrap: its params guarded by
      `N extends "<id>" ? params : never`, and a type parameter `N extends
      string = "<id>"` appended to its cloned type parameters. */
  function Rewrapped(a: ActionRecord, m: map<nat, string>, tname: string): ActionRecord
    requires a.params.Some?
  {
    var id := ActionKey(a);
    ActionRecord(a.id,
                 Some(Conditional(Synth(tname, []), StrLit(id), a.params.value, Kw(NeverKw))),
                 a.returnType,
                 Some(WrapperTypeParameters(a, m) + [TypeParam(tname, Some(Kw(StringKw)), Some(StrLit(id)))]))
  }

  function CallTOverload(a: ActionRecord, m: map<nat, string>): FunctionDecl
    requires a.params.Some?
  {
    var tname := FreshTemplateName(a);
    Overload(Rewrapped(a, m, tname), m, "callT", tname, false)
  }

  function CallOverload(a: ActionRecord, m: map<nat, string>): FunctionDecl
  {
    Overload(a, m, "call", "", false)
  }

  /** `"<id>": [params, unwrapped return]` in `Actions`. */
  function ActionsMember(a: ActionRecord, m: map<nat, string>): PropertySig
    requires a.params.Some?
  {
    PropertySig(ActionKey(a), Tuple([Clone(m, a.params.value), UnwrapReturnType(a, m)]))
  }

  /** `"<id>": unwrapped return` in `ActionsU`. */
  function ActionsUMember(a: ActionRecord, m: map<nat, string>): PropertySig
  {
    PropertySig(ActionKey(a), UnwrapReturnType(a, m))
  }

  function CallTGroup(s: seq<ActionRecord>, m: map<nat, string>): seq<FunctionDecl>
    decreases |s|
  {
    if s == [] then []
    else
      var last := s[|s| - 1];
      CallTGroup(s[..|s| - 1], m) + (if BucketOf(last) == CallTBucket then [CallTOverload(last, m)] else [])
  }

  function CallGroup(s: seq<ActionRecord>, m: map<nat, string>): seq<FunctionDecl>
    decreases |s|
  {
    if s == [] then []
    else
      var last := s[|s| - 1];
      CallGroup(s[..|s| - 1], m) + (if BucketOf(last) == CallBucket then [CallOverload(last, m)] else [])
  }

  function ActionsGroup(s: seq<ActionRecord>, m: map<nat, string>): seq<PropertySig>
    decreases |s|
  {
    if s == [] then []
    else
      var last := s[|s| - 1];
      ActionsGroup(s[..|s| - 1], m) + (if BucketOf(last) == ActionsBucket then [ActionsMember(last, m)] else [])
  }

  function ActionsUGroup(s: seq<ActionRecord>, m: map<nat, string>): seq<PropertySig>
    decreases |s|
  {
    if s == [] then []
    else
      var last := s[|s| - 1];
      ActionsUGroup(s[..|s| - 1], m) + (if BucketOf(last) == ActionsUBucket then [ActionsUMember(last, m)] else [])
  }

  /** Every action yields exactly one entry: the four groups together have
      one entry per action. */
  lemma {:induction false} GroupsPartition(s: seq<ActionRecord>, m: map<nat, string>)
    ensures |CallTGroup(s, m)| + |CallGroup(s, m)| + |ActionsGroup(s, m)| + |ActionsUGroup(s, m)| == |s|
    decreases |s|
  {
    if s != [] {
      GroupsPartition(s[..|s| - 1], m);
    }
  }

  /** The actions of one bucket, in order. */
  function InBucket(s: seq<ActionRecord>, b: Bucket): seq<ActionRecord>
    decreases |s|
  {
    if s == [] then []
    else InBucket(s[..|s| - 1], b) + (if BucketOf(s[|s| - 1]) == b then [s[|s| - 1]] else [])
  }

  lemma {:induction false} InBucketMembers(s: seq<ActionRecord>, b: Bucket)
    ensures forall a :: a in InBucket(s, b) <==> a in s && BucketOf(a) == b
    decreases |s|
  {
    if s != [] {
      var init := s[..|s| - 1];
      InBucketMembers(init, b);
      assert s == init + [s[|s| - 1]];
    }
  }

  /** The `callT` group holds, in order, the overload of each action of its
      bucket. */
  lemma {:induction false} CallTGroupOfBucket(s: seq<ActionRecord>, m: map<nat, string>)
    ensures |CallTGroup(s, m)| == |InBucket(s, CallTBucket)|
    ensures forall i :: 0 <= i < |CallTGroup(s, m)| ==>
      InBucket(s, CallTBucket)[i].params.Some? && CallTGroup(s, m)[i] == CallTOverload(InBucket(s, CallTBucket)[i], m)
    decreases |s|
  {
    if s != [] {
      CallTGroupOfBucket(s[..|s| - 1], m);
    }
  }

  /** The `Actions` interface holds, in order, the member of each action of
      its bucket. */
  lemma {:induction false} ActionsGroupOfBucket(s: seq<ActionRecord>, m: map<nat, string>)
    ensures |ActionsGroup(s, m)| == |InBucket(s, ActionsBucket)|
    ensures forall i :: 0 <= i < |ActionsGroup(s, m)| ==>
      InBucket(s, ActionsBucket)[i].params.Some? && ActionsGroup(s, m)[i] == ActionsMember(InBucket(s, ActionsBucket)[i], m)
    decreases |s|
  {
    if s != [] {
      ActionsGroupOfBucket(s[..|s| - 1], m);
    }
  }

  /** The `ActionsU` interface holds, in order, the member of each action of
      its bucket. */
  lemma {:induction false} ActionsUGroupOfBucket(s: seq<ActionRecord>, m: map<nat, string>)
    ensures |ActionsUGroup(s, m)| == |InBucket(s, ActionsUBucket)|
    ensures forall i :: 0 <= i < |ActionsUGroup(s, m)| ==>
      ActionsUGroup(s, m)[i] == ActionsUMember(InBucket(s, ActionsUBucket)[i], m)
    decreases |s|
  {
    if s != [] {
      ActionsUGroupOfBucket(s[..|s| - 1], m);
    }
  }

  /** The non-template `call` overloads, in order, one per action of the
      bucket. */
  lemma {:induction false} CallGroupOfBucket(s: seq<ActionRecord>, m: map<nat, string>)
    ensures |CallGroup(s, m)| == |InBucket(s, CallBucket)|
    ensures forall i :: 0 <= i < |CallGroup(s, m)| ==>
      CallGroup(s, m)[i] == CallOverload(InBucket(s, CallBucket)[i], m)
    decreases |s|
  {
    if s != [] {
      CallGroupOfBucket(s[..|s| - 1], m);
    }
  }

  lemma {:induction false} CloneParamsAppend(m: map<nat, string>, a: seq<TypeParam>, b: seq<TypeParam>)
    ensures CloneParams(m, a + b) == CloneParams(m, a) + CloneParams(m, b)
  {
    var l := CloneParams(m, a + b);
    var r := CloneParams(m, a) + CloneParams(m, b);
    assert |l| == |r|;
    forall i | 0 <= i < |l| ensures l[i] == r[i] {
      if i < |a| {
        assert (a + b)[i] == a[i];
      } else {
        assert (a + b)[i] == b[i - |a|];
      }
    }
  }

  /** The `callT` overload of a generic action with params: its `action`
      parameter is the fresh template name `N`, its params are
      `N extends "<id>" ? params : never` with the params rewritten, and its
      type parameters are the action's own, rewritten, followed by
      `N extends string = "<id>"`. `N` captures none of them. */
  lemma CallTOverloadShape(a: ActionRecord, m: map<nat, string>)
    requires BucketOf(a) == CallTBucket
    ensures var o := CallTOverload(a, m);
      var n := FreshTemplateName(a);
      var id := ActionKey(a);
      var own := CloneParams(m, a.typeParameters.value);
      && o.name == "callT" && !o.hasBody
      && o.parameters[1].paramType == Synth(n, [])
      && o.parameters[2].paramType == Conditional(Synth(n, []), StrLit(id), Clone(m, a.params.value), Kw(NeverKw))
      && !o.parameters[2].optional
      && o.typeParameters == own + [TypeParam(n, Some(Kw(StringKw)), Some(StrLit(id)))]
      && (forall i :: 0 <= i < |own| ==> own[i].name != n)
      && o.returnType == WrapperReturnType(a, m)
  {
    var n := FreshTemplateName(a);
    var id := ActionKey(a);
    var tps := a.typeParameters.value;
    var tp := TypeParam(n, Some(Kw(StringKw)), Some(StrLit(id)));
    FreshTemplateNameShortest(a);
    CloneParamsAppend(m, CloneParams(m, tps), [tp]);
    CloneParamsIdempotent(m, tps);
    assert CloneParams(m, [tp]) == [tp] by {
      assert CloneParams(m, [tp])[0] == CloneParam(m, tp);
    }
    assert Clone(m, Synth(n, [])) == Synth(n, []) by {
      assert CloneSeq(m, []) == [];
    }
    var r := Rewrapped(a, m, n);
    var cond := Conditional(Synth(n, []), StrLit(id), a.params.value, Kw(NeverKw));
    assert r.params == Some(cond);
    assert Clone(m, cond) == Conditional(Synth(n, []), StrLit(id), Clone(m, a.params.value), Kw(NeverKw));
    assert WrapperParameters(r, m, n)[2] == Param("params", false, Clone(m, cond));
    var own := CloneParams(m, tps);
    forall i | 0 <= i < |own| ensures own[i].name != n {
      assert own[i].name == tps[i].name;
      assert tps[i].name in TemplateNames(a);
    }
  }

  // ---------------------------------------------------------------------
  // The fixed trailer
  // ---------------------------------------------------------------------

  /** The generic overload over `Actions`: `N extends keyof Actions`,
      params `Actions[N][0]`, return `Actions[N][1]`. */
  function ParamsOverload(m: map<nat, string>): FunctionDecl
  {
    var tab := Synth(ParamsActions, []);
    var entry := IndexedAccess(tab, Synth("N", []));
    Overload(ActionRecord(None, Some(IndexedAccess(entry, NumLit(0))), Some(IndexedAccess(entry, NumLit(1))),
                          Some([TypeParam("N", Some(KeyOf(tab)), None)])),
             m, "call", "N", false)
  }

  /** The generic overload over `ActionsU`: `N extends keyof ActionsU`, no
      params, return `ActionsU[N]`. */
  function NoParamsOverload(m: map<nat, string>): FunctionDecl
  {
    var tab := Synth(NoParamsActions, []);
    Overload(ActionRecord(None, None, Some(IndexedAccess(tab, Synth("N", []))),
                          Some([TypeParam("N", Some(KeyOf(tab)), None)])),
             m, "call", "N", false)
  }

  /** The implementation signature shared by `call` and `callT`. */
  function Implementation(m: map<nat, string>, name: string): FunctionDecl
  {
    Overload(ActionRecord(None, Some(Kw(UnknownKw)), Some(Kw(UnknownKw)), None), m, name, "", true)
  }

  /** The generic overload for actions with params is keyed on
      `keyof Actions`: its params are `Actions[N][0]` and its return type
      is `Promise<Actions[N][1]>`. */
  lemma ParamsOverloadShape(m: map<nat, string>)
    ensures var o := ParamsOverload(m);
      && o.name == "call" && !o.hasBody
      && o.typeParameters == [TypeParam("N", Some(KeyOf(Synth(ParamsActions, []))), None)]
      && o.parameters[1].paramType == Synth("N", []) && !o.parameters[2].optional
      && o.parameters[2].paramType == IndexedAccess(IndexedAccess(Synth(ParamsActions, []), Synth("N", [])), NumLit(0))
      && o.returnType == PromiseOf(IndexedAccess(IndexedAccess(Synth(ParamsActions, []), Synth("N", [])), NumLit(1)))
  {
    assert CloneSeq(m, []) == [];
    var tps := [TypeParam("N", Some(KeyOf(Synth(ParamsActions, []))), None)];
    assert CloneParams(m, tps)[0] == CloneParam(m, tps[0]);
  }

  /** The generic overload for actions without params is keyed on
      `keyof ActionsU`: its params are optional and `undefined`, and its
      return type is `Promise<ActionsU[N]>`. */
  lemma NoParamsOverloadShape(m: map<nat, string>)
    ensures var o := NoParamsOverload(m);
      && o.name == "call" && !o.hasBody
      && o.typeParameters == [TypeParam("N", Some(KeyOf(Synth(NoParamsActions, []))), None)]
      && o.parameters[1].paramType == Synth("N", [])
      && o.parameters[2].optional && o.parameters[2].paramType == Kw(UndefinedKw)
      && o.returnType == PromiseOf(IndexedAccess(Synth(NoParamsActions, []), Synth("N", [])))
  {
    assert CloneSeq(m, []) == [];
    var tps := [TypeParam("N", Some(KeyOf(Synth(NoParamsActions, []))), None)];
    assert CloneParams(m, tps)[0] == CloneParam(m, tps[0]);
  }

  /** The implementations have a body, no type parameters, take
      `action: string` and `params: unknown`, and return `Promise<unknown>`. */
  lemma ImplementationShape(m: map<nat, string>, name: string)
    ensures var o := Implementation(m, name);
      && o.name == name && o.hasBody && o.typeParameters == []
      && o.parameters[1].paramType == Kw(StringKw)
      && o.parameters[2].paramType == Kw(UnknownKw) && !o.parameters[2].optional
      && o.returnType == PromiseOf(Kw(UnknownKw))
  {
  }

  function FunctionStmts(ds: seq<FunctionDecl>): (r: seq<Statement>)
    ensures |r| == |ds|
    ensures forall i :: 0 <= i < |ds| ==> r[i] == FunctionStmt(ds[i])
    decreases |ds|
  {
    if ds == [] then [] else FunctionStmts(ds[..|ds| - 1]) + [FunctionStmt(ds[|ds| - 1])]
  }

  /** What follows the imports: the two interfaces, the `call` group and
      its trailer, the `callT` group and its implementation; two
      statements plus one per generic action plus four trailer signatures. */
  function WrapperDeclarations(sorted: seq<ActionRecord>, m: map<nat, string>): (r: seq<Statement>)
    ensures |r| == 2 + |CallGroup(sorted, m)| + |CallTGroup(sorted, m)| + 4
  {
    [InterfaceDecl(ParamsActions, ActionsGroup(sorted, m)), InterfaceDecl(NoParamsActions, ActionsUGroup(sorted, m))]
    + FunctionStmts(CallGroup(sorted, m) + [ParamsOverload(m), NoParamsOverload(m), Implementation(m, "call")])
    + FunctionStmts(CallTGroup(sorted, m) + [Implementation(m, "callT")])
  }

  /** The generated module: the import section, then the declarations over
      the actions sorted by id. */
  function WrapperFile(actions: seq<ActionRecord>, keys: seq<string>, imports: map<string, string>,
                       m: map<nat, string>): seq<Statement>
    requires forall k :: k in keys ==> k in imports
  {
    var paths := OrderImports(keys);
    OrderImportsPermutation(keys);
    ImportSection(paths, imports) + WrapperDeclarations(SortBy(actions, ActionKey), m)
  }

  /** The module begins with the import section. */
  lemma WrapperFileStartsWithImports(actions: seq<ActionRecord>, keys: seq<string>, imports: map<string, string>,
                                     m: map<nat, string>)
    requires forall k :: k in keys ==> k in imports
    ensures forall k :: k in OrderImports(keys) ==> k in imports
    ensures var paths := OrderImports(keys);
      WrapperFile(actions, keys, imports, m)[..|paths|] == ImportSection(paths, imports)
  {
    OrderImportsPermutation(keys);
  }

  /** Under the alias table's invariant, the import section imports every
      registered key once each, under the alias derived from it. */
  lemma ImportSectionAliases(keys: seq<string>, imports: map<string, string>, digest: string -> string)
    requires forall i, j :: 0 <= i < j < |keys| ==> keys[i] != keys[j]
    requires forall k :: k in imports <==> k in keys
    requires forall k :: k in imports ==> imports[k] == UniqueNameFromKey(k, digest)
    ensures forall k :: k in OrderImports(keys) ==> k in imports
    ensures var section := ImportSection(OrderImports(keys), imports);
      && (forall i :: 0 <= i < |section| ==>
            section[i].path in keys && section[i].alias == UniqueNameFromKey(section[i].path, digest))
      && (forall k :: k in keys ==> ImportStmt(imports[k], k) in section)
      && (forall i, j :: 0 <= i < j < |section| ==> section[i].path != section[j].path)
  {
    OrderImportsPermutation(keys);
    var paths := OrderImports(keys);
    SectionDerivedAliases(keys, paths, imports, digest);
    SectionCovers(keys, paths, imports);
    ImportSectionDistinct(keys, imports);
  }

  /** Each statement of a section over registered keys binds its key's derived alias. */
  lemma SectionDerivedAliases(keys: seq<string>, paths: seq<string>, imports: map<string, string>,
                              digest: string -> string)
    requires forall k :: k in paths ==> k in keys
    requires forall k :: k in imports <==> k in keys
    requires forall k :: k in imports ==> imports[k] == UniqueNameFromKey(k, digest)
    ensures forall k :: k in paths ==> k in imports
    ensures var section := ImportSection(paths, imports);
      forall i :: 0 <= i < |section| ==>
        section[i].path in keys && section[i].alias == UniqueNameFromKey(section[i].path, digest)
  {
    var section := ImportSection(paths, imports);
    forall i | 0 <= i < |section|
      ensures section[i].path in keys && section[i].alias == UniqueNameFromKey(section[i].path, digest)
    {
      assert paths[i] in paths;
    }
  }

  lemma SectionCovers(keys: seq<string>, paths: seq<string>, imports: map<string, string>)
    requires forall k :: k in paths ==> k in imports
    requires forall k :: k in keys ==> k in paths
    ensures forall k :: k in keys ==> ImportStmt(imports[k], k) in ImportSection(paths, imports)
  {
    forall k | k in keys
      ensures ImportStmt(imports[k], k) in ImportSection(paths, imports)
    {
      var i :| 0 <= i < |paths| && paths[i] == k;
      assert ImportSection(paths, imports)[i] == ImportStmt(imports[paths[i]], paths[i]);
    }
  }

  lemma ImportSectionDistinct(keys: seq<string>, imports: map<string, string>)
    requires forall k :: k in keys ==> k in imports
    requires forall a, b :: 0 <= a < b < |keys| ==> keys[a] != keys[b]
    ensures forall k :: k in OrderImports(keys) ==> k in imports
    ensures var section := ImportSection(OrderImports(keys), imports);
      forall i, j :: 0 <= i < j < |section| ==> section[i].path != section[j].path
  {
    OrderImportsPermutation(keys);
    var paths := OrderImports(keys);
    var section := ImportSection(paths, imports);
    forall i, j | 0 <= i < j < |section| ensures section[i].path != section[j].path {
      DistinctKeysPermutation(keys, paths, i, j);
    }
  }

  /** A permutation of a sequence without duplicates has none either. */
  lemma DistinctKeysPermutation(keys: seq<string>, paths: seq<string>, i: nat, j: nat)
    requires forall a, b :: 0 <= a < b < |keys| ==> keys[a] != keys[b]
    requires multiset(paths) == multiset(keys)
    requires i < j < |paths|
    ensures paths[i] != paths[j]
  {
    var x := paths[i];
    assert paths == paths[..i] + [x] + paths[i + 1..j] + [paths[j]] + paths[j + 1..];
    assert multiset(paths) == multiset(paths[..i]) + multiset{x} + multiset(paths[i + 1..j]) + multiset{paths[j]}
                              + multiset(paths[j + 1..]);
    assert multiset(paths)[x] >= 1 + (if paths[j] == x then 1 else 0);
    DistinctCount(keys, x);
  }

  lemma {:induction false} DistinctCount(keys: seq<string>, x: string)
    requires forall a, b :: 0 <= a < b < |keys| ==> keys[a] != keys[b]
    ensures multiset(keys)[x] <= 1
    decreases |keys|
  {
    if keys != [] {
      var rest := keys[1..];
      forall a, b | 0 <= a < b < |rest| ensures rest[a] != rest[b] {
        assert rest[a] == keys[a + 1] && rest[b] == keys[b + 1];
      }
      DistinctCount(rest, x);
      assert keys == [keys[0]] + rest;
      assert multiset(keys) == multiset{keys[0]} + multiset(rest);
      forall b | 0 <= b < |rest| ensures rest[b] != keys[0] {
        assert rest[b] == keys[b + 1];
      }
      assert keys[0] !in rest;
    }
  }

  /** The import loop: one statement per ordered key. */
  method ImportStatements(paths: seq<string>, imports: map<string, string>) returns (stmts: seq<Statement>)
    requires forall k :: k in paths ==> k in imports
    ensures stmts == ImportSection(paths, imports)
  {
    stmts := [];
    for i := 0 to |paths|
      invariant stmts == ImportSection(paths[..i], imports)
    {
      assert paths[..i + 1][..i] == paths[..i];
      assert paths[i] in paths;
      var importName := imports[paths[i]];
      stmts := stmts + [ImportStmt(importName, paths[i])];
    }
    assert paths[..|paths|] == paths;
  }

  /** The action loop: each sorted action's signature goes into its bucket. */
  method PartitionActions(sortedActions: seq<ActionRecord>, m: map<nat, string>)
    returns (actionsProperties: seq<PropertySig>, actionsNoParamsProperties: seq<PropertySig>,
             callStmts: seq<FunctionDecl>, callTStmts: seq<FunctionDecl>)
    ensures actionsProperties == ActionsGroup(sortedActions, m)
    ensures actionsNoParamsProperties == ActionsUGroup(sortedActions, m)
    ensures callStmts == CallGroup(sortedActions, m)
    ensures callTStmts == CallTGroup(sortedActions, m)
  {
    actionsProperties, actionsNoParamsProperties, callStmts, callTStmts := [], [], [], [];
    for i := 0 to |sortedActions|
      invariant actionsProperties == ActionsGroup(sortedActions[..i], m)
      invariant actionsNoParamsProperties == ActionsUGroup(sortedActions[..i], m)
      invariant callStmts == CallGroup(sortedActions[..i], m)
      invariant callTStmts == CallTGroup(sortedActions[..i], m)
    {
      assert sortedActions[..i + 1][..i] == sortedActions[..i];
      var action := sortedActions[i];
      if action.typeParameters.Some? && |action.typeParameters.value| > 0 {
        var templateTypes := WrapperTypeParameters(action, m);
        if action.params.Some? {
          var actionTemplateName := FindUnusedTemplateName(action);
          var id := ActionKey(action);
          var rewrapped := ActionRecord(
            action.id,
            Some(Conditional(Synth(actionTemplateName, []), StrLit(id), action.params.value, Kw(NeverKw))),
            action.returnType,
            Some(templateTypes + [TypeParam(actionTemplateName, Some(Kw(StringKw)), Some(StrLit(id)))]));
          assert rewrapped == Rewrapped(action, m, actionTemplateName);
          callTStmts := callTStmts + [Overload(rewrapped, m, "callT", actionTemplateName, false)];
        } else {
          callStmts := callStmts + [Overload(action, m, "call", "", false)];
        }
      } else if action.params.Some? {
        actionsProperties := actionsProperties
          + [PropertySig(ActionKey(action), Tuple([Clone(m, action.params.value), UnwrapReturnType(action, m)]))];
      } else {
        actionsNoParamsProperties := actionsNoParamsProperties
          + [PropertySig(ActionKey(action), UnwrapReturnType(action, m))];
      }
    }
    assert sortedActions[..|sortedActions|] == sortedActions;
  }

  /** `buildCallWrapperFile`, up to printing. */
  method BuildCallWrapperFile(actions: seq<ActionRecord>, ctx: CallWrapperContext) returns (file: seq<Statement>)
    requires ctx.Valid()
    ensures forall k :: k in ctx.importKeys ==> k in ctx.imports
    ensures file == WrapperFile(actions, ctx.importKeys, ctx.imports, ctx.importMapping)
  {
    var m := ctx.importMapping;
    var sortedImports := OrderImports(ctx.importKeys);
    OrderImportsPermutation(ctx.importKeys);
    var stmts := ImportStatements(sortedImports, ctx.imports);
    var sortedActions := SortBy(actions, ActionKey);
    var actionsProperties, actionsNoParamsProperties, callStmts, callTStmts := PartitionActions(sortedActions, m);
    callStmts := callStmts + [ParamsOverload(m), NoParamsOverload(m), Implementation(m, "call")];
    callTStmts := callTStmts + [Implementation(m, "callT")];
    file := stmts + ([InterfaceDecl(ParamsActions, actionsProperties), InterfaceDecl(NoParamsActions, actionsNoParamsProperties)]
                     + FunctionStmts(callStmts) + FunctionStmts(callTStmts));
  }
}
