/** The alias table, the rewrite table and the substituting copy
    (src/utils.ts): module specifiers get stable aliases, type references
    that resolve to a named import get a node-id keyed rewrite, and the final
    structural copy applies those rewrites. */
module Utils {
  import opened TypeTree

  const MoleculerName := "m"
  const MoleculerKey := "moleculer"
  const SdkKey := "@wavyapp/wavy-sdk"
  const SdkName := "sdk"

  // ---------------------------------------------------------------------
  // Alias derivation
  // ---------------------------------------------------------------------

  predicate IsLetter(c: char) { 'a' <= c <= 'z' || 'A' <= c <= 'Z' }

  /** `\w`: a letter, a digit or an underscore. */
  predicate IsWordChar(c: char) { IsLetter(c) || '0' <= c <= '9' || c == '_' }

  predicate IsHexDigit(c: char) { '0' <= c <= '9' || 'a' <= c <= 'f' }

  /** The test `^[a-zA-Z]\w+$`: a letter followed by at least one word character. */
  predicate IsIdentifierKey(key: string)
  {
    |key| >= 2 && IsLetter(key[0]) && forall i :: 1 <= i < |key| ==> IsWordChar(key[i])
  }

  /** The lexical shape of a namespace-import binding: a letter, then word
      characters. Reserved words such as `new` have this shape too. */
  predicate IsBindingName(s: string)
  {
    |s| >= 1 && IsLetter(s[0]) && forall i :: 1 <= i < |s| ==> IsWordChar(s[i])
  }

  /** `'s'` followed by the first seven characters of the key's hex digest
      (JavaScript's `slice(0, 7)`, which keeps a shorter digest whole). */
  function HashAlias(key: string, digest: string -> string): string
  {
    var hex := digest(key);
    "s" + (if |hex| >= 7 then hex[..7] else hex)
  }

  /** The alias a module specifier receives the first time it is registered. */
  function UniqueNameFromKey(key: string, digest: string -> string): (r: string)
    ensures r != ""
  {
    if key == SdkKey then SdkName
    else if key == MoleculerKey then MoleculerName
    else if IsIdentifierKey(key) then key
    else HashAlias(key, digest)
  }

  lemma ReservedAliases(digest: string -> string)
    ensures UniqueNameFromKey(MoleculerKey, digest) == "m"
    ensures UniqueNameFromKey(SdkKey, digest) == "sdk"
  {
  }

  /** A key that passes the identifier test is its own alias, the reserved
      `moleculer` excepted; a single-letter key never passes it. */
  lemma IdentifierKeyIsOwnAlias(key: string, digest: string -> string)
    ensures IsIdentifierKey(key) && key != MoleculerKey ==> UniqueNameFromKey(key, digest) == key
    ensures |key| == 1 ==> UniqueNameFromKey(key, digest) == HashAlias(key, digest)
  {
  }

  /** Every other key gets `s` and seven digest characters: eight in all. */
  lemma HashAliasShape(key: string, digest: string -> string)
    requires key != SdkKey && key != MoleculerKey && !IsIdentifierKey(key)
    requires |digest(key)| >= 7
    ensures var r := UniqueNameFromKey(key, digest);
      |r| == 8 && r[0] == 's' && r[1..] == digest(key)[..7]
  {
  }

  /** With a hexadecimal digest every alias is a letter followed by word
      characters. */
  lemma AliasIsBindingName(key: string, digest: string -> string)
    requires forall i :: 0 <= i < |digest(key)| ==> IsHexDigit(digest(key)[i])
    ensures IsBindingName(UniqueNameFromKey(key, digest))
  {
    var r := UniqueNameFromKey(key, digest);
    if key != SdkKey && key != MoleculerKey && !IsIdentifierKey(key) {
      var hex := digest(key);
      var tail := if |hex| >= 7 then hex[..7] else hex;
      assert r == "s" + tail;
      forall i | 1 <= i < |r| ensures IsWordChar(r[i]) {
        assert r[i] == tail[i - 1] == hex[i - 1];
      }
    }
  }

  /** Keys that receive a reserved alias or pass the identifier test never
      share an alias, except the one pair `sdk` / `@wavyapp/wavy-sdk`. */
  lemma NamedAliasesDistinct(k1: string, k2: string, digest: string -> string)
    requires k1 != k2
    requires k1 == SdkKey || k1 == MoleculerKey || IsIdentifierKey(k1)
    requires k2 == SdkKey || k2 == MoleculerKey || IsIdentifierKey(k2)
    requires !(k1 == SdkName && k2 == SdkKey) && !(k1 == SdkKey && k2 == SdkName)
    ensures UniqueNameFromKey(k1, digest) != UniqueNameFromKey(k2, digest)
  {
  }

  /** The pair the previous lemma excludes really collides. */
  lemma SdkAliasCollision(digest: string -> string)
    ensures UniqueNameFromKey(SdkName, digest) == UniqueNameFromKey(SdkKey, digest)
  {
    assert IsIdentifierKey(SdkName);
  }

  /** The identifier test does not exclude reserved words: `new` is its own
      alias, although `import * as new` is not a legal declaration. */
  lemma ReservedWordKeyIsOwnAlias(digest: string -> string)
    ensures UniqueNameFromKey("new", digest) == "new"
  {
    assert IsIdentifierKey("new");
  }

  /** A hash alias can equal the alias of a key that is spelled like it:
      the identifier key `s` + seven hex digits is its own alias. */
  lemma HashAliasMatchesIdentifierKey(key: string, digest: string -> string)
    requires key != SdkKey && key != MoleculerKey && !IsIdentifierKey(key)
    requires |digest(key)| >= 7
    requires forall i :: 0 <= i < 7 ==> IsHexDigit(digest(key)[i])
    ensures var twin := "s" + digest(key)[..7];
      twin != key && UniqueNameFromKey(twin, digest) == UniqueNameFromKey(key, digest)
  {
    var twin := "s" + digest(key)[..7];
    assert forall i :: 1 <= i < |twin| ==> twin[i] == digest(key)[i - 1];
    assert IsIdentifierKey(twin);
    assert twin != SdkKey && twin != MoleculerKey;
  }

  // ---------------------------------------------------------------------
  // Resolving a type reference against the file's named imports
  // ---------------------------------------------------------------------

  /** The index of the first import element bound locally under `name`. */
  function FirstBinding(elems: seq<ImportSpecifier>, name: string): (r: Option<nat>)
    ensures r.Some? ==> r.value < |elems| && elems[r.value].name == name
    ensures r.Some? ==> forall j :: 0 <= j < r.value ==> elems[j].name != name
    ensures r.None? ==> forall j :: 0 <= j < |elems| ==> elems[j].name != name
  {
    if elems == [] then None
    else if elems[0].name == name then Some(0)
    else match FirstBinding(elems[1..], name)
      case None => None
      case Some(i) => Some(i + 1)
  }

  /** Whether a declaration has a named binding `{ ..., name, ... }`. */
  predicate Binds(d: ImportDecl, name: string)
  {
    d.namedBindings.Some? && exists j :: 0 <= j < |d.namedBindings.value| && d.namedBindings.value[j].name == name
  }

  /** The exported name a reference stands for when the binding `e` matched
      its leading name. A plain binding keeps the full reference text; a
      renamed binding `A as B` turns `B` into `A` and, for a qualified
      reference `B.C`, keeps the member: `A.C` (see ImportedNameAsWritten). */
  function ImportedName(e: ImportSpecifier, n: TypeName): string
  {
    match e.propertyName
    case None => NameText(n)
    case Some(p) => match n
      case Simple(_) => p
      case Qualified(_, right) => p + "." + right
  }

  /** The same computation as the source writes it: a renamed binding
      contributes only its `propertyName`, whatever the reference's shape. */
  function ImportedNameAsWritten(e: ImportSpecifier, n: TypeName): string
  {
    match e.propertyName
    case None => NameText(n)
    case Some(p) => p
  }

  /** Replacing the local binding name at the head of the reference text by
      the exported name gives exactly `ImportedName`. */
  lemma {:induction false} ImportedNameRenamesHead(e: ImportSpecifier, n: TypeName)
    requires LeadingName(n) == e.name
    ensures |e.name| <= |NameText(n)| && NameText(n)[..|e.name|] == e.name
    ensures ImportedName(e, n) ==
      (if e.propertyName.Some? then e.propertyName.value else e.name) + NameText(n)[|e.name|..]
  {
    match n
    case Simple(s) =>
    case Qualified(l, r) =>
      assert NameText(n) == NameText(l) + "." + r;
      assert NameText(n)[|e.name|..] == "." + r;
  }

  /** The source's version drops the member of a renamed qualified reference. */
  lemma RenamedQualifiedReference()
    ensures ImportedNameAsWritten(ImportSpecifier("B", Some("A")), Qualified(Simple("B"), "C")) == "A"
    ensures ImportedName(ImportSpecifier("B", Some("A")), Qualified(Simple("B"), "C")) == "A.C"
  {
  }

  /** The two computations differ exactly on a renamed binding used by a
      qualified reference. */
  lemma ImportedNamesAgree(e: ImportSpecifier, n: TypeName)
    ensures ImportedName(e, n) == ImportedNameAsWritten(e, n) <==> !(e.propertyName.Some? && n.Qualified?)
  {
    if e.propertyName.Some? && n.Qualified? {
      assert |ImportedName(e, n)| > |ImportedNameAsWritten(e, n)|;
    }
  }

  datatype Binding = Binding(specifier: string, importName: string)

  /** `r` is what the first declaration binding the leading name of `n`
      contributes: its specifier, and the exported name of its first element
      bound under that name. */
  predicate BindingFrom(decls: seq<ImportDecl>, n: TypeName, i: int, r: Binding)
  {
    && 0 <= i < |decls| && Binds(decls[i], LeadingName(n))
    && (forall j :: 0 <= j < i ==> !Binds(decls[j], LeadingName(n)))
    && r.specifier == decls[i].specifier
    && var k := FirstBinding(decls[i].namedBindings.value, LeadingName(n));
       k.Some? && r.importName == ImportedName(decls[i].namedBindings.value[k.value], n)
  }

  /** The first import declaration with a named binding for the reference's
      leading name, and the exported name the reference stands for. */
  function Resolve(decls: seq<ImportDecl>, n: TypeName): (r: Option<Binding>)
    ensures r.Some? <==> exists i :: 0 <= i < |decls| && Binds(decls[i], LeadingName(n))
    ensures r.Some? ==> exists i :: BindingFrom(decls, n, i, r.value)
  {
    if decls == [] then None
    else
      var d := decls[0];
      var found := if d.namedBindings.Some? then FirstBinding(d.namedBindings.value, LeadingName(n)) else None;
      if found.Some? then
        var b := Binding(d.specifier, ImportedName(d.namedBindings.value[found.value], n));
        assert BindingFrom(decls, n, 0, b);
        Some(b)
      else
        var rest := Resolve(decls[1..], n);
        assert !Binds(d, LeadingName(n));
        assert forall i :: 1 <= i < |decls| ==> decls[i] == decls[1..][i - 1];
        if rest.Some? then
          var i :| BindingFrom(decls[1..], n, i, rest.value);
          assert decls[1..][i] == decls[i + 1];
          assert BindingFrom(decls, n, i + 1, rest.value);
          rest
        else
          rest
  }

  /** A reference qualified twice, `A.B.C`, is looked up under `A.B`, which
      no import element is named: under `import { A }` it gets no rewrite. */
  lemma DoublyQualifiedNotResolved()
    ensures var n := Qualified(Qualified(Simple("A"), "B"), "C");
      && LeadingName(n) == "A.B"
      && Resolve([ImportDecl("./a", Some([ImportSpecifier("A", None)]))], n).None?
      && Resolve([ImportDecl("./a", Some([ImportSpecifier("A", None)]))], Qualified(Simple("A"), "B")).Some?
  {
    var n := Qualified(Qualified(Simple("A"), "B"), "C");
    var d := ImportDecl("./a", Some([ImportSpecifier("A", None)]));
    assert !Binds(d, "A.B");
    assert d.namedBindings.value[0].name == "A";
  }

  /** The specifier under which a module is registered: a relative
      specifier is recomputed against the output file (`relocate` stands for
      the path computation) and prefixed with `./`; a package specifier is
      kept verbatim. */
  function StoredKey(spec: string, relocate: string -> string): (k: string)
  {
    if |spec| > 0 && spec[0] == '.' then "./" + relocate(spec) else spec
  }

  /** A stored key starts with `.` only as `./`, and exactly when the
      specifier was relative; a package specifier is never altered. */
  lemma StoredKeyShape(spec: string, relocate: string -> string)
    ensures var k := StoredKey(spec, relocate);
      (|k| > 0 && k[0] == '.' <==> |spec| > 0 && spec[0] == '.')
      && (|k| > 0 && k[0] == '.' ==> |k| >= 2 && k[..2] == "./")
      && (!(|spec| > 0 && spec[0] == '.') ==> k == spec)
  {
  }

  // ---------------------------------------------------------------------
  // Type references of a subtree, in the order the walk visits them
  // ---------------------------------------------------------------------

  datatype RefSite = RefSite(origin: Origin, name: TypeName)

  /** Every type-reference node of `t`, children before their parent. */
  function RefsOf(t: TypeExpr): seq<RefSite>
    decreases t
  {
    match t
    case Ref(o, n, args) => RefsSeq(args) + [RefSite(o, n)]
    case Kw(_) => []
    case StrLit(_) => []
    case NumLit(_) => []
    case Conditional(a, b, c, d) => RefsOf(a) + (RefsOf(b) + (RefsOf(c) + RefsOf(d)))
    case Tuple(elems) => RefsSeq(elems)
    case IndexedAccess(o, i) => RefsOf(o) + RefsOf(i)
    case KeyOf(x) => RefsOf(x)
    case Composite(_, ch) => RefsSeq(ch)
  }

  function RefsSeq(ts: seq<TypeExpr>): seq<RefSite>
    decreases ts
  {
    if ts == [] then [] else RefsOf(ts[0]) + RefsSeq(ts[1..])
  }

  function RefsOpt(o: Option<TypeExpr>): seq<RefSite>
  {
    if o.Some? then RefsOf(o.value) else []
  }

  /** The references of a type parameter: its constraint, then its default. */
  function RefsParam(tp: TypeParam): seq<RefSite>
  {
    RefsOpt(tp.constraint) + RefsOpt(tp.default)
  }

  lemma {:induction false} RefsSeqSnoc(ts: seq<TypeExpr>, i: nat)
    requires i < |ts|
    ensures RefsSeq(ts[..i + 1]) == RefsSeq(ts[..i]) + RefsOf(ts[i])
  {
    if i == 0 {
      assert ts[..1] == [ts[0]];
      assert ts[..1][1..] == [];
    } else {
      assert ts[..i + 1][1..] == ts[1..][..i];
      assert ts[..i][1..] == ts[1..][..i - 1];
      RefsSeqSnoc(ts[1..], i - 1);
    }
  }

  /** The direct subtrees of a type node, in the order `forEachChild` visits them. */
  function TypeChildren(t: TypeExpr): (r: seq<TypeExpr>)
    ensures forall c :: c in r ==> c < t
  {
    match t
    case Ref(_, _, args) => args
    case Kw(_) => []
    case StrLit(_) => []
    case NumLit(_) => []
    case Conditional(a, b, c, d) => [a, b, c, d]
    case Tuple(elems) => elems
    case IndexedAccess(o, i) => [o, i]
    case KeyOf(x) => [x]
    case Composite(_, ch) => ch
  }

  lemma RefsSeq1(a: TypeExpr)
    ensures RefsSeq([a]) == RefsOf(a)
  {
    assert [a][1..] == [];
  }

  lemma RefsSeq2(a: TypeExpr, b: TypeExpr)
    ensures RefsSeq([a, b]) == RefsOf(a) + RefsOf(b)
  {
    assert [a, b][1..] == [b];
    RefsSeq1(b);
  }

  lemma RefsSeq4(a: TypeExpr, b: TypeExpr, c: TypeExpr, d: TypeExpr)
    ensures RefsSeq([a, b, c, d]) == RefsOf(a) + (RefsOf(b) + (RefsOf(c) + RefsOf(d)))
  {
    assert [a, b, c, d][1..] == [b, c, d];
    assert [b, c, d][1..] == [c, d];
    RefsSeq2(c, d);
  }

  /** The references of a node are those of its children, then the node itself. */
  lemma RefsOfByChildren(t: TypeExpr)
    ensures RefsOf(t) == RefsSeq(TypeChildren(t)) + (if t.Ref? then [RefSite(t.origin, t.name)] else [])
  {
    match t
    case Ref(_, _, _) =>
    case Kw(_) =>
    case StrLit(_) =>
    case NumLit(_) =>
    case Conditional(a, b, c, d) => RefsSeq4(a, b, c, d);
    case Tuple(_) =>
    case IndexedAccess(o, i) => RefsSeq2(o, i);
    case KeyOf(x) => RefsSeq1(x);
    case Composite(_, _) =>
  }

  // ---------------------------------------------------------------------
  // Rewrite entries produced by the walk
  // ---------------------------------------------------------------------

  /** One rewrite instruction: node `id` becomes `<alias of key>.<importName>`. */
  datatype Hit = Hit(id: nat, key: string, importName: string)

  /** The rewrite a single reference produces: none for a node without
      identity or whose leading name matches no named import. */
  function SiteHits(decls: seq<ImportDecl>, relocate: string -> string, s: RefSite): (r: seq<Hit>)
    ensures |r| <= 1
    ensures r != [] <==> s.origin.Parsed? && Resolve(decls, s.name).Some?
    ensures r != [] ==> (r[0].id == s.origin.id
      && r[0].key == StoredKey(Resolve(decls, s.name).value.specifier, relocate)
      && r[0].importName == Resolve(decls, s.name).value.importName)
  {
    match s.origin
    case Synthetic => []
    case Parsed(id) =>
      match Resolve(decls, s.name)
      case None => []
      case Some(b) => [Hit(id, StoredKey(b.specifier, relocate), b.importName)]
  }

  function HitsOf(decls: seq<ImportDecl>, relocate: string -> string, sites: seq<RefSite>): seq<Hit>
  {
    if sites == [] then [] else SiteHits(decls, relocate, sites[0]) + HitsOf(decls, relocate, sites[1..])
  }

  lemma {:induction false} HitsOfAppend(decls: seq<ImportDecl>, relocate: string -> string, a: seq<RefSite>, b: seq<RefSite>)
    ensures HitsOf(decls, relocate, a + b) == HitsOf(decls, relocate, a) + HitsOf(decls, relocate, b)
  {
    if a == [] {
      assert a + b == b;
    } else {
      assert (a + b)[0] == a[0];
      assert (a + b)[1..] == a[1..] + b;
      HitsOfAppend(decls, relocate, a[1..], b);
    }
  }

  /** The qualified name a rewrite substitutes. */
  function RewriteTarget(h: Hit, digest: string -> string): string
  {
    UniqueNameFromKey(h.key, digest) + "." + h.importName
  }

  /** Records the hits in order; a later hit on the same node overwrites. */
  function ApplyHits(m: map<nat, string>, hs: seq<Hit>, digest: string -> string): map<nat, string>
    decreases hs
  {
    if hs == [] then m else ApplyHits(m[hs[0].id := RewriteTarget(hs[0], digest)], hs[1..], digest)
  }

  lemma {:induction false} ApplyHitsAppend(m: map<nat, string>, a: seq<Hit>, b: seq<Hit>, digest: string -> string)
    ensures ApplyHits(m, a + b, digest) == ApplyHits(ApplyHits(m, a, digest), b, digest)
    decreases a
  {
    if a == [] {
      assert a + b == b;
    } else {
      assert (a + b)[0] == a[0];
      assert (a + b)[1..] == a[1..] + b;
      ApplyHitsAppend(m[a[0].id := RewriteTarget(a[0], digest)], a[1..], b, digest);
    }
  }

  /** Entries are only added: the rewrite table's domain grows by the hit ids. */
  lemma {:induction false} ApplyHitsDomain(m: map<nat, string>, hs: seq<Hit>, digest: string -> string)
    ensures ApplyHits(m, hs, digest).Keys == m.Keys + set i | 0 <= i < |hs| :: hs[i].id
    decreases hs
  {
    if hs != [] {
      ApplyHitsDomain(m[hs[0].id := RewriteTarget(hs[0], digest)], hs[1..], digest);
      var rest := set i | 0 <= i < |hs[1..]| :: hs[1..][i].id;
      var all := set i | 0 <= i < |hs| :: hs[i].id;
      assert all == {hs[0].id} + rest by {
        forall x | x in all ensures x in {hs[0].id} + rest {
          var i :| 0 <= i < |hs| && hs[i].id == x;
          if i > 0 { assert hs[1..][i - 1].id == x; }
        }
        forall x | x in rest ensures x in all {
          var i :| 0 <= i < |hs[1..]| && hs[1..][i].id == x;
          assert hs[i + 1].id == x;
        }
      }
    }
  }

  /** The module specifiers a sequence of hits registers. */
  function HitKeys(hs: seq<Hit>): set<string>
  {
    if hs == [] then {} else {hs[0].key} + HitKeys(hs[1..])
  }

  lemma {:induction false} HitKeysAppend(a: seq<Hit>, b: seq<Hit>)
    ensures HitKeys(a + b) == HitKeys(a) + HitKeys(b)
  {
    if a == [] {
      assert a + b == b;
    } else {
      assert (a + b)[0] == a[0];
      assert (a + b)[1..] == a[1..] + b;
      HitKeysAppend(a[1..], b);
    }
  }

  // ---------------------------------------------------------------------
  // The structural copy with substitution
  // ---------------------------------------------------------------------

  /** The clone hook: a type reference whose node is in the rewrite table
      has its type name replaced by the recorded qualified name. */
  function RenamedSite(m: map<nat, string>, s: RefSite): RefSite
  {
    if s.origin.Parsed? && s.origin.id in m then RefSite(s.origin, Simple(m[s.origin.id])) else s
  }

  function RenamedSites(m: map<nat, string>, ss: seq<RefSite>): (r: seq<RefSite>)
    ensures |r| == |ss|
    ensures forall i :: 0 <= i < |ss| ==> r[i] == RenamedSite(m, ss[i])
  {
    if ss == [] then [] else [RenamedSite(m, ss[0])] + RenamedSites(m, ss[1..])
  }

  /** A structural copy of `t` in which every type reference present in the
      rewrite table gets its recorded name; type arguments are copied too. */
  function Clone(m: map<nat, string>, t: TypeExpr): TypeExpr
    decreases t
  {
    match t
    case Ref(o, n, args) =>
      var s := RenamedSite(m, RefSite(o, n));
      Ref(o, s.name, CloneSeq(m, args))
    case Kw(_) => t
    case StrLit(_) => t
    case NumLit(_) => t
    case Conditional(a, b, c, d) => Conditional(Clone(m, a), Clone(m, b), Clone(m, c), Clone(m, d))
    case Tuple(elems) => Tuple(CloneSeq(m, elems))
    case IndexedAccess(o, i) => IndexedAccess(Clone(m, o), Clone(m, i))
    case KeyOf(x) => KeyOf(Clone(m, x))
    case Composite(k, ch) => Composite(k, CloneSeq(m, ch))
  }

  function CloneSeq(m: map<nat, string>, ts: seq<TypeExpr>): seq<TypeExpr>
    decreases ts
  {
    if ts == [] then [] else [Clone(m, ts[0])] + CloneSeq(m, ts[1..])
  }

  function CloneOpt(m: map<nat, string>, o: Option<TypeExpr>): Option<TypeExpr>
  {
    if o.Some? then Some(Clone(m, o.value)) else None
  }

  function CloneParam(m: map<nat, string>, tp: TypeParam): TypeParam
  {
    TypeParam(tp.name, CloneOpt(m, tp.constraint), CloneOpt(m, tp.default))
  }

  function CloneParams(m: map<nat, string>, tps: seq<TypeParam>): (r: seq<TypeParam>)
    ensures |r| == |tps|
    ensures forall i :: 0 <= i < |tps| ==> r[i] == CloneParam(m, tps[i])
  {
    if tps == [] then [] else [CloneParam(m, tps[0])] + CloneParams(m, tps[1..])
  }

  /** `t` with every type reference's name blanked: the shape of the tree. */
  function Erase(t: TypeExpr): TypeExpr
    decreases t
  {
    match t
    case Ref(o, _, args) => Ref(o, Simple(""), EraseSeq(args))
    case Kw(_) => t
    case StrLit(_) => t
    case NumLit(_) => t
    case Conditional(a, b, c, d) => Conditional(Erase(a), Erase(b), Erase(c), Erase(d))
    case Tuple(elems) => Tuple(EraseSeq(elems))
    case IndexedAccess(o, i) => IndexedAccess(Erase(o), Erase(i))
    case KeyOf(x) => KeyOf(Erase(x))
    case Composite(k, ch) => Composite(k, EraseSeq(ch))
  }

  function EraseSeq(ts: seq<TypeExpr>): seq<TypeExpr>
    decreases ts
  {
    if ts == [] then [] else [Erase(ts[0])] + EraseSeq(ts[1..])
  }

  lemma {:induction false} RenamedSitesAppend(m: map<nat, string>, a: seq<RefSite>, b: seq<RefSite>)
    ensures RenamedSites(m, a + b) == RenamedSites(m, a) + RenamedSites(m, b)
  {
  }

  lemma RenamedSites4(m: map<nat, string>, a: seq<RefSite>, b: seq<RefSite>, c: seq<RefSite>, d: seq<RefSite>)
    ensures RenamedSites(m, a + (b + (c + d)))
            == RenamedSites(m, a) + (RenamedSites(m, b) + (RenamedSites(m, c) + RenamedSites(m, d)))
  {
    RenamedSitesAppend(m, a, b + (c + d));
    RenamedSitesAppend(m, b, c + d);
    RenamedSitesAppend(m, c, d);
  }

  /** The conditional-type step of the next lemma. */
  lemma CloneConditionalRefs(m: map<nat, string>, a: TypeExpr, b: TypeExpr, c: TypeExpr, d: TypeExpr)
    requires RefsOf(Clone(m, a)) == RenamedSites(m, RefsOf(a)) && RefsOf(Clone(m, b)) == RenamedSites(m, RefsOf(b))
    requires RefsOf(Clone(m, c)) == RenamedSites(m, RefsOf(c)) && RefsOf(Clone(m, d)) == RenamedSites(m, RefsOf(d))
    ensures RefsOf(Clone(m, Conditional(a, b, c, d))) == RenamedSites(m, RefsOf(Conditional(a, b, c, d)))
  {
    RenamedSites4(m, RefsOf(a), RefsOf(b), RefsOf(c), RefsOf(d));
  }

  /** The type-reference step of the next lemma. */
  lemma CloneRefRefs(m: map<nat, string>, o: Origin, n: TypeName, args: seq<TypeExpr>)
    requires RefsSeq(CloneSeq(m, args)) == RenamedSites(m, RefsSeq(args))
    ensures RefsOf(Clone(m, Ref(o, n, args))) == RenamedSites(m, RefsOf(Ref(o, n, args)))
  {
    RenamedSitesAppend(m, RefsSeq(args), [RefSite(o, n)]);
  }

  /** The indexed-access step of the next lemma. */
  lemma CloneIndexedRefs(m: map<nat, string>, o: TypeExpr, i: TypeExpr)
    requires RefsOf(Clone(m, o)) == RenamedSites(m, RefsOf(o)) && RefsOf(Clone(m, i)) == RenamedSites(m, RefsOf(i))
    ensures RefsOf(Clone(m, IndexedAccess(o, i))) == RenamedSites(m, RefsOf(IndexedAccess(o, i)))
  {
    RenamedSitesAppend(m, RefsOf(o), RefsOf(i));
  }

  /** The copy renames exactly the references found in the table, each to
      its recorded name, and no other reference. */
  lemma {:induction false} CloneRenamesRefs(m: map<nat, string>, t: TypeExpr)
    ensures RefsOf(Clone(m, t)) == RenamedSites(m, RefsOf(t))
    decreases t
  {
    match t
    case Ref(o, n, args) =>
      CloneSeqRenamesRefs(m, args);
      CloneRefRefs(m, o, n, args);
    case Kw(_) =>
    case StrLit(_) =>
    case NumLit(_) =>
    case Conditional(a, b, c, d) =>
      CloneRenamesRefs(m, a); CloneRenamesRefs(m, b); CloneRenamesRefs(m, c); CloneRenamesRefs(m, d);
      CloneConditionalRefs(m, a, b, c, d);
    case Tuple(elems) => CloneSeqRenamesRefs(m, elems);
    case IndexedAccess(o, i) =>
      CloneRenamesRefs(m, o); CloneRenamesRefs(m, i);
      CloneIndexedRefs(m, o, i);
    case KeyOf(x) => CloneRenamesRefs(m, x);
    case Composite(_, ch) => CloneSeqRenamesRefs(m, ch);
  }

  lemma {:induction false} CloneSeqRenamesRefs(m: map<nat, string>, ts: seq<TypeExpr>)
    ensures RefsSeq(CloneSeq(m, ts)) == RenamedSites(m, RefsSeq(ts))
    decreases ts
  {
    if ts != [] {
      var c := CloneSeq(m, ts);
      assert c[0] == Clone(m, ts[0]) && c[1..] == CloneSeq(m, ts[1..]);
      CloneRenamesRefs(m, ts[0]);
      CloneSeqRenamesRefs(m, ts[1..]);
      RenamedSitesAppend(m, RefsOf(ts[0]), RefsSeq(ts[1..]));
    }
  }

  /** Apart from reference names, the copy has the original's exact shape. */
  lemma {:induction false} CloneKeepsShape(m: map<nat, string>, t: TypeExpr)
    ensures Erase(Clone(m, t)) == Erase(t)
    decreases t
  {
    match t
    case Ref(o, n, args) => CloneSeqKeepsShape(m, args);
    case Kw(_) =>
    case StrLit(_) =>
    case NumLit(_) =>
    case Conditional(a, b, c, d) =>
      CloneKeepsShape(m, a); CloneKeepsShape(m, b); CloneKeepsShape(m, c); CloneKeepsShape(m, d);
    case Tuple(elems) => CloneSeqKeepsShape(m, elems);
    case IndexedAccess(o, i) => CloneKeepsShape(m, o); CloneKeepsShape(m, i);
    case KeyOf(x) => CloneKeepsShape(m, x);
    case Composite(_, ch) => CloneSeqKeepsShape(m, ch);
  }

  lemma {:induction false} CloneSeqKeepsShape(m: map<nat, string>, ts: seq<TypeExpr>)
    ensures EraseSeq(CloneSeq(m, ts)) == EraseSeq(ts)
    decreases ts
  {
    if ts != [] {
      var c := CloneSeq(m, ts);
      assert c[0] == Clone(m, ts[0]) && c[1..] == CloneSeq(m, ts[1..]);
      CloneKeepsShape(m, ts[0]);
      CloneSeqKeepsShape(m, ts[1..]);
    }
  }

  /** Copying a copy changes nothing more: node ids survive the copy, and a
      rewritten reference is rewritten to the same name again. */
  lemma {:induction false} CloneIdempotent(m: map<nat, string>, t: TypeExpr)
    ensures Clone(m, Clone(m, t)) == Clone(m, t)
    decreases t
  {
    match t
    case Ref(o, n, args) => CloneSeqIdempotent(m, args);
    case Kw(_) =>
    case StrLit(_) =>
    case NumLit(_) =>
    case Conditional(a, b, c, d) =>
      CloneIdempotent(m, a); CloneIdempotent(m, b); CloneIdempotent(m, c); CloneIdempotent(m, d);
    case Tuple(elems) => CloneSeqIdempotent(m, elems);
    case IndexedAccess(o, i) => CloneIdempotent(m, o); CloneIdempotent(m, i);
    case KeyOf(x) => CloneIdempotent(m, x);
    case Composite(_, ch) => CloneSeqIdempotent(m, ch);
  }

  lemma {:induction false} CloneSeqIdempotent(m: map<nat, string>, ts: seq<TypeExpr>)
    ensures CloneSeq(m, CloneSeq(m, ts)) == CloneSeq(m, ts)
    decreases ts
  {
    if ts != [] {
      var c := CloneSeq(m, ts);
      assert c[0] == Clone(m, ts[0]) && c[1..] == CloneSeq(m, ts[1..]);
      CloneIdempotent(m, ts[0]);
      CloneSeqIdempotent(m, ts[1..]);
    }
  }

  lemma CloneParamsIdempotent(m: map<nat, string>, tps: seq<TypeParam>)
    ensures CloneParams(m, CloneParams(m, tps)) == CloneParams(m, tps)
  {
    forall i | 0 <= i < |tps|
      ensures CloneParam(m, CloneParam(m, tps[i])) == CloneParam(m, tps[i])
    {
      var tp := tps[i];
      if tp.constraint.Some? { CloneIdempotent(m, tp.constraint.value); }
      if tp.default.Some? { CloneIdempotent(m, tp.default.value); }
    }
  }

  /** A subtree none of whose references is in the table is copied verbatim. */
  lemma {:induction false} CloneUntouched(m: map<nat, string>, t: TypeExpr)
    requires forall s :: s in RefsOf(t) && s.origin.Parsed? ==> s.origin.id !in m
    ensures Clone(m, t) == t
    decreases t
  {
    match t
    case Ref(o, n, args) =>
      assert RefSite(o, n) in RefsOf(t);
      CloneSeqUntouched(m, args);
    case Kw(_) =>
    case StrLit(_) =>
    case NumLit(_) =>
    case Conditional(a, b, c, d) =>
      CloneUntouched(m, a); CloneUntouched(m, b); CloneUntouched(m, c); CloneUntouched(m, d);
    case Tuple(elems) => CloneSeqUntouched(m, elems);
    case IndexedAccess(o, i) => CloneUntouched(m, o); CloneUntouched(m, i);
    case KeyOf(x) => CloneUntouched(m, x);
    case Composite(_, ch) => CloneSeqUntouched(m, ch);
  }

  lemma {:induction false} CloneSeqUntouched(m: map<nat, string>, ts: seq<TypeExpr>)
    requires forall s :: s in RefsSeq(ts) && s.origin.Parsed? ==> s.origin.id !in m
    ensures CloneSeq(m, ts) == ts
    decreases ts
  {
    if ts != [] {
      CloneUntouched(m, ts[0]);
      CloneSeqUntouched(m, ts[1..]);
      assert ts == [ts[0]] + ts[1..];
    }
  }

  // ---------------------------------------------------------------------
  // A walk followed by the copy
  // ---------------------------------------------------------------------

  /** Every hit comes from one of the sites, and names that site's node. */
  lemma {:induction false} HitsOfIds(decls: seq<ImportDecl>, relocate: string -> string, sites: seq<RefSite>, h: Hit)
    requires h in HitsOf(decls, relocate, sites)
    ensures exists i :: 0 <= i < |sites| && sites[i].origin == Parsed(h.id)
    decreases sites
  {
    var head := SiteHits(decls, relocate, sites[0]);
    if h in head {
      assert sites[0].origin == Parsed(h.id);
    } else {
      HitsOfIds(decls, relocate, sites[1..], h);
      var i :| 0 <= i < |sites[1..]| && sites[1..][i].origin == Parsed(h.id);
      assert sites[i + 1].origin == Parsed(h.id);
    }
  }

  /** A node no hit names keeps its entry, or its absence of one. */
  lemma {:induction false} ApplyHitsUntouched(m: map<nat, string>, hs: seq<Hit>, digest: string -> string, id: nat)
    requires forall k :: 0 <= k < |hs| ==> hs[k].id != id
    ensures id in ApplyHits(m, hs, digest) <==> id in m
    ensures id in m ==> ApplyHits(m, hs, digest)[id] == m[id]
    decreases hs
  {
    if hs != [] {
      assert hs[0].id != id;
      forall k | 0 <= k < |hs[1..]| ensures hs[1..][k].id != id {
        assert hs[1..][k] == hs[k + 1];
      }
      ApplyHitsUntouched(m[hs[0].id := RewriteTarget(hs[0], digest)], hs[1..], digest, id);
    }
  }

  /** Distinct parsed reference nodes carry distinct ids. */
  predicate DistinctIds(sites: seq<RefSite>)
  {
    forall i, j :: 0 <= i < j < |sites| && sites[i].origin.Parsed? && sites[j].origin.Parsed? ==>
      sites[i].origin.id != sites[j].origin.id
  }

  /** What a reference reads after its file was walked and copied: a parsed
      reference bound by a named import becomes `<alias>.<exported name>`,
      any other reference stays as it was. */
  function ExpectedSite(decls: seq<ImportDecl>, relocate: string -> string, digest: string -> string, s: RefSite)
    : RefSite
  {
    if s.origin.Parsed? && Resolve(decls, s.name).Some? then
      var b := Resolve(decls, s.name).value;
      RefSite(s.origin, Simple(UniqueNameFromKey(StoredKey(b.specifier, relocate), digest) + "." + b.importName))
    else s
  }

  /** The entry the walk records for a reference named `n`: the qualified
      name when it resolves, none otherwise. */
  function ExpectedEntry(decls: seq<ImportDecl>, relocate: string -> string, digest: string -> string, n: TypeName)
    : Option<string>
  {
    match Resolve(decls, n)
    case None => None
    case Some(b) => Some(UniqueNameFromKey(StoredKey(b.specifier, relocate), digest) + "." + b.importName)
  }

  /** A rewrite-table lookup. */
  function TableEntry(m: map<nat, string>, id: nat): Option<string>
  {
    if id in m then Some(m[id]) else None
  }

  lemma DistinctIdsTail(sites: seq<RefSite>)
    requires DistinctIds(sites) && sites != []
    ensures DistinctIds(sites[1..])
  {
    var rest := sites[1..];
    forall a, b | 0 <= a < b < |rest| && rest[a].origin.Parsed? && rest[b].origin.Parsed?
      ensures rest[a].origin.id != rest[b].origin.id
    {
      assert rest[a] == sites[a + 1] && rest[b] == sites[b + 1];
    }
  }

  /** The table after the first site's own hit. */
  lemma SiteHitsApplied(decls: seq<ImportDecl>, relocate: string -> string, digest: string -> string,
                        m0: map<nat, string>, s: RefSite)
    ensures var head := SiteHits(decls, relocate, s);
      ApplyHits(m0, head, digest) == if head == [] then m0 else m0[s.origin.id := RewriteTarget(head[0], digest)]
  {
    var head := SiteHits(decls, relocate, s);
    if head != [] {
      assert head[1..] == [];
    }
  }

  /** The first site: no later hit names its node, so its own hit decides. */
  lemma WalkRewritesHead(decls: seq<ImportDecl>, relocate: string -> string, digest: string -> string,
                         sites: seq<RefSite>, m0: map<nat, string>)
    requires DistinctIds(sites) && sites != []
    requires sites[0].origin.Parsed? ==> sites[0].origin.id !in m0
    ensures RenamedSite(ApplyHits(m0, HitsOf(decls, relocate, sites), digest), sites[0])
            == ExpectedSite(decls, relocate, digest, sites[0])
    ensures sites[0].origin.Parsed? ==>
              TableEntry(ApplyHits(m0, HitsOf(decls, relocate, sites), digest), sites[0].origin.id)
              == ExpectedEntry(decls, relocate, digest, sites[0].name)
  {
    var s0 := sites[0];
    var rest := sites[1..];
    var head := SiteHits(decls, relocate, s0);
    var later := HitsOf(decls, relocate, rest);
    var m1 := ApplyHits(m0, head, digest);
    ApplyHitsAppend(m0, head, later, digest);
    SiteHitsApplied(decls, relocate, digest, m0, s0);
    if s0.origin.Parsed? {
      var id := s0.origin.id;
      forall k | 0 <= k < |later| ensures later[k].id != id {
        HitsOfIds(decls, relocate, rest, later[k]);
        var j :| 0 <= j < |rest| && rest[j].origin == Parsed(later[k].id);
        assert rest[j] == sites[j + 1];
      }
      ApplyHitsUntouched(m1, later, digest, id);
    }
  }

  lemma {:induction false} WalkRewritesSite(decls: seq<ImportDecl>, relocate: string -> string,
                                            digest: string -> string, sites: seq<RefSite>, m0: map<nat, string>,
                                            i: nat)
    requires DistinctIds(sites)
    requires i < |sites|
    requires sites[i].origin.Parsed? ==> sites[i].origin.id !in m0
    ensures RenamedSite(ApplyHits(m0, HitsOf(decls, relocate, sites), digest), sites[i])
            == ExpectedSite(decls, relocate, digest, sites[i])
    ensures sites[i].origin.Parsed? ==>
              TableEntry(ApplyHits(m0, HitsOf(decls, relocate, sites), digest), sites[i].origin.id)
              == ExpectedEntry(decls, relocate, digest, sites[i].name)
    decreases sites
  {
    if i == 0 {
      WalkRewritesHead(decls, relocate, digest, sites, m0);
    } else {
      var s0 := sites[0];
      var rest := sites[1..];
      var head := SiteHits(decls, relocate, s0);
      var m1 := ApplyHits(m0, head, digest);
      ApplyHitsAppend(m0, head, HitsOf(decls, relocate, rest), digest);
      SiteHitsApplied(decls, relocate, digest, m0, s0);
      DistinctIdsTail(sites);
      assert rest[i - 1] == sites[i];
      if head != [] && sites[i].origin.Parsed? {
        assert s0.origin.id != sites[i].origin.id;
      }
      WalkRewritesSite(decls, relocate, digest, rest, m1, i - 1);
    }
  }

  /** The walk and the copy together: copying a tree with the rewrites its
      own walk recorded turns every reference that names a named import
      into `<alias>.<exported name>` and leaves every other reference, and
      the tree's shape, as they were. */
  lemma FillThenClone(decls: seq<ImportDecl>, relocate: string -> string, digest: string -> string,
                      m0: map<nat, string>, t: TypeExpr)
    requires DistinctIds(RefsOf(t))
    requires forall s :: s in RefsOf(t) && s.origin.Parsed? ==> s.origin.id !in m0
    ensures var c := Clone(ApplyHits(m0, HitsOf(decls, relocate, RefsOf(t)), digest), t);
      && Erase(c) == Erase(t)
      && |RefsOf(c)| == |RefsOf(t)|
      && forall i :: 0 <= i < |RefsOf(t)| ==> RefsOf(c)[i] == ExpectedSite(decls, relocate, digest, RefsOf(t)[i])
    ensures forall i :: 0 <= i < |RefsOf(t)| && RefsOf(t)[i].origin.Parsed? ==>
      TableEntry(ApplyHits(m0, HitsOf(decls, relocate, RefsOf(t)), digest), RefsOf(t)[i].origin.id)
      == ExpectedEntry(decls, relocate, digest, RefsOf(t)[i].name)
  {
    var m := ApplyHits(m0, HitsOf(decls, relocate, RefsOf(t)), digest);
    CloneKeepsShape(m, t);
    CloneRenamesRefs(m, t);
    forall i | 0 <= i < |RefsOf(t)|
      ensures RenamedSite(m, RefsOf(t)[i]) == ExpectedSite(decls, relocate, digest, RefsOf(t)[i])
      ensures RefsOf(t)[i].origin.Parsed? ==>
        TableEntry(m, RefsOf(t)[i].origin.id) == ExpectedEntry(decls, relocate, digest, RefsOf(t)[i].name)
    {
      WalkRewritesSite(decls, relocate, digest, RefsOf(t), m0, i);
    }
  }

  // ---------------------------------------------------------------------
  // The shared, mutable tables of one generation run
  // ---------------------------------------------------------------------

  /** The tables after a walk that produced the hits `hs`, given the tables
      before it: keys are appended, the registered specifiers are added, and
      the rewrites are recorded in order. */
  ghost predicate Advanced(keys0: seq<string>, imports0: map<string, string>, mapping0: map<nat, string>,
                           keys1: seq<string>, imports1: map<string, string>, mapping1: map<nat, string>,
                           hs: seq<Hit>, digest: string -> string)
  {
    && |keys0| <= |keys1| && keys1[..|keys0|] == keys0
    && imports1.Keys == imports0.Keys + HitKeys(hs)
    && mapping1 == ApplyHits(mapping0, hs, digest)
  }

  lemma AdvancedCompose(keys0: seq<string>, imports0: map<string, string>, mapping0: map<nat, string>,
                        keys1: seq<string>, imports1: map<string, string>, mapping1: map<nat, string>,
                        keys2: seq<string>, imports2: map<string, string>, mapping2: map<nat, string>,
                        a: seq<Hit>, b: seq<Hit>, digest: string -> string)
    requires Advanced(keys0, imports0, mapping0, keys1, imports1, mapping1, a, digest)
    requires Advanced(keys1, imports1, mapping1, keys2, imports2, mapping2, b, digest)
    ensures Advanced(keys0, imports0, mapping0, keys2, imports2, mapping2, a + b, digest)
  {
    assert keys2[..|keys0|] == keys1[..|keys0|];
    ApplyHitsAppend(mapping0, a, b, digest);
    HitKeysAppend(a, b);
  }

  /** Two walks in a row advance the tables by the hits of both site lists. */
  lemma AdvancedSites(keys0: seq<string>, imports0: map<string, string>, mapping0: map<nat, string>,
                      keys1: seq<string>, imports1: map<string, string>, mapping1: map<nat, string>,
                      keys2: seq<string>, imports2: map<string, string>, mapping2: map<nat, string>,
                      decls: seq<ImportDecl>, relocate: string -> string, a: seq<RefSite>, b: seq<RefSite>,
                      digest: string -> string)
    requires Advanced(keys0, imports0, mapping0, keys1, imports1, mapping1, HitsOf(decls, relocate, a), digest)
    requires Advanced(keys1, imports1, mapping1, keys2, imports2, mapping2, HitsOf(decls, relocate, b), digest)
    ensures Advanced(keys0, imports0, mapping0, keys2, imports2, mapping2, HitsOf(decls, relocate, a + b), digest)
  {
    AdvancedCompose(keys0, imports0, mapping0, keys1, imports1, mapping1, keys2, imports2, mapping2,
                    HitsOf(decls, relocate, a), HitsOf(decls, relocate, b), digest);
    HitsOfAppend(decls, relocate, a, b);
  }

  /** The alias table (specifier -> alias, with its insertion order) and the
      rewrite table (node id -> qualified name) shared by every stage.
      `digest` is the SHA-1 hex digest used for alias derivation. */
  class CallWrapperContext {
    const digest: string -> string
    var importKeys: seq<string>
    var imports: map<string, string>
    var importMapping: map<nat, string>

    /** Keys are listed once each, in insertion order, and every alias is
        the one derived from its key (all insertions go through
        AddDepToImports). */
    ghost predicate Valid()
      reads this
    {
      && (forall i, j :: 0 <= i < j < |importKeys| ==> importKeys[i] != importKeys[j])
      && (forall k :: k in imports <==> k in importKeys)
      && (forall k :: k in imports ==> imports[k] == UniqueNameFromKey(k, digest))
    }

    constructor (digest: string -> string)
      ensures Valid()
      ensures this.digest == digest
      ensures importKeys == [] && imports == map[] && importMapping == map[]
    {
      this.digest := digest;
      importKeys := [];
      imports := map[];
      importMapping := map[];
    }

    /** Registers a module specifier; the first registration fixes its alias
        and every later one returns it unchanged. An empty alias counts as
        missing, as in the source. */
    method AddDepToImports(key: string) returns (name: string)
      requires Valid()
      modifies this`importKeys, this`imports
      ensures Valid()
      ensures name == UniqueNameFromKey(key, digest)
      ensures old(key in imports && imports[key] != "") ==>
        name == old(imports[key]) && imports == old(imports) && importKeys == old(importKeys)
      ensures imports == old(imports)[key := name]
      ensures importKeys == if key in old(imports) then old(importKeys) else old(importKeys) + [key]
    {
      name := if key in imports then imports[key] else "";
      if name == "" {
        name := UniqueNameFromKey(key, digest);
        if key !in imports {
          importKeys := importKeys + [key];
        }
        imports := imports[key := name];
      }
    }

    /** The rewrite of one type-reference node: when its leading name is a
        named import of the file, the module is registered and the node is
        mapped to `<alias>.<exported name>`. */
    method RecordReference(decls: seq<ImportDecl>, relocate: string -> string, s: RefSite)
      requires Valid()
      modifies this`importKeys, this`imports, this`importMapping
      ensures Valid()
      ensures Advanced(old(importKeys), old(imports), old(importMapping), importKeys, imports, importMapping,
                       SiteHits(decls, relocate, s), digest)
    {
      if s.origin.Parsed? {
        var b := Resolve(decls, s.name);
        if b.Some? {
          var key := StoredKey(b.value.specifier, relocate);
          var alias := AddDepToImports(key);
          importMapping := importMapping[s.origin.id := alias + "." + b.value.importName];
          ghost var h := SiteHits(decls, relocate, s);
          assert h == [Hit(s.origin.id, key, b.value.importName)];
          assert HitKeys(h) == {key};
          assert importKeys[..|old(importKeys)|] == old(importKeys);
        }
      }
    }

    /** Walks a type subtree, children first, and for each type reference
        whose leading name is a named import of the file registers the
        module and records the node's rewrite. */
    method FillImports(decls: seq<ImportDecl>, relocate: string -> string, t: TypeExpr)
      requires Valid()
      modifies this`importKeys, this`imports, this`importMapping
      ensures Valid()
      ensures Advanced(old(importKeys), old(imports), old(importMapping), importKeys, imports, importMapping,
                       HitsOf(decls, relocate, RefsOf(t)), digest)
      decreases t
    {
      var children := TypeChildren(t);
      FillImportsSeq(decls, relocate, children, t);
      ghost var own := if t.Ref? then [RefSite(t.origin, t.name)] else [];
      RefsOfByChildren(t);
      assert RefsOf(t) == RefsSeq(children) + own;
      HitsOfAppend(decls, relocate, RefsSeq(children), own);
      if t.Ref? {
        var s := RefSite(t.origin, t.name);
        ghost var k1, i1, m1 := importKeys, imports, importMapping;
        RecordReference(decls, relocate, s);
        assert HitsOf(decls, relocate, [s]) == SiteHits(decls, relocate, s);
        AdvancedCompose(old(importKeys), old(imports), old(importMapping), k1, i1, m1,
                        importKeys, imports, importMapping,
                        HitsOf(decls, relocate, RefsSeq(children)), HitsOf(decls, relocate, own), digest);
      } else {
        assert HitsOf(decls, relocate, own) == [];
        assert HitsOf(decls, relocate, RefsOf(t)) == HitsOf(decls, relocate, RefsSeq(children)) + [];
        assert HitsOf(decls, relocate, RefsSeq(children)) + [] == HitsOf(decls, relocate, RefsSeq(children));
      }
    }

    /** `forEachChild`: the walk over a node's children, in order. */
    method FillImportsSeq(decls: seq<ImportDecl>, relocate: string -> string, ts: seq<TypeExpr>,
                          ghost parent: TypeExpr)
      requires forall c :: c in ts ==> c < parent
      requires Valid()
      modifies this`importKeys, this`imports, this`importMapping
      ensures Valid()
      ensures Advanced(old(importKeys), old(imports), old(importMapping), importKeys, imports, importMapping,
                       HitsOf(decls, relocate, RefsSeq(ts)), digest)
      decreases parent, |ts|
    {
      assert importKeys[..|importKeys|] == importKeys;
      for i := 0 to |ts|
        invariant Valid()
        invariant Advanced(old(importKeys), old(imports), old(importMapping), importKeys, imports, importMapping,
                           HitsOf(decls, relocate, RefsSeq(ts[..i])), digest)
      {
        ghost var k1, i1, m1 := importKeys, imports, importMapping;
        assert ts[i] in ts;
        FillImports(decls, relocate, ts[i]);
        AdvancedCompose(old(importKeys), old(imports), old(importMapping), k1, i1, m1,
                        importKeys, imports, importMapping,
                        HitsOf(decls, relocate, RefsSeq(ts[..i])), HitsOf(decls, relocate, RefsOf(ts[i])), digest);
        RefsSeqSnoc(ts, i);
        HitsOfAppend(decls, relocate, RefsSeq(ts[..i]), RefsOf(ts[i]));
      }
      assert ts[..|ts|] == ts;
    }

    /** The walk over an optional subtree. */
    method FillImportsOpt(decls: seq<ImportDecl>, relocate: string -> string, o: Option<TypeExpr>)
      requires Valid()
      modifies this`importKeys, this`imports, this`importMapping
      ensures Valid()
      ensures Advanced(old(importKeys), old(imports), old(importMapping), importKeys, imports, importMapping,
                       HitsOf(decls, relocate, RefsOpt(o)), digest)
    {
      if o.Some? {
        FillImports(decls, relocate, o.value);
      } else {
        assert importKeys[..|importKeys|] == importKeys;
      }
    }

    /** The walk over a type parameter: its constraint, then its default. */
    method FillImportsParam(decls: seq<ImportDecl>, relocate: string -> string, tp: TypeParam)
      requires Valid()
      modifies this`importKeys, this`imports, this`importMapping
      ensures Valid()
      ensures Advanced(old(importKeys), old(imports), old(importMapping), importKeys, imports, importMapping,
                       HitsOf(decls, relocate, RefsParam(tp)), digest)
    {
      FillImportsOpt(decls, relocate, tp.constraint);
      ghost var k1, i1, m1 := importKeys, imports, importMapping;
      FillImportsOpt(decls, relocate, tp.default);
      AdvancedCompose(old(importKeys), old(imports), old(importMapping), k1, i1, m1,
                      importKeys, imports, importMapping,
                      HitsOf(decls, relocate, RefsOpt(tp.constraint)), HitsOf(decls, relocate, RefsOpt(tp.default)), digest);
      HitsOfAppend(decls, relocate, RefsOpt(tp.constraint), RefsOpt(tp.default));
    }
  }
}
