# moleculer-call-wrapper, modelled in Dafny

moleculer-call-wrapper reads the definition files of a set of Moleculer
services and generates one TypeScript module of typed `call`/`callT`
wrappers, with `Actions`/`ActionsU` interfaces, for every action those
services expose. This project models the deterministic core of that
generator over an abstract syntax tree and proves properties of it.
Type-reference nodes carry a node id, so a rewrite can be keyed on a
node.

- **TypeTree** holds the shared syntax:
  - type expressions, type names and type parameters;
  - import declarations and action records;
  - the statement-level nodes of a definition file and the service
    descriptor;
  - `ServicePrefix`, the action-id namespace `v{version}.{service}.`, used
    by both the extractor and the database builtin;
  - `FillsOnly`, the "fill absent fields only" relation.
- **Ordering** has the string order used for sorting, a sort and a filter
  over sequences, and their lemmas.
- **Utils** (src/utils.ts) covers:
  - alias derivation;
  - resolving a reference's leading name against the file's named imports,
    including `A as B` renames;
  - relocation of relative specifiers;
  - the rewrite entries a walk records;
  - the substituting copy (the clone hook);
  - the class `CallWrapperContext`, which owns the tables a generation run
    mutates: the alias table (keys in insertion order, plus the map) and the
    rewrite table. Its methods `AddDepToImports` and `FillImports` update
    them in place.

  Each walk is proved against a specification: the tables become
  `ApplyHits` of the hit list `HitsOf(RefsOf(t))`, which lists the type
  references in the order the walk visits them. `FillThenClone` ties the
  walk and the copy together.
- **Parser** (src/parser.ts) covers:
  - the recursive handler search, as a method with its closure table
    threaded through;
  - filtering of disabled and private actions;
  - id construction;
  - the record loop, which resolves imports as it goes;
  - the builtin chain.
- **DbMixin** (src/builtins/db-mixin-v2.ts) covers:
  - the marker-call search, in which the last marker with type arguments
    wins;
  - the suffix tables;
  - the fill-if-absent loop over the records in the service's namespace,
    which registers the database module and, for `findStream`, the
    `stream` module.
- **Generator** (src/generator.ts) covers:
  - return wrapping and unwrapping;
  - the wrapper parameters;
  - the fresh-template-name loop;
  - the three-group import order;
  - the four-way partition of the sorted actions;
  - the rewrap of generic actions with params;
  - the fixed trailer;
  - `BuildCallWrapperFile`, proved equal to the module specification
    `WrapperFile`.

Inputs the model cannot see are parameters:
- `digest` stands for the SHA-1 hex digest of a key.
- `relocate` stands for the path computation
  `relative(dirname(wrapperPath), resolve(dirname(currentFilePath), spec))`.

Under the class invariant `CallWrapperContext.Valid`, every alias is the
one `UniqueNameFromKey` derives from its key. This holds because every
insertion goes through `AddDepToImports`.

Two keys collide: `sdk` and `@wavyapp/wavy-sdk` both receive the alias
`sdk` (`SdkAliasCollision`). If both are registered, the generated module
declares the namespace `sdk` twice. Apart from that pair, keys with a
reserved or identifier alias never share one (`NamedAliasesDistinct`). Hash
aliases collide with each other only through the digest. A hash alias
can also equal the alias of a key spelled like it: the identifier key
`s1a2b3c4` is its own alias, and so is the hash alias of any key whose
digest begins with `1a2b3c4` (`HashAliasMatchesIdentifierKey`).

A reference qualified more than once, `A.B.C`, is looked up under its left
side `A.B`, as the source does. No import element has that name, so under
`import { A }` such a reference is never rewritten
(`DoublyQualifiedNotResolved`).

## Model

| member | source | states |
|---|---|---|
| `Utils.UniqueNameFromKey` | src/utils.ts:71-87 | every derived alias is non-empty, so the "missing alias" test of `addDepToImports` never fires twice for one key |
| `Utils.ReservedAliases` | src/utils.ts:72-76 | `moleculer` gets `m` and `@wavyapp/wavy-sdk` gets `sdk` |
| `Utils.IdentifierKeyIsOwnAlias` | src/utils.ts:77-80 | a key matching `^[a-zA-Z]\w+$` other than the reserved ones is its own alias; a one-character key never is |
| `Utils.HashAliasShape` | src/utils.ts:81-85 | every other key gets `s` followed by the first seven digest characters, eight characters in all |
| `Utils.AliasIsBindingName` | src/utils.ts:71-87 | with a hexadecimal digest, every alias is a letter followed by word characters |
| `Utils.ReservedWordKeyIsOwnAlias` | src/utils.ts:77-80 | the identifier test lets a reserved word through: the key `new` gets the alias `new` |
| `Utils.HashAliasMatchesIdentifierKey` | src/utils.ts:77-85 | with a hexadecimal digest, a hashed key's alias is also the alias of a different key, `s` followed by the seven digest characters |
| `Utils.NamedAliasesDistinct` | src/utils.ts:72-80 | distinct keys with reserved or identifier aliases get distinct aliases, except the `sdk` / `@wavyapp/wavy-sdk` pair |
| `Utils.SdkAliasCollision` | src/utils.ts:72-80 | the keys `sdk` and `@wavyapp/wavy-sdk` receive the same alias |
| `Utils.FirstBinding` | src/utils.ts:42-44 | the index found is the first import element bound under the name; none is found exactly when no element has that name |
| `Utils.ImportedName` | src/utils.ts:33-49 | the corrected exported name: a plain binding keeps the reference text, a renamed binding `A as B` replaces the head `B` by `A` and keeps the rest; its property is `ImportedNameRenamesHead` |
| `Utils.ImportedNameAsWritten` | src/utils.ts:33-49 | the exported name as the source computes it: the reference text, or the `propertyName` alone for a renamed binding |
| `Utils.ImportedNamesAgree` | src/utils.ts:33-49 | the corrected and the as-written name differ exactly for a renamed binding used by a qualified reference |
| `Utils.Resolve` | src/utils.ts:35-53 | a binding is found exactly when some import declaration binds the reference's leading name; it carries that first declaration's specifier and the `ImportedName` of its first element with that name |
| `Utils.DoublyQualifiedNotResolved` | src/utils.ts:28-31 | `A.B.C` is looked up under `A.B`, which `import { A }` does not bind, while `A.B` is resolved |
| `Utils.StoredKey` | src/utils.ts:56-63 | the registered specifier: `./` + the relocated path for a relative specifier, the specifier itself otherwise; its shape is `StoredKeyShape` |
| `Utils.ImportedNameRenamesHead` | src/utils.ts:46-49 | for a matched binding, the imported name is the reference text with its local head replaced by the exported name (`A as B`: `B.C` becomes `A.C`) |
| `Utils.RenamedQualifiedReference` | src/utils.ts:28-49 | the code as written turns `B.C` into `A` under `import { A as B }`; the corrected version gives `A.C` |
| `Utils.StoredKeyShape` | src/utils.ts:56-63 | a stored key starts with `.` exactly when the specifier did, and then starts with `./`; package specifiers are kept verbatim |
| `Utils.RefsOfByChildren` | src/utils.ts:22-26 | the walk visits a node's children in order before the node itself |
| `Utils.SiteHits` | src/utils.ts:24-68 | a reference yields a rewrite exactly when it is a parsed node whose leading name resolves; the rewrite names that node, the relocated specifier and the imported name |
| `Utils.ApplyHits` | src/utils.ts:67 | the rewrite table after recording the hits in visiting order, a later hit on a node overwriting an earlier one; its domain and untouched entries are stated by the next two rows |
| `Utils.ApplyHitsDomain` | src/utils.ts:67 | recording rewrites only adds entries: the new domain is the old one plus the nodes hit |
| `Utils.ApplyHitsUntouched` | src/utils.ts:67 | a node that no rewrite names keeps its entry, or its absence |
| `Utils.Clone` | src/utils.ts:99-111 | the copy made with the clone hook: a reference in the table gets the recorded name, everything else is copied; its properties are the next five rows |
| `Utils.CloneRenamesRefs` | src/utils.ts:99-111 | the copy has the original's references in the same order; those in the table are renamed to their recorded name and all others are unchanged |
| `Utils.CloneKeepsShape` | src/utils.ts:102-110 | apart from reference names the copy has the original's exact shape; type arguments are copied |
| `Utils.CloneUntouched` | src/utils.ts:102-110 | a subtree none of whose references is in the table is copied verbatim |
| `Utils.CloneIdempotent` | src/utils.ts:99-111 | copying a copy with the same table changes nothing further |
| `Utils.CloneParamsIdempotent` | src/generator.ts:236-265 | cloning the already cloned type parameters a second time, as the `callT` path does, gives the same list |
| `Utils.WalkRewritesSite` | src/utils.ts:55-67 | after a walk over references with distinct ids, a parsed reference has a table entry exactly when it resolves, and the entry is `<alias of relocated specifier>.<imported name>` (the corrected `ImportedName`); the copy therefore sees the expected name |
| `Utils.FillThenClone` | src/utils.ts:17-111 | after the walk every parsed reference has an entry exactly when it resolves, with `<alias>.<imported name>`; copying the tree with that table renames each resolving reference so and leaves every other reference and the tree's shape as they were |
| `Utils.CallWrapperContext.constructor` | src/index.ts:31-32 | a context starts with empty alias and rewrite tables, under the invariant |
| `Utils.CallWrapperContext.AddDepToImports` | src/utils.ts:89-97 | returns the derived alias; an existing alias is returned and nothing changes; a new key is appended with its derived alias and every other entry is kept |
| `Utils.CallWrapperContext.RecordReference` | src/utils.ts:28-68 | one reference: registers the module and records `<alias>.<imported name>` for the node exactly as its `SiteHits` says |
| `Utils.CallWrapperContext.FillImports` | src/utils.ts:17-69 | the walk of a subtree: the alias keys grow by the specifiers hit and the rewrite table becomes `ApplyHits` of the subtree's hits, in visiting order |
| `Utils.CallWrapperContext.FillImportsSeq` | src/utils.ts:22 | the walk over the children, in order, composes their tables' updates |
| `Utils.CallWrapperContext.FillImportsOpt` | src/parser.ts:45-50 | an absent type is not walked; a present one is |
| `Utils.CallWrapperContext.FillImportsParam` | src/parser.ts:42-44 | a type parameter is walked through its constraint, then its default |
| `Ordering.StrLeTotal` | src/generator.ts:204-206 | the order used for sorting is total |
| `Ordering.StrLeTransitive` | src/generator.ts:204-206 | the order used for sorting is transitive |
| `Ordering.StrLeAntisymmetric` | src/generator.ts:204-206 | the order used for sorting is antisymmetric |
| `Ordering.SortBy` | src/generator.ts:180 | sorting gives a sorted permutation of its input |
| `Ordering.FilterSorted` | src/generator.ts:181-184 | filtering a sorted list keeps it sorted |
| `Ordering.FilterMember` | src/generator.ts:181-184 | a filtered element comes from the list and satisfies the filter |
| `TypeTree.FillsOnlyTransitive` | src/parser.ts:60-62 | chaining builtins that each only fill absent fields again only fills absent fields |
| `DbMixin.HasDatabaseMixin` | src/builtins/db-mixin-v2.ts:19-25 | some mixin of the original schema has the collection method; without one `InjectDatabaseMixinV2Builtins` changes nothing |
| `DbMixin.LastMarkerWins` | src/builtins/db-mixin-v2.ts:176-190 | the last marker reached with type arguments supplies the types; markers without type arguments leave an earlier result in place |
| `DbMixin.VisitMarkers` | src/builtins/db-mixin-v2.ts:176-188 | the recursive visit returns the closure result fold of the markers it reaches, without descending into a marker |
| `DbMixin.VisitMarkerChildren` | src/builtins/db-mixin-v2.ts:181 | visiting the children in order folds their markers in order |
| `DbMixin.FindDatabaseMixinTypes` | src/builtins/db-mixin-v2.ts:170-199 | returns the file's marker types; without them the tables are unchanged; with them the entity and tenant types' imports are resolved |
| `DbMixin.TablesCoverKnownSuffixes` | src/builtins/db-mixin-v2.ts:51-166 | both tables give a type exactly for the ten known suffixes |
| `DbMixin.ParamsTypeArguments` | src/builtins/db-mixin-v2.ts:32-119 | every params template takes `[E]`, or `[E, T]` with a tenant type, except `create`, which takes `[E]` only |
| `DbMixin.ParamsFor` | src/builtins/db-mixin-v2.ts:51-120 | the params type per suffix, instantiated with the entity and, where taken, tenant types; none for an unknown suffix |
| `DbMixin.ReturnFor` | src/builtins/db-mixin-v2.ts:122-166 | the return type per suffix: result templates, `stream.Readable`, `number`, or none for an unknown suffix |
| `DbMixin.IsTarget` | src/builtins/db-mixin-v2.ts:37-39 | a record is a target when its id is in the service's namespace and it lacks params or a return type |
| `DbMixin.FillRecord` | src/builtins/db-mixin-v2.ts:46-166 | a target's missing params and return type are filled from the tables by its suffix; other records are kept; its properties are the next two rows |
| `DbMixin.FillRecordFillsOnly` | src/builtins/db-mixin-v2.ts:37-122 | the builtin never replaces an authored params or return type, nor the id or type parameters; non-target records are untouched |
| `DbMixin.FillRecordKnownSuffix` | src/builtins/db-mixin-v2.ts:46-166 | a missing field of a target record is filled exactly when its name within the namespace is a known suffix |
| `DbMixin.StreamAliasIsStream` | src/builtins/db-mixin-v2.ts:132-135 | the stream module's alias is `stream` |
| `DbMixin.FillTarget` | src/builtins/db-mixin-v2.ts:47-166 | one record becomes its `FillRecord`; `stream` is registered exactly when a `findStream` return type is filled |
| `DbMixin.FillRecords` | src/builtins/db-mixin-v2.ts:46-167 | each record becomes its `FillRecord`, in place; `stream` is registered exactly when some `findStream` return type is filled |
| `DbMixin.FillWithDatabaseTypes` | src/builtins/db-mixin-v2.ts:41-167 | the database module is registered and every record is filled from the tables under its alias |
| `DbMixin.InjectDatabaseMixinV2Builtins` | src/builtins/db-mixin-v2.ts:13-168 | without the mixin or without marker types nothing changes; otherwise every record becomes its `FillRecord` in the service's namespace, and the database, stream and type modules are registered as stated |
| `Parser.IsHandlerMatch` | src/parser.ts:73-90 | a one-parameter `handler` method under a property assignment whose parameter has a type reference |
| `Parser.HandlerOf` | src/parser.ts:91-104 | params is the context's first type argument unless there is none or it is `never`; return type and type parameters are the method's own |
| `Parser.RecordDomain` | src/parser.ts:100 | the handler table holds an action name exactly when some match recorded it |
| `Parser.RecordUntouched` | src/parser.ts:100 | a name no later match records keeps its entry |
| `Parser.RecordLastWins` | src/parser.ts:100 | the last match for a property name decides its entry |
| `Parser.Visit` | src/parser.ts:73-106 | the visit records a match only for a one-parameter `handler` method whose grandparent is a property assignment and whose parameter has a type reference; it does not descend into a match |
| `Parser.VisitChildren` | src/parser.ts:79 | visiting the children in order records their matches in order |
| `Parser.FindActionsTypes` | src/parser.ts:67-110 | the table is the fold of the file's matches in depth-first order |
| `Parser.IsRetained` | src/parser.ts:33-38 | an entry is kept unless it is `false` or an object with private visibility |
| `Parser.Extracted` | src/parser.ts:31-58 | one `RecordFor` per retained entry, in entry order; stated by the next two rows |
| `Parser.RecordFor` | src/parser.ts:39-56 | a retained action's id is the namespace followed by its name; its types are the handler's, or all unset when no handler was found |
| `Parser.ExtractedMembers` | src/parser.ts:31-56 | a record is produced exactly for each entry that is neither `false` nor private |
| `Parser.ExtractedShape` | src/parser.ts:29-56 | one record per retained entry, each id inside the service's namespace |
| `Parser.FillParamsImports` | src/parser.ts:42-44 | the loop over a record's type parameters walks each in order: the tables advance by the hits of all their references, in order, and the invariant is kept |
| `Parser.FillRecordImports` | src/parser.ts:42-50 | a record's imports are resolved for its type parameters, then its return type, then its params |
| `Parser.ExtractRecords` | src/parser.ts:31-58 | the records are those of the retained entries in entry order, and the tables hold all of their rewrites |
| `Parser.RunBuiltins` | src/parser.ts:60-62 | the builtins run in order and each only fills absent fields; with no builtin nothing changes |
| `Parser.ParseService` | src/parser.ts:16-65 | the result has one record per retained action, each extending the extracted record; without builtins it is exactly the extracted list with its imports resolved |
| `Generator.WrapperReturnType` | src/generator.ts:80-104 | `Promise<void>` without a return type, the copied source `Promise` node, or `Promise` of the copy; tied to the next one by `WrapUnwrapAgree` |
| `Generator.UnwrapReturnType` | src/generator.ts:106-127 | `void` without a return type, the copied first argument of a source `Promise` with arguments, or the copy |
| `Generator.WrapperTypeParameters` | src/generator.ts:129-139 | no type parameters, or the copies of the action's own; `CloneParamsIdempotent` covers the double copy |
| `Generator.Overload` | src/generator.ts:141-157 | one function declaration (named `call` or `callT`) with the action's copied type parameters, the four wrapper parameters and the wrapped return type; every overload below is built by it, and `CallTOverloadShape` and the three trailer lemmas state its result |
| `Generator.WrapUnwrapAgree` | src/generator.ts:80-127 | the wrapped return type is `Promise` of the unwrapped one, except that a source `Promise<T>` keeps its own node with `T` as first argument |
| `Generator.SourcePromiseNotRewrapped` | src/generator.ts:90-98 | a source `Promise` is not wrapped a second time |
| `Generator.WrapperParameters` | src/generator.ts:23-78 | the four wrapper parameters `ctx`, `action`, `params`, `meta`; their shape is the next row |
| `Generator.WrapperParametersShape` | src/generator.ts:23-78 | the four parameters; the `action` type prefers the generic name, then the id literal, then `string`; `params` is optional and `undefined` exactly without params |
| `Generator.FreshFrom` | src/generator.ts:166-170 | the string found is all `N`s, unused, and every shorter one is used |
| `Generator.FreshTemplateNameShortest` | src/generator.ts:163-171 | the template name is non-empty, only `N`s, not a type parameter's name, and the shortest such string |
| `Generator.FindUnusedTemplateName` | src/generator.ts:163-171 | the loop returns the shortest unused `N...N` |
| `Generator.OrderImports` | src/generator.ts:180-185 | the sorted keys filtered into `@`-scoped, bare and relative groups, in that order; the next two rows state its properties |
| `Generator.OrderImportsGrouped` | src/generator.ts:180-185 | scoped keys come first, then other packages, then relative paths, each group sorted |
| `Generator.OrderImportsPermutation` | src/generator.ts:180-185 | the ordered imports are a permutation of the registered keys |
| `Generator.ImportSection` | src/generator.ts:187-202 | one namespace import per ordered key, under the alias the table holds |
| `Generator.ImportSectionAliases` | src/generator.ts:180-202 | under the alias-table invariant, every registered key is imported once, under the alias derived from it |
| `Generator.BucketOf` | src/generator.ts:235-299 | `callT` iff type parameters and params, `call` iff type parameters without params, `Actions` iff params without type parameters, otherwise `ActionsU` |
| `Generator.GroupsPartition` | src/generator.ts:234-300 | the four groups together hold exactly one entry per action |
| `Generator.InBucketMembers` | src/generator.ts:234-300 | an action belongs to a bucket's list exactly when its bucket is that one |
| `Generator.CallTGroupOfBucket` | src/generator.ts:239-270 | the `callT` group is, in order, the rewrapped overload of each action of its bucket |
| `Generator.CallGroupOfBucket` | src/generator.ts:271-274 | the per-action `call` overloads are, in order, those of the actions of their bucket |
| `Generator.ActionsGroupOfBucket` | src/generator.ts:276-289 | `Actions` holds, in order, `[params, unwrapped return]` for each action of its bucket |
| `Generator.ActionsUGroupOfBucket` | src/generator.ts:290-299 | `ActionsU` holds, in order, the unwrapped return of each action of its bucket |
| `Generator.Rewrapped` | src/generator.ts:239-262 | the record with params wrapped as `N extends "<id>" ? params : never` and the type parameters extended by `N extends string = "<id>"` |
| `Generator.CallTOverload` | src/generator.ts:240-270 | the `callT` overload of the rewrapped record with the fresh template name; its shape is the next row |
| `Generator.CallTOverloadShape` | src/generator.ts:240-270 | the `callT` overload takes the fresh `N` as `action`, `N extends "<id>" ? params : never` as `params`, and the original type parameters plus `N extends string = "<id>"`; `N` captures none of them |
| `Generator.ParamsOverload` | src/generator.ts:302-346 | the fixed `call` overload over `Actions`, keyed on `N extends keyof Actions`; its shape is `ParamsOverloadShape` |
| `Generator.NoParamsOverload` | src/generator.ts:348-380 | the fixed `call` overload over `ActionsU`, keyed on `N extends keyof ActionsU`; its shape is `NoParamsOverloadShape` |
| `Generator.Implementation` | src/generator.ts:382-442 | the `call` or `callT` implementation signature with a body; its shape is `ImplementationShape` |
| `Generator.ParamsOverloadShape` | src/generator.ts:302-346 | the generic overload for actions with params is keyed on `keyof Actions`, takes `Actions[N][0]` and returns `Promise<Actions[N][1]>` |
| `Generator.NoParamsOverloadShape` | src/generator.ts:348-380 | the generic overload for actions without params is keyed on `keyof ActionsU`, has an optional `undefined` params and returns `Promise<ActionsU[N]>` |
| `Generator.ImplementationShape` | src/generator.ts:382-442 | the `call` and `callT` implementations have a body and no type parameters, take `action: string` and `params: unknown`, and return `Promise<unknown>` |
| `Generator.WrapperDeclarations` | src/generator.ts:204-442 | what follows the imports has two interfaces, one overload per generic action and four trailer signatures |
| `Generator.WrapperFile` | src/generator.ts:178-442 | the module specification: the import section of the ordered keys, then the declarations over the actions sorted by id |
| `Generator.WrapperFileStartsWithImports` | src/generator.ts:187-202 | the module begins with the import section |
| `Generator.ImportStatements` | src/generator.ts:187-202 | the import loop produces the import section |
| `Generator.PartitionActions` | src/generator.ts:234-300 | the action loop fills the four lists with the four groups |
| `Generator.BuildCallWrapperFile` | src/generator.ts:173-449 | the statements built are the module specification: imports, the two interfaces, the `call` group and trailer, then the `callT` group and implementation |

## Left out

- The TypeScript compiler API is not modelled: node factories, the printer, `cloneNode` and the blank-line regex post-processing (`src/generator.ts:444-455`). Nodes are datatypes, the copy is `Clone` and the output is a sequence of abstract statements.
- The eslint header (`src/generator.ts:457-463`) is constant text and is not modelled.
- `getText()` is modelled as `NameText` of a type name. A string-literal property key would include its quotes in the source; the model takes the name as given.
- `getSourceFile()` is modelled by the node origin: factory-made nodes are `Synthetic`. A synthetic reference never has a rewrite entry.
- SHA-1 is modelled by the parameter `digest`, and `path.relative`/`resolve` by the parameter `relocate`. Only the `./` prefix and the relative-versus-package split are stated about the latter.
- `localeCompare` and the default sort are both modelled by code-point order on strings. No locale collation and no UTF-16 code-unit order is modelled.
- `Utils.Resolve`: the resolved name, and with it `SiteHits`, `ExpectedSite`, `WalkRewritesSite`, `FillThenClone`, `RecordReference` and `FillImports`, is the corrected `ImportedName`, not the `propertyName`-only name the source records for a renamed qualified reference (see Findings); for every other reference the two agree (`ImportedNamesAgree`).
- `Utils.AliasIsBindingName`: states the lexical shape of an alias only. Reserved words such as `new`, `class` or `default` pass the identifier test and become their own alias, which `import * as` rejects (`ReservedWordKeyIsOwnAlias`).
- `Ordering.SortBy`: stability is not stated, because nothing in the model relies on it.
- File reading and all of `src/index.ts` are not modelled: the asynchronous read, the write guard, seeding the alias table with `moleculer`, and the context wiring. The seeding is one call of `AddDepToImports` on a fresh context.
- The builtin list holds only the database-mixin builtin. Additional builtins are foreign code and are not modelled.
- Records are values. The source shares handler nodes between records and mutates records in place, both in the builtin and in the `callT` rewrap; the model returns the updated records instead.
- `BuildCallWrapperFile` does not sort the caller's array in place. The model sorts a copy, which is a value.
- `Object.entries` puts integer-like keys first; the model takes the entries in the order given.
- A service version is a string, and the empty string stands for a missing or falsy version. A version `0` is therefore not modelled.
- An action defined as `null` is not modelled. The source would fail on it.
- `Utils.CallWrapperContext.RecordReference`, `FillImports`, `FillImportsSeq`, `FillImportsOpt`, `FillImportsParam`: these state the set of keys added and the new rewrite table. They state only that `importKeys` is extended, not the order in which new keys are appended, because the output orders imports by sorting.
- `DbMixin.InjectDatabaseMixinV2Builtins`: states the set of registered keys, not their insertion order, for the same reason.
- `Parser.RunBuiltins`: states fill-only and key growth for any list of builtins. The exact result is stated per builtin, by `InjectDatabaseMixinV2Builtins`.
- `Parser.ParseService`: the rewrite table is stated exactly only without builtins. With builtins it states that the extracted records are extended and that their modules are registered.

## Findings

| source | as written | input that shows it | evidently intended | confidence | as-written member | corrected member |
|---|---|---|---|---|---|---|
| src/utils.ts:46-49 | a reference bound through a renamed import `A as B` is rewritten to `<alias>.A`, whatever follows the leading name | `import { A as B } from './x'` with the type `B.C`; the table records `<alias>.A` and the member `.C` is lost | `<alias>.A.C`; a plain import `{ A }` with `A.C` already gives `<alias>.A.C` | medium, not executed | `Utils.ImportedNameAsWritten` (exhibited by `Utils.RenamedQualifiedReference`) | `Utils.ImportedName` (proved by `Utils.ImportedNameRenamesHead`; used by `Utils.Resolve`) |
