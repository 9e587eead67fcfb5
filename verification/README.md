# Source-category converter, modelled in Dafny

This project models the core of `cooplan-definitions-io-lib`: the
`SourceCategoryConverter`, which turns flat source-category records into
category nodes, and the crate's error type with its translation of the
definitions library's errors.

Each record carries an optional id, a name, an optional parent *name*, an
optional "selectable as last" flag and raw attributes. The converter keeps
three tables that only grow: id → node (`categoriesMap`), name → id
(`nameIdLinks`) and the ordered list of parentless nodes (`root`). A call to
`convert` rejects a record without an id, then links the record's name to its
id, and then builds either a root node (registered in the id table and
appended to `root`) or a child node whose parent is found by name → id → node.

Files:

- `wrappers.dfy`: `Option` and `Result`.
- `definitions_lib.dfy`: what the converter uses of `cooplan_definitions_lib`.
  That is the record, the node (its weak parent reference becomes the parent's
  id), the library's error kinds, and a `Library` value holding the two
  fallible library calls as uninterpreted functions.
- `error.dfy` (module `Errors`): `src/error.rs`, as pure functions.
- `source_category_converter.dfy` (module `Converter`):
  `src/source_category_converter.rs`. `new` is the class constructor. Each
  operation after `new` has two forms. One is
  a function on the tables value (`Converted`, `ConvertedToCategory`,
  `CreatedFromSource`, `CreatedFromSourceWithParent`). The other is a method
  of the class `SourceCategoryConverter`, which updates the fields step by step
  and is proved to agree with that function.
- `converter_properties.dfy` (module `ConverterProperties`): how each error
  arises, what a whole sequence of calls leaves in the tables, and concrete
  orderings of records.

Two behaviours of the code are easy to miss:

- A child node is *not* registered in the id table. Only root nodes are
  inserted (`src/source_category_converter.rs:94-95`); the parent branch
  returns the child without inserting it. So a record whose parent is itself
  a child fails with `ParentNotAvailable` (`GrandchildNotAvailable`), unless
  that child shares its id with a registered root, in which case the name
  resolves to the root's entry (`GrandchildOfIdSharingChild`). The id table
  only ever holds parentless nodes (`Valid`, `RunRegistersOnlyRoots`).
- A child whose name equals its parent's name is resolved against its own
  id. Its own name link replaces the parent's before the parent name is
  looked up (`src/source_category_converter.rs:38-39`, `:122`), so the name
  resolves to the child's own id. Unless that id is a registered root's, the
  call fails with `ParentNotAvailable` (`ChildNamedLikeParentNotAvailable`).
  Otherwise the child attaches to the root registered under its own id
  (`SelfNamedParentResolvesToOwnId`, `ChildNamedLikeParentSharingIdAttaches`).
- An id-table entry can be replaced. `HashMap::insert` overwrites, so a second
  root with the same id replaces the first entry, while both stay in `root`
  (`DuplicateIdOverwrites`).

## Model

| member | source | states |
|---|---|---|
| `Errors.NewError` | src/error.rs:20-25 | the new error has exactly the given kind and the given message |
| `Errors.NewErrorObserved` | src/error.rs:20-36 | `kind()` of a new error is its kind and its displayed text is its message |
| `Errors.Kind` | src/error.rs:27-29 | `kind()` gives the kind the error was built with: `Error::new` with it and the message rebuilds the error |
| `Errors.Display` | src/error.rs:32-36 | the displayed text is the message the error was built with: `Error::new` with the kind and it rebuilds the error |
| `Errors.ErrorDeterminedByObservers` | src/error.rs:13-36 | the two observers, `kind()` and the displayed text, reveal the whole error: errors agreeing on both are the same value |
| `Errors.TranslateKind` | src/error.rs:40-49 | both directions: library `FailedToBorrowCategory`, `MissingId`, `ParentNotAvailable` map to their namesakes and nothing else does; exactly the other library kinds map to `Other`; `ParentNotFound` and `IdNotFound` are never produced |
| `Errors.TranslateKindInjectiveOnListed` | src/error.rs:40-49 | two library kinds translate alike iff they are equal or both are unlisted kinds (information is lost only into `Other`) |
| `Errors.FromLibraryError` | src/error.rs:38-55 | the converted error's kind is the translated kind and its displayed text is the library error's message, unchanged |
| `Converter.CreatedFromSource` | src/source_category_converter.rs:67-98 | never touches the name table; on failure no table changes; missing id gives `MissingId`; attribute failure gives the translated library error; succeeds iff the id is present and attributes convert; the node carries the record's id, name, attributes, flag defaulting to false, no parent; the id table maps its id to it (overwriting) and `root` gains exactly it at the end |
| `Converter.CreatedFromSourceWithParent` | src/source_category_converter.rs:100-156 | changes no table; one ensures per error branch (missing id, parentless, `IdNotFound` for an unlinked name, `ParentNotAvailable` citing the linked id, translated attribute failure, translated `new_into_parent` refusal); succeeds iff the id and parent name are present, the name links to a registered id, attributes convert and `new_into_parent` accepts; the child carries the record's fields with its parent reference set to the node `categoriesMap[nameIdLinks[parent_name]]` |
| `Converter.ConvertedToCategory` | src/source_category_converter.rs:44-65 | a record with an id gets exactly the outcome of the parent-path helper when it names a parent and of the root-path helper otherwise (so their success iffs and table effects carry over); the name table is untouched; `ParentNotFound` never comes out; no id gives `MissingId` naming the record; a success carries the record's id and has a parent iff the record names one |
| `Converter.Converted` | src/source_category_converter.rs:24-42 | no id: `MissingId` naming the record and all tables unchanged; with an id the name link is set whatever follows; on failure or on the parent path the id table and `root` are unchanged; a success carries the record's id, name and flag and has a parent iff the record names one; a root success registers and appends the node |
| `Converter.ConvertedKeepsValid` | src/source_category_converter.rs:87-97 | one call keeps the invariant: id-table keys equal their node's id, table entries and root nodes are parentless, every root node's id is in the id table |
| `Converter.SourceCategoryConverter.constructor` | src/source_category_converter.rs:16-22 | all three tables are empty |
| `Converter.SourceCategoryConverter.Convert` | src/source_category_converter.rs:24-42 | the new tables and the result are those of `Converted` on the old tables; the invariant is kept |
| `Converter.SourceCategoryConverter.ConvertSourceCategoryToCategory` | src/source_category_converter.rs:44-65 | the new tables and the result are those of `ConvertedToCategory` |
| `Converter.SourceCategoryConverter.CreateCategoryFromSource` | src/source_category_converter.rs:67-98 | the new tables and the result are those of `CreatedFromSource` |
| `Converter.SourceCategoryConverter.CreateCategoryFromSourceWithParent` | src/source_category_converter.rs:100-156 | reads the tables, changes nothing, and returns the result of `CreatedFromSourceWithParent` |
| `ConverterProperties.Run` | src/source_category_converter.rs:24-42 | a session of calls yields one result per record |
| `ConverterProperties.ConvertedGrows` | src/source_category_converter.rs:38-97 | one call removes no key from either map and only extends `root` |
| `ConverterProperties.ConvertedErrorCauses` | src/source_category_converter.rs:44-119 | `convert` never returns `ParentNotFound`; a `MissingId` means the record had no id or the library reported `MissingId` (the helpers' own checks are unreachable); every library failure on the record's path is returned translated; a success met no library failure |
| `ConverterProperties.ConvertedSucceedsExactly` | src/source_category_converter.rs:24-156 | both directions: `convert` builds a node iff the record has an id, the library reports no failure on its path, and a named parent links to a registered id |
| `ConverterProperties.IdNotFoundExactly` | src/source_category_converter.rs:121-130 | `IdNotFound` iff the record has an id and a parent name that is neither its own name nor already linked |
| `ConverterProperties.ParentNotAvailableWhenUnregistered` | src/source_category_converter.rs:151-154 | a linked parent id absent from the id table gives `ParentNotAvailable` citing that id, with only the name link written |
| `ConverterProperties.ChildPointsAtRegisteredParent` | src/source_category_converter.rs:132-149 | a built child's parent is the id its parent name links to, and that id was in the id table before the call |
| `ConverterProperties.SelfNamedParentResolvesToOwnId` | src/source_category_converter.rs:121-149 | a record naming itself as parent never gets `IdNotFound`; if built, its parent reference is its own id, which was already registered |
| `ConverterProperties.RunKeepsValid` | src/source_category_converter.rs:87-97 | the table invariant holds after any sequence of calls |
| `ConverterProperties.RunGrows` | src/source_category_converter.rs:38-97 | over any sequence of calls the tables only grow and `root` is only extended |
| `ConverterProperties.RunRoot` | src/source_category_converter.rs:94-95 | `root` grows by exactly the successfully built nodes of parentless records, in arrival order |
| `ConverterProperties.RunRegistersOnlyRoots` | src/source_category_converter.rs:94-95 | the id table gains exactly the ids of those root nodes; children are never registered |
| `ConverterProperties.RunLinks` | src/source_category_converter.rs:38-41 | the final name links depend only on the records: every record with an id links its name, with no rollback on later failure |
| `ConverterProperties.ParentBeforeChild` | src/source_category_converter.rs:87-149 | `Fruit` then `Apple` (parent `Fruit`): both built, `root` is the Fruit node, the child points at id "1", and the id table holds only id "1" |
| `ConverterProperties.ChildBeforeParent` | src/source_category_converter.rs:121-130 | the reversed order: the child fails with `IdNotFound`, the root is still built, both names end up linked |
| `ConverterProperties.GrandchildNotAvailable` | src/source_category_converter.rs:132-154 | three levels in order: the grandchild fails with `ParentNotAvailable` citing id "2"; one table entry, one root |
| `ConverterProperties.GrandchildOfIdSharingChild` | src/source_category_converter.rs:121-149 | a child sharing a registered root's id can be named as parent: the grandchild is built and points at that id |
| `ConverterProperties.ChildNamedLikeParentNotAvailable` | src/source_category_converter.rs:38-41 | a child named like its parent relinks the name to itself first, so it fails with `ParentNotAvailable` citing its own id "2", and the name ends up linked to "2" |
| `ConverterProperties.ChildNamedLikeParentSharingIdAttaches` | src/source_category_converter.rs:38-149 | a child named like its parent that also shares the parent root's id resolves to that registered id and is built pointing at "1" |
| `ConverterProperties.RejectedParentStaysLinked` | src/source_category_converter.rs:38-41 | a root whose attributes fail leaves its name linked, so its child fails with `ParentNotAvailable`; no node anywhere |
| `ConverterProperties.DuplicateIdOverwrites` | src/source_category_converter.rs:94-95 | two roots with one id: both are appended to `root`, the id table keeps only the second |

## Left out

- `Rc`, `RefCell` and `Weak`: nodes are values and the parent reference is the parent's id. Node identity is therefore not modelled: two nodes built from equal records are equal here, though they are two allocations in the crate.
- The internals of `SourceAttribute::to_attributes`, `Category::new` and `Category::new_into_parent` (in `cooplan_definitions_lib`, which is not part of this model). `to_attributes` is an arbitrary function that may fail. `Category::new` builds a parentless node from the given fields. `new_into_parent` either fails with an arbitrary library error or builds a node from the given fields with the parent's id as its parent; anything else it does, such as adding the child to the parent's list of children, is not modelled.
- The library's error kinds other than the three translated by name are one case, `Unlisted`, since that enum is not part of this model.
- `fmt::Formatter` plumbing: `Errors.Display` is the text written; a failing formatter is not modelled.
- `HashMap` hashing: the tables are Dafny `map`s and the root list a `seq`.
