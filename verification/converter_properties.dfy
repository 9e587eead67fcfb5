/**
 * Properties of the converter: how each kind of error arises, what the
 * tables look like after a whole sequence of records, and the behaviour of
 * the code on the orderings a caller is likely to present.
 */
module ConverterProperties {
  import opened Wrappers
  import opened DefinitionsLib
  import Errors
  import opened Converter

  /** A conversion session: the tables after a sequence of `convert` calls, and each call's result. */
  datatype Session = Session(tables: Tables, results: seq<Result<Category, Errors.Error>>)

  /** Feed `records` to `convert` one after another, in order, starting from `t`. */
  function Run(t: Tables, lib: Library, records: seq<SourceCategory>): (s: Session)
    ensures |s.results| == |records|
    decreases |records|
  {
    if records == [] then Session(t, [])
    else
      var o := Converted(t, lib, records[0]);
      var rest := Run(o.tables, lib, records[1..]);
      Session(rest.tables, [o.result] + rest.results)
  }

  /** The tables only grow: no key disappears and the root list is only extended. */
  ghost predicate Grows(t: Tables, u: Tables)
  {
    && t.categoriesMap.Keys <= u.categoriesMap.Keys
    && t.nameIdLinks.Keys <= u.nameIdLinks.Keys
    && t.root <= u.root
  }

  /** The library failure, if any, that converting `sc` from `t` runs into. */
  ghost function CollaboratorFailure(t: Tables, lib: Library, sc: SourceCategory): Option<DefinitionsLib.Error>
  {
    if sc.id.None? then None
    else
      var linked := t.nameIdLinks[sc.name := sc.id.value];
      var attributes := lib.toAttributes(sc.attributes);
      if sc.parentName.None? then
        if attributes.Failure? then Some(attributes.error) else None
      else if sc.parentName.value !in linked || linked[sc.parentName.value] !in t.categoriesMap then None
      else if attributes.Failure? then Some(attributes.error)
      else
        lib.intoParentFailure(sc.id.value, t.categoriesMap[linked[sc.parentName.value]], sc.name,
                              sc.selectableAsLast.GetOr(false), attributes.value)
  }

  /** A library that accepts every attribute list and every attachment. */
  ghost predicate AcceptsAll(lib: Library)
  {
    && (forall a :: lib.toAttributes(a).Success?)
    && (forall id, p, n, s, a :: lib.intoParentFailure(id, p, n, s, a) == None)
  }

  /** The nodes that a session appended to the root list: the successes of parentless records, in order. */
  function RootsOf(records: seq<SourceCategory>, results: seq<Result<Category, Errors.Error>>): seq<Category>
    requires |results| == |records|
  {
    if records == [] then []
    else
      (if records[0].parentName.None? && results[0].Success? then [results[0].value] else [])
      + RootsOf(records[1..], results[1..])
  }

  /** The ids of a list of nodes. */
  function IdsOf(cs: seq<Category>): set<string>
  {
    set c | c in cs :: c.id
  }

  /** The name links a sequence of records leaves behind, whatever became of each record. */
  function LinksAfter(links: map<string, string>, records: seq<SourceCategory>): map<string, string>
    decreases |records|
  {
    if records == [] then links
    else
      var r := records[0];
      LinksAfter(if r.id.Some? then links[r.name := r.id.value] else links, records[1..])
  }

  // ---------------------------------------------------------------------------
  // One call

  /** One call keeps every key and extends the root list. */
  lemma ConvertedGrows(t: Tables, lib: Library, sc: SourceCategory)
    ensures Grows(t, Converted(t, lib, sc).tables)
  {
  }

  /**
   * Where each error comes from. `ParentNotFound` never comes out of
   * `convert`; neither do the helpers' own `MissingId` errors, so a
   * `MissingId` means the record had no id or the library said so; and a
   * library failure is returned translated, whatever it is.
   */
  lemma ConvertedErrorCauses(t: Tables, lib: Library, sc: SourceCategory)
    ensures var r := Converted(t, lib, sc).result;
            r.Failure? ==> r.error.kind != Errors.ParentNotFound
    ensures var r := Converted(t, lib, sc).result;
            r.Failure? && r.error.kind == Errors.MissingId ==>
              sc.id.None? || (CollaboratorFailure(t, lib, sc).Some?
                              && CollaboratorFailure(t, lib, sc).value.kind == DefinitionsLib.MissingId)
    ensures CollaboratorFailure(t, lib, sc).Some? ==>
              Converted(t, lib, sc).result == Failure(Errors.FromLibraryError(CollaboratorFailure(t, lib, sc).value))
    ensures Converted(t, lib, sc).result.Success? ==> CollaboratorFailure(t, lib, sc).None?
  {
  }

  /**
   * When `convert` builds a node: the record has an id, the library reports
   * no failure on the record's path, and, for a child, its parent name links
   * to an id that is registered in the id table.
   */
  lemma ConvertedSucceedsExactly(t: Tables, lib: Library, sc: SourceCategory)
    ensures Converted(t, lib, sc).result.Success? <==>
              && sc.id.Some?
              && CollaboratorFailure(t, lib, sc).None?
              && (sc.parentName.None? ||
                  var linked := t.nameIdLinks[sc.name := sc.id.value];
                  sc.parentName.value in linked && linked[sc.parentName.value] in t.categoriesMap)
  {
  }

  /**
   * `IdNotFound` comes out exactly when the record has an id and a parent
   * name that is neither its own name nor linked to an id already.
   */
  lemma IdNotFoundExactly(t: Tables, lib: Library, sc: SourceCategory)
    ensures var r := Converted(t, lib, sc).result;
            (r.Failure? && r.error.kind == Errors.IdNotFound) <==>
              && sc.id.Some? && sc.parentName.Some?
              && sc.parentName.value != sc.name
              && sc.parentName.value !in t.nameIdLinks
  {
  }

  /** A parent known by name whose node was never registered gives `ParentNotAvailable`, citing its id. */
  lemma ParentNotAvailableWhenUnregistered(t: Tables, lib: Library, sc: SourceCategory)
    requires sc.id.Some? && sc.parentName.Some?
    requires var linked := t.nameIdLinks[sc.name := sc.id.value];
             sc.parentName.value in linked && linked[sc.parentName.value] !in t.categoriesMap
    ensures var linked := t.nameIdLinks[sc.name := sc.id.value];
            Converted(t, lib, sc) == Outcome(t.(nameIdLinks := linked), Failure(Errors.NewError(
              Errors.ParentNotAvailable, NotReadMessage(linked[sc.parentName.value]))))
  {
  }

  /**
   * On valid tables, a child built by `convert` points at a node that was
   * already in the id table before the call: the id its parent name links to.
   */
  lemma ChildPointsAtRegisteredParent(t: Tables, lib: Library, sc: SourceCategory)
    requires Valid(t)
    ensures var r := Converted(t, lib, sc).result;
            r.Success? && sc.parentName.Some? ==>
              var linked := t.nameIdLinks[sc.name := sc.id.value];
              && sc.parentName.value in linked
              && r.value.parent == Some(linked[sc.parentName.value])
              && linked[sc.parentName.value] in t.categoriesMap
  {
  }

  /**
   * A record naming itself as its parent never fails with `IdNotFound`,
   * since its own name is linked first; if a root with its id was read
   * before, it becomes a child of that root, pointing at its own id.
   */
  lemma SelfNamedParentResolvesToOwnId(t: Tables, lib: Library, sc: SourceCategory)
    requires Valid(t)
    requires sc.id.Some? && sc.parentName == Some(sc.name)
    ensures var r := Converted(t, lib, sc).result;
            r.Failure? ==> r.error.kind != Errors.IdNotFound
    ensures var r := Converted(t, lib, sc).result;
            r.Success? ==> r.value.parent == Some(r.value.id) && r.value.id in t.categoriesMap
  {
  }

  // ---------------------------------------------------------------------------
  // A whole session

  /** The invariant holds throughout a session. */
  lemma {:induction false} RunKeepsValid(t: Tables, lib: Library, records: seq<SourceCategory>)
    requires Valid(t)
    ensures Valid(Run(t, lib, records).tables)
    decreases |records|
  {
    if records != [] {
      ConvertedKeepsValid(t, lib, records[0]);
      RunKeepsValid(Converted(t, lib, records[0]).tables, lib, records[1..]);
    }
  }

  /** The tables only grow over a session. */
  lemma {:induction false} RunGrows(t: Tables, lib: Library, records: seq<SourceCategory>)
    ensures Grows(t, Run(t, lib, records).tables)
    decreases |records|
  {
    if records != [] {
      var u := Converted(t, lib, records[0]).tables;
      ConvertedGrows(t, lib, records[0]);
      RunGrows(u, lib, records[1..]);
      assert t.root <= u.root <= Run(u, lib, records[1..]).tables.root;
    }
  }

  /**
   * The root list grows by exactly the nodes built from parentless records,
   * in the order they arrived.
   */
  lemma {:induction false} RunRoot(t: Tables, lib: Library, records: seq<SourceCategory>)
    ensures var s := Run(t, lib, records);
            s.tables.root == t.root + RootsOf(records, s.results)
    decreases |records|
  {
    if records != [] {
      var o := Converted(t, lib, records[0]);
      var rest := Run(o.tables, lib, records[1..]);
      RunRoot(o.tables, lib, records[1..]);
      var s := Run(t, lib, records);
      assert s.results[1..] == rest.results;
      assert RootsOf(records, s.results)
          == (if records[0].parentName.None? && o.result.Success? then [o.result.value] else [])
             + RootsOf(records[1..], rest.results);
    }
  }

  /**
   * The id table gains exactly the ids of the nodes appended to the root
   * list: a child is never registered, so it can never serve as a parent.
   */
  lemma {:induction false} RunRegistersOnlyRoots(t: Tables, lib: Library, records: seq<SourceCategory>)
    ensures var s := Run(t, lib, records);
            s.tables.categoriesMap.Keys == t.categoriesMap.Keys + IdsOf(RootsOf(records, s.results))
    decreases |records|
  {
    if records != [] {
      var o := Converted(t, lib, records[0]);
      var rest := Run(o.tables, lib, records[1..]);
      RunRegistersOnlyRoots(o.tables, lib, records[1..]);
      var s := Run(t, lib, records);
      assert s.results[1..] == rest.results;
      var head := if records[0].parentName.None? && o.result.Success? then [o.result.value] else [];
      assert RootsOf(records, s.results) == head + RootsOf(records[1..], rest.results);
      assert o.tables.categoriesMap.Keys == t.categoriesMap.Keys + IdsOf(head);
      assert IdsOf(head + RootsOf(records[1..], rest.results))
          == IdsOf(head) + IdsOf(RootsOf(records[1..], rest.results));
    }
  }

  /**
   * The name links after a session depend on the records alone: every record
   * with an id links its name, whether or not its node was then built.
   */
  lemma {:induction false} RunLinks(t: Tables, lib: Library, records: seq<SourceCategory>)
    ensures Run(t, lib, records).tables.nameIdLinks == LinksAfter(t.nameIdLinks, records)
    decreases |records|
  {
    if records != [] {
      RunLinks(Converted(t, lib, records[0]).tables, lib, records[1..]);
    }
  }

  // ---------------------------------------------------------------------------
  // Orderings

  const FRUIT := SourceCategory(Some("1"), "Fruit", None, None, [])
  const APPLE := SourceCategory(Some("2"), "Apple", Some("Fruit"), None, [])
  const GRANNY_SMITH := SourceCategory(Some("3"), "Granny Smith", Some("Apple"), None, [])

  /** A root and then its child: both built, one root, the child points at the root's id. */
  lemma ParentBeforeChild(lib: Library)
    requires AcceptsAll(lib)
    ensures var s := Run(EMPTY, lib, [FRUIT, APPLE]);
            && s.results[0] == Success(Category("1", "Fruit", false, lib.toAttributes([]).value, None))
            && s.results[1].Success?
            && s.results[1].value.parent == Some("1")
            && s.tables.root == [s.results[0].value]
            && s.tables.categoriesMap == map["1" := s.results[0].value]
  {
    var o1 := Converted(EMPTY, lib, FRUIT);
    assert o1.result.Success?;
    var o2 := Converted(o1.tables, lib, APPLE);
    assert o2.result.Success?;
    assert Run(o1.tables, lib, [APPLE]) == Session(o2.tables, [o2.result]) by {
      assert [APPLE][1..] == [];
    }
    assert [FRUIT, APPLE][1..] == [APPLE];
  }

  /** The child before its root: the child fails with `IdNotFound`, the root is still built. */
  lemma ChildBeforeParent(lib: Library)
    requires AcceptsAll(lib)
    ensures var s := Run(EMPTY, lib, [APPLE, FRUIT]);
            && s.results[0] == Failure(Errors.NewError(Errors.IdNotFound, NotLinkedMessage("Fruit")))
            && s.results[1].Success?
            && s.tables.nameIdLinks == map["Apple" := "2", "Fruit" := "1"]
  {
    var o1 := Converted(EMPTY, lib, APPLE);
    var o2 := Converted(o1.tables, lib, FRUIT);
    assert Run(o1.tables, lib, [FRUIT]) == Session(o2.tables, [o2.result]) by {
      assert [FRUIT][1..] == [];
    }
    assert [APPLE, FRUIT][1..] == [FRUIT];
  }

  /**
   * Three levels in order: the grandchild fails with `ParentNotAvailable`,
   * because its parent, a child, was never registered under its id.
   */
  lemma GrandchildNotAvailable(lib: Library)
    requires AcceptsAll(lib)
    ensures var s := Run(EMPTY, lib, [FRUIT, APPLE, GRANNY_SMITH]);
            && s.results[0].Success? && s.results[1].Success?
            && s.results[2] == Failure(Errors.NewError(Errors.ParentNotAvailable, NotReadMessage("2")))
            && s.tables.categoriesMap.Keys == {"1"}
            && |s.tables.root| == 1
  {
    var o1 := Converted(EMPTY, lib, FRUIT);
    var o2 := Converted(o1.tables, lib, APPLE);
    var o3 := Converted(o2.tables, lib, GRANNY_SMITH);
    assert Run(o2.tables, lib, [GRANNY_SMITH]) == Session(o3.tables, [o3.result]) by {
      assert [GRANNY_SMITH][1..] == [];
    }
    assert [APPLE, GRANNY_SMITH][1..] == [GRANNY_SMITH];
    assert [FRUIT, APPLE, GRANNY_SMITH][1..] == [APPLE, GRANNY_SMITH];
  }

  const APPLE_SHARING_ID := SourceCategory(Some("1"), "Apple", Some("Fruit"), None, [])

  /**
   * A child that shares its id with a registered root can serve as a parent:
   * its name links to that id, which the id table holds, so the grandchild
   * is built and points at id "1".
   */
  lemma GrandchildOfIdSharingChild(lib: Library)
    requires AcceptsAll(lib)
    ensures var s := Run(EMPTY, lib, [FRUIT, APPLE_SHARING_ID, GRANNY_SMITH]);
            && s.results[1].Success?
            && s.results[2].Success?
            && s.results[2].value.parent == Some("1")
  {
    var o1 := Converted(EMPTY, lib, FRUIT);
    var o2 := Converted(o1.tables, lib, APPLE_SHARING_ID);
    var o3 := Converted(o2.tables, lib, GRANNY_SMITH);
    assert Run(o2.tables, lib, [GRANNY_SMITH]) == Session(o3.tables, [o3.result]) by {
      assert [GRANNY_SMITH][1..] == [];
    }
    assert [APPLE_SHARING_ID, GRANNY_SMITH][1..] == [GRANNY_SMITH];
    assert [FRUIT, APPLE_SHARING_ID, GRANNY_SMITH][1..] == [APPLE_SHARING_ID, GRANNY_SMITH];
  }

  const FRUIT_CHILD_NAMED_FRUIT := SourceCategory(Some("2"), "Fruit", Some("Fruit"), None, [])

  /**
   * A child carrying its parent's name, with an id of its own that no root
   * has, cannot attach to that parent: its own link replaces the parent's
   * before the lookup, so the name resolves to the child's own, unregistered id.
   */
  lemma ChildNamedLikeParentNotAvailable(lib: Library)
    requires AcceptsAll(lib)
    ensures var s := Run(EMPTY, lib, [FRUIT, FRUIT_CHILD_NAMED_FRUIT]);
            && s.results[0].Success?
            && s.results[1] == Failure(Errors.NewError(Errors.ParentNotAvailable, NotReadMessage("2")))
            && s.tables.nameIdLinks == map["Fruit" := "2"]
  {
    var o1 := Converted(EMPTY, lib, FRUIT);
    var o2 := Converted(o1.tables, lib, FRUIT_CHILD_NAMED_FRUIT);
    assert Run(o1.tables, lib, [FRUIT_CHILD_NAMED_FRUIT]) == Session(o2.tables, [o2.result]) by {
      assert [FRUIT_CHILD_NAMED_FRUIT][1..] == [];
    }
    assert [FRUIT, FRUIT_CHILD_NAMED_FRUIT][1..] == [FRUIT_CHILD_NAMED_FRUIT];
  }

  const FRUIT_CHILD_SHARING_ID := SourceCategory(Some("1"), "Fruit", Some("Fruit"), None, [])

  /**
   * A child carrying its parent's name and also its parent's id does attach:
   * the name resolves to its own id, which the parent root registered.
   */
  lemma ChildNamedLikeParentSharingIdAttaches(lib: Library)
    requires AcceptsAll(lib)
    ensures var s := Run(EMPTY, lib, [FRUIT, FRUIT_CHILD_SHARING_ID]);
            && s.results[0].Success?
            && s.results[1].Success?
            && s.results[1].value.parent == Some("1")
  {
    var o1 := Converted(EMPTY, lib, FRUIT);
    var o2 := Converted(o1.tables, lib, FRUIT_CHILD_SHARING_ID);
    assert Run(o1.tables, lib, [FRUIT_CHILD_SHARING_ID]) == Session(o2.tables, [o2.result]) by {
      assert [FRUIT_CHILD_SHARING_ID][1..] == [];
    }
    assert [FRUIT, FRUIT_CHILD_SHARING_ID][1..] == [FRUIT_CHILD_SHARING_ID];
  }

  /**
   * A root whose attributes the library rejects still links its name, so a
   * child naming it fails with `ParentNotAvailable` rather than `IdNotFound`.
   */
  lemma RejectedParentStaysLinked(lib: Library)
    requires lib.toAttributes([]).Failure?
    ensures var s := Run(EMPTY, lib, [FRUIT, APPLE]);
            && s.results[0] == Failure(Errors.FromLibraryError(lib.toAttributes([]).error))
            && s.results[1] == Failure(Errors.NewError(Errors.ParentNotAvailable, NotReadMessage("1")))
            && s.tables == Tables(map[], map["Fruit" := "1", "Apple" := "2"], [])
  {
    var o1 := Converted(EMPTY, lib, FRUIT);
    var o2 := Converted(o1.tables, lib, APPLE);
    assert Run(o1.tables, lib, [APPLE]) == Session(o2.tables, [o2.result]) by {
      assert [APPLE][1..] == [];
    }
    assert [FRUIT, APPLE][1..] == [APPLE];
  }

  /**
   * Two roots with one id: both are appended to the root list, and the id
   * table keeps only the second.
   */
  lemma DuplicateIdOverwrites(lib: Library, first: SourceCategory, second: SourceCategory)
    requires AcceptsAll(lib)
    requires first.parentName.None? && second.parentName.None?
    requires first.id.Some? && first.id == second.id
    ensures var s := Run(EMPTY, lib, [first, second]);
            && s.results[0].Success? && s.results[1].Success?
            && s.tables.root == [s.results[0].value, s.results[1].value]
            && s.tables.categoriesMap == map[first.id.value := s.results[1].value]
  {
    var o1 := Converted(EMPTY, lib, first);
    var o2 := Converted(o1.tables, lib, second);
    assert Run(o1.tables, lib, [second]) == Session(o2.tables, [o2.result]) by {
      assert [second][1..] == [];
    }
    assert [first, second][1..] == [second];
  }
}
