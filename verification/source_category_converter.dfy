/**
 * The source-category converter: a single-pass, stateful translation of flat
 * records (each naming its parent by name) into category nodes.
 *
 * The converter's three tables are modelled twice, as is usual for state
 * updated in place: as the value `Tables`, on which the functions
 * `Converted`, `ConvertedToCategory`, `CreatedFromSource` and
 * `CreatedFromSourceWithParent` give the outcome of each operation, and as
 * the fields of the class `SourceCategoryConverter`, whose methods update
 * those fields step by step and are proved to agree with the functions.
 */
module Converter {
  import opened Wrappers
  import opened DefinitionsLib
  import Errors

  /** The converter's state: id -> node, name -> id, and the parentless nodes in arrival order. */
  datatype Tables = Tables(
    categoriesMap: map<string, Category>,
    nameIdLinks: map<string, string>,
    root: seq<Category>)

  /** The tables after one operation, and what the operation returned. */
  datatype Outcome = Outcome(tables: Tables, result: Result<Category, Errors.Error>)

  /** The tables of a new converter. */
  const EMPTY := Tables(map[], map[], [])

  /**
   * What the code keeps true of its tables: every entry of the id table is
   * keyed by its own id and (as the code is written) parentless, and every
   * root node is parentless and has an entry in the id table.
   */
  ghost predicate Valid(t: Tables)
  {
    && (forall id :: id in t.categoriesMap ==>
          t.categoriesMap[id].id == id && t.categoriesMap[id].parent == None)
    && (forall i :: 0 <= i < |t.root| ==>
          t.root[i].parent == None && t.root[i].id in t.categoriesMap)
  }

  function MissingIdMessage(name: string): string
  {
    "source category '" + name + "' has no id"
  }

  const UNEXPECTED_NO_ID := "unexpected source category with no id"

  const UNEXPECTED_PARENTLESS := "unexpected parentless source category"

  function NotLinkedMessage(parentName: string): string
  {
    "category name '" + parentName + "' is not linked with an id"
  }

  function NotReadMessage(parentId: string): string
  {
    "parent '" + parentId + "' has not been read yet"
  }

  /**
   * `create_category_from_source`: build a root node. On success the node is
   * registered under its id (replacing any earlier entry) and appended to the
   * root list; on failure no table changes. The name table is never touched.
   */
  function CreatedFromSource(t: Tables, lib: Library, sc: SourceCategory): (o: Outcome)
    ensures o.tables.nameIdLinks == t.nameIdLinks
    ensures o.result.Failure? ==> o.tables == t
    ensures sc.id.None? ==> o.result == Failure(Errors.NewError(Errors.MissingId, UNEXPECTED_NO_ID))
    ensures sc.id.Some? && lib.toAttributes(sc.attributes).Failure? ==>
              o.result == Failure(Errors.FromLibraryError(lib.toAttributes(sc.attributes).error))
    ensures o.result.Success? <==> sc.id.Some? && lib.toAttributes(sc.attributes).Success?
    ensures o.result.Success? ==>
              var c := o.result.value;
              && c.id == sc.id.value
              && c.name == sc.name
              && c.selectableAsLast == (sc.selectableAsLast == Some(true))
              && c.attributes == lib.toAttributes(sc.attributes).value
              && c.parent == None
              && o.tables.categoriesMap == t.categoriesMap[c.id := c]
              && o.tables.root == t.root + [c]
  {
    match sc.id
    case None => Outcome(t, Failure(Errors.NewError(Errors.MissingId, UNEXPECTED_NO_ID)))
    case Some(id) =>
      match lib.toAttributes(sc.attributes)
      case Failure(e) => Outcome(t, Failure(Errors.FromLibraryError(e)))
      case Success(attributes) =>
        var category := NewCategory(id, sc.name, sc.selectableAsLast.GetOr(false), attributes);
        Outcome(
          t.(categoriesMap := t.categoriesMap[id := category], root := t.root + [category]),
          Success(category))
  }

  /**
   * `create_category_from_source_with_parent`: resolve the parent name to an
   * id, the id to a node, and build a child of that node. No table changes,
   * whatever happens: in particular the new child is not registered.
   */
  function CreatedFromSourceWithParent(t: Tables, lib: Library, sc: SourceCategory): (o: Outcome)
    ensures o.tables == t
    ensures sc.id.None? ==> o.result == Failure(Errors.NewError(Errors.MissingId, UNEXPECTED_NO_ID))
    ensures sc.id.Some? && sc.parentName.None? ==>
              o.result == Failure(Errors.NewError(Errors.ParentNotFound, UNEXPECTED_PARENTLESS))
    ensures sc.id.Some? && sc.parentName.Some? && sc.parentName.value !in t.nameIdLinks ==>
              o.result == Failure(Errors.NewError(Errors.IdNotFound, NotLinkedMessage(sc.parentName.value)))
    ensures sc.id.Some? && sc.parentName.Some? && sc.parentName.value in t.nameIdLinks
            && t.nameIdLinks[sc.parentName.value] !in t.categoriesMap ==>
              o.result == Failure(Errors.NewError(
                Errors.ParentNotAvailable, NotReadMessage(t.nameIdLinks[sc.parentName.value])))
    ensures sc.id.Some? && sc.parentName.Some? && sc.parentName.value in t.nameIdLinks
            && t.nameIdLinks[sc.parentName.value] in t.categoriesMap
            && lib.toAttributes(sc.attributes).Failure? ==>
              o.result == Failure(Errors.FromLibraryError(lib.toAttributes(sc.attributes).error))
    ensures sc.id.Some? && sc.parentName.Some? && sc.parentName.value in t.nameIdLinks
            && t.nameIdLinks[sc.parentName.value] in t.categoriesMap
            && lib.toAttributes(sc.attributes).Success?
            && lib.intoParentFailure(sc.id.value, t.categoriesMap[t.nameIdLinks[sc.parentName.value]], sc.name,
                                     sc.selectableAsLast.GetOr(false), lib.toAttributes(sc.attributes).value).Some? ==>
              o.result == Failure(Errors.FromLibraryError(
                lib.intoParentFailure(sc.id.value, t.categoriesMap[t.nameIdLinks[sc.parentName.value]], sc.name,
                                      sc.selectableAsLast.GetOr(false), lib.toAttributes(sc.attributes).value).value))
    ensures o.result.Success? <==>
              && sc.id.Some? && sc.parentName.Some?
              && sc.parentName.value in t.nameIdLinks
              && t.nameIdLinks[sc.parentName.value] in t.categoriesMap
              && lib.toAttributes(sc.attributes).Success?
              && lib.intoParentFailure(sc.id.value, t.categoriesMap[t.nameIdLinks[sc.parentName.value]], sc.name,
                                       sc.selectableAsLast.GetOr(false), lib.toAttributes(sc.attributes).value).None?
    ensures o.result.Success? ==>
              && sc.id.Some? && sc.parentName.Some?
              && sc.parentName.value in t.nameIdLinks
              && t.nameIdLinks[sc.parentName.value] in t.categoriesMap
              && lib.toAttributes(sc.attributes).Success?
              && var c := o.result.value;
              && c.id == sc.id.value
              && c.name == sc.name
              && c.selectableAsLast == (sc.selectableAsLast == Some(true))
              && c.attributes == lib.toAttributes(sc.attributes).value
              && c.parent == Some(t.categoriesMap[t.nameIdLinks[sc.parentName.value]].id)
  {
    match sc.id
    case None => Outcome(t, Failure(Errors.NewError(Errors.MissingId, UNEXPECTED_NO_ID)))
    case Some(id) =>
      if sc.parentName.None? then
        Outcome(t, Failure(Errors.NewError(Errors.ParentNotFound, UNEXPECTED_PARENTLESS)))
      else
        var parentName := sc.parentName.value;
        if parentName !in t.nameIdLinks then
          Outcome(t, Failure(Errors.NewError(Errors.IdNotFound, NotLinkedMessage(parentName))))
        else
          var parentId := t.nameIdLinks[parentName];
          if parentId in t.categoriesMap then
            var parentCategory := t.categoriesMap[parentId];
            match lib.toAttributes(sc.attributes)
            case Failure(e) => Outcome(t, Failure(Errors.FromLibraryError(e)))
            case Success(attributes) =>
              match NewIntoParent(lib, id, parentCategory, sc.name, sc.selectableAsLast.GetOr(false), attributes)
              case Success(category) => Outcome(t, Success(category))
              case Failure(e) => Outcome(t, Failure(Errors.FromLibraryError(e)))
          else
            Outcome(t, Failure(Errors.NewError(Errors.ParentNotAvailable, NotReadMessage(parentId))))
  }

  /**
   * `convert_source_category_to_category`: dispatch on the id and then on the
   * parent name. The dispatch only sends a record with a parent name to the
   * parent path, so that path's `ParentNotFound` check never fires, and
   * neither path touches the name table.
   */
  function ConvertedToCategory(t: Tables, lib: Library, sc: SourceCategory): (o: Outcome)
    ensures o.tables.nameIdLinks == t.nameIdLinks
    ensures o.result.Failure? ==> o.result.error.kind != Errors.ParentNotFound
    ensures sc.id.Some? ==>
              o == (if sc.parentName.Some? then CreatedFromSourceWithParent(t, lib, sc)
                    else CreatedFromSource(t, lib, sc))
    ensures sc.id.None? ==>
              o == Outcome(t, Failure(Errors.NewError(Errors.MissingId, MissingIdMessage(sc.name))))
    ensures o.result.Success? ==>
              && sc.id == Some(o.result.value.id)
              && (o.result.value.parent.Some? <==> sc.parentName.Some?)
  {
    match sc.id
    case Some(_) =>
      if sc.parentName.Some? then CreatedFromSourceWithParent(t, lib, sc) else CreatedFromSource(t, lib, sc)
    case None => Outcome(t, Failure(Errors.NewError(Errors.MissingId, MissingIdMessage(sc.name))))
  }

  /**
   * `convert`: reject a record without an id, leaving every table alone;
   * otherwise link its name to its id first (a link that stays whatever
   * happens next) and convert it.
   */
  function Converted(t: Tables, lib: Library, sc: SourceCategory): (o: Outcome)
    ensures sc.id.None? ==>
              o == Outcome(t, Failure(Errors.NewError(Errors.MissingId, MissingIdMessage(sc.name))))
    ensures sc.id.Some? ==> o.tables.nameIdLinks == t.nameIdLinks[sc.name := sc.id.value]
    ensures o.result.Failure? || sc.parentName.Some? ==>
              o.tables.categoriesMap == t.categoriesMap && o.tables.root == t.root
    ensures o.result.Success? ==>
              var c := o.result.value;
              && sc.id == Some(c.id)
              && c.name == sc.name
              && c.selectableAsLast == (sc.selectableAsLast == Some(true))
              && (c.parent.Some? <==> sc.parentName.Some?)
    ensures o.result.Success? && sc.parentName.None? ==>
              var c := o.result.value;
              o.tables.categoriesMap == t.categoriesMap[c.id := c] && o.tables.root == t.root + [c]
  {
    match sc.id
    case None => Outcome(t, Failure(Errors.NewError(Errors.MissingId, MissingIdMessage(sc.name))))
    case Some(id) => ConvertedToCategory(t.(nameIdLinks := t.nameIdLinks[sc.name := id]), lib, sc)
  }

  /** Converting a record keeps the tables' invariant. */
  lemma ConvertedKeepsValid(t: Tables, lib: Library, sc: SourceCategory)
    requires Valid(t)
    ensures Valid(Converted(t, lib, sc).tables)
  {
  }

  class SourceCategoryConverter {
    var categoriesMap: map<string, Category>
    var nameIdLinks: map<string, string>
    var root: seq<Category>

    /** The three tables as a value. */
    function State(): Tables
      reads this
    {
      Tables(categoriesMap, nameIdLinks, root)
    }

    /** `new`: a converter with three empty tables. */
    constructor ()
      ensures categoriesMap == map[] && nameIdLinks == map[] && root == []
      ensures State() == EMPTY && Valid(State())
    {
      categoriesMap := map[];
      nameIdLinks := map[];
      root := [];
    }

    /** `convert`. */
    method Convert(lib: Library, sc: SourceCategory) returns (r: Result<Category, Errors.Error>)
      requires Valid(State())
      modifies this
      ensures Valid(State())
      ensures State() == Converted(old(State()), lib, sc).tables
      ensures r == Converted(old(State()), lib, sc).result
    {
      var id;
      match sc.id {
        case Some(i) =>
          id := i;
        case None =>
          return Failure(Errors.NewError(Errors.MissingId, MissingIdMessage(sc.name)));
      }
      nameIdLinks := nameIdLinks[sc.name := id];
      r := ConvertSourceCategoryToCategory(lib, sc);
      ConvertedKeepsValid(old(State()), lib, sc);
    }

    /** `convert_source_category_to_category`. */
    method ConvertSourceCategoryToCategory(lib: Library, sc: SourceCategory) returns (r: Result<Category, Errors.Error>)
      modifies this
      ensures State() == ConvertedToCategory(old(State()), lib, sc).tables
      ensures r == ConvertedToCategory(old(State()), lib, sc).result
    {
      match sc.id {
        case Some(_) =>
          if sc.parentName.Some? {
            r := CreateCategoryFromSourceWithParent(lib, sc);
          } else {
            r := CreateCategoryFromSource(lib, sc);
          }
        case None =>
          r := Failure(Errors.NewError(Errors.MissingId, MissingIdMessage(sc.name)));
      }
    }

    /** `create_category_from_source`. */
    method CreateCategoryFromSource(lib: Library, sc: SourceCategory) returns (r: Result<Category, Errors.Error>)
      modifies this
      ensures State() == CreatedFromSource(old(State()), lib, sc).tables
      ensures r == CreatedFromSource(old(State()), lib, sc).result
    {
      var id;
      match sc.id {
        case Some(i) =>
          id := i;
        case None =>
          return Failure(Errors.NewError(Errors.MissingId, UNEXPECTED_NO_ID));
      }
      var attributes;
      match lib.toAttributes(sc.attributes) {
        case Success(a) =>
          attributes := a;
        case Failure(e) =>
          return Failure(Errors.FromLibraryError(e));
      }
      var category := NewCategory(id, sc.name, sc.selectableAsLast.GetOr(false), attributes);
      categoriesMap := categoriesMap[id := category];
      root := root + [category];
      r := Success(category);
    }

    /** `create_category_from_source_with_parent`; it reads the tables and changes none. */
    method CreateCategoryFromSourceWithParent(lib: Library, sc: SourceCategory) returns (r: Result<Category, Errors.Error>)
      ensures r == CreatedFromSourceWithParent(State(), lib, sc).result
    {
      var id;
      match sc.id {
        case Some(i) =>
          id := i;
        case None =>
          return Failure(Errors.NewError(Errors.MissingId, UNEXPECTED_NO_ID));
      }
      if sc.parentName.None? {
        return Failure(Errors.NewError(Errors.ParentNotFound, UNEXPECTED_PARENTLESS));
      }
      var parentName := sc.parentName.value;
      if parentName !in nameIdLinks {
        return Failure(Errors.NewError(Errors.IdNotFound, NotLinkedMessage(parentName)));
      }
      var parentId := nameIdLinks[parentName];
      if parentId in categoriesMap {
        var parentCategory := categoriesMap[parentId];
        var attributes;
        match lib.toAttributes(sc.attributes) {
          case Success(a) =>
            attributes := a;
          case Failure(e) =>
            return Failure(Errors.FromLibraryError(e));
        }
        match NewIntoParent(lib, id, parentCategory, sc.name, sc.selectableAsLast.GetOr(false), attributes) {
          case Success(category) =>
            r := Success(category);
          case Failure(e) =>
            r := Failure(Errors.FromLibraryError(e));
        }
      } else {
        r := Failure(Errors.NewError(Errors.ParentNotAvailable, NotReadMessage(parentId)));
      }
    }
  }
}
