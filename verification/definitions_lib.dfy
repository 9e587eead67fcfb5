/**
 * The part of the collaborator library `cooplan_definitions_lib` that the
 * converter touches: the input record, the node type it builds, the library's
 * own error type, and the three library calls it makes. The library's source
 * is not part of this model; its two fallible calls are given to the
 * converter as a `Library` value whose functions may answer anything.
 */
module DefinitionsLib {
  import opened Wrappers

  /** A raw attribute record as read from the source; its fields are not part of this model. */
  datatype SourceAttribute = SourceAttribute(raw: string)

  /** A validated attribute value; its fields are not part of this model. */
  datatype Attribute = Attribute(raw: string)

  /** One flat input record; the parent is named by its name, not its id. */
  datatype SourceCategory = SourceCategory(
    id: Option<string>,
    name: string,
    parentName: Option<string>,
    selectableAsLast: Option<bool>,
    attributes: seq<SourceAttribute>)

  /**
   * A category node. The library keeps a weak reference to the parent node;
   * here that back-reference is the parent's id.
   */
  datatype Category = Category(
    id: string,
    name: string,
    selectableAsLast: bool,
    attributes: seq<Attribute>,
    parent: Option<string>)

  /**
   * The library's error kinds. The three the converter translates by name
   * are listed; every other variant of the library's enum is `Unlisted`.
   */
  datatype ErrorKind =
    | FailedToBorrowCategory
    | MissingId
    | ParentNotAvailable
    | Unlisted(variant: string)

  datatype Error = Error(kind: ErrorKind, message: string)

  /**
   * The library's fallible behaviour, left uninterpreted: `toAttributes` is
   * `SourceAttribute::to_attributes`, and `intoParentFailure` says whether
   * `Category::new_into_parent` refuses, for the given arguments, to attach
   * the new node (for instance because the parent cannot be borrowed).
   */
  datatype Library = Library(
    toAttributes: seq<SourceAttribute> -> Result<seq<Attribute>, Error>,
    intoParentFailure: (string, Category, string, bool, seq<Attribute>) -> Option<Error>)

  /** `Category::new`: a node without a parent. */
  function NewCategory(id: string, name: string, selectableAsLast: bool, attributes: seq<Attribute>): Category
  {
    Category(id, name, selectableAsLast, attributes, None)
  }

  /** `Category::new_into_parent`: a node whose back-reference is `parent`, unless the library refuses. */
  function NewIntoParent(
    lib: Library, id: string, parent: Category, name: string, selectableAsLast: bool, attributes: seq<Attribute>
  ): Result<Category, Error>
  {
    match lib.intoParentFailure(id, parent, name, selectableAsLast, attributes)
    case Some(e) => Failure(e)
    case None => Success(Category(id, name, selectableAsLast, attributes, Some(parent.id)))
  }
}
