/**
 * The converter's error type: a closed set of kinds, an error carrying a kind
 * and a message, and the translation of the collaborator library's errors.
 */
module Errors {
  import DefinitionsLib

  datatype ErrorKind =
    | MissingId
    | ParentNotFound
    | IdNotFound
    | ParentNotAvailable
    | FailedToBorrowCategory
    | Other

  datatype Error = Error(kind: ErrorKind, message: string)

  /** `Error::new`: an error of the given kind carrying the given message. */
  function NewError(kind: ErrorKind, message: string): (e: Error)
    ensures e.kind == kind && e.message == message
  {
    Error(kind, message)
  }

  /** `Error::kind`: the kind the error was built with. */
  function Kind(e: Error): (k: ErrorKind)
    ensures NewError(k, e.message) == e
  {
    e.kind
  }

  /** What `Display::fmt` writes for an error: the message it was built with. */
  function Display(e: Error): (text: string)
    ensures NewError(e.kind, text) == e
  {
    e.message
  }

  /** What a new error answers through its two observers is what it was built with. */
  lemma NewErrorObserved(kind: ErrorKind, message: string)
    ensures Kind(NewError(kind, message)) == kind
    ensures Display(NewError(kind, message)) == message
  {
  }

  /** The two observers, `kind()` and the displayed text, reveal the whole error: nothing else is stored. */
  lemma ErrorDeterminedByObservers(e1: Error, e2: Error)
    ensures e1 == e2 <==> Kind(e1) == Kind(e2) && Display(e1) == Display(e2)
  {
  }

  /**
   * The kind part of `From<cooplan_definitions_lib::error::Error>`: the three
   * library kinds with a local namesake map to it, every other kind to `Other`;
   * the converter's own kinds `ParentNotFound` and `IdNotFound` never come out.
   */
  function TranslateKind(k: DefinitionsLib.ErrorKind): (r: ErrorKind)
    ensures r == FailedToBorrowCategory <==> k == DefinitionsLib.FailedToBorrowCategory
    ensures r == MissingId <==> k == DefinitionsLib.MissingId
    ensures r == ParentNotAvailable <==> k == DefinitionsLib.ParentNotAvailable
    ensures r == Other <==> k.Unlisted?
    ensures r != ParentNotFound && r != IdNotFound
  {
    match k
    case FailedToBorrowCategory => FailedToBorrowCategory
    case MissingId => MissingId
    case ParentNotAvailable => ParentNotAvailable
    case Unlisted(_) => Other
  }

  /** Translation loses kind information only among the unlisted library kinds. */
  lemma TranslateKindInjectiveOnListed(k1: DefinitionsLib.ErrorKind, k2: DefinitionsLib.ErrorKind)
    ensures TranslateKind(k1) == TranslateKind(k2) <==> k1 == k2 || (k1.Unlisted? && k2.Unlisted?)
  {
  }

  /** `From<cooplan_definitions_lib::error::Error>`: kind translated, message kept. */
  function FromLibraryError(error: DefinitionsLib.Error): (e: Error)
    ensures Kind(e) == TranslateKind(error.kind)
    ensures Display(e) == error.message
  {
    Error(TranslateKind(error.kind), error.message)
  }
}
