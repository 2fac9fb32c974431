/**
 * The error type shared by every crate (crates/core/src/error/mod.rs) and the
 * small wrapper types the model uses around it.
 */
module Errors {

  datatype Option<T> = None | Some(value: T) {
    /** `opt.unwrap_or(default)` */
    function UnwrapOr(default: T): T {
      match this
      case Some(v) => v
      case None => default
    }
  }

  /** `NoodleError`: one variant per error kind, each carrying its message. */
  datatype NoodleError =
    | Storage(msg: string)
    | Outlook(msg: string)
    | AI(msg: string)
    | Validation(msg: string)
    | Internal(msg: string)
    | Other(msg: string)

  /** `noodle_core::error::Result<T>` */
  datatype Result<T> = Ok(value: T) | Err(error: NoodleError) {
    predicate IsFailure() {
      Err?
    }

    function PropagateFailure<U>(): Result<U>
      requires Err?
    {
      Err(error)
    }

    function Extract(): T
      requires Ok?
    {
      value
    }
  }

  /** The `Display` text of an error (the `#[error(...)]` attributes), which the
      UI commands return through `e.to_string()`. */
  function ErrorText(e: NoodleError): (s: string)
    ensures e.Storage? ==> s == "Storage error: " + e.msg
    ensures e.AI? ==> s == "AI error: " + e.msg
    ensures e.Outlook? ==> s == "Outlook error: " + e.msg
    ensures e.Validation? ==> s == "Validation error: " + e.msg
    ensures e.Internal? ==> s == "Internal error: " + e.msg
    ensures e.Other? ==> s == e.msg
  {
    match e
    case Storage(m) => "Storage error: " + m
    case Outlook(m) => "Outlook error: " + m
    case AI(m) => "AI error: " + m
    case Validation(m) => "Validation error: " + m
    case Internal(m) => "Internal error: " + m
    case Other(m) => m
  }

  /** Every kind but `Other` has its own prefix, so the displayed text of such an
      error gives back both its kind and its message. */
  lemma ErrorTextIdentifiesKind(e1: NoodleError, e2: NoodleError)
    requires !e1.Other? && !e2.Other?
    requires ErrorText(e1) == ErrorText(e2)
    ensures e1 == e2
  {
    var t := ErrorText(e1);
    // The first letters S, O, A, V and I tell the kinds apart.
    assert t[0] == ErrorText(e2)[0];
    var n := |ErrorText(e1)| - |e1.msg|;
    assert e1.msg == t[n..];
    assert e2.msg == t[n..];
  }
}
