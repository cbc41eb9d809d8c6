/** Go error values as the client produces them: an opaque error that a
    collaborator (client-go, the kubeconfig loader, the host executor)
    returned, or such an error wrapped with a context message the way
    `github.com/pkg/errors.Wrap` does it. */
module Errors {

  datatype Option<+T> = None | Some(value: T)

  datatype Error =
    | Opaque(text: string)              // an error returned by a collaborator
    | Wrapped(context: string, inner: Error)

  predicate StartsWith(s: string, prefix: string) {
    |prefix| <= |s| && s[..|prefix|] == prefix
  }

  predicate EndsWith(s: string, suffix: string) {
    |suffix| <= |s| && s[|s| - |suffix|..] == suffix
  }

  /** The text `Error()` returns: every context, outermost first, each
      followed by ": ", and then the text of the innermost error. */
  function Message(e: Error): string {
    match e
    case Opaque(t) => t
    case Wrapped(c, inner) => c + ": " + Message(inner)
  }

  /** `errors.Wrap(err, context)` for a non-nil `err`. */
  function Wrap(e: Error, context: string): (w: Error)
    ensures w != e
    ensures Unwrap(w) == Some(e)
    ensures Cause(w) == Cause(e)
    ensures Message(w) == context + ": " + Message(e)
  {
    Wrapped(context, e)
  }

  /** The error `Wrap` annotated, or nothing for an opaque one. */
  function Unwrap(e: Error): Option<Error> {
    match e
    case Opaque(_) => None
    case Wrapped(_, inner) => Some(inner)
  }

  /** A wrapped message starts with its own context and with no other
      context that differs from it at some index `i`. */
  lemma WrappedPrefix(e: Error, context: string, other: string, i: nat)
    requires i < |context| && i < |other| && context[i] != other[i]
    ensures StartsWith(Message(Wrap(e, context)), context + ": ")
    ensures !StartsWith(Message(Wrap(e, context)), other + ": ")
  {
    var msg := Message(Wrap(e, context));
    assert msg[i] == context[i];
    assert (other + ": ")[i] == other[i];
  }

  /** `errors.Cause`: the innermost error. Wrapping never loses it, and its
      text is always the tail of the full message. */
  function Cause(e: Error): (c: Error)
    ensures c.Opaque?
    ensures EndsWith(Message(e), Message(c))
  {
    match e
    case Opaque(_) => e
    case Wrapped(_, inner) => Cause(inner)
  }
}
