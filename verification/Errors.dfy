/** Error values: what failed, and the chain of `%w` wrappings around it. */
module Errors {
  import opened Basics

  datatype Cause =
    | BadInternalPort | BadExternalPort | NoLocalIP | BadProtocol | NoEntropy | NoGateway
    | NoNATFound | ContextEnded | NoAnswer | BadReply | Pcp(code: byte)
    | RolledBack | LeftOpen | Other(id: nat)

  datatype Err =
    | Base(cause: Cause)
    | Wrapped(context: string, inner: Err)
    | Joined(before: string, left: Err, between: string, right: Err)

  datatype Piece = Letter(c: char) | Message(cause: Cause)

  function Letters(s: string): seq<Piece> {
    seq(|s|, i requires 0 <= i < |s| => Letter(s[i]))
  }

  /** The text a caller prints. What a cause itself says is one opaque piece of it. */
  function Text(e: Err): seq<Piece> {
    match e
    case Base(c) => [Message(c)]
    case Wrapped(context, inner) => Letters(context) + Text(inner)
    case Joined(before, left, between, right) => Letters(before) + Text(left) + Letters(between) + Text(right)
  }

  /** What `errors.Is` and `errors.As` find, in order. */
  function Causes(e: Err): seq<Cause> {
    match e
    case Base(c) => [c]
    case Wrapped(_, inner) => Causes(inner)
    case Joined(_, left, _, right) => Causes(left) + Causes(right)
  }

  /** What is printed: each context in front of its cause, and every cause found is shown. */
  lemma {:induction false} TextShowsCauses(e: Err, c: Cause)
    ensures Message(c) in Text(e) <==> c in Causes(e)
    ensures e.Wrapped? ==> |Text(e)| == |e.context| + |Text(e.inner)| && Text(e)[|e.context|..] == Text(e.inner)
    ensures e.Wrapped? ==> forall i :: 0 <= i < |e.context| ==> Text(e)[i] == Letter(e.context[i])
  {
    match e {
      case Base(_) =>
      case Wrapped(_, inner) => TextShowsCauses(inner, c);
      case Joined(_, left, _, right) =>
        TextShowsCauses(left, c);
        TextShowsCauses(right, c);
    }
  }
}
