/** `AttachmentError`: why a segment could not be attached. Both variants
    carry the segment that failed, so the caller can retry with it. */
module ChainErrors {

  datatype AttachmentError<T> =
    | KeyAlreadyExists(existing: T, candidate: T)
    | NotTail(segment: T)
  {
    /** `into_inner`: the segment that failed to attach. */
    function IntoInner(): (r: T)
      ensures KeyAlreadyExists? ==> r == candidate
      ensures NotTail? ==> r == segment
    {
      match this
      case KeyAlreadyExists(_, candidate) => candidate
      case NotTail(inner) => inner
    }
  }

  /** `into_inner` never gives back the segment already in the chain, unless
      that segment is the candidate itself. */
  lemma IntoInnerNotExisting<T>(existing: T, candidate: T)
    requires existing != candidate
    ensures KeyAlreadyExists(existing, candidate).IntoInner() != existing
  {
  }
}
