/** A segment of the order chain, without its link. Links are held by the
    chain (`OrderChain.Chain`): the successor of a segment is the one after
    it in the chain's sequence. */
module ChainSegment {
  import opened Wrappers
  import opened ChainErrors

  datatype Segment<K, V> = Segment(key: K, value: V)

  /** `From<(K, V)>`. */
  function FromPair<K, V>(key: K, value: V): (s: Segment<K, V>)
    ensures s.key == key && s.value == value
  {
    Segment(key, value)
  }

  /** What `attach` from the segment at `at` does, run alone: the candidate
      is compared with the starting segment, and, when that one is not the
      tail, with the tail; it is attached when both keys differ. */
  function AttachSpec<K(==), V>(segments: seq<Segment<K, V>>, at: nat, candidate: Segment<K, V>)
    : (r: Result<Segment<K, V>, AttachmentError<Segment<K, V>>>)
    requires at < |segments|
    ensures r.Ok? <==> candidate.key != segments[at].key && candidate.key != segments[|segments| - 1].key
    ensures r.Ok? ==> r.value == candidate
    ensures r.Err? ==> r.error.KeyAlreadyExists? && r.error.candidate == candidate
    ensures r.Err? ==> r.error.existing == (if candidate.key == segments[at].key then segments[at]
                                            else segments[|segments| - 1])
  {
    if segments[at].key == candidate.key then Err(KeyAlreadyExists(segments[at], candidate))
    else if at == |segments| - 1 then Ok(candidate)
    else if segments[|segments| - 1].key == candidate.key then
      Err(KeyAlreadyExists(segments[|segments| - 1], candidate))
    else Ok(candidate)
  }

  /** The segments after a successful attach. */
  function Attached<K(==), V>(segments: seq<Segment<K, V>>, at: nat, candidate: Segment<K, V>)
    : seq<Segment<K, V>>
    requires at < |segments|
  {
    if AttachSpec(segments, at, candidate).Ok? then segments + [candidate] else segments
  }

  /** The duplicate check is weak: a key held only by a segment strictly
      between the start and the tail is not noticed. */
  lemma MiddleDuplicateAccepted<V>(v: V)
    ensures var segments := [Segment(1, v), Segment(2, v), Segment(3, v)];
            AttachSpec(segments, 0, Segment(2, v)).Ok?
  {
  }
}
