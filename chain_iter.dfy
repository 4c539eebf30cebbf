/** `IterChain`: an iterator that walks the chain from a segment by
    following the links. */
module ChainIter {
  import opened Wrappers
  import opened ChainSegment

  class IterChain<K, V> {
    /** The segments reachable from the pointer, the pointed one first; empty
        when the pointer is `None`. */
    var pointer: seq<Segment<K, V>>

    /** `IterChain::new`. */
    constructor (reachable: seq<Segment<K, V>>)
      ensures pointer == reachable
    {
      pointer := reachable;
    }

    /** `next`: the pointed segment, moving the pointer to its successor;
        `None`, and no change, once the pointer is `None`. */
    method Next() returns (r: Option<Segment<K, V>>)
      modifies this
      ensures old(pointer) == [] ==> r.None? && pointer == []
      ensures old(pointer) != [] ==> r == Some(old(pointer)[0]) && pointer == old(pointer)[1..]
    {
      if pointer == [] {
        return None;
      }
      var next := pointer[1..];
      r := Some(pointer[0]);
      pointer := next;
    }
  }
}
