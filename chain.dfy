/** `Chain`: the insertion-ordered, singly linked key-to-value list the shop
    keeps its orders in, run single-threaded. The chain holds the segments
    reachable from its head, in link order (the successor of a segment is
    the next one in `segments`), and for each the number of strong
    references held outside the chain (`refs`; the chain's own head or link
    reference is not counted). Segments are addressed by their position. */
module OrderChain {
  import opened Wrappers
  import opened ChainErrors
  import opened ChainSegment
  import opened ChainIter

  type AttachResult<K, V> = Result<Segment<K, V>, AttachmentError<Segment<K, V>>>

  /** What `insert` does, run alone: an empty chain takes the segment as its
      head, a non-empty one attaches it from the head. */
  function InsertSpec<K(==), V>(segments: seq<Segment<K, V>>, key: K, value: V): AttachResult<K, V> {
    if |segments| == 0 then Ok(Segment(key, value)) else AttachSpec(segments, 0, Segment(key, value))
  }

  /** Whether `insert` accepts the key: always on an empty chain, and
      otherwise when neither the head nor the tail holds it. */
  predicate InsertAccepts<K(==), V>(segments: seq<Segment<K, V>>, key: K) {
    |segments| == 0 || (segments[0].key != key && segments[|segments| - 1].key != key)
  }

  function Inserted<K(==), V>(segments: seq<Segment<K, V>>, key: K, value: V): seq<Segment<K, V>> {
    if InsertSpec(segments, key, value).Ok? then segments + [Segment(key, value)] else segments
  }

  /** What `from_iter` builds: the pairs inserted in order into an empty
      chain, or the first insertion error. */
  function FromIterSpec<K(==), V>(pairs: seq<(K, V)>): Result<seq<Segment<K, V>>, AttachmentError<Segment<K, V>>> {
    if |pairs| == 0 then Ok([])
    else
      match FromIterSpec(pairs[..|pairs| - 1])
      case Err(e) => Err(e)
      case Ok(segments) =>
        var (k, v) := pairs[|pairs| - 1];
        match InsertSpec(segments, k, v)
        case Err(e) => Err(e)
        case Ok(_) => Ok(segments + [Segment(k, v)])
  }

  /** The length of the longest prefix of segments no one outside the chain
      refers to. */
  function FreePrefix(refs: seq<nat>): (n: nat)
    ensures n <= |refs|
    ensures forall i :: 0 <= i < n ==> refs[i] == 0
    ensures n < |refs| ==> refs[n] > 0
  {
    if |refs| == 0 || refs[0] > 0 then 0 else 1 + FreePrefix(refs[1..])
  }

  /** No segment of `segments` holds the key. */
  predicate KeyAbsent<K(==), V>(segments: seq<Segment<K, V>>, key: K) {
    forall i :: 0 <= i < |segments| ==> segments[i].key != key
  }

  /** The first segment in chain order with the given key. */
  function Find<K(==), V>(segments: seq<Segment<K, V>>, key: K): (r: Option<Segment<K, V>>)
    ensures r.None? <==> KeyAbsent(segments, key)
    ensures r.Some? ==> r.value.key == key
  {
    if |segments| == 0 then None
    else if segments[0].key == key then Some(segments[0])
    else Find(segments[1..], key)
  }

  /** `Find` gives the segment with the key that comes first. */
  lemma {:induction false} FindIsFirst<K, V>(segments: seq<Segment<K, V>>, key: K)
    requires Find(segments, key).Some?
    ensures exists i :: 0 <= i < |segments| && segments[i] == Find(segments, key).value
                        && KeyAbsent(segments[..i], key)
  {
    if segments[0].key == key {
      assert segments[..0] == [];
    } else {
      FindIsFirst(segments[1..], key);
      var i :| 0 <= i < |segments| - 1 && segments[1..][i] == Find(segments[1..], key).value
               && KeyAbsent(segments[1..][..i], key);
      assert segments[..i + 1] == [segments[0]] + segments[1..][..i];
      assert segments[i + 1] == Find(segments, key).value;
    }
  }

  class Chain<K(==), V> {
    var segments: seq<Segment<K, V>>
    var refs: seq<nat>

    predicate Valid()
      reads this
    {
      |refs| == |segments|
    }

    /** `Chain::new` and `Chain::default`: no head. */
    constructor ()
      ensures Valid() && segments == [] && refs == []
    {
      segments := [];
      refs := [];
    }

    /** `From<(K, V)>`: a chain whose head is the pair, with no successor. */
    constructor FromPair(key: K, value: V)
      ensures Valid() && segments == [Segment(key, value)] && refs == [0]
    {
      segments := [Segment(key, value)];
      refs := [0];
    }

    /** `head`. */
    function Head(): (r: Option<Segment<K, V>>)
      reads this
      ensures r.None? <==> segments == []
      ensures r.Some? ==> r.value == segments[0]
    {
      if segments == [] then None else Some(segments[0])
    }

    /** `is_empty`. */
    function IsEmpty(): (b: bool)
      reads this
      ensures b <==> Head().None?
    {
      segments == []
    }

    /** `ChainSegment::next` of the segment at `at`. */
    function Next(at: nat): (r: Option<Segment<K, V>>)
      reads this
      requires at < |segments|
      ensures r.None? <==> at == |segments| - 1
      ensures r.Some? ==> r.value == segments[at + 1]
    {
      if at + 1 < |segments| then Some(segments[at + 1]) else None
    }

    /** `ChainSegment::tail` of the segment at `at`: follows the links to the
        segment without a successor. */
    method TailFrom(at: nat) returns (tail: nat)
      requires at < |segments|
      ensures tail == |segments| - 1
      ensures Next(tail).None?
    {
      tail := at;
      while Next(tail).Some?
        invariant at <= tail < |segments|
        decreases |segments| - tail
      {
        tail := tail + 1;
      }
    }

    /** `ChainSegment::try_attach` on the segment at `at`. */
    method TryAttach(at: nat, candidate: Segment<K, V>) returns (r: AttachResult<K, V>)
      requires Valid() && at < |segments|
      modifies this
      ensures Valid()
      ensures candidate.key == old(segments)[at].key ==>
        r == Err(KeyAlreadyExists(old(segments)[at], candidate)) && segments == old(segments) && refs == old(refs)
      ensures candidate.key != old(segments)[at].key && at < |old(segments)| - 1 ==>
        r == Err(NotTail(candidate)) && segments == old(segments) && refs == old(refs)
      ensures candidate.key != old(segments)[at].key && at == |old(segments)| - 1 ==>
        r == Ok(candidate) && segments == old(segments) + [candidate] && refs == old(refs) + [0]
    {
      if segments[at].key == candidate.key {
        return Err(KeyAlreadyExists(segments[at], candidate));
      }
      if Next(at).Some? {
        return Err(NotTail(candidate));
      }
      segments := segments + [candidate];
      refs := refs + [0];
      r := Ok(segments[at + 1]);
    }

    /** `ChainSegment::attach` from the segment at `at`: on `NotTail` it
        retries from the tail, so it never fails with `NotTail`. */
    method Attach(at: nat, candidate: Segment<K, V>) returns (r: AttachResult<K, V>)
      requires Valid() && at < |segments|
      modifies this
      ensures Valid()
      ensures r == AttachSpec(old(segments), at, candidate)
      ensures segments == Attached(old(segments), at, candidate)
      ensures refs == if r.Ok? then old(refs) + [0] else old(refs)
      ensures !(r.Err? && r.error.NotTail?)
    {
      var tail: nat := at;
      r := TryAttach(tail, candidate);
      while r.Err? && r.error.NotTail?
        invariant Valid() && tail < |segments|
        invariant r.Err? && r.error.NotTail? ==>
          r.error.segment == candidate && segments == old(segments) && refs == old(refs)
          && candidate.key != segments[at].key
        invariant !(r.Err? && r.error.NotTail?) ==>
          r == AttachSpec(old(segments), at, candidate)
          && segments == Attached(old(segments), at, candidate)
          && refs == (if r.Ok? then old(refs) + [0] else old(refs))
        decreases if r.Err? && r.error.NotTail? then 1 else 0
      {
        var next := r.error.segment;
        tail := TailFrom(tail);
        r := TryAttach(tail, next);
      }
    }

    /** `Chain::tail`: the segment without a successor, reached from the head. */
    method Tail() returns (r: Option<Segment<K, V>>)
      ensures r.None? <==> segments == []
      ensures r.Some? ==> r.value == segments[|segments| - 1]
    {
      if segments == [] {
        return None;
      }
      var tail := TailFrom(0);
      r := Some(segments[tail]);
    }

    /** `Chain::iter`: an iterator starting at the head. */
    method Iter() returns (it: IterChain<K, V>)
      ensures fresh(it) && it.pointer == segments
    {
      it := new IterChain(segments);
    }

    /** `Chain::len`: counts the segments by following the links from the
        head. */
    method Len() returns (count: nat)
      ensures count == |segments|
    {
      if segments == [] {
        return 0;
      }
      var at := 0;
      count := 1;
      while Next(at).Some?
        invariant 0 <= at < |segments| && count == at + 1
        decreases |segments| - at
      {
        count := count + 1;
        at := at + 1;
      }
    }

    /** `Chain::get`: the first segment, in chain order, with the key. */
    method Get(key: K) returns (r: Option<Segment<K, V>>)
      ensures r == Find(segments, key)
    {
      var it := Iter();
      ghost var seen := 0;
      while true
        invariant 0 <= seen <= |segments| && it.pointer == segments[seen..]
        invariant Find(segments, key) == Find(segments[seen..], key)
        decreases |it.pointer|
      {
        var s := it.Next();
        if s.None? {
          return None;
        }
        if s.value.key == key {
          return s;
        }
        FindSkip(segments[seen..], key);
        assert segments[seen..][1..] == segments[seen + 1..];
        seen := seen + 1;
      }
    }

    /** `Chain::insert`: makes the segment the head of an empty chain, or
        attaches it from the head. */
    method Insert(key: K, value: V) returns (r: AttachResult<K, V>)
      requires Valid()
      modifies this
      ensures Valid()
      ensures r == InsertSpec(old(segments), key, value)
      ensures segments == Inserted(old(segments), key, value)
      ensures refs == if r.Ok? then old(refs) + [0] else old(refs)
    {
      var segment := ChainSegment.FromPair(key, value);
      if Head().Some? {
        r := Attach(0, segment);
      } else {
        segments := [segment];
        refs := [0];
        r := Ok(segment);
      }
    }

    /** `Chain::from_iter`: inserts the pairs in order into a new chain and
        stops at the first error. */
    static method FromIter(pairs: seq<(K, V)>) returns (r: Result<Chain<K, V>, AttachmentError<Segment<K, V>>>)
      ensures FromIterSpec(pairs).Err? <==> r.Err?
      ensures r.Err? ==> r.error == FromIterSpec(pairs).error
      ensures r.Ok? ==> fresh(r.value) && r.value.Valid() && r.value.segments == FromIterSpec(pairs).value
    {
      var chain := new Chain();
      var i := 0;
      while i < |pairs|
        invariant 0 <= i <= |pairs| && chain.Valid() && fresh(chain)
        invariant FromIterSpec(pairs[..i]) == Ok(chain.segments)
      {
        var (k, v) := pairs[i];
        assert pairs[..i + 1][..i] == pairs[..i];
        var inserted := chain.Insert(k, v);
        if inserted.Err? {
          FromIterStops(pairs, i + 1);
          assert pairs[..i + 1] == pairs[..i + 1];
          return Err(inserted.error);
        }
        i := i + 1;
      }
      assert pairs[..i] == pairs;
      r := Ok(chain);
    }

    /** `Chain::advance`: drops segments from the head for as long as the
        head has no outside reference, emptying the chain if none has. */
    method Advance()
      requires Valid()
      modifies this
      ensures Valid()
      ensures segments == old(segments)[FreePrefix(old(refs))..]
      ensures refs == old(refs)[FreePrefix(old(refs))..]
    {
      ghost var dropped := 0;
      while true
        invariant Valid() && dropped <= |old(refs)|
        invariant segments == old(segments)[dropped..] && refs == old(refs)[dropped..]
        invariant forall i :: 0 <= i < dropped ==> old(refs)[i] == 0
        decreases |segments|
      {
        if Head().Some? {
          if refs[0] > 0 {
            break;
          }
          segments := segments[1..];
          refs := refs[1..];
          dropped := dropped + 1;
        } else {
          segments := [];
          refs := [];
          break;
        }
      }
      FreePrefixIs(old(refs), dropped);
    }

    /** Takes one more outside reference to the segment at `at`, as cloning
        the `Arc` a lookup returned does. */
    method Hold(at: nat)
      requires Valid() && at < |segments|
      modifies this
      ensures Valid() && segments == old(segments)
      ensures refs == old(refs)[at := old(refs)[at] + 1]
    {
      refs := refs[at := refs[at] + 1];
    }

    /** Drops one outside reference to the segment at `at`. */
    method Release(at: nat)
      requires Valid() && at < |segments| && refs[at] > 0
      modifies this
      ensures Valid() && segments == old(segments)
      ensures refs == old(refs)[at := old(refs)[at] - 1]
    {
      refs := refs[at := refs[at] - 1];
    }
  }

  lemma FindSkip<K, V>(segments: seq<Segment<K, V>>, key: K)
    requires |segments| > 0 && segments[0].key != key
    ensures Find(segments, key) == Find(segments[1..], key)
  {
  }

  lemma FromIterStops<K, V>(pairs: seq<(K, V)>, n: nat)
    requires 0 < n <= |pairs|
    requires FromIterSpec(pairs[..n]).Err?
    ensures FromIterSpec(pairs) == FromIterSpec(pairs[..n])
    decreases |pairs| - n
  {
    if n < |pairs| {
      assert pairs[..n + 1][..n] == pairs[..n];
      FromIterStops(pairs, n + 1);
    } else {
      assert pairs[..n] == pairs;
    }
  }

  lemma FreePrefixIs(refs: seq<nat>, n: nat)
    requires n <= |refs|
    requires forall i :: 0 <= i < n ==> refs[i] == 0
    requires n < |refs| ==> refs[n] > 0
    ensures FreePrefix(refs) == n
  {
    if n > 0 {
      FreePrefixIs(refs[1..], n - 1);
    }
  }

  /** The segments made from the pairs, in order. */
  function PairSegments<K, V>(pairs: seq<(K, V)>): (segments: seq<Segment<K, V>>)
    ensures |segments| == |pairs|
    ensures forall i :: 0 <= i < |pairs| ==> segments[i] == Segment(pairs[i].0, pairs[i].1)
  {
    seq(|pairs|, i requires 0 <= i < |pairs| => Segment(pairs[i].0, pairs[i].1))
  }

  /** The keys of the pairs are pairwise different. */
  predicate DistinctKeys<K(==), V>(pairs: seq<(K, V)>) {
    forall i, j :: 0 <= i < j < |pairs| ==> pairs[i].0 != pairs[j].0
  }

  /** A chain built by `from_iter` holds the pairs in iteration order. */
  lemma {:induction false} FromIterInOrder<K, V>(pairs: seq<(K, V)>)
    requires FromIterSpec(pairs).Ok?
    ensures FromIterSpec(pairs).value == PairSegments(pairs)
  {
    if |pairs| > 0 {
      var prefix := pairs[..|pairs| - 1];
      FromIterInOrder(prefix);
      assert PairSegments(pairs) == PairSegments(prefix) + [Segment(pairs[|pairs| - 1].0, pairs[|pairs| - 1].1)];
    }
  }

  /** Pairs with pairwise different keys always build a chain. */
  lemma {:induction false} FromIterDistinct<K, V>(pairs: seq<(K, V)>)
    requires DistinctKeys(pairs)
    ensures FromIterSpec(pairs) == Ok(PairSegments(pairs))
  {
    if |pairs| > 0 {
      var prefix := pairs[..|pairs| - 1];
      assert DistinctKeys(prefix);
      FromIterDistinct(prefix);
      assert PairSegments(pairs) == PairSegments(prefix) + [Segment(pairs[|pairs| - 1].0, pairs[|pairs| - 1].1)];
    }
  }

  /** A pair whose key repeats the key of the pair just before it stops
      `from_iter` with `KeyAlreadyExists`, handing back that pair. */
  lemma FromIterRejectsRepeat<K, V>(pairs: seq<(K, V)>)
    requires |pairs| >= 2 && pairs[|pairs| - 1].0 == pairs[|pairs| - 2].0
    requires FromIterSpec(pairs[..|pairs| - 1]).Ok?
    ensures FromIterSpec(pairs).Err?
    ensures FromIterSpec(pairs).error
            == KeyAlreadyExists(Segment(pairs[|pairs| - 2].0, pairs[|pairs| - 2].1),
                                Segment(pairs[|pairs| - 1].0, pairs[|pairs| - 1].1))
  {
    var prefix := pairs[..|pairs| - 1];
    FromIterInOrder(prefix);
  }

  /** `insert` succeeds exactly when the key is accepted, and it then
      hands back the new segment; otherwise it reports the segment, the
      head first, that already holds the key. */
  lemma InsertOutcome<K, V>(segments: seq<Segment<K, V>>, key: K, value: V)
    ensures InsertSpec(segments, key, value).Ok? <==> InsertAccepts(segments, key)
    ensures InsertAccepts(segments, key) ==> InsertSpec(segments, key, value) == Ok(Segment(key, value))
    ensures !InsertAccepts(segments, key) ==>
              InsertSpec(segments, key, value)
              == Err(KeyAlreadyExists(if segments[0].key == key then segments[0] else segments[|segments| - 1],
                                      Segment(key, value)))
  {
  }

  /** A key already at the head cannot be inserted again. */
  lemma InsertHeadKeyFails<K, V>(segments: seq<Segment<K, V>>, value: V)
    requires |segments| > 0
    ensures InsertSpec(segments, segments[0].key, value)
            == Err(KeyAlreadyExists(segments[0], Segment(segments[0].key, value)))
    ensures Inserted(segments, segments[0].key, value) == segments
  {
  }

  /** A key that neither the head nor the tail holds is inserted at the end. */
  lemma InsertFreshKey<K, V>(segments: seq<Segment<K, V>>, key: K, value: V)
    requires KeyAbsent(segments, key)
    ensures InsertSpec(segments, key, value) == Ok(Segment(key, value))
    ensures Inserted(segments, key, value) == segments + [Segment(key, value)]
  {
  }

  /** With no outside references at all, `advance` empties the chain. */
  lemma {:induction false} AdvanceUnreferenced(refs: seq<nat>)
    requires forall i :: 0 <= i < |refs| ==> refs[i] == 0
    ensures FreePrefix(refs) == |refs|
  {
    if |refs| > 0 {
      AdvanceUnreferenced(refs[1..]);
    }
  }

  /** A segment that someone outside holds survives `advance`, and so does
      every segment after it. */
  lemma {:induction false} AdvanceKeepsHeld(refs: seq<nat>, at: nat)
    requires at < |refs| && refs[at] > 0
    ensures FreePrefix(refs) <= at
  {
    if at > 0 && refs[0] == 0 {
      AdvanceKeepsHeld(refs[1..], at - 1);
    }
  }

  /** After `advance` drops the head, the head's key can be inserted again
      when the remaining segments do not hold it. */
  lemma ReinsertAfterAdvance<K, V>(segments: seq<Segment<K, V>>, refs: seq<nat>, value: V)
    requires |refs| == |segments| >= 2 && refs[0] == 0 && refs[1] > 0
    requires KeyAbsent(segments[1..], segments[0].key)
    ensures InsertSpec(segments, segments[0].key, value).Err?
    ensures InsertSpec(segments[FreePrefix(refs)..], segments[0].key, value).Ok?
  {
    assert FreePrefix(refs[1..]) == 0;
  }
}
