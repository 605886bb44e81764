/** A document collection held in memory, in its natural (insertion) order,
    and the two single-document operations the request handlers perform on it. */
module Collection {

  datatype Option<+T> = None | Some(value: T)

  /** `findOne(filter)`: the position of the first document the filter
      accepts, or None when it accepts none. */
  function FindOne<T>(docs: seq<T>, accepts: T -> bool): (r: Option<nat>)
    ensures r.Some? ==> r.value < |docs| && accepts(docs[r.value])
    ensures r.Some? ==> forall k :: 0 <= k < r.value ==> !accepts(docs[k])
    ensures r.None? <==> forall k :: 0 <= k < |docs| ==> !accepts(docs[k])
  {
    if docs == [] then None
    else if accepts(docs[0]) then Some(0)
    else match FindOne(docs[1..], accepts)
      case None => None
      case Some(k) => Some(k + 1)
  }

  /** `deleteOne` of the document at position `i`: the others keep their order. */
  function RemoveAt<T>(docs: seq<T>, i: nat): (r: seq<T>)
    requires i < |docs|
    ensures |r| == |docs| - 1
    ensures forall k :: 0 <= k < i ==> r[k] == docs[k]
    ensures forall k :: i <= k < |r| ==> r[k] == docs[k + 1]
    ensures multiset(r) + multiset{docs[i]} == multiset(docs)
  {
    assert docs == docs[..i] + [docs[i]] + docs[i + 1..];
    docs[..i] + docs[i + 1..]
  }
}
