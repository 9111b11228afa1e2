/** A MongoDB collection as the services see it: a sequence of documents in
    the collection's natural order, each with a key. `findOne`, `findById`,
    `find`, `findByIdAndUpdate` and `findByIdAndDelete` are expressed over
    it. */
module Store {
  import opened Common

  /** Position of the first document whose key is `k`. */
  function IndexOf<D, K(==)>(docs: seq<D>, key: D -> K, k: K): (r: Option<nat>)
    ensures r.Some? ==> r.value < |docs| && key(docs[r.value]) == k
    ensures r.Some? ==> forall j :: 0 <= j < r.value ==> key(docs[j]) != k
    ensures r.None? <==> forall j :: 0 <= j < |docs| ==> key(docs[j]) != k
  {
    if docs == [] then None
    else if key(docs[0]) == k then Some(0)
    else match IndexOf(docs[1..], key, k)
      case None => None
      case Some(i) => Some(i + 1)
  }

  /** The first position holding a key is the one `IndexOf` reports. */
  lemma IndexOfFirst<D, K>(docs: seq<D>, key: D -> K, k: K, i: nat)
    requires i < |docs| && key(docs[i]) == k
    requires forall j :: 0 <= j < i ==> key(docs[j]) != k
    ensures IndexOf(docs, key, k) == Some(i)
  {
  }

  /** `findOne({ key: k })`: the first document with that key, or null. */
  function FindBy<D, K(==)>(docs: seq<D>, key: D -> K, k: K): (r: Option<D>)
    ensures r.Some? ==> r.value in docs && key(r.value) == k
    ensures r.None? <==> forall j :: 0 <= j < |docs| ==> key(docs[j]) != k
  {
    match IndexOf(docs, key, k)
    case None => None
    case Some(i) => Some(docs[i])
  }

  /** `find(filter)`: the documents the filter keeps, in natural order. */
  function Where<D>(docs: seq<D>, keep: D -> bool): (r: seq<D>)
    ensures forall i :: 0 <= i < |r| ==> r[i] in docs && keep(r[i])
    ensures forall i :: 0 <= i < |docs| && keep(docs[i]) ==> docs[i] in r
    ensures |r| <= |docs|
  {
    if docs == [] then []
    else if keep(docs[0]) then [docs[0]] + Where(docs[1..], keep)
    else Where(docs[1..], keep)
  }

  /** Filtering a sequence that starts with `d`: `d` is kept or dropped by
      itself, and the rest is filtered on its own. */
  lemma WhereCons<D>(d: D, rest: seq<D>, keep: D -> bool)
    ensures Where([d] + rest, keep) == if keep(d) then [d] + Where(rest, keep) else Where(rest, keep)
  {
    assert ([d] + rest)[1..] == rest;
  }

  /** `find` keeps the natural order: filtering a concatenation filters each part. */
  lemma {:induction false} WhereAppend<D>(a: seq<D>, b: seq<D>, keep: D -> bool)
    ensures Where(a + b, keep) == Where(a, keep) + Where(b, keep)
  {
    if a == [] {
      assert a + b == b;
    } else {
      assert (a + b)[1..] == a[1..] + b;
      assert (a + b)[0] == a[0];
      WhereAppend(a[1..], b, keep);
    }
  }

  /** Replaces the document at `i`; every other position is untouched. */
  function ReplaceAt<D>(docs: seq<D>, i: nat, d: D): (r: seq<D>)
    requires i < |docs|
    ensures |r| == |docs| && r[i] == d
    ensures forall j :: 0 <= j < |docs| && j != i ==> r[j] == docs[j]
  {
    docs[i := d]
  }

  /** Removes the document at `i`; the others keep their order. */
  function RemoveAt<D>(docs: seq<D>, i: nat): (r: seq<D>)
    requires i < |docs|
    ensures |r| == |docs| - 1
    ensures forall j :: 0 <= j < i ==> r[j] == docs[j]
    ensures forall j :: i <= j < |r| ==> r[j] == docs[j + 1]
  {
    docs[..i] + docs[i + 1..]
  }
}
