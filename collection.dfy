/** The document-store operations the route handlers use, over a collection
    held as a sequence of documents in insertion order: `findOne` (first
    document matching a filter), `findOneAndUpdate` with `upsert: true`,
    `save` of a new document (append) and filtering. */
module Collection {
  import opened Common

  /** Index of the first document satisfying `p`, as `findOne` returns it. */
  function FindFirst<D>(docs: seq<D>, p: D -> bool): (r: Option<nat>)
    ensures r.Some? ==> r.value < |docs| && p(docs[r.value])
    ensures r.Some? ==> forall j :: 0 <= j < r.value ==> !p(docs[j])
    ensures r.None? <==> forall j :: 0 <= j < |docs| ==> !p(docs[j])
  {
    if docs == [] then None
    else if p(docs[0]) then Some(0)
    else match FindFirst(docs[1..], p)
      case None => None
      case Some(i) => Some(i + 1)
  }

  /** At most one document satisfies `p`. */
  ghost predicate AtMostOne<D>(docs: seq<D>, p: D -> bool)
  {
    forall i, j :: 0 <= i < |docs| && 0 <= j < |docs| && p(docs[i]) && p(docs[j]) ==> i == j
  }

  /** `findOneAndUpdate(filter, doc, {upsert: true})`: the first document
      matching the filter is replaced by `doc`; when none matches, `doc` is
      inserted. */
  function Upsert<D>(docs: seq<D>, p: D -> bool, doc: D): (r: seq<D>)
    ensures doc in r
    ensures |r| == if FindFirst(docs, p).Some? then |docs| else |docs| + 1
    ensures forall j :: 0 <= j < |docs| && !p(docs[j]) ==> r[j] == docs[j]
    ensures forall j :: 0 <= j < |r| ==> r[j] == doc || r[j] in docs
  {
    match FindFirst(docs, p)
    case Some(i) => var r := docs[i := doc]; assert r[i] == doc; r
    case None => docs + [doc]
  }

  /** Upserting a document that satisfies the filter, into a collection
      where at most one document did, leaves exactly that document
      satisfying it. */
  lemma UpsertLeavesOnlyNewMatch<D>(docs: seq<D>, p: D -> bool, doc: D)
    requires AtMostOne(docs, p) && p(doc)
    ensures forall j :: 0 <= j < |Upsert(docs, p, doc)| && p(Upsert(docs, p, doc)[j]) ==> Upsert(docs, p, doc)[j] == doc
    ensures AtMostOne(Upsert(docs, p, doc), p)
  {
    var r := Upsert(docs, p, doc);
    match FindFirst(docs, p)
    case Some(i) =>
      assert forall j :: 0 <= j < |r| && j != i ==> r[j] == docs[j];
    case None =>
      assert forall j :: 0 <= j < |docs| ==> r[j] == docs[j];
  }

  /** The documents that satisfy `p`, in their original order. */
  function Where<D>(docs: seq<D>, p: D -> bool): (r: seq<D>)
    ensures |r| <= |docs|
    ensures forall j :: 0 <= j < |r| ==> p(r[j])
  {
    if docs == [] then []
    else (if p(docs[0]) then [docs[0]] else []) + Where(docs[1..], p)
  }

  /** A document is selected exactly when it is in the collection and
      satisfies `p`. (Kept apart from `Where`'s contract: stated there, the
      two directions instantiate each other without end.) */
  lemma {:induction false} WhereSelects<D>(docs: seq<D>, p: D -> bool, d: D)
    ensures d in Where(docs, p) <==> d in docs && p(d)
  {
    if docs != [] {
      WhereSelects(docs[1..], p, d);
      assert docs == [docs[0]] + docs[1..];
    }
  }

  /** Filtering distributes over concatenation, so it keeps the relative
      order of the documents it keeps. */
  lemma {:induction false} WhereAppend<D>(a: seq<D>, b: seq<D>, p: D -> bool)
    ensures Where(a + b, p) == Where(a, p) + Where(b, p)
  {
    if a == [] {
      assert a + b == b;
    } else {
      assert (a + b)[1..] == a[1..] + b;
      WhereAppend(a[1..], b, p);
    }
  }

  /** Filtering a collection whose documents all pass leaves it unchanged. */
  lemma {:induction false} WhereAll<D>(docs: seq<D>, p: D -> bool)
    requires forall j :: 0 <= j < |docs| ==> p(docs[j])
    ensures Where(docs, p) == docs
  {
    if docs != [] {
      WhereAll(docs[1..], p);
    }
  }

  /** The position of the first document satisfying `p`, if any, and the
      value `findOne` returns. */
  function FindOne<D>(docs: seq<D>, p: D -> bool): (r: Option<D>)
    ensures r.Some? ==> r.value in docs && p(r.value)
    ensures r.None? <==> forall j :: 0 <= j < |docs| ==> !p(docs[j])
  {
    match FindFirst(docs, p)
    case None => None
    case Some(i) => Some(docs[i])
  }
}
