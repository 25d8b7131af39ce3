/**
 * Documents as `index` sees them: the body sent to the engine, the id it is
 * stored under, and the batches the caller's `next` hands to `reindexAll`.
 *
 * `getId` and `denormalize` are the caller's functions; they are modelled as
 * pure Dafny functions, present or absent.
 */
module Documents {
  import opened Wrappers
  import opened JsValues

  /** The options `index` reads: target index, document type and the two optional callbacks. */
  datatype DocSpec = DocSpec(
    name: string,
    docType: string,
    getId: Option<Json -> Option<Json>>,
    denormalize: Option<Json -> Json>)

  /** What `index` computes synchronously from a document: the body and the raw id (None is undefined). */
  datatype Prepared = Prepared(body: Json, id: Option<Json>)

  /** `v.key` on a defined, non-null value; only objects have properties here. */
  function Property(v: Json, key: string): Option<Json>
    requires v != JNull
  {
    match v
    case JObj(fields) => if key in fields then Some(fields[key]) else None
    case _ => None
  }

  /** The body: `denormalize(doc)` when given, else the document itself. */
  function Body(spec: DocSpec, doc: Json): Json {
    if spec.denormalize.Some? then spec.denormalize.value(doc) else doc
  }

  /**
   * The synchronous part of `index`: the body, and the id read either by
   * `getId` from the original document or as the body's `id` property.
   * None is the TypeError thrown when the body is null and has to be read.
   */
  function Prepare(spec: DocSpec, doc: Json): Option<Prepared> {
    var body := Body(spec, doc);
    if spec.getId.Some? then Some(Prepared(body, spec.getId.value(doc)))
    else if body == JNull then None
    else Some(Prepared(body, Property(body, "id")))
  }

  /** `id.toString()`, the key the document is stored under; None when it throws. */
  function Key(spec: DocSpec, doc: Json): Option<string> {
    match Prepare(spec, doc)
    case None => None
    case Some(p) => CallToString(p.id)
  }

  /**
   * Where the id comes from: `getId` applied to the original document when
   * it is given (whatever `denormalize` does), otherwise the body's `id`;
   * reading fails exactly when there is no `getId` and the body is null.
   */
  lemma PrepareSources(spec: DocSpec, doc: Json)
    ensures Prepare(spec, doc).None? <==> spec.getId.None? && Body(spec, doc) == JNull
    ensures spec.getId.Some? ==> Prepare(spec, doc) == Some(Prepared(Body(spec, doc), spec.getId.value(doc)))
    ensures spec.getId.None? && Body(spec, doc) != JNull ==>
      Prepare(spec, doc) == Some(Prepared(Body(spec, doc), Property(Body(spec, doc), "id")))
  {
  }

  /** The document of the unit tests, `{id: 'document'}`, is stored under "document" with itself as body. */
  lemma PlainDocument(name: string, docType: string)
    ensures var doc := JObj(map["id" := JStr("document")]);
      var spec := DocSpec(name, docType, None, None);
      Prepare(spec, doc) == Some(Prepared(doc, Some(JStr("document")))) && Key(spec, doc) == Some("document")
  {
  }

  /** With both callbacks, the body is denormalized but the id is still taken from the original document. */
  lemma IdFromOriginalDocument(name: string, docType: string)
    ensures var doc := JObj(map["id" := JStr("doc1")]);
      var getId := (d: Json) => if d.JObj? && "id" in d.fields then Some(d.fields["id"]) else None;
      var denormalize := (d: Json) => JObj(map["id" := JStr("other")]);
      var spec := DocSpec(name, docType, Some(getId), Some(denormalize));
      Key(spec, doc) == Some("doc1") && Body(spec, doc) == JObj(map["id" := JStr("other")])
  {
  }

  /** A document without an `id` and no `getId` cannot be stored: `id.toString()` throws. */
  lemma MissingIdHasNoKey(spec: DocSpec, doc: Json)
    requires spec.getId.None? && spec.denormalize.None?
    requires doc.JObj? && "id" !in doc.fields
    ensures Key(spec, doc).None?
  {
  }

  /** One answer of the caller's `next`: a fulfilled value (None is undefined) or a rejection. */
  datatype Pull = Resolved(value: Option<Json>) | Rejected(reason: string)

  /**
   * The batch a fulfilled `next` value stands for; None is the end of the
   * stream (a falsy value or an empty array). A single document is a batch of one.
   */
  function Batch(v: Option<Json>): (b: Option<seq<Json>>)
    ensures b.Some? ==> b.value != []
  {
    if !Truthy(v) then None
    else if v.value.JArr? then (if v.value.items == [] then None else Some(v.value.items))
    else Some([v.value])
  }

  /** The four cases of a `next` value. */
  lemma BatchCases(v: Option<Json>)
    ensures !Truthy(v) ==> Batch(v).None?
    ensures v == Some(JArr([])) ==> Batch(v).None?
    ensures Truthy(v) && v.value.JArr? && v.value.items != [] ==> Batch(v) == Some(v.value.items)
    ensures Truthy(v) && !v.value.JArr? ==> Batch(v) == Some([v.value])
  {
  }

  /** The batches the pull answers deliver before the end of the stream or the first rejection. */
  function Batches(pulls: seq<Pull>): (bs: seq<seq<Json>>)
    ensures |bs| <= |pulls|
    ensures forall k :: 0 <= k < |bs| ==> bs[k] != []
    ensures forall k :: 0 <= k < |bs| ==> pulls[k].Resolved? && Batch(pulls[k].value) == Some(bs[k])
  {
    if pulls == [] then []
    else match pulls[0]
      case Rejected(_) => []
      case Resolved(v) =>
        match Batch(v)
        case None => []
        case Some(docs) => [docs] + Batches(pulls[1..])
  }

  /** Whether the stream ends (an end marker, or the answers run out) before any rejection. */
  predicate Ends(pulls: seq<Pull>) {
    if pulls == [] then true
    else match pulls[0]
      case Rejected(_) => false
      case Resolved(v) => Batch(v).None? || Ends(pulls[1..])
  }

  /** The answers left once the stream has been read up to its end marker or first rejection. */
  function Unread(pulls: seq<Pull>): (left: seq<Pull>)
    ensures |left| <= |pulls|
    ensures left == pulls[|pulls| - |left|..]
    ensures |Batches(pulls)| < |pulls| - |left| || (left == [] && Ends(pulls))
  {
    if pulls == [] then []
    else match pulls[0]
      case Rejected(_) => pulls[1..]
      case Resolved(v) =>
        match Batch(v)
        case None => pulls[1..]
        case Some(_) => Unread(pulls[1..])
  }

  function Flatten(bs: seq<seq<Json>>): seq<Json> {
    if bs == [] then [] else bs[0] + Flatten(bs[1..])
  }

  /** The documents stored once a batch is indexed one document after the other. */
  function Upserts(docs: map<string, Json>, spec: DocSpec, batch: seq<Json>): (m: map<string, Json>)
    requires forall d :: d in batch ==> Key(spec, d).Some?
    ensures docs.Keys <= m.Keys
    ensures forall d :: d in batch ==> Key(spec, d).value in m
    decreases |batch|
  {
    if batch == [] then docs
    else Upserts(docs[Key(spec, batch[0]).value := Body(spec, batch[0])], spec, batch[1..])
  }

  /** Indexing two batches in turn is indexing their concatenation. */
  lemma {:induction false} UpsertsAppend(docs: map<string, Json>, spec: DocSpec, a: seq<Json>, b: seq<Json>)
    requires forall d :: d in a ==> Key(spec, d).Some?
    requires forall d :: d in b ==> Key(spec, d).Some?
    ensures forall d :: d in a + b ==> Key(spec, d).Some?
    ensures Upserts(docs, spec, a + b) == Upserts(Upserts(docs, spec, a), spec, b)
    decreases |a|
  {
    if a != [] {
      var next := docs[Key(spec, a[0]).value := Body(spec, a[0])];
      assert (a + b)[0] == a[0] && (a + b)[1..] == a[1..] + b;
      assert Upserts(docs, spec, a + b) == Upserts(next, spec, a[1..] + b);
      UpsertsAppend(next, spec, a[1..], b);
    } else {
      assert a + b == b;
    }
  }

  /** The stored body under a key is that of the last document of the batch with that key. */
  lemma {:induction false} UpsertsLastWins(docs: map<string, Json>, spec: DocSpec, batch: seq<Json>, i: nat)
    requires forall d :: d in batch ==> Key(spec, d).Some?
    requires i < |batch|
    requires forall j :: i < j < |batch| ==> Key(spec, batch[j]) != Key(spec, batch[i])
    ensures Upserts(docs, spec, batch)[Key(spec, batch[i]).value] == Body(spec, batch[i])
    decreases |batch|
  {
    var next := docs[Key(spec, batch[0]).value := Body(spec, batch[0])];
    if i == 0 {
      UpsertsUntouched(next, spec, batch[1..], Key(spec, batch[0]).value);
    } else {
      UpsertsLastWins(next, spec, batch[1..], i - 1);
    }
  }

  /** Keys that no document of the batch has keep their old body, or stay absent. */
  lemma {:induction false} UpsertsUntouched(docs: map<string, Json>, spec: DocSpec, batch: seq<Json>, key: string)
    requires forall d :: d in batch ==> Key(spec, d).Some?
    requires forall d :: d in batch ==> Key(spec, d) != Some(key)
    ensures key in docs ==> key in Upserts(docs, spec, batch) && Upserts(docs, spec, batch)[key] == docs[key]
    ensures key !in docs ==> key !in Upserts(docs, spec, batch)
    decreases |batch|
  {
    if batch != [] {
      UpsertsUntouched(docs[Key(spec, batch[0]).value := Body(spec, batch[0])], spec, batch[1..], key);
    }
  }
  /** Where the documents go plays no part in how they are keyed and stored. */
  lemma {:induction false} UpsertsRenamed(docs: map<string, Json>, spec: DocSpec, batch: seq<Json>, name: string)
    requires forall d :: d in batch ==> Key(spec, d).Some?
    ensures forall d :: d in batch ==> Key(spec.(name := name), d) == Key(spec, d)
    ensures Upserts(docs, spec.(name := name), batch) == Upserts(docs, spec, batch)
    decreases |batch|
  {
    if batch != [] {
      UpsertsRenamed(docs[Key(spec, batch[0]).value := Body(spec, batch[0])], spec, batch[1..], name);
    }
  }
}
