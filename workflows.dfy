/**
 * What the operations of the configuration class achieve. Most facts are
 * about an engine that refuses none of the requests still to come
 * (`Reliable`); the facts that hold whatever the engine refuses say so.
 */
module Workflows {
  import opened Wrappers
  import opened JsValues
  import opened Naming
  import opened SearchEngine
  import opened Documents
  import opened Protocol

  /** The mapping file of a document type for the engine's version, when it exists. */
  function MappingFile(src: MappingSource, version: string, docType: string): Option<FileEntry> {
    var file := ConfigFile(src.path, MajorVersion(version), docType);
    if file in src.files then Some(src.files[file]) else None
  }

  /** The store after a request the engine is free to refuse: unchanged when it refuses. */
  function After(s: Snapshot, r: Request): Snapshot {
    if Accepts(s, r) then Apply(s, r) else s
  }

  // ---------------------------------------------------------------------
  // One remote call on a reliable engine

  /** A ping and the request; only the request can change the store, and it fails only when the store refuses it. */
  lemma RpcReliable(w: World, r: Request)
    requires Reliable(w)
    ensures var x := Rpc(w, r);
      && x.world.state == After(w.state, r)
      && x.world.log == w.log + [Ping, r]
      && x.world.trail == w.trail + [w.state, After(w.state, r)]
      && x.world.version == w.version && x.world.faults == w.faults
      && x.result == if Accepts(w.state, r) then Success(Respond(w.state, r, w.version, false)) else Failure(RequestFailed(r))
  {
    var p := Deliver(w, Ping);
    assert p.world.log == w.log + [Ping] && p.world.state == w.state;
    assert |p.world.log| !in w.faults;
    assert w.log + [Ping] + [r] == w.log + [Ping, r];
    assert w.trail + [w.state] + [After(w.state, r)] == w.trail + [w.state, After(w.state, r)];
  }

  lemma CommandReliable(w: World, r: Request)
    requires Reliable(w)
    ensures var x := Command(w, r);
      && x.world.state == After(w.state, r)
      && x.world.log == w.log + [Ping, r]
      && x.result == if Accepts(w.state, r) then Success(()) else Failure(RequestFailed(r))
  {
    RpcReliable(w, r);
  }

  /** `_doesIndexExist` and `_doesAliasExist` answer from the store and change nothing. */
  lemma ExistsReliable(w: World, name: string)
    requires Reliable(w)
    ensures var x := IndexExistsRun(w, name);
      x.world.state == w.state && x.world.log == w.log + [Ping, IndexExists(name)]
      && x.result == Success(name in w.state.indices)
    ensures var x := AliasExistsRun(w, name);
      x.world.state == w.state && x.world.log == w.log + [Ping, AliasExists(name)]
      && x.result == Success(name in w.state.aliases)
  {
    RpcReliable(w, IndexExists(name));
    RpcReliable(w, AliasExists(name));
  }

  /** `_getIndexConfiguration`: the file for the reported major version, or the not-found message. */
  lemma ConfigurationReliable(src: MappingSource, w: World, docType: string)
    requires Reliable(w)
    ensures var x := ConfigurationRun(src, w, docType);
      && x.world.state == w.state && x.world.log == w.log + [Ping, Info]
      && x.result == match MappingFile(src, w.version, docType)
        case None => Failure(MappingNotFound(NotFoundMessage(docType, MajorVersion(w.version))))
        case Some(JsonFile(content)) => Success(content)
        case Some(Unparsable(reason)) => Failure(MappingUnreadable(reason))
  {
    RpcReliable(w, Info);
  }

  /** The requests sent, once the log is known to have grown by them. */
  lemma SentIs(w: World, w': World, sent: seq<Request>)
    requires w'.log == w.log + sent
    ensures w.log <= w'.log && Sent(w, w') == sent
  {
  }

  // ---------------------------------------------------------------------
  // One remote call, whatever the engine refuses

  /**
   * A remote call sends the ping and at most its request; it succeeds exactly
   * as on a reliable engine, and a failed call leaves the store as it was.
   */
  lemma RpcAnyFaults(w: World, r: Request)
    ensures var x := Rpc(w, r);
      && w.log <= x.world.log && Sent(w, x.world) <= [Ping, r]
      && (x.result.Success? ==>
            && Sent(w, x.world) == [Ping, r] && Accepts(w.state, r)
            && x.world.state == Apply(w.state, r)
            && x.result.value == Respond(w.state, r, w.version, false))
      && (x.result.Failure? ==>
            && x.world.state == w.state
            && (x.result.error == RequestFailed(Ping) || x.result.error == RequestFailed(r)))
  {
    var p := Deliver(w, Ping);
    if p.response == Refused {
      SentIs(w, p.world, [Ping]);
    } else {
      assert w.log + [Ping] + [r] == w.log + [Ping, r];
      SentIs(w, Deliver(p.world, r).world, [Ping, r]);
    }
  }

  // ---------------------------------------------------------------------
  // createIndex

  /** An existing index is left alone: no mapping is read and no create is sent, whatever the engine refuses. */
  lemma CreateIndexPresent(src: MappingSource, w: World, name: string, docType: string)
    requires name in w.state.indices
    ensures var out := CreateIndexRun(src, w, name, docType);
      && out.world.state == w.state
      && Sent(w, out.world) <= [Ping, IndexExists(name)]
      && (Reliable(w) ==> out.result == Success(()) && Sent(w, out.world) == [Ping, IndexExists(name)])
  {
    RpcAnyFaults(w, IndexExists(name));
  }

  /** A missing index is created with the mapping file's content as its body. */
  lemma CreateIndexAbsent(src: MappingSource, w: World, name: string, docType: string, body: Json)
    requires Reliable(w)
    requires name !in w.state.indices && name !in w.state.aliases
    requires MappingFile(src, w.version, docType) == Some(JsonFile(body))
    ensures var out := CreateIndexRun(src, w, name, docType);
      && out.result == Success(())
      && out.world.state == w.state.(indices := w.state.indices[name := SearchEngine.Index(body, map[])])
      && Sent(w, out.world) == [Ping, IndexExists(name), Ping, Info, Ping, CreateIndex(name, body)]
  {
    var e := IndexExistsRun(w, name);
    ExistsReliable(w, name);
    var c := ConfigurationRun(src, e.world, docType);
    ConfigurationReliable(src, e.world, docType);
    CommandReliable(c.world, CreateIndex(name, body));
    SentIs(w, CreateIndexRun(src, w, name, docType).world,
      [Ping, IndexExists(name)] + [Ping, Info] + [Ping, CreateIndex(name, body)]);
  }

  /** Without a mapping file the promise rejects with the not-found message and nothing is created. */
  lemma CreateIndexWithoutMapping(src: MappingSource, w: World, name: string, docType: string)
    requires Reliable(w)
    requires name !in w.state.indices
    requires MappingFile(src, w.version, docType) == None
    ensures var out := CreateIndexRun(src, w, name, docType);
      && out.result == Failure(MappingNotFound(NotFoundMessage(docType, MajorVersion(w.version))))
      && out.world.state == w.state
      && Sent(w, out.world) == [Ping, IndexExists(name), Ping, Info]
  {
    var e := IndexExistsRun(w, name);
    ExistsReliable(w, name);
    ConfigurationReliable(src, e.world, docType);
    SentIs(w, CreateIndexRun(src, w, name, docType).world, [Ping, IndexExists(name)] + [Ping, Info]);
  }

  /** A rejected createIndex has changed nothing, whatever the engine refused. */
  lemma CreateIndexFailureKeepsStore(src: MappingSource, w: World, name: string, docType: string)
    ensures var out := CreateIndexRun(src, w, name, docType);
      out.result.Failure? ==> out.world.state == w.state
  {
    var e := IndexExistsRun(w, name);
    RpcAnyFaults(w, IndexExists(name));
    if e.result.Success? && !e.result.value {
      var v := Rpc(e.world, Info);
      RpcAnyFaults(e.world, Info);
      if v.result.Success? {
        var c := ConfigurationRun(src, e.world, docType);
        if c.result.Success? {
          RpcAnyFaults(c.world, CreateIndex(name, c.result.value));
        }
      }
    }
  }

  // ---------------------------------------------------------------------
  // deleteIndex

  /** Deleting a missing index sends no delete and, on a reliable engine, resolves. */
  lemma DeleteIndexAbsent(w: World, name: string)
    requires name !in w.state.indices
    ensures var out := DeleteIndexRun(w, name);
      && out.world.state == w.state
      && Sent(w, out.world) <= [Ping, IndexExists(name)]
      && (Reliable(w) ==> out.result == Success(()))
  {
    RpcAnyFaults(w, IndexExists(name));
  }

  /**
   * Deleting an existing index sends exactly one delete, for that name: the
   * index goes, and so does every binding of an alias to it.
   */
  lemma DeleteIndexPresent(w: World, name: string)
    requires Reliable(w)
    requires name in w.state.indices
    ensures var out := DeleteIndexRun(w, name);
      && out.result == Success(())
      && Sent(w, out.world) == [Ping, IndexExists(name), Ping, DeleteIndex(name)]
      && out.world.state == Apply(w.state, DeleteIndex(name))
      && name !in out.world.state.indices
      && (forall m :: m != name ==> (m in out.world.state.indices <==> m in w.state.indices))
      && (forall m :: m != name && m in w.state.indices ==> out.world.state.indices[m] == w.state.indices[m])
      && forall a :: Bound(out.world.state, a) == Bound(w.state, a) - {name}
  {
    var e := IndexExistsRun(w, name);
    ExistsReliable(w, name);
    CommandReliable(e.world, DeleteIndex(name));
    DeleteUnbinds(w.state, name);
    SentIs(w, DeleteIndexRun(w, name).world, [Ping, IndexExists(name)] + [Ping, DeleteIndex(name)]);
  }

  // ---------------------------------------------------------------------
  // reindex, putAlias and the alias switch

  /** `reindex` copies every document of the source over the destination's; only the destination changes. */
  lemma ReindexReliable(w: World, source: string, dest: string)
    requires Reliable(w)
    requires source in w.state.indices && dest in w.state.indices
    ensures var out := ReindexRun(w, source, dest);
      && out.result == Success(())
      && Sent(w, out.world) == [Ping, Reindex(source, dest, true)]
      && out.world.state.aliases == w.state.aliases
      && out.world.state.indices == w.state.indices[dest := w.state.indices[dest].(docs := Docs(w.state, dest) + Docs(w.state, source))]
  {
    CommandReliable(w, Reindex(source, dest, true));
    SentIs(w, ReindexRun(w, source, dest).world, [Ping, Reindex(source, dest, true)]);
  }

  /** `_associateAliasWithIndex` adds the index to the alias's binding and changes nothing else. */
  lemma BindReliable(w: World, alias: string, index: string)
    requires Reliable(w)
    requires index in w.state.indices && alias !in w.state.indices
    ensures var out := BindRun(w, alias, index);
      && out.result == Success(())
      && Sent(w, out.world) == [Ping, PutAlias(alias, index)]
      && out.world.state.indices == w.state.indices
      && Bound(out.world.state, alias) == Bound(w.state, alias) + {index}
      && forall a :: a != alias ==> Bound(out.world.state, a) == Bound(w.state, a)
  {
    CommandReliable(w, PutAlias(alias, index));
    SentIs(w, BindRun(w, alias, index).world, [Ping, PutAlias(alias, index)]);
  }

  /**
   * `_switchIndexForAlias` sends one request holding the add of the
   * destination and then the remove of the source. Whatever the engine
   * refuses, either the alias moves as a whole or nothing changes; on a
   * reliable engine it moves exactly when the store allows both actions.
   */
  lemma SwitchAtomic(w: World, alias: string, source: string, dest: string)
    ensures var out := SwitchRun(w, alias, source, dest);
      var request := UpdateAliases([Add(dest, alias), Remove(source, alias)]);
      && Sent(w, out.world) <= [Ping, request]
      && (out.result.Success? ==>
            && Sent(w, out.world) == [Ping, request]
            && out.world.state.indices == w.state.indices
            && Bound(out.world.state, alias) == (Bound(w.state, alias) + {dest}) - {source}
            && forall a :: a != alias ==> Bound(out.world.state, a) == Bound(w.state, a))
      && (out.result.Failure? ==> out.world.state == w.state)
      && (Reliable(w) ==>
            (out.result.Success? <==> dest in w.state.indices && alias !in w.state.indices && source in Bound(w.state, alias) + {dest}))
  {
    var request := UpdateAliases(SwitchActions(alias, source, dest));
    RpcAnyFaults(w, request);
    AddThenRemove(w.state, alias, source, dest);
    if Reliable(w) {
      RpcReliable(w, request);
    }
  }

  // ---------------------------------------------------------------------
  // index and indexDocs

  /** A document is stored under the string of its id with its (denormalized) body, the request asking for a refresh. */
  lemma IndexReliable(w: World, spec: DocSpec, doc: Json)
    requires Reliable(w)
    requires spec.name in w.state.indices
    requires Key(spec, doc).Some?
    ensures var out := IndexRun(w, spec, doc);
      && out.result == Success(())
      && Sent(w, out.world) == [Ping, IndexDoc(spec.name, spec.docType, Key(spec, doc).value, Body(spec, doc), true)]
      && out.world.state == Stored(w.state, spec, [doc])
  {
    var r := IndexDoc(spec.name, spec.docType, Key(spec, doc).value, Body(spec, doc), true);
    RpcReliable(w, r);
    assert Upserts(Docs(w.state, spec.name), spec, [doc]) == Docs(w.state, spec.name)[Key(spec, doc).value := Body(spec, doc)] by {
      assert [doc][1..] == [];
    }
    SentIs(w, IndexRun(w, spec, doc).world, [Ping, r]);
  }

  /** What stops `index`: a null body with no `getId` throws before any request; an id without a string form throws after the ping. */
  lemma IndexRejects(w: World, spec: DocSpec, doc: Json)
    ensures Prepare(spec, doc).None? ==>
      IndexRun(w, spec, doc) == Run(w, Failure(InvalidDocument))
    ensures Reliable(w) && Prepare(spec, doc).Some? && Key(spec, doc).None? ==>
      var out := IndexRun(w, spec, doc);
      out.result == Failure(MissingId) && out.world.state == w.state && Sent(w, out.world) == [Ping]
  {
    if Reliable(w) && Prepare(spec, doc).Some? {
      SentIs(w, Deliver(w, Ping).world, [Ping]);
    }
  }

  /** The store once a batch has been indexed into the spec's index: that index gets the upserts, nothing else changes. */
  function Stored(s: Snapshot, spec: DocSpec, batch: seq<Json>): Snapshot
    requires spec.name in s.indices
    requires forall d :: d in batch ==> Key(spec, d).Some?
  {
    s.(indices := s.indices[spec.name := s.indices[spec.name].(docs := Upserts(Docs(s, spec.name), spec, batch))])
  }

  /** The requests `indexDocs` sends for a batch: a ping and an index request per document, in order. */
  function IndexRequests(spec: DocSpec, batch: seq<Json>): (sent: seq<Request>)
    requires forall d :: d in batch ==> Key(spec, d).Some?
    ensures |sent| == 2 * |batch|
    decreases |batch|
  {
    if batch == [] then []
    else
      var first := batch[0];
      [Ping, IndexDoc(spec.name, spec.docType, Key(spec, first).value, Body(spec, first), true)] + IndexRequests(spec, batch[1..])
  }

  /** Indexing the first document and then the rest is indexing the batch. */
  lemma StoredCons(s: Snapshot, spec: DocSpec, batch: seq<Json>)
    requires spec.name in s.indices && batch != []
    requires forall d :: d in batch ==> Key(spec, d).Some?
    ensures forall d :: d in batch[1..] ==> Key(spec, d).Some?
    ensures Stored(Stored(s, spec, [batch[0]]), spec, batch[1..]) == Stored(s, spec, batch)
  {
    assert forall d :: d in batch[1..] ==> d in batch;
    assert [batch[0]][1..] == [];
    var m := Docs(s, spec.name)[Key(spec, batch[0]).value := Body(spec, batch[0])];
    assert Upserts(m, spec, []) == m;
    var t := Stored(s, spec, [batch[0]]);
    assert Docs(t, spec.name) == Docs(s, spec.name)[Key(spec, batch[0]).value := Body(spec, batch[0])];
  }

  lemma {:induction false} IndexRequestsAppend(spec: DocSpec, a: seq<Json>, b: seq<Json>)
    requires forall d :: d in a ==> Key(spec, d).Some?
    requires forall d :: d in b ==> Key(spec, d).Some?
    ensures forall d :: d in a + b ==> Key(spec, d).Some?
    ensures IndexRequests(spec, a + b) == IndexRequests(spec, a) + IndexRequests(spec, b)
    decreases |a|
  {
    if a == [] {
      assert a + b == b;
    } else {
      assert (a + b)[0] == a[0] && (a + b)[1..] == a[1..] + b;
      IndexRequestsAppend(spec, a[1..], b);
    }
  }

  /**
   * `indexDocs` on a reliable engine: `index` once per document, in order,
   * and the target ends up with every document stored under its id, a later
   * document of the batch winning over an earlier one with the same id.
   */
  lemma {:induction false} IndexDocsReliable(w: World, spec: DocSpec, batch: seq<Json>)
    requires Reliable(w)
    requires spec.name in w.state.indices
    requires forall d :: d in batch ==> Key(spec, d).Some?
    ensures var out := IndexDocsRun(w, spec, batch);
      && out.result == Success(())
      && Sent(w, out.world) == IndexRequests(spec, batch)
      && out.world.state == Stored(w.state, spec, batch)
    decreases |batch|
  {
    if batch == [] {
      SentIs(w, w, []);
      assert Stored(w.state, spec, batch).indices == w.state.indices;
    } else {
      var first := IndexRun(w, spec, batch[0]);
      IndexReliable(w, spec, batch[0]);
      StoredCons(w.state, spec, batch);
      IndexDocsReliable(first.world, spec, batch[1..]);
      var rest := IndexDocsRun(first.world, spec, batch[1..]);
      assert IndexDocsRun(w, spec, batch) == Run(rest.world, Combine(first.result, rest.result));
      var d := batch[0];
      assert IndexRequests(spec, batch) ==
        [Ping, IndexDoc(spec.name, spec.docType, Key(spec, d).value, Body(spec, d), true)] + IndexRequests(spec, batch[1..]);
      SentIs(w, rest.world, Sent(w, first.world) + Sent(first.world, rest.world));
    }
  }

  lemma StoredNothing(s: Snapshot, spec: DocSpec)
    requires spec.name in s.indices
    ensures Stored(s, spec, []) == s
  {
    assert s.indices[spec.name := s.indices[spec.name]] == s.indices;
  }

  /** Indexing two batches in turn is indexing their concatenation. */
  lemma StoredAppend(s: Snapshot, spec: DocSpec, a: seq<Json>, b: seq<Json>)
    requires spec.name in s.indices
    requires forall d :: d in a ==> Key(spec, d).Some?
    requires forall d :: d in b ==> Key(spec, d).Some?
    ensures forall d :: d in a + b ==> Key(spec, d).Some?
    ensures Stored(Stored(s, spec, a), spec, b) == Stored(s, spec, a + b)
  {
    UpsertsAppend(Docs(s, spec.name), spec, a, b);
  }

  // ---------------------------------------------------------------------
  // _loadAndIndex

  /** The first answer of the caller's `next`: either the stream stops there, or a batch comes and the rest follows. */
  lemma PullCases(pulls: seq<Pull>)
    ensures pulls == [] || pulls[0].Rejected? || Batch(pulls[0].value).None? ==>
      && Batches(pulls) == [] && Flatten(Batches(pulls)) == []
      && (Ends(pulls) <==> !(pulls != [] && pulls[0].Rejected?))
      && Unread(pulls) == (if pulls == [] then [] else pulls[1..])
    ensures pulls != [] && pulls[0].Resolved? && Batch(pulls[0].value).Some? ==>
      var docs := Batch(pulls[0].value).value;
      && Flatten(Batches(pulls)) == docs + Flatten(Batches(pulls[1..]))
      && (Ends(pulls) <==> Ends(pulls[1..]))
      && Unread(pulls) == Unread(pulls[1..])
  {
    if pulls != [] && pulls[0].Resolved? && Batch(pulls[0].value).Some? {
      var docs := Batch(pulls[0].value).value;
      assert Batches(pulls) == [docs] + Batches(pulls[1..]);
      assert ([docs] + Batches(pulls[1..]))[1..] == Batches(pulls[1..]);
    }
  }

  /** One round of the pull loop that gets a batch: index it, then go on unless that failed. */
  lemma LoadRound(w: World, spec: DocSpec, pulls: seq<Pull>)
    requires pulls != [] && pulls[0].Resolved? && Batch(pulls[0].value).Some?
    ensures var r := IndexDocsRun(w, spec, Batch(pulls[0].value).value);
      LoadRun(w, spec, pulls) == if r.result.Failure? then Loaded(r, pulls[1..]) else LoadRun(r.world, spec, pulls[1..])
  {
  }

  /**
   * The pull loop on a reliable engine indexes exactly the concatenation of
   * the batches the caller's `next` delivers before its end marker, in order;
   * it resolves iff that end marker comes before any rejection, and it reads
   * no answer past the one that stopped it.
   */
  lemma {:induction false} LoadReliable(w: World, spec: DocSpec, pulls: seq<Pull>)
    requires Reliable(w)
    requires spec.name in w.state.indices
    requires forall d :: d in Flatten(Batches(pulls)) ==> Key(spec, d).Some?
    ensures Drained(w, spec, pulls, LoadRun(w, spec, pulls))
    decreases |pulls|, 1
  {
    PullCases(pulls);
    if pulls == [] || pulls[0].Rejected? || Batch(pulls[0].value).None? {
      StoredNothing(w.state, spec);
      SentIs(w, w, []);
    } else {
      LoadReliableRound(w, spec, pulls);
    }
  }

  /** The pull loop's outcome on a reliable engine, as the lemma above states it. */
  ghost predicate Drained(w: World, spec: DocSpec, pulls: seq<Pull>, out: Loaded)
    requires spec.name in w.state.indices
    requires forall d :: d in Flatten(Batches(pulls)) ==> Key(spec, d).Some?
  {
    && w.log <= out.run.world.log
    && (out.run.result.Success? <==> Ends(pulls))
    && (out.run.result.Failure? ==> out.run.result.error.PullFailed?)
    && out.left == Unread(pulls)
    && Sent(w, out.run.world) == IndexRequests(spec, Flatten(Batches(pulls)))
    && out.run.world.state == Stored(w.state, spec, Flatten(Batches(pulls)))
  }

  /** A round that gets a batch: the batch is indexed, then the rest of the stream is drained. */
  lemma {:induction false} LoadReliableRound(w: World, spec: DocSpec, pulls: seq<Pull>)
    requires Reliable(w)
    requires spec.name in w.state.indices
    requires forall d :: d in Flatten(Batches(pulls)) ==> Key(spec, d).Some?
    requires pulls != [] && pulls[0].Resolved? && Batch(pulls[0].value).Some?
    ensures Drained(w, spec, pulls, LoadRun(w, spec, pulls))
    decreases |pulls|, 0
  {
    PullCases(pulls);
    var docs := Batch(pulls[0].value).value;
    var later := Flatten(Batches(pulls[1..]));
    assert forall d :: d in docs ==> d in docs + later;
    assert forall d :: d in later ==> d in docs + later;
    var r := IndexDocsRun(w, spec, docs);
    IndexDocsReliable(w, spec, docs);
    LoadRound(w, spec, pulls);
    LoadReliable(r.world, spec, pulls[1..]);
    DrainedAfter(w, r.world, spec, pulls, LoadRun(r.world, spec, pulls[1..]));
  }

  /** Indexing the first batch and then draining the rest drains the whole stream. */
  lemma DrainedAfter(w: World, w1: World, spec: DocSpec, pulls: seq<Pull>, out: Loaded)
    requires spec.name in w.state.indices
    requires forall d :: d in Flatten(Batches(pulls)) ==> Key(spec, d).Some?
    requires pulls != [] && pulls[0].Resolved? && Batch(pulls[0].value).Some?
    requires var docs := Batch(pulls[0].value).value;
      && Flatten(Batches(pulls)) == docs + Flatten(Batches(pulls[1..]))
      && (forall d :: d in docs ==> Key(spec, d).Some?)
      && (forall d :: d in Flatten(Batches(pulls[1..])) ==> Key(spec, d).Some?)
      && w.log <= w1.log && Sent(w, w1) == IndexRequests(spec, docs)
      && w1.state == Stored(w.state, spec, docs)
    requires Ends(pulls) <==> Ends(pulls[1..])
    requires Unread(pulls) == Unread(pulls[1..])
    requires spec.name in w1.state.indices
    requires Drained(w1, spec, pulls[1..], out)
    ensures Drained(w, spec, pulls, out)
  {
    var docs := Batch(pulls[0].value).value;
    var later := Flatten(Batches(pulls[1..]));
    StoredAppend(w.state, spec, docs, later);
    IndexRequestsAppend(spec, docs, later);
    SentIs(w, out.run.world, Sent(w, w1) + Sent(w1, out.run.world));
  }



}
