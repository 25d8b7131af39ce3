/**
 * The `ElasticsearchConfiguration` class. Each method sends the engine the
 * requests its counterpart in Protocol describes and settles with the same
 * result: its contract ties the engine after the call and the method's result
 * to that function of the engine before the call.
 *
 * The engine, the mapping files and the caller's `next` are given to the
 * class from outside; the client is the one piece of state the class keeps.
 */
module Configuration {
  import opened Wrappers
  import opened JsValues
  import opened Naming
  import opened Documents
  import opened Protocol
  import SearchEngine

  /** A client of the engine library; `serial` numbers the clients one configuration has made. */
  datatype Client = Client(host: string, serial: nat)

  /** The options object given to `index`; `indexDocs` rewrites its `document` for every document. */
  class IndexOptions {
    const name: string
    const docType: string
    const getId: Option<Json -> Option<Json>>
    const denormalize: Option<Json -> Json>
    var document: Json

    function Spec(): DocSpec {
      DocSpec(name, docType, getId, denormalize)
    }

    constructor (spec: DocSpec, document: Json)
      ensures Spec() == spec && this.document == document
    {
      name, docType, getId, denormalize := spec.name, spec.docType, spec.getId, spec.denormalize;
      this.document := document;
    }
  }

  /** The caller's `next`: the answers it still has to give, in order. Once they run out it answers undefined. */
  class Feed {
    var pending: seq<Pull>

    constructor (answers: seq<Pull>)
      ensures pending == answers
    {
      pending := answers;
    }

    method Next() returns (answer: Pull)
      modifies this
      ensures old(pending) == [] ==> answer == Resolved(None) && pending == []
      ensures old(pending) != [] ==> answer == old(pending)[0] && pending == old(pending)[1..]
    {
      if pending == [] {
        answer := Resolved(None);
      } else {
        answer, pending := pending[0], pending[1..];
      }
    }
  }

  class ElasticsearchConfiguration {
    /** The address the client connects to. */
    const url: string
    /** The `path` option: the directory of mapping files, when given. */
    const path: Option<string>
    /** The mapping files that exist, by file name. */
    const files: map<string, FileEntry>
    const engine: SearchEngine.Engine
    /**
     * `this.client`: created on first use, dropped when a ping fails. Every
     * method that resolves keeps the client it found; a call that rejects
     * because its ping was refused leaves no client behind.
     */
    var client: Option<Client>
    /** How many clients this configuration has created. */
    var created: nat

    function Source(): MappingSource {
      MappingSource(path, files)
    }

    ghost predicate Valid()
      reads this, engine
    {
      engine.Valid() && (client.Some? ==> client.value.host == url && client.value.serial < created)
    }

    /** The constructor: the connection options (the local default when absent) give the URL and the mapping path. */
    constructor (options: Option<Settings>, files: map<string, FileEntry>, engine: SearchEngine.Engine)
      requires engine.Valid()
      ensures Valid()
      ensures var settings := if options.Some? then options.value else DefaultSettings;
        url == ClientUrl(settings) && path == settings.path
      ensures this.files == files && this.engine == engine
      ensures client == None && created == 0
    {
      var settings := if options.Some? then options.value else DefaultSettings;
      url := ClientUrl(settings);
      path := settings.path;
      this.files := files;
      this.engine := engine;
      client := None;
      created := 0;
    }

    /**
     * `_getClient`: make the client when there is none, then ping the engine;
     * a refused ping drops the client and rejects.
     */
    method GetClient() returns (res: Result<Client, Error>)
      requires Valid()
      modifies this, engine
      ensures Valid()
      ensures var d := SearchEngine.Deliver(old(engine.View()), SearchEngine.Ping);
        && engine.View() == d.world
        && (res.Success? <==> d.response != SearchEngine.Refused)
      ensures res.Failure? ==> res.error == RequestFailed(SearchEngine.Ping) && client == None
      ensures res.Success? ==> client == Some(res.value) && res.value.host == url
      ensures old(client).Some? ==> created == old(created) && (res.Success? ==> res.value == old(client).value)
      ensures old(client).None? ==> created == old(created) + 1 && (res.Success? ==> res.value.serial == old(created))
    {
      if client.None? {
        client := Some(Client(url, created));
        created := created + 1;
      }
      var answer := engine.Send(SearchEngine.Ping);
      if answer == SearchEngine.Refused {
        client := None;
        return Failure(RequestFailed(SearchEngine.Ping));
      }
      return Success(client.value);
    }

    /** A remote call: `_getClient()` and then the request on the client. */
    method Invoke(r: SearchEngine.Request) returns (res: Result<SearchEngine.Response, Error>)
      requires Valid()
      modifies this, engine
      ensures Valid()
      ensures |old(engine.log)| in engine.faults ==> client == None
      ensures |old(engine.log)| !in engine.faults ==> client.Some? && (old(client).Some? ==> client == old(client))
      ensures r != SearchEngine.Ping && res == Failure(RequestFailed(SearchEngine.Ping)) ==> client == None
      ensures engine.View() == Rpc(old(engine.View()), r).world && res == Rpc(old(engine.View()), r).result
    {
      var c := GetClient();
      if c.Failure? {
        return Failure(c.error);
      }
      var answer := engine.Send(r);
      if answer == SearchEngine.Refused {
        return Failure(RequestFailed(r));
      }
      return Success(answer);
    }

    method DoesIndexExist(index: string) returns (res: Result<bool, Error>)
      requires Valid()
      modifies this, engine
      ensures Valid()
      ensures res.Success? && old(client).Some? ==> client == old(client)
      ensures res == Failure(RequestFailed(SearchEngine.Ping)) ==> client == None
      ensures var run := IndexExistsRun(old(engine.View()), index);
        engine.View() == run.world && res == run.result
    {
      var answer := Invoke(SearchEngine.IndexExists(index));
      if answer.Failure? {
        return Failure(answer.error);
      }
      return Success(answer.value.found);
    }

    method DoesAliasExist(alias: string) returns (res: Result<bool, Error>)
      requires Valid()
      modifies this, engine
      ensures Valid()
      ensures res.Success? && old(client).Some? ==> client == old(client)
      ensures res == Failure(RequestFailed(SearchEngine.Ping)) ==> client == None
      ensures var run := AliasExistsRun(old(engine.View()), alias);
        engine.View() == run.world && res == run.result
    {
      var answer := Invoke(SearchEngine.AliasExists(alias));
      if answer.Failure? {
        return Failure(answer.error);
      }
      return Success(answer.value.found);
    }

    method GetElasticsearchVersion() returns (res: Result<string, Error>)
      requires Valid()
      modifies this, engine
      ensures Valid()
      ensures res.Success? && old(client).Some? ==> client == old(client)
      ensures res == Failure(RequestFailed(SearchEngine.Ping)) ==> client == None
      ensures var run := VersionRun(old(engine.View()));
        engine.View() == run.world && res == run.result
    {
      var answer := Invoke(SearchEngine.Info);
      if answer.Failure? {
        return Failure(answer.error);
      }
      return Success(MajorVersion(answer.value.number));
    }

    method GetIndexConfiguration(docType: string) returns (res: Result<Json, Error>)
      requires Valid()
      modifies this, engine
      ensures Valid()
      ensures res.Success? && old(client).Some? ==> client == old(client)
      ensures res == Failure(RequestFailed(SearchEngine.Ping)) ==> client == None
      ensures var run := ConfigurationRun(Source(), old(engine.View()), docType);
        engine.View() == run.world && res == run.result
    {
      var version := GetElasticsearchVersion();
      if version.Failure? {
        return Failure(version.error);
      }
      var file := ConfigFile(path, version.value, docType);
      if file !in files {
        return Failure(MappingNotFound(NotFoundMessage(docType, version.value)));
      }
      match files[file]
      case JsonFile(content) => return Success(content);
      case Unparsable(reason) => return Failure(MappingUnreadable(reason));
    }

    method CreateIndex(name: string, docType: string) returns (outcome: Outcome)
      requires Valid()
      modifies this, engine
      ensures Valid()
      ensures outcome.Success? && old(client).Some? ==> client == old(client)
      ensures outcome == Failure(RequestFailed(SearchEngine.Ping)) ==> client == None
      ensures var run := CreateIndexRun(Source(), old(engine.View()), name, docType);
        engine.View() == run.world && outcome == run.result
    {
      var indexExist := DoesIndexExist(name);
      if indexExist.Failure? {
        return Failure(indexExist.error);
      }
      if indexExist.value {
        return Success(());
      }
      var content := GetIndexConfiguration(docType);
      if content.Failure? {
        return Failure(content.error);
      }
      var answer := Invoke(SearchEngine.CreateIndex(name, content.value));
      outcome := Settle(answer);
    }

    method DeleteIndex(name: string) returns (outcome: Outcome)
      requires Valid()
      modifies this, engine
      ensures Valid()
      ensures outcome.Success? && old(client).Some? ==> client == old(client)
      ensures outcome == Failure(RequestFailed(SearchEngine.Ping)) ==> client == None
      ensures var run := DeleteIndexRun(old(engine.View()), name);
        engine.View() == run.world && outcome == run.result
    {
      var indexExist := DoesIndexExist(name);
      if indexExist.Failure? {
        return Failure(indexExist.error);
      }
      if !indexExist.value {
        return Success(());
      }
      var answer := Invoke(SearchEngine.DeleteIndex(name));
      outcome := Settle(answer);
    }

    method Reindex(source: string, dest: string) returns (outcome: Outcome)
      requires Valid()
      modifies this, engine
      ensures Valid()
      ensures outcome.Success? && old(client).Some? ==> client == old(client)
      ensures outcome == Failure(RequestFailed(SearchEngine.Ping)) ==> client == None
      ensures var run := ReindexRun(old(engine.View()), source, dest);
        engine.View() == run.world && outcome == run.result
    {
      var answer := Invoke(SearchEngine.Reindex(source, dest, true));
      outcome := Settle(answer);
    }

    method AssociateAliasWithIndex(alias: string, index: string) returns (outcome: Outcome)
      requires Valid()
      modifies this, engine
      ensures Valid()
      ensures outcome.Success? && old(client).Some? ==> client == old(client)
      ensures outcome == Failure(RequestFailed(SearchEngine.Ping)) ==> client == None
      ensures var run := BindRun(old(engine.View()), alias, index);
        engine.View() == run.world && outcome == run.result
    {
      var answer := Invoke(SearchEngine.PutAlias(alias, index));
      outcome := Settle(answer);
    }

    method SwitchIndexForAlias(alias: string, sourceIndex: string, destIndex: string) returns (outcome: Outcome)
      requires Valid()
      modifies this, engine
      ensures Valid()
      ensures outcome.Success? && old(client).Some? ==> client == old(client)
      ensures outcome == Failure(RequestFailed(SearchEngine.Ping)) ==> client == None
      ensures var run := SwitchRun(old(engine.View()), alias, sourceIndex, destIndex);
        engine.View() == run.world && outcome == run.result
    {
      var actions := [SearchEngine.Add(destIndex, alias), SearchEngine.Remove(sourceIndex, alias)];
      var answer := Invoke(SearchEngine.UpdateAliases(actions));
      outcome := Settle(answer);
    }

    /** `setup`: the concrete index, with the alias bound to it. */
    method Setup(name: string, docType: string) returns (outcome: Outcome)
      requires Valid()
      modifies this, engine
      ensures Valid()
      ensures outcome.Success? && old(client).Some? ==> client == old(client)
      ensures outcome == Failure(RequestFailed(SearchEngine.Ping)) ==> client == None
      ensures var run := SetupRun(Source(), old(engine.View()), name, docType);
        engine.View() == run.world && outcome == run.result
    {
      var index := RealName(name);
      outcome := CreateIndex(index, docType);
      if outcome.Success? {
        outcome := AssociateAliasWithIndex(name, index);
      }
    }

    method ConvertIndexToAlias(index: string, docType: string) returns (outcome: Outcome)
      requires Valid()
      modifies this, engine
      ensures Valid()
      ensures outcome.Success? && old(client).Some? ==> client == old(client)
      ensures outcome == Failure(RequestFailed(SearchEngine.Ping)) ==> client == None
      ensures var run := ConvertRun(Source(), old(engine.View()), index, docType);
        engine.View() == run.world && outcome == run.result
    {
      var realIndex := RealName(index);
      outcome := CreateIndex(realIndex, docType);
      if outcome.Failure? {
        return;
      }
      outcome := Reindex(index, realIndex);
      if outcome.Failure? {
        return;
      }
      outcome := DeleteIndex(index);
      if outcome.Failure? {
        return;
      }
      outcome := AssociateAliasWithIndex(index, realIndex);
    }

    method EnsureIndexIsConfiguredProperly(name: string, docType: string) returns (outcome: Outcome)
      requires Valid()
      modifies this, engine
      ensures Valid()
      ensures outcome.Success? && old(client).Some? ==> client == old(client)
      ensures outcome == Failure(RequestFailed(SearchEngine.Ping)) ==> client == None
      ensures var run := EnsureRun(Source(), old(engine.View()), name, docType);
        engine.View() == run.world && outcome == run.result
    {
      outcome := CreateIndex(RealName(name), docType);
      if outcome.Failure? {
        return;
      }
      var aliasExist := DoesAliasExist(name);
      if aliasExist.Failure? {
        return Failure(aliasExist.error);
      }
      if aliasExist.value {
        outcome := AssociateAliasWithIndex(name, RealName(name));
        return;
      }
      var indexExist := DoesIndexExist(name);
      if indexExist.Failure? {
        return Failure(indexExist.error);
      }
      if indexExist.value {
        outcome := ConvertIndexToAlias(name, docType);
      }
    }

    /**
     * `indexDocs`: `index` on every document in turn, through the one options
     * object whose `document` is overwritten each time; a document whose id
     * cannot be read throws out of the loop.
     */
    method IndexDocs(documents: seq<Json>, options: IndexOptions) returns (outcome: Outcome)
      requires Valid()
      modifies this, engine, options
      ensures Valid()
      ensures outcome.Success? && old(client).Some? ==> client == old(client)
      ensures var run := IndexDocsRun(old(engine.View()), options.Spec(), documents);
        engine.View() == run.world && outcome == run.result
      ensures documents == [] ==> options.document == old(options.document)
      ensures documents != [] ==> options.document == documents[Mapped(options.Spec(), documents) - 1]
    {
      ghost var w0, spec := engine.View(), options.Spec();
      var acc: Outcome := Success(());
      var i := 0;
      assert documents[0..] == documents;
      while i < |documents|
        invariant 0 <= i <= |documents|
        invariant Valid() && options.Spec() == spec
        invariant acc != Failure(InvalidDocument)
        invariant acc.Success? && old(client).Some? ==> client == old(client)
        invariant forall j :: 0 <= j < i ==> Documents.Prepare(spec, documents[j]).Some?
        invariant i == 0 ==> options.document == old(options.document)
        invariant i > 0 ==> options.document == documents[i - 1]
        invariant var rest := IndexDocsRun(engine.View(), spec, documents[i..]);
          IndexDocsRun(w0, spec, documents) == Run(rest.world, Combine(acc, rest.result))
      {
        ghost var w := engine.View();
        IndexDocsFrom(w, spec, documents, i);
        options.document := documents[i];
        var result := Index(options);
        if result == Failure(InvalidDocument) {
          MappedStops(spec, documents, i);
          return result;
        }
        CombineShift(acc, result, IndexDocsRun(engine.View(), spec, documents[i + 1..]).result);
        if acc.Success? {
          acc := result;
        }
        i := i + 1;
      }
      IndexDocsFrom(engine.View(), spec, documents, i);
      MappedStops(spec, documents, i);
      outcome := acc;
      match acc
      case Success(u) =>
        assert u == ();
        assert Combine(acc, Success(())) == acc;
      case Failure(_) =>
    }

    /** The steps `reconfigure` and `reindexAll` start with: the alias set up, then an empty tmp index. */
    method Prepare(name: string, docType: string) returns (outcome: Outcome)
      requires Valid()
      modifies this, engine
      ensures Valid()
      ensures outcome.Success? && old(client).Some? ==> client == old(client)
      ensures outcome == Failure(RequestFailed(SearchEngine.Ping)) ==> client == None
      ensures var run := PrepareRun(Source(), old(engine.View()), name, docType);
        engine.View() == run.world && outcome == run.result
    {
      outcome := EnsureIndexIsConfiguredProperly(name, docType);
      if outcome.Success? {
        outcome := CreateIndex("tmp." + RealName(name), docType);
      }
    }

    /** The steps they end with: serve from tmp, recreate the real index, copy tmp back, serve from it again. */
    method Rebuild(name: string, docType: string) returns (outcome: Outcome)
      requires Valid()
      modifies this, engine
      ensures Valid()
      ensures outcome.Success? && old(client).Some? ==> client == old(client)
      ensures outcome == Failure(RequestFailed(SearchEngine.Ping)) ==> client == None
      ensures var run := RebuildRun(Source(), old(engine.View()), name, docType);
        engine.View() == run.world && outcome == run.result
    {
      var indexName := RealName(name);
      var tmpIndexName := "tmp." + indexName;
      outcome := SwitchIndexForAlias(name, indexName, tmpIndexName);
      if outcome.Failure? {
        return;
      }
      outcome := DeleteIndex(indexName);
      if outcome.Failure? {
        return;
      }
      outcome := CreateIndex(indexName, docType);
      if outcome.Failure? {
        return;
      }
      outcome := Reindex(tmpIndexName, indexName);
      if outcome.Failure? {
        return;
      }
      outcome := SwitchIndexForAlias(name, tmpIndexName, indexName);
    }

    /**
     * `reconfigure`: prepare, copy the real index into tmp, rebuild; then,
     * whatever happened, delete tmp.
     */
    method Reconfigure(name: string, docType: string) returns (outcome: Outcome)
      requires Valid()
      modifies this, engine
      ensures Valid()
      ensures outcome.Success? && old(client).Some? ==> client == old(client)
      ensures var run := ReconfigureRun(Source(), old(engine.View()), name, docType);
        engine.View() == run.world && outcome == run.result
    {
      var indexName := RealName(name);
      var tmpIndexName := "tmp." + indexName;
      var main := Prepare(name, docType);
      if main.Success? {
        main := Reindex(indexName, tmpIndexName);
      }
      if main.Success? {
        main := Rebuild(name, docType);
      }
      var cleanup := DeleteIndex(tmpIndexName);
      outcome := if cleanup.Failure? then cleanup else main;
    }

    /**
     * `_loadAndIndex`: ask `next` for documents until it answers none, indexing
     * every batch into the target index under a fresh copy of the options.
     */
    method LoadAndIndex(target: string, options: DocSpec, feed: Feed) returns (outcome: Outcome)
      requires Valid()
      modifies this, engine, feed
      ensures Valid()
      ensures outcome.Success? && old(client).Some? ==> client == old(client)
      ensures var l := LoadRun(old(engine.View()), options.(name := target), old(feed.pending));
        engine.View() == l.run.world && outcome == l.run.result && feed.pending == l.left
    {
      ghost var w0 := engine.View();
      var spec := options.(name := target);
      while true
        invariant Valid()
        invariant LoadRun(w0, spec, old(feed.pending)) == LoadRun(engine.View(), spec, feed.pending)
        invariant old(client).Some? ==> client == old(client)
        decreases |feed.pending|
      {
        var indexOptions := new IndexOptions(spec, JNull);
        ghost var pulls := feed.pending;
        var answer := feed.Next();
        if answer.Rejected? {
          return Failure(PullFailed(answer.reason));
        }
        var docs: seq<Json>;
        if !Truthy(answer.value) {
          return Success(());
        } else if answer.value.value.JArr? {
          docs := answer.value.value.items;
        } else {
          docs := [answer.value.value];
        }
        if docs == [] {
          return Success(());
        }
        assert Batch(answer.value) == Some(docs);
        outcome := IndexDocs(docs, indexOptions);
        if outcome.Failure? {
          return;
        }
        assert pulls != [];
      }
    }

    /**
     * `reindexAll`: like `reconfigure`, except that tmp is filled from the
     * caller's `next` instead of from the real index.
     */
    method ReindexAll(options: DocSpec, feed: Feed) returns (outcome: Outcome)
      requires Valid()
      modifies this, engine, feed
      ensures Valid()
      ensures outcome.Success? && old(client).Some? ==> client == old(client)
      ensures var l := ReindexAllRun(Source(), old(engine.View()), options, old(feed.pending));
        engine.View() == l.run.world && outcome == l.run.result && feed.pending == l.left
    {
      var aliasName := options.name;
      var indexName := RealName(aliasName);
      var tmpIndexName := "tmp." + indexName;
      var main := Prepare(aliasName, options.docType);
      if main.Success? {
        main := LoadAndIndex(tmpIndexName, options, feed);
      }
      if main.Success? {
        main := Rebuild(aliasName, options.docType);
      }
      var cleanup := DeleteIndex(tmpIndexName);
      outcome := if cleanup.Failure? then cleanup else main;
    }

    /** `index`: store one document, `options.document`, under its id. */
    method Index(options: IndexOptions) returns (outcome: Outcome)
      requires Valid()
      modifies this, engine
      ensures Valid()
      ensures outcome.Success? && old(client).Some? ==> client == old(client)
      ensures outcome == Failure(RequestFailed(SearchEngine.Ping)) ==> client == None
      ensures var run := IndexRun(old(engine.View()), options.Spec(), options.document);
        engine.View() == run.world && outcome == run.result
    {
      var document := if options.denormalize.Some? then options.denormalize.value(options.document) else options.document;
      var id: Option<Json>;
      if options.getId.Some? {
        id := options.getId.value(options.document);
      } else if document == JNull {
        return Failure(InvalidDocument);
      } else {
        id := Property(document, "id");
      }
      var c := GetClient();
      if c.Failure? {
        return Failure(c.error);
      }
      var idText := CallToString(id);
      if idText.None? {
        return Failure(MissingId);
      }
      var r := SearchEngine.IndexDoc(options.name, options.docType, idText.value, document, true);
      var answer := engine.Send(r);
      outcome := if answer == SearchEngine.Refused then Failure(RequestFailed(r)) else Success(());
    }
  }
}
