# Alias indirection and zero-downtime reconfiguration of search indices

A Dafny model of the `ElasticsearchConfiguration` class of
esn-elasticsearch-configuration (`dist/lib/configuration.js`). The class keeps
every search index behind a stable alias `name`. The alias is backed by the
concrete index `real.<name>`. A schema change rebuilds that index through a
temporary index `tmp.real.<name>`: the alias is switched to tmp, the real index
is recreated with the current mapping, the documents are copied back, and the
alias is switched back. A `finally` step then deletes tmp.

The model has four layers:

- `SearchEngine` is the engine as an abstract store. It holds indices (a mapping
  and documents by id) and aliases (a name bound to a set of indices). It answers
  one request at a time and logs every request it receives, together with the
  store after it. A fault schedule fixed in advance says which requests it refuses
  for reasons outside the store (connection lost, timeout, server error). The
  class `SearchEngine.Engine` holds this state in fields and updates them in place.
- `Protocol` gives, for every member of the JavaScript class, a function from the
  engine world before the call to the world after it and the result the promise
  settles with. Each remote call is a ping (from `_getClient`) followed by the
  request. The workflows are the `.then` chains written out step by step; a chain
  stops at the first rejection.
- `Configuration.ElasticsearchConfiguration` is the class itself. Its fields are
  the URL, the `path` option and the lazily made client. Each method is proved to
  change the engine and to settle exactly as its `Protocol` function says.
- `Workflows` and `Migration` prove what the operations achieve. The facts cover
  the requests sent, in order, and the store left behind. They also show that the
  alias being rebuilt exists, and resolves only to existing indices, in every
  store the engine passes through. Most facts assume an engine that refuses
  nothing (`Reliable`). Those marked "whatever the engine refuses" hold under any
  fault schedule.

Where the library's documented design and its code differ, the model follows the
code:

- When neither an alias nor an index holds the name, `ensureIndexIsConfiguredProperly`
  only creates `real.<name>` and binds nothing (`Migration.EnsureWithNeither`).
  What a later `reconfigure` of such a name does then depends on the engine. The
  model engine refuses an `updateAliases` request whose remove names an index the
  alias is not bound to. Under that rule `reconfigure` fails at its first alias
  switch and deletes tmp (`Migration.ReconfigureWithoutAlias`). An engine that
  skips such a remove would instead bind the name to tmp and go on.
- `deleteIndex` checks existence first and sends no delete for a missing index.
- Q's `finally` lets a rejected cleanup replace the workflow's result (`Protocol.Finally`).
  The cleanup runs after success and after failure alike. tmp is gone afterwards
  only when the cleanup itself goes through (`Migration.CleanupReliable`). A refused
  cleanup leaves tmp behind (`Migration.CleanupRefused`).
- "The alias always resolves" holds on an engine that refuses nothing. When a step
  of the rebuild fails after the switch to tmp, the `finally` deletes tmp, which
  is then the alias's only index, so the alias disappears with it. If the failure
  comes before real(name) is deleted, real(name) survives
  (`Migration.RebuildInterrupted`). If it comes after, real(name) is lost as well,
  and with it every document the alias served (`Migration.RebuildLosesReal`).

## Model

| member | source | states |
|---|---|---|
| Naming.NamesDistinct | dist/lib/configuration.js:465-467 | an alias, `real.<alias>` and `tmp.real.<alias>` are three different names |
| Naming.NamesInjective | dist/lib/configuration.js:245-246 | different aliases never share a real or a tmp index |
| Naming.MajorVersion | dist/lib/configuration.js:368 | the major version is a prefix of the version number, holds no dot, and is followed by a dot when shorter |
| Naming.MajorVersionUnique | dist/lib/configuration.js:368 | those three properties determine the major version: it is exactly the text before the first dot |
| Naming.MajorVersionOfTestVersion | dist/test/lib/configuration.js:413-442 | the version "2.3.2" has major version "2" |
| Naming.ConfigFileFromPathOption | dist/lib/configuration.js:340-341 | with the `path` option the mapping file is `<path><type>.json` |
| Naming.DefaultConfigFile | dist/lib/configuration.js:340-341 | without it the file is `<type>.json` inside `../data/<major>.x/` |
| Naming.ConfigFileInjective | dist/lib/configuration.js:340-341 | two document types never share a mapping file name (the name before `path.resolve`) |
| Naming.ClientUrlChoice | dist/lib/configuration.js:43 | a given `url` is used as is; otherwise the URL is `http://<host>:<port>`, e.g. `http://es1:5455` |
| Naming.DefaultClientUrl | dist/lib/configuration.js:39-43 | with no options the client connects to `http://localhost:9200` |
| JsValues.NatToStringRoundTrip | dist/lib/configuration.js:43 | the decimal numeral written for a port number reads back as that number |
| JsValues.NatToStringInjective | dist/lib/configuration.js:43 | different port numbers give different numerals |
| JsValues.CallToString | dist/lib/configuration.js:164 | `id.toString()` fails exactly on undefined and null, and otherwise gives the string form of the id |
| Documents.PrepareSources | dist/lib/configuration.js:156-157 | the body is `denormalize(doc)` when given, else `doc`; the id is `getId` of the original document when given, else the body's `id`; a null body without `getId` throws |
| Documents.PlainDocument | dist/test/lib/configuration.js:812-833 | `{id: 'document'}` is stored under "document" with itself as body |
| Documents.IdFromOriginalDocument | dist/test/lib/configuration.js:863-890 | with both callbacks, the body is denormalized and the id still comes from the original document |
| Documents.MissingIdHasNoKey | dist/lib/configuration.js:157-164 | a document without `id` and no `getId` has no key: `toString` throws |
| Documents.Batch | dist/lib/configuration.js:294-300 | a batch the pull loop indexes is never empty |
| Documents.Batches | dist/lib/configuration.js:293-306 | the batches the loop indexes come one per answer, in order, from the first answers of `next`, each fulfilled and non-empty |
| Documents.Unread | dist/lib/configuration.js:293-306 | the answers left are a suffix of those given; at least one more was read than yielded a batch, unless the answers ran out with the stream ended |
| Documents.BatchCases | dist/lib/configuration.js:294-300 | a falsy value or an empty array ends the stream; an array is a batch; a single document is a batch of one |
| Documents.UpsertsAppend | dist/lib/configuration.js:302-304 | indexing two batches in turn is indexing their concatenation |
| Documents.UpsertsLastWins | dist/lib/configuration.js:160-166 | under a shared id, the last document of the batch is the one stored |
| Documents.UpsertsUntouched | dist/lib/configuration.js:160-166 | ids no document of the batch has keep their old body or stay absent |
| Documents.UpsertsRenamed | dist/lib/configuration.js:291 | the copy of the options that targets tmp keys and stores documents exactly as the caller's options do |
| SearchEngine.AddThenRemove | dist/lib/configuration.js:502-508 | the add-then-remove request succeeds iff dest exists, the alias is no index and source is bound once dest is added; then only that alias changes, to (bound + {dest}) - {source} |
| SearchEngine.DeleteUnbinds | dist/lib/configuration.js:103-115 | deleting an index removes it from every alias and changes no other index |
| SearchEngine.ApplyActionsConsistent | dist/lib/configuration.js:502-508 | alias actions keep every alias bound to existing indices and leave the indices alone |
| SearchEngine.StepConsistent | dist/lib/configuration.js:80-92 | every request keeps the engine's store consistent |
| Protocol.IndexDocsFrom | dist/lib/configuration.js:188-194 | `indexDocs` from document i on stops at a document whose id cannot be read, else indexes it and continues |
| Protocol.MappedStops | dist/lib/configuration.js:188-191 | the `map` reaches every document, or stops just after the first one whose id cannot be read |
| Configuration.ElasticsearchConfiguration.constructor | dist/lib/configuration.js:38-45 | the URL is `options.url` or `http://host:port`, the defaults are used when no options are given, and there is no client yet |
| Configuration.ElasticsearchConfiguration.GetClient | dist/lib/configuration.js:379-397 | a client is made only when there is none; a refused ping drops it and rejects; a successful ping returns the kept client |
| Configuration.ElasticsearchConfiguration.Invoke | dist/lib/configuration.js:134-139 | a remote call is the client's ping, then the request, rejecting with the first refusal; a refused ping leaves no client, a successful one keeps the client it found |
| Configuration.ElasticsearchConfiguration.DoesIndexExist | dist/lib/configuration.js:407-417 | sends the existence check and settles as `Protocol.IndexExistsRun` says; keeps the client when it resolves and drops it after a refused ping |
| Configuration.ElasticsearchConfiguration.DoesAliasExist | dist/lib/configuration.js:428-440 | sends the alias check and settles as `Protocol.AliasExistsRun` says |
| Configuration.ElasticsearchConfiguration.GetElasticsearchVersion | dist/lib/configuration.js:360-370 | asks the engine for its version and settles with its major part |
| Configuration.ElasticsearchConfiguration.GetIndexConfiguration | dist/lib/configuration.js:336-351 | reads the mapping file for the major version; a missing file rejects with the not-found message, any other read error rejects as is |
| Configuration.ElasticsearchConfiguration.CreateIndex | dist/lib/configuration.js:77-92 | behaves as `Protocol.CreateIndexRun`: check, then mapping and create only when the index is missing; keeps the client when it resolves and drops it after a refused ping |
| Configuration.ElasticsearchConfiguration.DeleteIndex | dist/lib/configuration.js:103-115 | behaves as `Protocol.DeleteIndexRun`: check, then delete only when the index exists |
| Configuration.ElasticsearchConfiguration.Reindex | dist/lib/configuration.js:128-140 | sends one copy request with the refresh flag |
| Configuration.ElasticsearchConfiguration.AssociateAliasWithIndex | dist/lib/configuration.js:451-455 | sends one `putAlias` request |
| Configuration.ElasticsearchConfiguration.SwitchIndexForAlias | dist/lib/configuration.js:502-508 | sends one `updateAliases` request holding add(dest) then remove(source) |
| Configuration.ElasticsearchConfiguration.Setup | dist/lib/configuration.js:58-66 | behaves as `Protocol.SetupRun`: createIndex(real), then bind the alias to it |
| Configuration.ElasticsearchConfiguration.ConvertIndexToAlias | dist/lib/configuration.js:478-490 | behaves as `Protocol.ConvertRun`: create real, copy, delete the index, bind |
| Configuration.ElasticsearchConfiguration.EnsureIndexIsConfiguredProperly | dist/lib/configuration.js:212-229 | behaves as `Protocol.EnsureRun`: create real, then bind, convert or stop |
| Configuration.ElasticsearchConfiguration.Index | dist/lib/configuration.js:155-170 | behaves as `Protocol.IndexRun`: body and id read first, then ping, then one index request with refresh |
| Configuration.ElasticsearchConfiguration.IndexDocs | dist/lib/configuration.js:185-195 | one `index` per document, in order, through the shared options object, whose `document` ends as the last document reached |
| Configuration.ElasticsearchConfiguration.Prepare | dist/lib/configuration.js:248-250 | ensureIndexIsConfiguredProperly, then createIndex(tmp) |
| Configuration.ElasticsearchConfiguration.Rebuild | dist/lib/configuration.js:252-261 | switch to tmp, delete real, create real, copy tmp to real, switch back, stopping at the first failure |
| Configuration.ElasticsearchConfiguration.Reconfigure | dist/lib/configuration.js:242-265 | behaves as `Protocol.ReconfigureRun`: the steps in order, then the tmp cleanup whatever happened; a resolved call keeps the client it found |
| Configuration.ElasticsearchConfiguration.LoadAndIndex | dist/lib/configuration.js:290-306 | behaves as `Protocol.LoadRun`, consuming exactly the answers of `next` it reads |
| Configuration.ElasticsearchConfiguration.ReindexAll | dist/lib/configuration.js:281-326 | behaves as `Protocol.ReindexAllRun`: the pull loop fills tmp in place of the first copy, then the same rebuild and cleanup |
| Configuration.Feed.Next | dist/test/lib/configuration.js:937-941 | the caller's `next` gives its answers in order and then undefined |
| Workflows.RpcAnyFaults | dist/lib/configuration.js:379-397 | whatever the engine refuses, a remote call sends a ping and at most its request, and a failed call changes no store |
| Workflows.ExistsReliable | dist/lib/configuration.js:407-440 | the existence checks answer from the store and change nothing |
| Workflows.ConfigurationReliable | dist/lib/configuration.js:336-351 | the configuration is the file for the reported major version, or the not-found message |
| Workflows.CreateIndexPresent | dist/test/lib/configuration.js:365-386 | an existing index is left alone: no mapping read, no create sent, whatever the engine refuses |
| Workflows.CreateIndexAbsent | dist/test/lib/configuration.js:341-363 | a missing index is created with the mapping file's content, after the check and the version query |
| Workflows.CreateIndexWithoutMapping | dist/test/lib/configuration.js:413-442 | without a mapping file createIndex rejects with `No "<type>" mapping configuration found for Elasticsearch version <major>` and sends no create |
| Workflows.CreateIndexFailureKeepsStore | dist/lib/configuration.js:77-92 | a rejected createIndex changes nothing, whatever the engine refused |
| Workflows.DeleteIndexAbsent | dist/test/lib/configuration.js:502-520 | a missing index gets no delete and the call resolves |
| Workflows.DeleteIndexPresent | dist/test/lib/configuration.js:544-565 | an existing index gets exactly one delete, for that name; it leaves every alias and nothing else changes |
| Workflows.ReindexReliable | dist/lib/configuration.js:128-140 | the copy puts every document of source over dest's and changes nothing else |
| Workflows.BindReliable | dist/lib/configuration.js:451-455 | binding adds the index to the alias and changes nothing else |
| Workflows.SwitchAtomic | dist/lib/configuration.js:502-508 | one request; either the alias moves from source to dest with nothing else changed, or nothing changes |
| Workflows.IndexReliable | dist/lib/configuration.js:155-170 | a document is stored under the string of its id with its body, by one request asking for a refresh |
| Workflows.IndexRejects | dist/lib/configuration.js:156-164 | a null body without getId throws before any request; an id without a string form throws after the ping |
| Workflows.IndexDocsReliable | dist/test/lib/configuration.js:893-905 | `indexDocs` sends one index request per document, in order, and stores every document of the batch |
| Workflows.LoadReliable | dist/lib/configuration.js:290-306 | the pull loop indexes exactly the concatenation of the batches before the end marker, in order; it resolves iff the stream ends before a rejection; it reads no answer past the one that stopped it |
| Migration.CreateIndexReliable | dist/lib/configuration.js:77-92 | after createIndex the index exists, nothing else changes, and every alias stays served |
| Migration.CreateIndexIdempotent | dist/lib/configuration.js:80-81 | a second createIndex sends only the existence check and changes nothing |
| Migration.CreateIndexSucceeded | dist/lib/configuration.js:77-92 | a resolved createIndex leaves the index in the store and the aliases as they were, whatever the engine refused |
| Migration.SetupSucceeded | dist/lib/configuration.js:58-66 | after a resolved setup the alias exists and is bound to real(name), which exists, whatever the engine refused |
| Migration.SetupReliable | dist/test/lib/configuration.js:299-326 | setup sends createIndex(real) and the binding, and only those change the store |
| Migration.DeleteIndexReliable | dist/lib/configuration.js:103-115 | deleteIndex leaves the store as the delete does (unchanged for a missing index) |
| Migration.EnsureWithAlias | dist/test/lib/configuration.js:658-706 | an existing alias: real(name) exists afterwards and the alias is also bound to it, and the alias is served throughout |
| Migration.EnsureWithIndex | dist/test/lib/configuration.js:709-727 | an index holding the name is converted: the name becomes an alias of real(name) alone, which holds the documents of both |
| Migration.EnsureWithNeither | dist/lib/configuration.js:215-227 | neither alias nor index: real(name) is created and the name stays unbound |
| Migration.ConvertReliable | dist/test/lib/configuration.js:621-642 | the conversion creates real(index), copies the documents, deletes the index and binds its name to real(index) |
| Migration.RebuildReliable | dist/lib/configuration.js:252-261 | the rebuild sends its sixteen requests (eight calls, each after a ping) and recreates real(name) with tmp's documents, and the alias is served from first store to last |
| Migration.CleanupReliable | dist/lib/configuration.js:262-264 | the cleanup deletes tmp, the main result stands, and the alias stays served |
| Migration.CleanupAnyFaults | dist/lib/configuration.js:262-264 | whatever the engine refuses, the cleanup is attempted, sends only the check and the delete of tmp, and can only turn a success into its own failure |
| Migration.CleanupRefused | dist/lib/configuration.js:323-325 | when the cleanup's first ping is refused, the store stays as the workflow left it, tmp included, and that refusal is the result |
| Migration.RebuildInterrupted | dist/lib/configuration.js:252-264 | with the alias bound to real(name) alone, a refused ping before the delete of real(name) stops the rebuild; the cleanup deletes tmp, the alias's last index, so the alias disappears while real(name) survives with its documents |
| Migration.RebuildLosesReal | dist/lib/configuration.js:252-264 | with the alias bound to real(name) alone, a refused ping before the recreation of real(name) comes after its delete; the cleanup then deletes tmp, and the workflow rejects with neither index nor the alias left |
| Migration.ReconfigureReliable | dist/lib/configuration.js:242-265 | reconfigure of an alias resolves, sends the setup and the tail in order, recreates real(name) with the current mapping and all its documents, and keeps the alias served |
| Migration.ReconfigureFromIndex | dist/lib/configuration.js:212-265 | reconfigure of a plain index converts it and then refreshes real(name), which holds the documents of both |
| Migration.ReconfigureWithoutAlias | dist/lib/configuration.js:215-265 | reconfigure of an unused name fails at the first switch, deletes tmp and leaves the name unbound |
| Migration.ReindexAllLoaded | dist/lib/configuration.js:308-325 | once set up, reindexAll fills tmp from the stream, rebuilds and cleans up; real(name) holds exactly the streamed documents |
| Migration.ReindexAllFeedFails | dist/lib/configuration.js:293-325 | a rejecting `next` fails the workflow, and the store returns to the one the setup left |
| Migration.ReindexAllReliable | dist/test/lib/configuration.js:934-969 | reindexAll of an alias resolves; real(name) ends with the current mapping and exactly the streamed documents; the alias is served throughout |
| Migration.LoadKeepsAliases | dist/lib/configuration.js:311-312 | while the documents load, no alias changes, whatever the engine refuses |
| Migration.ReconfigureWrites | dist/test/lib/configuration.js:908-931 | after the setup, reconfigure writes 2 creates, 2 copies, 2 switches and 2 deletes, the switch to tmp before the delete of real(name) and the delete of tmp last |
| Migration.ReindexAllWrites | dist/test/lib/configuration.js:934-969 | after the setup, reindexAll writes tmp's create, one index per streamed document, then 2 switches, a create, one copy tmp to real, and 2 deletes |
| Migration.IndexWrites | dist/lib/configuration.js:188-191 | indexing a batch writes one index request per document, in order |

## Left out

- The elasticsearch client library, the HTTP transport, the 1000 ms ping timeout and `client.close()`: a remote call is a ping and a request to the abstract engine, and refusals come from a fault schedule.
- `fs.readJSON`, `path.join`, `path.resolve` and `__dirname`: the mapping files are a map from file name to content or read error; the default directory is kept relative (`../data/<major>.x/`).
- `console.log` after a document is indexed.
- The concurrency of `q.all` in `indexDocs`: the documents are indexed one after the other, and the first failure in document order is the result.
- Thrown TypeErrors and rejected promises are not told apart: both are a `Failure`.
- JavaScript numbers are integers here; documents inside a batch are never `undefined`.
- `getId` and `denormalize` are pure functions; a callback that throws or has side effects is not modelled.
- The `hosts` option: the class does not implement it.
- The command-line tool, the build configuration and the older `lib/configuration.js` are not part of this model.
- ConfigFileInjective: proved for the file name built from the directory and the type, not for the file `path.resolve` makes of it; `users` and `./users` name the same file once resolved.
- AddThenRemove: its acceptance condition is the model engine's rule that an `updateAliases` request is refused as a whole when one of its removes names an index the alias is not bound to. Engines that skip such a remove while another action applies are not modelled.
- SwitchAtomic: rests on the same rule; on an engine that skips the remove, a switch away from an unbound index adds the destination and resolves.
- ReconfigureWithoutAlias: rests on the same rule; on an engine that skips the remove, `reconfigure` of an unused name would bind it and resolve.
- The engine neither resolves aliases nor creates indices on its own: `exists` on an alias name answers false, `index` into an alias or into a missing index is refused. A search engine that answers such a call through the alias, or creates the missing index, settles `index`, `createIndex` and `deleteIndex` given an alias name differently; such calls are outside the model.
- Concurrent workflows on the same alias: the model runs one workflow at a time on an engine nobody else writes to.
