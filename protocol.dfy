/**
 * What each operation of the configuration class does to the engine, as a
 * function of the engine world it starts from: the requests it sends, in
 * order, the store it leaves and the result its promise settles with.
 * The methods of the class are proved to behave exactly as these functions say.
 *
 * Every remote call of the class first pings the engine through `_getClient`
 * and then sends its request; a refused ping or request rejects the call with
 * that request's failure, and the calls of a workflow stop at the first
 * rejection.
 */
module Protocol {
  import opened Wrappers
  import opened JsValues
  import opened Naming
  import opened SearchEngine
  import opened Documents

  /** Why a promise of the class rejects. */
  datatype Error =
    | RequestFailed(request: Request)   // the engine refused this request, or the connection failed
    | MappingNotFound(message: string)  // the mapping file does not exist (ENOENT)
    | MappingUnreadable(reason: string) // any other error of reading the mapping file
    | InvalidDocument                   // TypeError: reading `id` of a null body
    | MissingId                         // TypeError: `toString` of an undefined or null id
    | PullFailed(reason: string)        // the caller's `next` rejected

  type Outcome = Result<(), Error>

  /** The world an operation leaves and the result it settles with. */
  datatype Run<T> = Run(world: World, result: Result<T, Error>)

  /** A mapping file: parsed JSON, or a file `readJSON` rejects for another reason than its absence. */
  datatype FileEntry = JsonFile(content: Json) | Unparsable(reason: string)

  /** Where mapping files are looked up: the `path` option and the files that exist, by name. */
  datatype MappingSource = MappingSource(path: Option<string>, files: map<string, FileEntry>)

  /** A later world of the same engine: requests were only appended, one snapshot per request. */
  ghost predicate Extends(w: World, w': World) {
    && w'.version == w.version && w'.faults == w.faults
    && w.log <= w'.log && w.trail <= w'.trail
    && |w'.log| - |w.log| == |w'.trail| - |w.trail|
    && (Consistent(w.state) ==> Consistent(w'.state))
    && (Consistent(w.state) ==> forall i :: |w.trail| <= i < |w'.trail| ==> Consistent(w'.trail[i]))
  }

  /** An engine that refuses none of the requests still to come. */
  ghost predicate Reliable(w: World) {
    forall k :: k in w.faults ==> k < |w.log|
  }

  /** The requests sent between two worlds of one engine. */
  function Sent(w: World, w': World): seq<Request>
    requires w.log <= w'.log
  {
    w'.log[|w.log|..]
  }

  /** `_getClient().then(client => ninvoke(r))`: a ping, then the request. */
  function Rpc(w: World, r: Request): (out: Run<Response>)
    ensures Extends(w, out.world)
  {
    var p := Deliver(w, Ping);
    if p.response == Refused then Run(p.world, Failure(RequestFailed(Ping)))
    else
      var d := Deliver(p.world, r);
      if d.response == Refused then Run(d.world, Failure(RequestFailed(r)))
      else Run(d.world, Success(d.response))
  }

  /** A promise settled with nothing in particular: only success or the failure survives. */
  function Settle<T>(res: Result<T, Error>): (o: Outcome)
    ensures o.Success? <==> res.Success?
    ensures res.Failure? ==> o.error == res.error
  {
    if res.Failure? then Failure(res.error) else Success(())
  }

  /** A call whose answer only says that it succeeded. */
  function Command(w: World, r: Request): (out: Run<()>)
    ensures Extends(w, out.world)
  {
    var x := Rpc(w, r);
    Run(x.world, Settle(x.result))
  }

  /** `_doesIndexExist`. */
  function IndexExistsRun(w: World, index: string): (out: Run<bool>)
    ensures Extends(w, out.world)
  {
    var x := Rpc(w, IndexExists(index));
    if x.result.Failure? then Run(x.world, Failure(x.result.error))
    else Run(x.world, Success(x.result.value.found))
  }

  /** `_doesAliasExist`. */
  function AliasExistsRun(w: World, alias: string): (out: Run<bool>)
    ensures Extends(w, out.world)
  {
    var x := Rpc(w, AliasExists(alias));
    if x.result.Failure? then Run(x.world, Failure(x.result.error))
    else Run(x.world, Success(x.result.value.found))
  }

  /** `_getElasticsearchVersion`: the major part of the version the engine reports. */
  function VersionRun(w: World): (out: Run<string>)
    ensures Extends(w, out.world)
  {
    var x := Rpc(w, Info);
    if x.result.Failure? then Run(x.world, Failure(x.result.error))
    else Run(x.world, Success(MajorVersion(x.result.value.number)))
  }

  /** The error message for a document type without a mapping file. */
  function NotFoundMessage(docType: string, major: string): string {
    "No \"" + docType + "\" mapping configuration found for Elasticsearch version " + major
  }

  /** `_getIndexConfiguration`: the mapping file of the type for the engine's major version. */
  function ConfigurationRun(src: MappingSource, w: World, docType: string): (out: Run<Json>)
    ensures Extends(w, out.world)
  {
    var v := VersionRun(w);
    if v.result.Failure? then Run(v.world, Failure(v.result.error))
    else
      var major := v.result.value;
      var file := ConfigFile(src.path, major, docType);
      if file !in src.files then Run(v.world, Failure(MappingNotFound(NotFoundMessage(docType, major))))
      else match src.files[file]
        case JsonFile(content) => Run(v.world, Success(content))
        case Unparsable(reason) => Run(v.world, Failure(MappingUnreadable(reason)))
  }

  /** `createIndex`: nothing more when the index exists, else create it with the type's mapping. */
  function CreateIndexRun(src: MappingSource, w: World, name: string, docType: string): (out: Run<()>)
    ensures Extends(w, out.world)
  {
    var e := IndexExistsRun(w, name);
    if e.result.Failure? then Run(e.world, Failure(e.result.error))
    else if e.result.value then Run(e.world, Success(()))
    else
      var c := ConfigurationRun(src, e.world, docType);
      if c.result.Failure? then Run(c.world, Failure(c.result.error))
      else Command(c.world, CreateIndex(name, c.result.value))
  }

  /** `deleteIndex`: nothing more when the index does not exist, else delete it. */
  function DeleteIndexRun(w: World, name: string): (out: Run<()>)
    ensures Extends(w, out.world)
  {
    var e := IndexExistsRun(w, name);
    if e.result.Failure? then Run(e.world, Failure(e.result.error))
    else if !e.result.value then Run(e.world, Success(()))
    else Command(e.world, DeleteIndex(name))
  }

  /** `reindex`: copy every document of one index into another, refreshing the destination. */
  function ReindexRun(w: World, source: string, dest: string): (out: Run<()>)
    ensures Extends(w, out.world)
  {
    Command(w, Reindex(source, dest, true))
  }

  /** `_associateAliasWithIndex`. */
  function BindRun(w: World, alias: string, index: string): (out: Run<()>)
    ensures Extends(w, out.world)
  {
    Command(w, PutAlias(alias, index))
  }

  /** The actions of `_switchIndexForAlias`: add the destination, then remove the source. */
  function SwitchActions(alias: string, source: string, dest: string): seq<AliasAction> {
    [Add(dest, alias), Remove(source, alias)]
  }

  /** `_switchIndexForAlias`: both actions in one `updateAliases` request. */
  function SwitchRun(w: World, alias: string, source: string, dest: string): (out: Run<()>)
    ensures Extends(w, out.world)
  {
    Command(w, UpdateAliases(SwitchActions(alias, source, dest)))
  }

  /** `setup`: create the concrete index, then bind the alias to it. */
  function SetupRun(src: MappingSource, w: World, name: string, docType: string): (out: Run<()>)
    ensures Extends(w, out.world)
  {
    var c := CreateIndexRun(src, w, RealName(name), docType);
    if c.result.Failure? then c
    else BindRun(c.world, name, RealName(name))
  }

  /** `_convertIndexToAlias`: move an index's documents into real(index), delete it, and bind its name as an alias. */
  function ConvertRun(src: MappingSource, w: World, index: string, docType: string): (out: Run<()>)
    ensures Extends(w, out.world)
  {
    var target := RealName(index);
    var c := CreateIndexRun(src, w, target, docType);
    if c.result.Failure? then c
    else
      var r := ReindexRun(c.world, index, target);
      if r.result.Failure? then r
      else
        var d := DeleteIndexRun(r.world, index);
        if d.result.Failure? then d
        else BindRun(d.world, index, target)
  }

  /**
   * `ensureIndexIsConfiguredProperly`: create real(name), then bind the alias
   * when it exists, else convert an index called name, else stop.
   */
  function EnsureRun(src: MappingSource, w: World, name: string, docType: string): (out: Run<()>)
    ensures Extends(w, out.world)
  {
    var c := CreateIndexRun(src, w, RealName(name), docType);
    if c.result.Failure? then c
    else
      var a := AliasExistsRun(c.world, name);
      if a.result.Failure? then Run(a.world, Failure(a.result.error))
      else if a.result.value then BindRun(a.world, name, RealName(name))
      else
        var i := IndexExistsRun(a.world, name);
        if i.result.Failure? then Run(i.world, Failure(i.result.error))
        else if i.result.value then ConvertRun(src, i.world, name, docType)
        else Run(i.world, Success(()))
  }

  /** The start `reconfigure` and `reindexAll` share: the alias set up, then an empty tmp index. */
  function PrepareRun(src: MappingSource, w: World, name: string, docType: string): (out: Run<()>)
    ensures Extends(w, out.world)
  {
    PrepareAfter(src, EnsureRun(src, w, name, docType), name, docType)
  }

  /** The empty tmp index created once ensureIndexIsConfiguredProperly has settled with `e`. */
  function PrepareAfter(src: MappingSource, e: Run<()>, name: string, docType: string): (out: Run<()>)
    ensures Extends(e.world, out.world)
  {
    if e.result.Failure? then e
    else CreateIndexRun(src, e.world, TmpName(name), docType)
  }

  /**
   * The end they share: serve the alias from tmp, recreate the real index
   * with the current mapping, copy tmp into it, serve from it again.
   */
  function RebuildRun(src: MappingSource, w: World, name: string, docType: string): (out: Run<()>)
    ensures Extends(w, out.world)
  {
    var main := RealName(name);
    var tmp := TmpName(name);
    var s := SwitchRun(w, name, main, tmp);
    if s.result.Failure? then s
    else
      var d := DeleteIndexRun(s.world, main);
      if d.result.Failure? then d
      else
        var c := CreateIndexRun(src, d.world, main, docType);
        if c.result.Failure? then c
        else
          var r := ReindexRun(c.world, tmp, main);
          if r.result.Failure? then r
          else SwitchRun(r.world, name, tmp, main)
  }

  /** `reconfigure` before its `finally`, once prepared with `p`: copy the real index into tmp, rebuild. */
  function ReconfigureMain(src: MappingSource, p: Run<()>, name: string, docType: string): (out: Run<()>)
    ensures Extends(p.world, out.world)
  {
    if p.result.Failure? then p
    else
      var c := ReindexRun(p.world, RealName(name), TmpName(name));
      if c.result.Failure? then c
      else RebuildRun(src, c.world, name, docType)
  }

  /**
   * A Q `finally` that deletes the tmp index: the cleanup runs after success
   * and after failure alike; when the cleanup rejects, its error replaces the
   * main result, otherwise the main result stands.
   */
  function Finally(main: Run<()>, tmp: string): (out: Run<()>)
    ensures Extends(main.world, out.world)
  {
    var c := DeleteIndexRun(main.world, tmp);
    Run(c.world, if c.result.Failure? then c.result else main.result)
  }

  /** `reconfigure`: ensureIndexIsConfiguredProperly, then the rest. */
  function ReconfigureRun(src: MappingSource, w: World, name: string, docType: string): (out: Run<()>)
    ensures Extends(w, out.world)
  {
    ReconfigureFrom(src, EnsureRun(src, w, name, docType), name, docType)
  }

  /** What `reconfigure` does once ensureIndexIsConfiguredProperly has settled with `e`. */
  function ReconfigureFrom(src: MappingSource, e: Run<()>, name: string, docType: string): (out: Run<()>)
    ensures Extends(e.world, out.world)
  {
    Finally(ReconfigureMain(src, PrepareAfter(src, e, name, docType), name, docType), TmpName(name))
  }

  /** `index`: the body and id are read synchronously, the id is converted once the client answers. */
  function IndexRun(w: World, spec: DocSpec, doc: Json): (out: Run<()>)
    ensures Extends(w, out.world)
    ensures Prepare(spec, doc).Some? ==> out.result != Failure(InvalidDocument)
  {
    match Prepare(spec, doc)
    case None => Run(w, Failure(InvalidDocument))
    case Some(p) =>
      var ping := Deliver(w, Ping);
      if ping.response == Refused then Run(ping.world, Failure(RequestFailed(Ping)))
      else match CallToString(p.id)
        case None => Run(ping.world, Failure(MissingId))
        case Some(id) =>
          var r := IndexDoc(spec.name, spec.docType, id, p.body, true);
          var d := Deliver(ping.world, r);
          Run(d.world, if d.response == Refused then Failure(RequestFailed(r)) else Success(()))
  }

  /**
   * How `indexDocs` settles once one document's result and the rest's are
   * known: a TypeError thrown while mapping a later document wins, otherwise
   * the first failure in document order.
   */
  function Combine(first: Outcome, rest: Outcome): Outcome {
    if rest == Failure(InvalidDocument) then rest
    else if first.Failure? then first
    else rest
  }

  /**
   * `indexDocs`: `index` is called on every document in order, except that a
   * document whose id cannot be read stops the mapping there.
   */
  function IndexDocsRun(w: World, spec: DocSpec, docs: seq<Json>): (out: Run<()>)
    ensures Extends(w, out.world)
    decreases |docs|
  {
    if docs == [] then Run(w, Success(()))
    else if Prepare(spec, docs[0]).None? then Run(w, Failure(InvalidDocument))
    else
      var first := IndexRun(w, spec, docs[0]);
      var rest := IndexDocsRun(first.world, spec, docs[1..]);
      Run(rest.world, Combine(first.result, rest.result))
  }

  /** `indexDocs` from document i on: stop at an unreadable document, else index it and go on. */
  lemma IndexDocsFrom(w: World, spec: DocSpec, docs: seq<Json>, i: nat)
    requires i <= |docs|
    ensures i == |docs| ==> IndexDocsRun(w, spec, docs[i..]) == Run(w, Success(()))
    ensures i < |docs| && Prepare(spec, docs[i]).None? ==> IndexDocsRun(w, spec, docs[i..]) == Run(w, Failure(InvalidDocument))
    ensures i < |docs| && Prepare(spec, docs[i]).Some? ==>
      var first := IndexRun(w, spec, docs[i]);
      var rest := IndexDocsRun(first.world, spec, docs[i + 1..]);
      IndexDocsRun(w, spec, docs[i..]) == Run(rest.world, Combine(first.result, rest.result))
  {
    if i < |docs| {
      assert docs[i..][0] == docs[i] && docs[i..][1..] == docs[i + 1..];
    } else {
      assert docs[i..] == [];
    }
  }

  /** The result settled so far absorbs the next one: later failures matter only while nothing has failed. */
  lemma CombineShift(acc: Outcome, r: Outcome, x: Outcome)
    requires acc != Failure(InvalidDocument) && r != Failure(InvalidDocument)
    ensures Combine(acc, Combine(r, x)) == Combine(if acc.Success? then r else acc, x)
    ensures acc.Failure? ==> Combine(acc, x) == if x == Failure(InvalidDocument) then x else acc
  {
  }

  /** How many documents the `map` of `indexDocs` reaches: up to and including the first one whose id cannot be read. */
  function Mapped(spec: DocSpec, docs: seq<Json>): (n: nat)
    ensures n <= |docs|
    ensures docs != [] ==> n > 0
  {
    if docs == [] then 0
    else if Prepare(spec, docs[0]).None? then 1
    else 1 + Mapped(spec, docs[1..])
  }

  /** With the documents before i all readable, the map reaches i + 1 documents when document i is not, and all of them at the end. */
  lemma {:induction false} MappedStops(spec: DocSpec, docs: seq<Json>, i: nat)
    requires i <= |docs|
    requires forall j :: 0 <= j < i ==> Prepare(spec, docs[j]).Some?
    ensures i < |docs| && Prepare(spec, docs[i]).None? ==> Mapped(spec, docs) == i + 1
    ensures i == |docs| ==> Mapped(spec, docs) == |docs|
    decreases i
  {
    if i > 0 {
      MappedStops(spec, docs[1..], i - 1);
    }
  }

  /** A run that also consumes answers of the caller's `next`, with the answers left. */
  datatype Loaded = Loaded(run: Run<()>, left: seq<Pull>)

  /**
   * `_loadAndIndex`: ask `next` for a batch, stop at the end of the stream,
   * else index the batch into the target and ask again. An exhausted list of
   * answers stands for `next` answering undefined.
   */
  function LoadRun(w: World, spec: DocSpec, pulls: seq<Pull>): (out: Loaded)
    ensures Extends(w, out.run.world)
    ensures |out.left| <= |pulls|
    decreases |pulls|
  {
    if pulls == [] then Loaded(Run(w, Success(())), [])
    else match pulls[0]
      case Rejected(reason) => Loaded(Run(w, Failure(PullFailed(reason))), pulls[1..])
      case Resolved(v) =>
        match Batch(v)
        case None => Loaded(Run(w, Success(())), pulls[1..])
        case Some(docs) =>
          var r := IndexDocsRun(w, spec, docs);
          if r.result.Failure? then Loaded(r, pulls[1..])
          else LoadRun(r.world, spec, pulls[1..])
  }

  /** `reindexAll` before its `finally`, once prepared with `p`; the documents go to tmp under the caller's options. */
  function ReindexAllMain(src: MappingSource, p: Run<()>, spec: DocSpec, pulls: seq<Pull>): (out: Loaded)
    ensures Extends(p.world, out.run.world)
  {
    if p.result.Failure? then Loaded(p, pulls)
    else
      var l := LoadRun(p.world, spec.(name := TmpName(spec.name)), pulls);
      if l.run.result.Failure? then l
      else Loaded(RebuildRun(src, l.run.world, spec.name, spec.docType), l.left)
  }

  /** `reindexAll`: ensureIndexIsConfiguredProperly, then the rest. */
  function ReindexAllRun(src: MappingSource, w: World, spec: DocSpec, pulls: seq<Pull>): (out: Loaded)
    ensures Extends(w, out.run.world)
  {
    ReindexAllFrom(src, EnsureRun(src, w, spec.name, spec.docType), spec, pulls)
  }

  /** What `reindexAll` does once ensureIndexIsConfiguredProperly has settled with `e`. */
  function ReindexAllFrom(src: MappingSource, e: Run<()>, spec: DocSpec, pulls: seq<Pull>): (out: Loaded)
    ensures Extends(e.world, out.run.world)
  {
    var m := ReindexAllMain(src, PrepareAfter(src, e, spec.name, spec.docType), spec, pulls);
    Loaded(Finally(m.run, TmpName(spec.name)), m.left)
  }
}
