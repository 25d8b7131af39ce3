/**
 * What the multi-step workflows of the configuration class achieve on an
 * engine that refuses none of their requests: the store they leave, the
 * exact requests they send, in order, and, for the alias being served,
 * that it exists in every store the engine passes through.
 */
module Migration {
  import opened Wrappers
  import opened JsValues
  import opened Naming
  import opened SearchEngine
  import opened Documents
  import opened Protocol
  import opened Workflows

  // ---------------------------------------------------------------------
  // Composing steps

  /** The requests sent over two consecutive stretches are those of the first, then those of the second. */
  lemma SentTrans(w1: World, w2: World, w3: World)
    requires w1.log <= w2.log && w2.log <= w3.log
    ensures w1.log <= w3.log && Sent(w1, w3) == Sent(w1, w2) + Sent(w2, w3)
  {
  }

  /** The alias exists in every store the engine passed through between two worlds. */
  ghost predicate Serving(w: World, w': World, alias: string) {
    && w.trail <= w'.trail
    && forall i :: |w.trail| <= i < |w'.trail| ==> alias in w'.trail[i].aliases
  }

  lemma ServingTrans(w1: World, w2: World, w3: World, alias: string)
    requires Serving(w1, w2, alias) && Serving(w2, w3, alias)
    ensures Serving(w1, w3, alias)
  {
    forall i | |w1.trail| <= i < |w3.trail|
      ensures alias in w3.trail[i].aliases
    {
      if i < |w2.trail| {
        assert w3.trail[i] == w2.trail[i];
      }
    }
  }

  /**
   * What serving the alias gives a reader: in every store the engine passed
   * through, the alias resolves to at least one index, and every index it
   * resolves to exists.
   */
  ghost predicate Resolving(w: World, w': World, alias: string) {
    forall i :: |w.trail| <= i < |w'.trail| ==>
      Bound(w'.trail[i], alias) != {} && Bound(w'.trail[i], alias) <= w'.trail[i].indices.Keys
  }

  lemma ServingResolves(w: World, w': World, alias: string)
    requires Consistent(w.state) && Extends(w, w') && Serving(w, w', alias)
    ensures Resolving(w, w', alias)
  {
    forall i | |w.trail| <= i < |w'.trail|
      ensures Bound(w'.trail[i], alias) != {} && Bound(w'.trail[i], alias) <= w'.trail[i].indices.Keys
    {
      assert Consistent(w'.trail[i]);
    }
  }

  /** A remote call passes through the store before and after its request. */
  lemma RpcServing(w: World, r: Request, alias: string)
    requires Reliable(w)
    requires alias in w.state.aliases && alias in After(w.state, r).aliases
    ensures Serving(w, Rpc(w, r).world, alias)
  {
    RpcReliable(w, r);
  }

  // ---------------------------------------------------------------------
  // createIndex, whether the index exists or not

  /** The store once an index has been made sure to exist. */
  function Created(s: Snapshot, n: string, body: Json): Snapshot {
    if n in s.indices then s else s.(indices := s.indices[n := SearchEngine.Index(body, map[])])
  }

  /** The requests of `createIndex`: the existence check, then the version and the create when the index is missing. */
  function CreateRequests(s: Snapshot, n: string, body: Json): seq<Request> {
    if n in s.indices then [Ping, IndexExists(n)]
    else [Ping, IndexExists(n), Ping, Info, Ping, CreateIndex(n, body)]
  }

  /** `createIndex` on a reliable engine: the index exists afterwards, the rest of the store is untouched and every alias stays. */
  lemma CreateIndexReliable(src: MappingSource, w: World, n: string, docType: string, body: Json, alias: string)
    requires Reliable(w)
    requires n !in w.state.aliases
    requires n !in w.state.indices ==> MappingFile(src, w.version, docType) == Some(JsonFile(body))
    ensures var out := CreateIndexRun(src, w, n, docType);
      && out.result == Success(())
      && w.log <= out.world.log && Sent(w, out.world) == CreateRequests(w.state, n, body)
      && out.world.state == Created(w.state, n, body)
      && (alias in w.state.aliases ==> Serving(w, out.world, alias))
  {
    var e := Rpc(w, IndexExists(n));
    if n in w.state.indices {
      CreateIndexPresent(src, w, n, docType);
      if alias in w.state.aliases {
        RpcServing(w, IndexExists(n), alias);
      }
    } else {
      CreateIndexAbsent(src, w, n, docType, body);
      if alias in w.state.aliases {
        ExistsReliable(w, n);
        RpcServing(w, IndexExists(n), alias);
        var v := Rpc(e.world, Info);
        ConfigurationReliable(src, e.world, docType);
        RpcServing(e.world, Info, alias);
        RpcServing(v.world, CreateIndex(n, body), alias);
        RpcReliable(v.world, CreateIndex(n, body));
        ServingTrans(w, e.world, v.world, alias);
        ServingTrans(w, v.world, Rpc(v.world, CreateIndex(n, body)).world, alias);
      }
    }
  }

  /** A second `createIndex` of the same index finds it and sends nothing more than the check. */
  lemma CreateIndexIdempotent(src: MappingSource, w: World, n: string, docType: string, body: Json)
    requires Reliable(w)
    requires n !in w.state.aliases
    requires n !in w.state.indices ==> MappingFile(src, w.version, docType) == Some(JsonFile(body))
    ensures var first := CreateIndexRun(src, w, n, docType);
      var second := CreateIndexRun(src, first.world, n, docType);
      && second.result == Success(())
      && first.world.log <= second.world.log && Sent(first.world, second.world) == [Ping, IndexExists(n)]
      && second.world.state == first.world.state
  {
    var first := CreateIndexRun(src, w, n, docType);
    CreateIndexReliable(src, w, n, docType, body, n);
    ReliableLater(w, first.world);
    CreateIndexReliable(src, first.world, n, docType, body, n);
  }

  /** A `createIndex` that resolves, whatever the engine refused, leaves the index in the store and every alias as it was. */
  lemma CreateIndexSucceeded(src: MappingSource, w: World, n: string, docType: string)
    ensures var out := CreateIndexRun(src, w, n, docType);
      out.result.Success? ==>
        && n in out.world.state.indices
        && w.state.indices.Keys <= out.world.state.indices.Keys
        && out.world.state.aliases == w.state.aliases
  {
    var e := IndexExistsRun(w, n);
    RpcAnyFaults(w, IndexExists(n));
    if e.result.Success? && !e.result.value {
      var v := Rpc(e.world, Info);
      RpcAnyFaults(e.world, Info);
      var c := ConfigurationRun(src, e.world, docType);
      if c.result.Success? {
        RpcAnyFaults(c.world, CreateIndex(n, c.result.value));
      }
    }
  }

  /**
   * After `setup` resolves, whatever the engine refused on the way, the alias
   * exists and is bound to real(name), which exists.
   */
  lemma SetupSucceeded(src: MappingSource, w: World, name: string, docType: string)
    ensures var out := SetupRun(src, w, name, docType);
      out.result.Success? ==>
        && name in out.world.state.aliases
        && RealName(name) in Bound(out.world.state, name)
        && RealName(name) in out.world.state.indices
  {
    var c := CreateIndexRun(src, w, RealName(name), docType);
    CreateIndexSucceeded(src, w, RealName(name), docType);
    RpcAnyFaults(c.world, PutAlias(name, RealName(name)));
  }

  /** `setup` on a reliable engine: real(name) created if missing, then bound to the alias; nothing else changes. */
  lemma SetupReliable(src: MappingSource, w: World, name: string, docType: string, body: Json)
    requires Reliable(w)
    requires name !in w.state.indices && RealName(name) !in w.state.aliases
    requires RealName(name) !in w.state.indices ==> MappingFile(src, w.version, docType) == Some(JsonFile(body))
    ensures var out := SetupRun(src, w, name, docType);
      var target := RealName(name);
      && out.result == Success(())
      && w.log <= out.world.log
      && Sent(w, out.world) == CreateRequests(w.state, target, body) + [Ping, PutAlias(name, target)]
      && out.world.state.indices == Created(w.state, target, body).indices
      && Bound(out.world.state, name) == Bound(w.state, name) + {target}
      && (forall a :: a != name ==> Bound(out.world.state, a) == Bound(w.state, a))
  {
    var target := RealName(name);
    NamesDistinct(name);
    var c := CreateIndexRun(src, w, target, docType);
    CreateIndexReliable(src, w, target, docType, body, name);
    var b := Rpc(c.world, PutAlias(name, target));
    RpcAnswered(c.world, PutAlias(name, target));
    AnsweredStep(c.world, b.world, PutAlias(name, target), name);
    SentTrans(w, c.world, b.world);
  }

  /** The requests of `deleteIndex`: the existence check, then the delete when the index exists. */
  function DeleteRequests(s: Snapshot, n: string): seq<Request> {
    if n in s.indices then [Ping, IndexExists(n), Ping, DeleteIndex(n)] else [Ping, IndexExists(n)]
  }

  /** `deleteIndex` on a reliable engine: the store as the delete leaves it (unchanged for a missing index); an alias it does not empty is served throughout. */
  lemma DeleteIndexReliable(w: World, n: string, alias: string)
    requires Reliable(w)
    ensures var out := DeleteIndexRun(w, n);
      && out.result == Success(())
      && w.log <= out.world.log && Sent(w, out.world) == DeleteRequests(w.state, n)
      && out.world.state == After(w.state, DeleteIndex(n))
      && (alias in w.state.aliases && alias in After(w.state, DeleteIndex(n)).aliases ==> Serving(w, out.world, alias))
  {
    var e := Rpc(w, IndexExists(n));
    RpcReliable(w, IndexExists(n));
    assert After(w.state, IndexExists(n)) == w.state;
    if n in w.state.indices {
      DeleteIndexPresent(w, n);
      if alias in w.state.aliases && alias in After(w.state, DeleteIndex(n)).aliases {
        RpcServing(w, IndexExists(n), alias);
        RpcReliable(e.world, DeleteIndex(n));
        RpcServing(e.world, DeleteIndex(n), alias);
        ServingTrans(w, e.world, Rpc(e.world, DeleteIndex(n)).world, alias);
      }
    } else {
      DeleteIndexAbsent(w, n);
      SentIs(w, e.world, [Ping, IndexExists(n)]);
      if alias in w.state.aliases {
        RpcServing(w, IndexExists(n), alias);
      }
    }
  }

  /** The engine once a reliable remote call has been answered: a ping and the request, with the stores they leave. */
  ghost predicate Answered(w: World, w': World, r: Request) {
    && w'.log == w.log + [Ping, r]
    && w'.trail == w.trail + [w.state, After(w.state, r)]
    && w'.state == After(w.state, r)
  }

  lemma RpcAnswered(w: World, r: Request)
    requires Reliable(w)
    ensures Answered(w, Rpc(w, r).world, r)
    ensures Rpc(w, r).result.Success? <==> Accepts(w.state, r)
  {
    RpcReliable(w, r);
  }

  /** What an answered call contributes: its two requests, and the alias served when both stores hold it. */
  lemma AnsweredStep(w: World, w': World, r: Request, alias: string)
    requires Answered(w, w', r)
    ensures w.log <= w'.log && Sent(w, w') == [Ping, r]
    ensures alias in w.state.aliases && alias in After(w.state, r).aliases ==> Serving(w, w', alias)
  {
  }

  // ---------------------------------------------------------------------
  // ensureIndexIsConfiguredProperly

  /** The requests of ensureIndexIsConfiguredProperly for an existing alias: createIndex(real(name)), the alias check, the binding. */
  function AliasSetupRequests(s: Snapshot, name: string, body: Json): seq<Request> {
    CreateRequests(s, RealName(name), body) + [Ping, AliasExists(name), Ping, PutAlias(name, RealName(name))]
  }

  /** An alias that exists: real(name) exists afterwards and the alias is also bound to it; the alias is served throughout. */
  lemma EnsureWithAlias(src: MappingSource, w: World, name: string, docType: string, body: Json)
    requires Reliable(w) && Consistent(w.state)
    requires name in w.state.aliases && RealName(name) !in w.state.aliases
    requires RealName(name) !in w.state.indices ==> MappingFile(src, w.version, docType) == Some(JsonFile(body))
    ensures var out := EnsureRun(src, w, name, docType);
      var target := RealName(name);
      && out.result == Success(())
      && w.log <= out.world.log
      && Sent(w, out.world) == AliasSetupRequests(w.state, name, body)
      && out.world.state.indices == Created(w.state, target, body).indices
      && Bound(out.world.state, name) == Bound(w.state, name) + {target}
      && (forall a :: a != name ==> Bound(out.world.state, a) == Bound(w.state, a))
      && Serving(w, out.world, name)
  {
    var target := RealName(name);
    EnsureWithAliasShape(src, w, name, docType, body);
    var c := CreateIndexRun(src, w, target, docType);
    CreateIndexReliable(src, w, target, docType, body, name);
    var a := Rpc(c.world, AliasExists(name));
    RpcAnswered(c.world, AliasExists(name));
    RpcAnswered(a.world, PutAlias(name, target));
    EnsureWithAliasSteps(w, c.world, a.world, Rpc(a.world, PutAlias(name, target)).world, name, body);
  }

  lemma EnsureWithAliasShape(src: MappingSource, w: World, name: string, docType: string, body: Json)
    requires Reliable(w) && Consistent(w.state)
    requires name in w.state.aliases && RealName(name) !in w.state.aliases
    requires RealName(name) !in w.state.indices ==> MappingFile(src, w.version, docType) == Some(JsonFile(body))
    ensures var c := CreateIndexRun(src, w, RealName(name), docType);
      EnsureRun(src, w, name, docType) == BindRun(Rpc(c.world, AliasExists(name)).world, name, RealName(name))
  {
    var c := CreateIndexRun(src, w, RealName(name), docType);
    CreateIndexReliable(src, w, RealName(name), docType, body, name);
    ExistsReliable(c.world, name);
  }

  lemma EnsureWithAliasSteps(w: World, c: World, a: World, b: World, name: string, body: Json)
    requires Consistent(w.state)
    requires name in w.state.aliases && RealName(name) !in w.state.aliases
    requires w.log <= c.log && Sent(w, c) == CreateRequests(w.state, RealName(name), body)
    requires c.state == Created(w.state, RealName(name), body) && Serving(w, c, name)
    requires Answered(c, a, AliasExists(name))
    requires Answered(a, b, PutAlias(name, RealName(name)))
    ensures var target := RealName(name);
      && w.log <= b.log
      && Sent(w, b) == AliasSetupRequests(w.state, name, body)
      && b.state.indices == Created(w.state, target, body).indices
      && Bound(b.state, name) == Bound(w.state, name) + {target}
      && (forall x :: x != name ==> Bound(b.state, x) == Bound(w.state, x))
      && Serving(w, b, name)
  {
    var target := RealName(name);
    AnsweredStep(c, a, AliasExists(name), name);
    AnsweredStep(a, b, PutAlias(name, target), name);
    ThreeSteps(w, c, a, b, name);
  }

  /**
   * An index that holds the name and no alias of it: after real(name) is
   * created, the index is converted, so the name ends up an alias of
   * real(name) alone, which holds the documents of both.
   */
  lemma EnsureWithIndex(src: MappingSource, w: World, name: string, docType: string, body: Json)
    requires Reliable(w) && Consistent(w.state)
    requires name in w.state.indices && RealName(name) !in w.state.aliases
    requires RealName(name) !in w.state.indices ==> MappingFile(src, w.version, docType) == Some(JsonFile(body))
    ensures var out := EnsureRun(src, w, name, docType);
      && out.result == Success(())
      && w.log <= out.world.log
      && Sent(w, out.world) == CreateRequests(w.state, RealName(name), body) + [Ping, AliasExists(name), Ping, IndexExists(name)]
           + ConvertRequests(Created(w.state, RealName(name), body), name, body)
      && Converted(w.state, out.world.state, name, body)
  {
    var target := RealName(name);
    NamesDistinct(name);
    var c := CreateIndexRun(src, w, target, docType);
    CreateIndexReliable(src, w, target, docType, body, name);
    var a := Rpc(c.world, AliasExists(name));
    RpcAnswered(c.world, AliasExists(name));
    var i := Rpc(a.world, IndexExists(name));
    RpcAnswered(a.world, IndexExists(name));
    EnsureWithIndexShape(src, w, name, docType, body);
    ConvertReliable(src, i.world, name, docType, body);
    var v := ConvertRun(src, i.world, name, docType);
    EnsureWithIndexSteps(w, c.world, a.world, i.world, v.world, name, body);
  }

  lemma EnsureWithIndexShape(src: MappingSource, w: World, name: string, docType: string, body: Json)
    requires Reliable(w) && Consistent(w.state)
    requires name in w.state.indices && RealName(name) !in w.state.aliases
    requires RealName(name) !in w.state.indices ==> MappingFile(src, w.version, docType) == Some(JsonFile(body))
    ensures var c := CreateIndexRun(src, w, RealName(name), docType);
      var i := Rpc(Rpc(c.world, AliasExists(name)).world, IndexExists(name));
      EnsureRun(src, w, name, docType) == ConvertRun(src, i.world, name, docType)
  {
    var c := CreateIndexRun(src, w, RealName(name), docType);
    NamesDistinct(name);
    CreateIndexReliable(src, w, RealName(name), docType, body, name);
    var a := Rpc(c.world, AliasExists(name));
    RpcAnswered(c.world, AliasExists(name));
    RpcAnswered(a.world, IndexExists(name));
  }

  lemma EnsureWithIndexSteps(w: World, c: World, a: World, i: World, v: World, name: string, body: Json)
    requires name != RealName(name) && name in w.state.indices
    requires w.log <= c.log && Sent(w, c) == CreateRequests(w.state, RealName(name), body)
    requires c.state == Created(w.state, RealName(name), body)
    requires Answered(c, a, AliasExists(name)) && Answered(a, i, IndexExists(name))
    requires i.log <= v.log && Sent(i, v) == ConvertRequests(i.state, name, body)
    requires Converted(i.state, v.state, name, body)
    ensures w.log <= v.log
    ensures Sent(w, v) == CreateRequests(w.state, RealName(name), body) + [Ping, AliasExists(name), Ping, IndexExists(name)]
      + ConvertRequests(Created(w.state, RealName(name), body), name, body)
    ensures Converted(w.state, v.state, name, body)
  {
    SentIs(c, i, [Ping, AliasExists(name), Ping, IndexExists(name)]);
    SentTrans(w, c, i);
    SentTrans(w, i, v);
    ConvertedAfterCreate(w.state, i.state, v.state, name, body);
  }

  /** A conversion after real(name) was created is, against the store before, the same conversion. */
  lemma ConvertedAfterCreate(s0: Snapshot, s1: Snapshot, t: Snapshot, name: string, body: Json)
    requires name != RealName(name) && name in s0.indices
    requires s1 == Created(s0, RealName(name), body)
    requires Converted(s1, t, name, body)
    ensures Converted(s0, t, name, body)
  {
    assert Created(s1, RealName(name), body) == s1;
  }

  /** Neither an alias nor an index holds the name: real(name) is created and nothing is bound. */
  lemma EnsureWithNeither(src: MappingSource, w: World, name: string, docType: string, body: Json)
    requires Reliable(w)
    requires name !in w.state.indices && name !in w.state.aliases && RealName(name) !in w.state.aliases
    requires RealName(name) !in w.state.indices ==> MappingFile(src, w.version, docType) == Some(JsonFile(body))
    ensures var out := EnsureRun(src, w, name, docType);
      && out.result == Success(())
      && w.log <= out.world.log
      && Sent(w, out.world) == CreateRequests(w.state, RealName(name), body) + [Ping, AliasExists(name), Ping, IndexExists(name)]
      && out.world.state == Created(w.state, RealName(name), body)
      && name !in out.world.state.aliases
  {
    var c := CreateIndexRun(src, w, RealName(name), docType);
    CreateIndexReliable(src, w, RealName(name), docType, body, name);
    var a := Rpc(c.world, AliasExists(name));
    RpcAnswered(c.world, AliasExists(name));
    var i := Rpc(a.world, IndexExists(name));
    RpcAnswered(a.world, IndexExists(name));
    EnsureWithNeitherShape(src, w, name, docType, body);
    SentIs(c.world, i.world, [Ping, AliasExists(name), Ping, IndexExists(name)]);
    SentTrans(w, c.world, i.world);
  }

  lemma EnsureWithNeitherShape(src: MappingSource, w: World, name: string, docType: string, body: Json)
    requires Reliable(w)
    requires name !in w.state.indices && name !in w.state.aliases && RealName(name) !in w.state.aliases
    requires RealName(name) !in w.state.indices ==> MappingFile(src, w.version, docType) == Some(JsonFile(body))
    ensures var c := CreateIndexRun(src, w, RealName(name), docType);
      var i := Rpc(Rpc(c.world, AliasExists(name)).world, IndexExists(name));
      EnsureRun(src, w, name, docType) == Run(i.world, Success(()))
  {
    var c := CreateIndexRun(src, w, RealName(name), docType);
    NamesDistinct(name);
    CreateIndexReliable(src, w, RealName(name), docType, body, name);
    var a := Rpc(c.world, AliasExists(name));
    RpcAnswered(c.world, AliasExists(name));
    RpcAnswered(a.world, IndexExists(name));
  }

  /** The requests of `_convertIndexToAlias`: createIndex(real(index)), the copy, deleteIndex(index), the binding. */
  function ConvertRequests(s: Snapshot, index: string, body: Json): seq<Request> {
    var target := RealName(index);
    CreateRequests(s, target, body) + [Ping, Reindex(index, target, true), Ping, IndexExists(index), Ping, DeleteIndex(index), Ping, PutAlias(index, target)]
  }

  /**
   * The store after an index was converted into an alias of the same name:
   * the index is gone, real(index) (created if it was missing) holds its
   * documents over its own, the name is bound to real(index) alone, other
   * indices are untouched and other aliases only lose the deleted index.
   */
  ghost predicate Converted(s0: Snapshot, t: Snapshot, index: string, body: Json) {
    var target := RealName(index);
    var s1 := Created(s0, target, body);
    && index !in t.indices
    && target in t.indices && target in s1.indices
    && t.indices[target] == s1.indices[target].(docs := Docs(s1, target) + Docs(s0, index))
    && (forall m :: m != index && m != target ==> (m in t.indices <==> m in s0.indices))
    && (forall m :: m != index && m != target && m in s0.indices ==> t.indices[m] == s0.indices[m])
    && Bound(t, index) == {target}
    && (forall a :: a != index ==> Bound(t, a) == Bound(s0, a) - {index})
  }

  /** An index whose name becomes an alias: its documents move into real(index), it is deleted, and its name is bound to real(index). */
  lemma ConvertReliable(src: MappingSource, w: World, index: string, docType: string, body: Json)
    requires Reliable(w) && Consistent(w.state)
    requires index in w.state.indices && RealName(index) !in w.state.aliases
    requires RealName(index) !in w.state.indices ==> MappingFile(src, w.version, docType) == Some(JsonFile(body))
    ensures var out := ConvertRun(src, w, index, docType);
      && out.result == Success(())
      && w.log <= out.world.log && Sent(w, out.world) == ConvertRequests(w.state, index, body)
      && Converted(w.state, out.world.state, index, body)
  {
    var target := RealName(index);
    NamesDistinct(index);
    var c := CreateIndexRun(src, w, target, docType);
    CreateIndexReliable(src, w, target, docType, body, index);
    var r := Rpc(c.world, Reindex(index, target, true));
    RpcAnswered(c.world, Reindex(index, target, true));
    var d := DeleteIndexRun(r.world, index);
    DeleteIndexReliable(r.world, index, index);
    var b := Rpc(d.world, PutAlias(index, target));
    RpcAnswered(d.world, PutAlias(index, target));
    ConvertShape(src, w, index, docType, body);
    ConvertSent(w, c.world, r.world, d.world, b.world, index, body);
    ConvertState(w.state, c.world, r.world, d.world, b.world, index, body);
  }

  lemma ConvertShape(src: MappingSource, w: World, index: string, docType: string, body: Json)
    requires Reliable(w) && Consistent(w.state)
    requires index in w.state.indices && RealName(index) !in w.state.aliases
    requires RealName(index) !in w.state.indices ==> MappingFile(src, w.version, docType) == Some(JsonFile(body))
    ensures var target := RealName(index);
      var c := CreateIndexRun(src, w, target, docType);
      var r := Rpc(c.world, Reindex(index, target, true));
      var d := DeleteIndexRun(r.world, index);
      ConvertRun(src, w, index, docType) == Command(d.world, PutAlias(index, target))
  {
    var target := RealName(index);
    NamesDistinct(index);
    var c := CreateIndexRun(src, w, target, docType);
    CreateIndexReliable(src, w, target, docType, body, index);
    var r := Rpc(c.world, Reindex(index, target, true));
    RpcAnswered(c.world, Reindex(index, target, true));
    DeleteIndexReliable(r.world, index, index);
  }

  lemma ConvertSent(w: World, c: World, r: World, d: World, b: World, index: string, body: Json)
    requires index in w.state.indices
    requires w.log <= c.log && Sent(w, c) == CreateRequests(w.state, RealName(index), body)
    requires r.log == c.log + [Ping, Reindex(index, RealName(index), true)]
    requires r.log <= d.log && Sent(r, d) == [Ping, IndexExists(index), Ping, DeleteIndex(index)]
    requires b.log == d.log + [Ping, PutAlias(index, RealName(index))]
    ensures w.log <= b.log && Sent(w, b) == ConvertRequests(w.state, index, body)
  {
    SentIs(c, r, [Ping, Reindex(index, RealName(index), true)]);
    SentIs(d, b, [Ping, PutAlias(index, RealName(index))]);
    SentTrans(w, c, r);
    SentTrans(w, r, d);
    SentTrans(w, d, b);
  }

  lemma ConvertState(s0: Snapshot, c: World, r: World, d: World, b: World, index: string, body: Json)
    requires Consistent(s0)
    requires index in s0.indices && RealName(index) !in s0.aliases && index != RealName(index)
    requires c.state == Created(s0, RealName(index), body)
    requires r.state == After(c.state, Reindex(index, RealName(index), true))
    requires d.state == After(r.state, DeleteIndex(index))
    requires b.state == After(d.state, PutAlias(index, RealName(index)))
    ensures Accepts(d.state, PutAlias(index, RealName(index)))
    ensures Converted(s0, b.state, index, body)
  {
    var target := RealName(index);
    var s1 := c.state;
    var s2 := r.state;
    ConvertReindexed(s0, s1, s2, index, body);
    ConvertRebound(s2, d.state, b.state, index);
  }

  /** Creating real(index) and copying the documents into it: only real(index) changes, and no binding. */
  lemma ConvertReindexed(s0: Snapshot, s1: Snapshot, s2: Snapshot, index: string, body: Json)
    requires index in s0.indices && RealName(index) !in s0.aliases && index != RealName(index)
    requires s1 == Created(s0, RealName(index), body)
    requires s2 == After(s1, Reindex(index, RealName(index), true))
    ensures var target := RealName(index);
      && s2.aliases == s0.aliases && index in s2.indices && target in s2.indices
      && s2.indices[target] == s1.indices[target].(docs := Docs(s1, target) + Docs(s0, index))
      && (forall m :: m != target ==> (m in s2.indices <==> m in s0.indices))
      && (forall m :: m != target && m in s0.indices ==> s2.indices[m] == s0.indices[m])
  {
  }

  /** Deleting the index and binding its name to real(index). */
  lemma ConvertRebound(s2: Snapshot, s3: Snapshot, t: Snapshot, index: string)
    requires index in s2.indices && RealName(index) in s2.indices && index != RealName(index)
    requires index !in s2.aliases
    requires s3 == After(s2, DeleteIndex(index))
    requires t == After(s3, PutAlias(index, RealName(index)))
    ensures Accepts(s3, PutAlias(index, RealName(index)))
    ensures var target := RealName(index);
      && index !in t.indices && target in t.indices && t.indices[target] == s2.indices[target]
      && (forall m :: m != index ==> (m in t.indices <==> m in s2.indices))
      && (forall m :: m != index && m in s2.indices ==> t.indices[m] == s2.indices[m])
      && Bound(t, index) == {RealName(index)}
      && (forall a :: a != index ==> Bound(t, a) == Bound(s2, a) - {index})
  {
    DeleteUnbinds(s2, index);
    assert Bound(s3, index) == {};
  }

  // ---------------------------------------------------------------------
  // The rebuild that ends reconfigure and reindexAll

  /** The alias switch from one index to another, as the one request it is. */
  function Switch(alias: string, source: string, dest: string): Request {
    UpdateAliases(SwitchActions(alias, source, dest))
  }

  /**
   * The requests of the rebuild: the switch to tmp comes before the delete of
   * real(name), then real(name) is created anew, tmp is copied into it, and
   * the alias switches back.
   */
  function RebuildRequests(name: string, body: Json): seq<Request> {
    var target := RealName(name);
    var tmp := TmpName(name);
    [Ping, Switch(name, target, tmp)]
      + [Ping, IndexExists(target), Ping, DeleteIndex(target)]
      + [Ping, IndexExists(target), Ping, Info, Ping, CreateIndex(target, body)]
      + [Ping, Reindex(tmp, target, true)]
      + [Ping, Switch(name, tmp, target)]
  }

  /** Where the rebuild starts: the alias is bound to real(name) and not to tmp, and both indices exist. */
  ghost predicate Rebuildable(s: Snapshot, name: string) {
    && Consistent(s)
    && RealName(name) in s.indices && TmpName(name) in s.indices
    && RealName(name) in Bound(s, name) && TmpName(name) !in Bound(s, name)
  }

  /**
   * The store the rebuild leaves: real(name) is a new index with the current
   * mapping holding tmp's documents, the alias has its bindings back, and
   * every other alias has lost real(name), which was deleted under it.
   */
  ghost predicate Rebuilt(s0: Snapshot, t: Snapshot, name: string, body: Json) {
    && t.indices == s0.indices[RealName(name) := SearchEngine.Index(body, Docs(s0, TmpName(name)))]
    && Bound(t, name) == Bound(s0, name)
    && forall a :: a != name ==> Bound(t, a) == Bound(s0, a) - {RealName(name)}
  }

  /** The first half of the rebuild, on the store: switch to tmp, delete real(name). */
  lemma RebuildFirstHalf(s0: Snapshot, name: string)
    requires Rebuildable(s0, name)
    ensures var target := RealName(name);
      var tmp := TmpName(name);
      var s1 := After(s0, Switch(name, target, tmp));
      var s2 := After(s1, DeleteIndex(target));
      && Accepts(s0, Switch(name, target, tmp)) && Accepts(s1, DeleteIndex(target))
      && name in s1.aliases && name in s2.aliases
      && target !in s2.indices && target !in s2.aliases
      && s2.indices == s0.indices - {target}
      && Bound(s2, name) == (Bound(s0, name) + {tmp}) - {target}
      && forall a :: a != name ==> Bound(s2, a) == Bound(s0, a) - {target}
  {
    var target := RealName(name);
    var tmp := TmpName(name);
    NamesDistinct(name);
    AddThenRemove(s0, name, target, tmp);
    var s1 := After(s0, Switch(name, target, tmp));
    StepConsistent(s0, Switch(name, target, tmp), false);
    assert tmp in Bound(s1, name);
    assert Bound(s1, target) == {};
    DeleteUnbinds(s1, target);
    var s2 := After(s1, DeleteIndex(target));
    StepConsistent(s1, DeleteIndex(target), false);
    assert tmp in Bound(s2, name);
    assert Bound(s2, target) == {};
  }

  /** The second half, on the store: create real(name), copy tmp into it, switch back. */
  lemma RebuildSecondHalf(s0: Snapshot, s2: Snapshot, name: string, body: Json)
    requires Rebuildable(s0, name)
    requires var target := RealName(name);
      && target !in s2.indices
      && s2.indices == s0.indices - {target}
      && Bound(s2, name) == (Bound(s0, name) + {TmpName(name)}) - {target}
      && forall a :: a != name ==> Bound(s2, a) == Bound(s0, a) - {target}
    ensures var target := RealName(name);
      var tmp := TmpName(name);
      var s3 := Created(s2, target, body);
      var s4 := After(s3, Reindex(tmp, target, true));
      var s5 := After(s4, Switch(name, tmp, target));
      && Accepts(s3, Reindex(tmp, target, true)) && Accepts(s4, Switch(name, tmp, target))
      && name in s3.aliases && name in s4.aliases && name in s5.aliases
      && Rebuilt(s0, s5, name, body)
  {
    var target := RealName(name);
    var tmp := TmpName(name);
    NamesDistinct(name);
    var s3 := Created(s2, target, body);
    assert Docs(s3, tmp) == Docs(s0, tmp);
    assert map[] + Docs(s3, tmp) == Docs(s3, tmp);
    var s4 := After(s3, Reindex(tmp, target, true));
    assert s4.indices[target] == SearchEngine.Index(body, Docs(s0, tmp));
    assert s4.indices == s0.indices[target := SearchEngine.Index(body, Docs(s0, tmp))];
    assert s4.aliases == s2.aliases;
    assert name !in s0.indices;
    AddThenRemove(s4, name, tmp, target);
  }

  lemma RebuildShape(src: MappingSource, w: World, name: string, docType: string, body: Json)
    requires Reliable(w) && Rebuildable(w.state, name)
    requires MappingFile(src, w.version, docType) == Some(JsonFile(body))
    ensures var target := RealName(name);
      var tmp := TmpName(name);
      var s := Rpc(w, Switch(name, target, tmp));
      var c := CreateIndexRun(src, DeleteIndexRun(s.world, target).world, target, docType);
      var r := Rpc(c.world, Reindex(tmp, target, true));
      RebuildRun(src, w, name, docType) == Command(r.world, Switch(name, tmp, target))
  {
    var target := RealName(name);
    var tmp := TmpName(name);
    RebuildFirstHalf(w.state, name);
    var s := Rpc(w, Switch(name, target, tmp));
    RpcAnswered(w, Switch(name, target, tmp));
    var d := DeleteIndexRun(s.world, target);
    DeleteIndexReliable(s.world, target, name);
    RebuildSecondHalf(w.state, d.world.state, name, body);
    var c := CreateIndexRun(src, d.world, target, docType);
    CreateIndexReliable(src, d.world, target, docType, body, name);
    RpcAnswered(c.world, Reindex(tmp, target, true));
  }

  /**
   * The rebuild on a reliable engine: exactly its sixteen requests (eight
   * calls, each after a ping), the store `Rebuilt` describes, and the alias
   * served from the first store to the last.
   */
  lemma RebuildReliable(src: MappingSource, w: World, name: string, docType: string, body: Json)
    requires Reliable(w) && Rebuildable(w.state, name)
    requires MappingFile(src, w.version, docType) == Some(JsonFile(body))
    ensures var out := RebuildRun(src, w, name, docType);
      && out.result == Success(())
      && w.log <= out.world.log && Sent(w, out.world) == RebuildRequests(name, body)
      && Rebuilt(w.state, out.world.state, name, body)
      && Serving(w, out.world, name)
  {
    var target := RealName(name);
    var tmp := TmpName(name);
    RebuildShape(src, w, name, docType, body);
    RebuildFirstHalf(w.state, name);
    var s := Rpc(w, Switch(name, target, tmp));
    RpcAnswered(w, Switch(name, target, tmp));
    var d := DeleteIndexRun(s.world, target);
    DeleteIndexReliable(s.world, target, name);
    RebuildSecondHalf(w.state, d.world.state, name, body);
    var c := CreateIndexRun(src, d.world, target, docType);
    CreateIndexReliable(src, d.world, target, docType, body, name);
    var r := Rpc(c.world, Reindex(tmp, target, true));
    RpcAnswered(c.world, Reindex(tmp, target, true));
    var b := Rpc(r.world, Switch(name, tmp, target));
    RpcAnswered(r.world, Switch(name, tmp, target));
    RebuildSteps(w, s.world, d.world, c.world, r.world, b.world, name, body);
  }

  lemma RebuildSteps(w: World, s: World, d: World, c: World, r: World, b: World, name: string, body: Json)
    requires Answered(w, s, Switch(name, RealName(name), TmpName(name)))
    requires s.log <= d.log && Sent(s, d) == [Ping, IndexExists(RealName(name)), Ping, DeleteIndex(RealName(name))]
    requires d.log <= c.log && Sent(d, c) == [Ping, IndexExists(RealName(name)), Ping, Info, Ping, CreateIndex(RealName(name), body)]
    requires Answered(c, r, Reindex(TmpName(name), RealName(name), true))
    requires Answered(r, b, Switch(name, TmpName(name), RealName(name)))
    requires name in w.state.aliases && name in s.state.aliases && name in c.state.aliases
      && name in r.state.aliases && name in b.state.aliases
    requires Serving(s, d, name) && Serving(d, c, name)
    ensures w.log <= b.log && Sent(w, b) == RebuildRequests(name, body)
    ensures Serving(w, b, name)
  {
    AnsweredStep(w, s, Switch(name, RealName(name), TmpName(name)), name);
    AnsweredStep(c, r, Reindex(TmpName(name), RealName(name), true), name);
    AnsweredStep(r, b, Switch(name, TmpName(name), RealName(name)), name);
    ThreeSteps(w, s, d, c, name);
    ThreeSteps(c, r, b, b, name);
    ServingTrans(w, c, b, name);
    SentTrans(w, c, b);
  }

  // ---------------------------------------------------------------------
  // The finally cleanup

  /** On a reliable engine the cleanup deletes tmp, the main result stands, and an alias not bound to tmp alone is served throughout. */
  lemma CleanupReliable(main: Run<()>, tmp: string, alias: string)
    requires Reliable(main.world)
    ensures var out := Finally(main, tmp);
      && out.result == main.result
      && main.world.log <= out.world.log && Sent(main.world, out.world) == DeleteRequests(main.world.state, tmp)
      && out.world.state == After(main.world.state, DeleteIndex(tmp))
      && tmp !in out.world.state.indices
      && (alias in main.world.state.aliases && alias in After(main.world.state, DeleteIndex(tmp)).aliases ==> Serving(main.world, out.world, alias))
  {
    DeleteIndexReliable(main.world, tmp, alias);
  }

  /**
   * Whatever the engine refuses, the cleanup is attempted (its ping is sent),
   * it sends nothing but the existence check and the delete of tmp, and a
   * successful main result is replaced only by the failure of one of those requests.
   */
  lemma CleanupAnyFaults(main: Run<()>, tmp: string)
    ensures var out := Finally(main, tmp);
      && main.world.log <= out.world.log
      && Sent(main.world, out.world) != [] && Sent(main.world, out.world)[0] == Ping
      && Sent(main.world, out.world) <= [Ping, IndexExists(tmp), Ping, DeleteIndex(tmp)]
      && (out.result.Success? ==> main.result.Success?)
      && (out.result != main.result ==>
            out.result in {Failure(RequestFailed(Ping)), Failure(RequestFailed(IndexExists(tmp))), Failure(RequestFailed(DeleteIndex(tmp)))})
  {
    var w := main.world;
    var e := Rpc(w, IndexExists(tmp));
    RpcAnyFaults(w, IndexExists(tmp));
    if e.result.Success? && e.result.value.found {
      var d := Rpc(e.world, DeleteIndex(tmp));
      RpcAnyFaults(e.world, DeleteIndex(tmp));
      SentTrans(w, e.world, d.world);
      assert [Ping, IndexExists(tmp)] + Sent(e.world, d.world) <= [Ping, IndexExists(tmp), Ping, DeleteIndex(tmp)];
    }
  }

  /** When the engine refuses the cleanup's first ping, tmp survives the workflow and the refusal is the result. */
  lemma CleanupRefused(main: Run<()>, tmp: string)
    requires |main.world.log| in main.world.faults
    ensures var out := Finally(main, tmp);
      && out.result == Failure(RequestFailed(Ping))
      && out.world.state == main.world.state
  {
  }

  /**
   * A failure inside the rebuild, after the alias was switched to tmp alone:
   * if the ping before the delete of real(name) is refused, the rebuild stops,
   * the cleanup deletes tmp and with it the alias's last binding. The
   * workflow rejects, real(name) still exists with its documents, and the alias no
   * longer exists.
   */
  lemma RebuildInterrupted(src: MappingSource, w: World, name: string, docType: string)
    requires Rebuildable(w.state, name) && Bound(w.state, name) == {RealName(name)}
    requires w.faults == {|w.log| + 2}
    ensures var out := Finally(RebuildRun(src, w, name, docType), TmpName(name));
      && out.result == Failure(RequestFailed(Ping))
      && name !in out.world.state.aliases
      && RealName(name) in out.world.state.indices
      && out.world.state.indices[RealName(name)] == w.state.indices[RealName(name)]
      && TmpName(name) !in out.world.state.indices
  {
    var target := RealName(name);
    var tmp := TmpName(name);
    InterruptedState(w.state, name);
    var s := Rpc(w, Switch(name, target, tmp));
    assert s.world.log == w.log + [Ping, Switch(name, target, tmp)];
    assert s.world.state == After(w.state, Switch(name, target, tmp));
    var d := DeleteIndexRun(s.world, target);
    assert d.result == Failure(RequestFailed(Ping)) && d.world.state == s.world.state;
    assert RebuildRun(src, w, name, docType) == d;
    CleanupReliable(d, tmp, name);
  }

  /**
   * The data-loss case: if the ping before the recreation of real(name) is
   * refused, real(name) has already been deleted, the rebuild stops, and the
   * cleanup deletes tmp. The workflow rejects, and neither index nor the alias
   * is left: every document the alias served is gone.
   */
  lemma RebuildLosesReal(src: MappingSource, w: World, name: string, docType: string)
    requires Rebuildable(w.state, name) && Bound(w.state, name) == {RealName(name)}
    requires w.faults == {|w.log| + 6}
    ensures var out := Finally(RebuildRun(src, w, name, docType), TmpName(name));
      && out.result == Failure(RequestFailed(Ping))
      && name !in out.world.state.aliases
      && RealName(name) !in out.world.state.indices
      && TmpName(name) !in out.world.state.indices
  {
    var target := RealName(name);
    var tmp := TmpName(name);
    InterruptedState(w.state, name);
    var s := Rpc(w, Switch(name, target, tmp));
    assert s.world.log == w.log + [Ping, Switch(name, target, tmp)];
    var s1 := After(w.state, Switch(name, target, tmp));
    assert s.world.state == s1;
    var e := Rpc(s.world, IndexExists(target));
    assert e.world.log == s.world.log + [Ping, IndexExists(target)] && e.world.state == s1;
    var d := DeleteIndexRun(s.world, target);
    assert d.world.log == e.world.log + [Ping, DeleteIndex(target)];
    var s2 := After(s1, DeleteIndex(target));
    assert d.result == Success(()) && d.world.state == s2;
    var c := CreateIndexRun(src, d.world, target, docType);
    assert |d.world.log| == |w.log| + 6;
    assert c.result == Failure(RequestFailed(Ping)) && c.world.state == s2;
    assert RebuildRun(src, w, name, docType) == c;
    DeleteUnbinds(s1, target);
    assert Bound(s2, name) == {tmp} && tmp in s2.indices;
    DeleteUnbinds(s2, tmp);
    assert Bound(After(s2, DeleteIndex(tmp)), name) == {};
    CleanupReliable(c, tmp, name);
  }

  /** The stores of an interrupted rebuild: after the switch the alias holds tmp alone, so deleting tmp removes the alias. */
  lemma InterruptedState(s0: Snapshot, name: string)
    requires Rebuildable(s0, name) && Bound(s0, name) == {RealName(name)}
    ensures var target := RealName(name);
      var tmp := TmpName(name);
      var s1 := After(s0, Switch(name, target, tmp));
      var t := After(s1, DeleteIndex(tmp));
      && Accepts(s0, Switch(name, target, tmp))
      && Bound(s1, name) == {tmp} && s1.indices == s0.indices
      && Accepts(s1, DeleteIndex(tmp))
      && name !in t.aliases
      && target in t.indices && t.indices[target] == s0.indices[target]
      && tmp !in t.indices
  {
    var target := RealName(name);
    var tmp := TmpName(name);
    NamesDistinct(name);
    AddThenRemove(s0, name, target, tmp);
    var s1 := After(s0, Switch(name, target, tmp));
    assert Bound(s1, name) == {tmp};
    DeleteUnbinds(s1, tmp);
    assert Bound(After(s1, DeleteIndex(tmp)), name) == {};
  }

  // ---------------------------------------------------------------------
  // reconfigure

  /** The store once the alias is set up: it is bound to real(name), and tmp is neither an index nor an alias. */
  ghost predicate Steady(s: Snapshot, name: string) {
    && Consistent(s)
    && RealName(name) in s.indices && RealName(name) in Bound(s, name)
    && TmpName(name) !in s.indices && TmpName(name) !in s.aliases
  }

  /** The requests of `reconfigure` after ensureIndexIsConfiguredProperly: tmp created and filled from real(name), the rebuild, the cleanup. */
  function ReconfigureTail(name: string, body: Json): seq<Request> {
    var target := RealName(name);
    var tmp := TmpName(name);
    [Ping, IndexExists(tmp), Ping, Info, Ping, CreateIndex(tmp, body), Ping, Reindex(target, tmp, true)]
      + RebuildRequests(name, body)
      + [Ping, IndexExists(tmp), Ping, DeleteIndex(tmp)]
  }

  /**
   * The store `reconfigure` and `reindexAll` leave: real(name) recreated with
   * the current mapping and holding `docs`, tmp gone, the alias bound as
   * before, other aliases without real(name).
   */
  ghost predicate Refreshed(s: Snapshot, t: Snapshot, name: string, body: Json, docs: map<string, Json>) {
    && t.indices == s.indices[RealName(name) := SearchEngine.Index(body, docs)]
    && Bound(t, name) == Bound(s, name)
    && forall a :: a != name ==> Bound(t, a) == Bound(s, a) - {RealName(name)}
  }

  /**
   * `reconfigure` once ensureIndexIsConfiguredProperly has resolved with the
   * alias set up: on a reliable engine it resolves, sends exactly
   * `ReconfigureTail`, leaves the store `Refreshed` describes with real(name)'s own documents and serves
   * the alias in every store along the way.
   */
  lemma ReconfigureAfterEnsure(src: MappingSource, e: Run<()>, name: string, docType: string, body: Json)
    requires Reliable(e.world) && e.result.Success? && Steady(e.world.state, name)
    requires MappingFile(src, e.world.version, docType) == Some(JsonFile(body))
    ensures var out := ReconfigureFrom(src, e, name, docType);
      && out.result == Success(())
      && e.world.log <= out.world.log && Sent(e.world, out.world) == ReconfigureTail(name, body)
      && Refreshed(e.world.state, out.world.state, name, body, Docs(e.world.state, RealName(name)))
      && Serving(e.world, out.world, name)
  {
    var target := RealName(name);
    var tmp := TmpName(name);
    var w := e.world;
    var p := CreateIndexRun(src, w, tmp, docType);
    CreateIndexReliable(src, w, tmp, docType, body, name);
    ReliableLater(w, p.world);
    var c := Rpc(p.world, Reindex(target, tmp, true));
    RpcAnswered(p.world, Reindex(target, tmp, true));
    ReconfigureFill(w.state, p.world.state, c.world.state, name, body);
    ReliableLater(w, c.world);
    var rb := RebuildRun(src, c.world, name, docType);
    RebuildReliable(src, c.world, name, docType, body);
    ReliableLater(w, rb.world);
    CleanupReliable(rb, tmp, name);
    ReconfigureShape(src, e, name, docType, body);
    ReconfigureSteps(w, p.world, c.world, rb.world, Finally(rb, tmp).world, name, body);
  }

  lemma ReconfigureSteps(w: World, p: World, c: World, rb: World, out: World, name: string, body: Json)
    requires Steady(w.state, name)
    requires w.log <= p.log && Sent(w, p) == CreateRequests(w.state, TmpName(name), body)
    requires p.state == Created(w.state, TmpName(name), body) && Serving(w, p, name)
    requires Answered(p, c, Reindex(RealName(name), TmpName(name), true))
    requires c.log <= rb.log && Sent(c, rb) == RebuildRequests(name, body)
    requires Rebuilt(c.state, rb.state, name, body) && Serving(c, rb, name)
    requires rb.log <= out.log && Sent(rb, out) == DeleteRequests(rb.state, TmpName(name))
    requires out.state == After(rb.state, DeleteIndex(TmpName(name)))
    requires name in rb.state.aliases && name in out.state.aliases ==> Serving(rb, out, name)
    ensures w.log <= out.log && Sent(w, out) == ReconfigureTail(name, body)
    ensures Refreshed(w.state, out.state, name, body, Docs(w.state, RealName(name)))
    ensures Serving(w, out, name)
  {
    var target := RealName(name);
    var tmp := TmpName(name);
    ReconfigureFill(w.state, p.state, c.state, name, body);
    RebuildCleaned(w.state, c.state, rb.state, out.state, name, body, Docs(w.state, RealName(name)));
    AnsweredStep(p, c, Reindex(target, tmp, true), name);
    ThreeSteps(w, p, c, rb, name);
    SentTrans(w, rb, out);
    ServingTrans(w, rb, out, name);
  }

  /** A later world of a reliable engine is reliable. */
  lemma ReliableLater(w: World, w': World)
    requires Reliable(w) && Extends(w, w')
    ensures Reliable(w')
  {
  }

  lemma ReconfigureShape(src: MappingSource, e: Run<()>, name: string, docType: string, body: Json)
    requires Reliable(e.world) && e.result.Success? && Steady(e.world.state, name)
    requires MappingFile(src, e.world.version, docType) == Some(JsonFile(body))
    ensures var p := CreateIndexRun(src, e.world, TmpName(name), docType);
      var c := Rpc(p.world, Reindex(RealName(name), TmpName(name), true));
      ReconfigureFrom(src, e, name, docType) == Finally(RebuildRun(src, c.world, name, docType), TmpName(name))
  {
    var p := CreateIndexRun(src, e.world, TmpName(name), docType);
    CreateIndexReliable(src, e.world, TmpName(name), docType, body, name);
    ReliableLater(e.world, p.world);
    RpcAnswered(p.world, Reindex(RealName(name), TmpName(name), true));
    NamesDistinct(name);
  }

  /** tmp created and filled from real(name): the rebuild can start. */
  lemma ReconfigureFill(s: Snapshot, p: Snapshot, c: Snapshot, name: string, body: Json)
    requires Steady(s, name)
    requires p == Created(s, TmpName(name), body)
    requires c == After(p, Reindex(RealName(name), TmpName(name), true))
    ensures Accepts(p, Reindex(RealName(name), TmpName(name), true))
    ensures Rebuildable(c, name)
    ensures c.indices == s.indices[TmpName(name) := SearchEngine.Index(body, Docs(s, RealName(name)))]
    ensures c.aliases == s.aliases
  {
    NamesDistinct(name);
    assert Docs(p, TmpName(name)) == map[];
    assert map[] + Docs(s, RealName(name)) == Docs(s, RealName(name));
    assert TmpName(name) !in Bound(s, name);
  }

  /** After the rebuild and the cleanup, against the store ensureIndexIsConfiguredProperly left. */
  lemma RebuildCleaned(s: Snapshot, c: Snapshot, r: Snapshot, t: Snapshot, name: string, body: Json, docs: map<string, Json>)
    requires Steady(s, name)
    requires c.indices == s.indices[TmpName(name) := SearchEngine.Index(body, docs)]
    requires c.aliases == s.aliases
    requires Rebuilt(c, r, name, body)
    requires t == After(r, DeleteIndex(TmpName(name)))
    ensures Refreshed(s, t, name, body, docs)
    ensures name in r.aliases && name in t.aliases && TmpName(name) in r.indices
  {
    var target := RealName(name);
    var tmp := TmpName(name);
    NamesDistinct(name);
    assert Docs(c, tmp) == docs;
    assert tmp in r.indices;
    DeleteUnbinds(r, tmp);
    assert forall a :: tmp !in Bound(s, a);
    assert target in Bound(r, name);
  }

  /**
   * `reconfigure` of an existing alias on a reliable engine, when real(name)
   * is no alias and tmp is free: it resolves; it sends the setup requests (create
   * real(name) if needed, bind the alias to it) and then `ReconfigureTail`;
   * real(name) ends with the current mapping and every document it had; the
   * alias is bound as before plus real(name); other aliases lose real(name);
   * and the alias exists in every store the engine passes through.
   */
  lemma ReconfigureReliable(src: MappingSource, w: World, name: string, docType: string, body: Json)
    requires Reliable(w) && Consistent(w.state)
    requires name in w.state.aliases && RealName(name) !in w.state.aliases
    requires TmpName(name) !in w.state.indices && TmpName(name) !in w.state.aliases
    requires MappingFile(src, w.version, docType) == Some(JsonFile(body))
    ensures var out := ReconfigureRun(src, w, name, docType);
      var target := RealName(name);
      && out.result == Success(())
      && w.log <= out.world.log
      && Sent(w, out.world) == AliasSetupRequests(w.state, name, body) + ReconfigureTail(name, body)
      && out.world.state.indices == w.state.indices[target := SearchEngine.Index(body, Docs(w.state, target))]
      && Bound(out.world.state, name) == Bound(w.state, name) + {target}
      && (forall a :: a != name ==> Bound(out.world.state, a) == Bound(w.state, a) - {target})
      && Serving(w, out.world, name) && Resolving(w, out.world, name)
  {
    var e := EnsureRun(src, w, name, docType);
    EnsureWithAlias(src, w, name, docType, body);
    ReliableLater(w, e.world);
    EnsureSteady(w.state, e.world.state, name, body);
    ReconfigureAfterEnsure(src, e, name, docType, body);
    assert Docs(e.world.state, RealName(name)) == Docs(w.state, RealName(name));
    SetupThenRefresh(w, e.world, ReconfigureFrom(src, e, name, docType).world, name, body, Docs(w.state, RealName(name)), ReconfigureTail(name, body));
    ServingResolves(w, ReconfigureRun(src, w, name, docType).world, name);
  }

  /** The store ensureIndexIsConfiguredProperly leaves for an existing alias is where reconfigure's tail starts. */
  lemma EnsureSteady(s: Snapshot, t: Snapshot, name: string, body: Json)
    requires Consistent(t)
    requires TmpName(name) !in s.indices && TmpName(name) !in s.aliases
    requires t.indices == Created(s, RealName(name), body).indices
    requires Bound(t, name) == Bound(s, name) + {RealName(name)}
    requires forall a :: a != name ==> Bound(t, a) == Bound(s, a)
    ensures Steady(t, name)
  {
    NamesDistinct(name);
    assert Bound(t, TmpName(name)) == {};
  }

  /** The setup for an existing alias followed by a refresh, against the world the workflow started from. */
  lemma SetupThenRefresh(w: World, e: World, out: World, name: string, body: Json, docs: map<string, Json>, tail: seq<Request>)
    requires w.log <= e.log && Sent(w, e) == AliasSetupRequests(w.state, name, body)
    requires e.state.indices == Created(w.state, RealName(name), body).indices
    requires Bound(e.state, name) == Bound(w.state, name) + {RealName(name)}
    requires forall a :: a != name ==> Bound(e.state, a) == Bound(w.state, a)
    requires Serving(w, e, name)
    requires e.log <= out.log && Sent(e, out) == tail
    requires Refreshed(e.state, out.state, name, body, docs) && Serving(e, out, name)
    ensures var target := RealName(name);
      && w.log <= out.log && Sent(w, out) == AliasSetupRequests(w.state, name, body) + tail
      && out.state.indices == w.state.indices[target := SearchEngine.Index(body, docs)]
      && Bound(out.state, name) == Bound(w.state, name) + {target}
      && (forall a :: a != name ==> Bound(out.state, a) == Bound(w.state, a) - {target})
      && Serving(w, out, name)
  {
    SentTrans(w, e, out);
    ServingTrans(w, e, out, name);
  }

  /**
   * `reconfigure` of a plain index on a reliable engine, when real(name) is no
   * alias and tmp is free: the setup converts the index into an alias of
   * real(name), then the tail refreshes real(name). It resolves; the
   * index is gone; real(name) has the current mapping and the documents of
   * both, the index's winning on a shared id; the name is bound to real(name) alone;
   * and once the setup has resolved, the alias exists in every store.
   */
  lemma ReconfigureFromIndex(src: MappingSource, w: World, name: string, docType: string, body: Json)
    requires Reliable(w) && Consistent(w.state)
    requires name in w.state.indices && RealName(name) !in w.state.aliases
    requires TmpName(name) !in w.state.indices && TmpName(name) !in w.state.aliases
    requires MappingFile(src, w.version, docType) == Some(JsonFile(body))
    ensures var out := ReconfigureRun(src, w, name, docType);
      var target := RealName(name);
      && out.result == Success(())
      && w.log <= out.world.log
      && Sent(w, out.world) == CreateRequests(w.state, target, body) + [Ping, AliasExists(name), Ping, IndexExists(name)]
           + ConvertRequests(Created(w.state, target, body), name, body) + ReconfigureTail(name, body)
      && out.world.state.indices == (w.state.indices - {name})[target := SearchEngine.Index(body, Docs(w.state, target) + Docs(w.state, name))]
      && Bound(out.world.state, name) == {target}
      && (forall a :: a != name ==> Bound(out.world.state, a) == Bound(w.state, a) - {name, target})
      && Serving(EnsureRun(src, w, name, docType).world, out.world, name)
      && Resolving(EnsureRun(src, w, name, docType).world, out.world, name)
  {
    var e := EnsureRun(src, w, name, docType);
    EnsureWithIndex(src, w, name, docType, body);
    ReliableLater(w, e.world);
    ConvertSteady(w.state, e.world.state, name, body);
    ReconfigureAfterEnsure(src, e, name, docType, body);
    var out := ReconfigureFrom(src, e, name, docType);
    ConvertThenRefresh(w.state, e.world.state, out.world.state, name, body);
    SentTrans(w, e.world, out.world);
    ServingResolves(e.world, out.world, name);
  }

  /** The store a conversion leaves is where reconfigure's tail starts. */
  lemma ConvertSteady(s: Snapshot, t: Snapshot, name: string, body: Json)
    requires Consistent(t)
    requires TmpName(name) !in s.indices && TmpName(name) !in s.aliases
    requires Converted(s, t, name, body)
    ensures Steady(t, name)
  {
    NamesDistinct(name);
    assert Bound(t, TmpName(name)) == {};
  }

  /** A conversion followed by the refresh, against the store before the conversion. */
  lemma ConvertThenRefresh(s: Snapshot, t: Snapshot, out: Snapshot, name: string, body: Json)
    requires Converted(s, t, name, body)
    requires Refreshed(t, out, name, body, Docs(t, RealName(name)))
    ensures var target := RealName(name);
      && out.indices == (s.indices - {name})[target := SearchEngine.Index(body, Docs(s, target) + Docs(s, name))]
      && Bound(out, name) == {target}
      && (forall a :: a != name ==> Bound(out, a) == Bound(s, a) - {name, target})
  {
    var target := RealName(name);
    NamesDistinct(name);
    assert Docs(Created(s, target, body), target) == Docs(s, target);
    assert Docs(t, target) == Docs(s, target) + Docs(s, name);
    var expected := (s.indices - {name})[target := SearchEngine.Index(body, Docs(s, target) + Docs(s, name))];
    assert forall m :: m in out.indices <==> m in expected;
    assert forall m :: m in out.indices ==> out.indices[m] == expected[m];
  }

  // ---------------------------------------------------------------------
  // reconfigure of a name that no alias holds

  /** The requests `reconfigure` sends after the setup when no alias holds the name: up to the refused switch, then the cleanup. */
  function StoppedRequests(name: string, body: Json): seq<Request> {
    var target := RealName(name);
    var tmp := TmpName(name);
    [Ping, IndexExists(tmp), Ping, Info, Ping, CreateIndex(tmp, body), Ping, Reindex(target, tmp, true)]
      + [Ping, Switch(name, target, tmp)]
      + [Ping, IndexExists(tmp), Ping, DeleteIndex(tmp)]
  }

  /**
   * When ensureIndexIsConfiguredProperly resolved without binding the alias,
   * the first switch has no binding of real(name) to remove and is refused:
   * `reconfigure` fails with that request, after the cleanup has deleted tmp,
   * and the store is back where the tail started.
   */
  lemma ReconfigureUnaliasedAfterEnsure(src: MappingSource, e: Run<()>, name: string, docType: string, body: Json)
    requires Reliable(e.world) && e.result.Success? && Consistent(e.world.state)
    requires name !in e.world.state.aliases && RealName(name) in e.world.state.indices
    requires TmpName(name) !in e.world.state.indices && TmpName(name) !in e.world.state.aliases
    requires MappingFile(src, e.world.version, docType) == Some(JsonFile(body))
    ensures var out := ReconfigureFrom(src, e, name, docType);
      && out.result == Failure(RequestFailed(Switch(name, RealName(name), TmpName(name))))
      && e.world.log <= out.world.log && Sent(e.world, out.world) == StoppedRequests(name, body)
      && out.world.state == e.world.state
  {
    var target := RealName(name);
    var tmp := TmpName(name);
    var w := e.world;
    var p := CreateIndexRun(src, w, tmp, docType);
    CreateIndexReliable(src, w, tmp, docType, body, name);
    ReliableLater(w, p.world);
    var c := Rpc(p.world, Reindex(target, tmp, true));
    RpcAnswered(p.world, Reindex(target, tmp, true));
    UnaliasedFill(w.state, p.world.state, c.world.state, name, body);
    ReliableLater(w, c.world);
    var x := Command(c.world, Switch(name, target, tmp));
    CommandReliable(c.world, Switch(name, target, tmp));
    ReliableLater(w, x.world);
    CleanupReliable(x, tmp, name);
    UnaliasedShape(src, e, name, docType, body);
    UnaliasedSteps(w, p.world, c.world, x.world, Finally(x, tmp).world, name, body);
  }

  lemma UnaliasedShape(src: MappingSource, e: Run<()>, name: string, docType: string, body: Json)
    requires Reliable(e.world) && e.result.Success? && Consistent(e.world.state)
    requires name !in e.world.state.aliases && RealName(name) in e.world.state.indices
    requires TmpName(name) !in e.world.state.indices && TmpName(name) !in e.world.state.aliases
    requires MappingFile(src, e.world.version, docType) == Some(JsonFile(body))
    ensures var p := CreateIndexRun(src, e.world, TmpName(name), docType);
      var c := Rpc(p.world, Reindex(RealName(name), TmpName(name), true));
      ReconfigureFrom(src, e, name, docType) == Finally(Command(c.world, Switch(name, RealName(name), TmpName(name))), TmpName(name))
  {
    var p := CreateIndexRun(src, e.world, TmpName(name), docType);
    CreateIndexReliable(src, e.world, TmpName(name), docType, body, name);
    ReliableLater(e.world, p.world);
    RpcAnswered(p.world, Reindex(RealName(name), TmpName(name), true));
    UnaliasedFill(e.world.state, p.world.state, After(p.world.state, Reindex(RealName(name), TmpName(name), true)), name, body);
  }

  /** tmp created and filled, with no alias of the name: the switch is refused and deleting tmp restores the store. */
  lemma UnaliasedFill(s: Snapshot, p: Snapshot, c: Snapshot, name: string, body: Json)
    requires Consistent(s)
    requires name !in s.aliases && RealName(name) in s.indices
    requires TmpName(name) !in s.indices && TmpName(name) !in s.aliases
    requires p == Created(s, TmpName(name), body)
    requires c == After(p, Reindex(RealName(name), TmpName(name), true))
    ensures Accepts(p, Reindex(RealName(name), TmpName(name), true))
    ensures !Accepts(c, Switch(name, RealName(name), TmpName(name)))
    ensures TmpName(name) in c.indices
    ensures After(c, DeleteIndex(TmpName(name))) == s
  {
    var target := RealName(name);
    var tmp := TmpName(name);
    NamesDistinct(name);
    AddThenRemove(c, name, target, tmp);
    assert c.aliases == s.aliases;
    assert c.indices - {tmp} == s.indices;
    assert forall a :: a in s.aliases ==> s.aliases[a] - {tmp} == s.aliases[a];
    assert Unbind(c.aliases, tmp) == s.aliases;
  }

  lemma UnaliasedSteps(w: World, p: World, c: World, x: World, out: World, name: string, body: Json)
    requires TmpName(name) !in w.state.indices
    requires w.log <= p.log && Sent(w, p) == CreateRequests(w.state, TmpName(name), body)
    requires Answered(p, c, Reindex(RealName(name), TmpName(name), true))
    requires x.log == c.log + [Ping, Switch(name, RealName(name), TmpName(name))]
    requires TmpName(name) in x.state.indices
    requires x.log <= out.log && Sent(x, out) == DeleteRequests(x.state, TmpName(name))
    ensures w.log <= out.log && Sent(w, out) == StoppedRequests(name, body)
  {
    SentIs(c, x, [Ping, Switch(name, RealName(name), TmpName(name))]);
    SentTrans(w, p, c);
    SentTrans(w, c, x);
    SentTrans(w, x, out);
  }

  /**
   * `reconfigure` of a name that is neither an alias nor an index, on a
   * reliable engine: the setup only creates real(name), so the tail stops at
   * the first switch; the call fails with that request, tmp is gone and the
   * store is the one the setup left, still without the alias.
   */
  lemma ReconfigureWithoutAlias(src: MappingSource, w: World, name: string, docType: string, body: Json)
    requires Reliable(w) && Consistent(w.state)
    requires name !in w.state.aliases && name !in w.state.indices && RealName(name) !in w.state.aliases
    requires TmpName(name) !in w.state.indices && TmpName(name) !in w.state.aliases
    requires MappingFile(src, w.version, docType) == Some(JsonFile(body))
    ensures var out := ReconfigureRun(src, w, name, docType);
      && out.result == Failure(RequestFailed(Switch(name, RealName(name), TmpName(name))))
      && w.log <= out.world.log
      && Sent(w, out.world) == CreateRequests(w.state, RealName(name), body) + [Ping, AliasExists(name), Ping, IndexExists(name)]
           + StoppedRequests(name, body)
      && out.world.state == Created(w.state, RealName(name), body)
      && name !in out.world.state.aliases
  {
    var e := EnsureRun(src, w, name, docType);
    EnsureWithNeither(src, w, name, docType, body);
    ReliableLater(w, e.world);
    NamesDistinct(name);
    ReconfigureUnaliasedAfterEnsure(src, e, name, docType, body);
    SentTrans(w, e.world, ReconfigureFrom(src, e, name, docType).world);
  }

  // ---------------------------------------------------------------------
  // reindexAll

  /** Between two worlds the engine's aliases never changed. */
  ghost predicate AliasesKept(w: World, w': World) {
    && w.trail <= w'.trail
    && w'.state.aliases == w.state.aliases
    && forall i :: |w.trail| <= i < |w'.trail| ==> w'.trail[i].aliases == w.state.aliases
  }

  lemma AliasesKeptTrans(w1: World, w2: World, w3: World)
    requires AliasesKept(w1, w2) && AliasesKept(w2, w3)
    ensures AliasesKept(w1, w3)
  {
    forall i | |w1.trail| <= i < |w3.trail|
      ensures w3.trail[i].aliases == w1.state.aliases
    {
      if i < |w2.trail| {
        assert w3.trail[i] == w2.trail[i];
      }
    }
  }

  /** `index` sends a ping and an index request at most; whatever the engine refuses, neither touches an alias. */
  lemma IndexKeepsAliases(w: World, spec: DocSpec, doc: Json)
    ensures AliasesKept(w, IndexRun(w, spec, doc).world)
  {
  }

  /** Nor does `indexDocs`. */
  lemma {:induction false} IndexDocsKeepsAliases(w: World, spec: DocSpec, docs: seq<Json>)
    ensures AliasesKept(w, IndexDocsRun(w, spec, docs).world)
    decreases |docs|
  {
    if docs != [] && Prepare(spec, docs[0]).Some? {
      var first := IndexRun(w, spec, docs[0]);
      IndexKeepsAliases(w, spec, docs[0]);
      IndexDocsKeepsAliases(first.world, spec, docs[1..]);
      AliasesKeptTrans(w, first.world, IndexDocsRun(first.world, spec, docs[1..]).world);
    }
  }

  /** Nor does the pull loop of `reindexAll`: the alias keeps pointing where it did while documents load. */
  lemma {:induction false} LoadKeepsAliases(w: World, spec: DocSpec, pulls: seq<Pull>)
    ensures AliasesKept(w, LoadRun(w, spec, pulls).run.world)
    decreases |pulls|
  {
    if pulls != [] && pulls[0].Resolved? && Batch(pulls[0].value).Some? {
      var r := IndexDocsRun(w, spec, Batch(pulls[0].value).value);
      IndexDocsKeepsAliases(w, spec, Batch(pulls[0].value).value);
      if r.result.Success? {
        LoadKeepsAliases(r.world, spec, pulls[1..]);
        AliasesKeptTrans(w, r.world, LoadRun(r.world, spec, pulls[1..]).run.world);
      }
    }
  }

  lemma AliasesKeptServing(w: World, w': World, alias: string)
    requires AliasesKept(w, w') && alias in w.state.aliases
    ensures Serving(w, w', alias)
  {
  }

  /** Every document the caller's `next` delivers before the end of the stream can be keyed. */
  ghost predicate Keyed(spec: DocSpec, pulls: seq<Pull>) {
    forall d :: d in Flatten(Batches(pulls)) ==> Key(spec, d).Some?
  }

  /** The documents a stream of pulls leaves in an index that starts empty. */
  function Reloaded(spec: DocSpec, pulls: seq<Pull>): map<string, Json>
    requires Keyed(spec, pulls)
  {
    Upserts(map[], spec, Flatten(Batches(pulls)))
  }

  /** The requests `reindexAll` sends after the setup, up to the end of the stream: tmp created, then each document indexed into tmp. */
  function FeedRequests(spec: DocSpec, pulls: seq<Pull>, body: Json): seq<Request>
    requires Keyed(spec, pulls)
  {
    var tmp := TmpName(spec.name);
    UpsertsRenamed(map[], spec, Flatten(Batches(pulls)), tmp);
    [Ping, IndexExists(tmp), Ping, Info, Ping, CreateIndex(tmp, body)]
      + IndexRequests(spec.(name := tmp), Flatten(Batches(pulls)))
  }

  /** The requests `reindexAll` sends after the setup when the stream ends: the loading, the rebuild, the cleanup. */
  function ReindexAllTail(spec: DocSpec, pulls: seq<Pull>, body: Json): seq<Request>
    requires Keyed(spec, pulls)
  {
    FeedRequests(spec, pulls, body) + RebuildRequests(spec.name, body)
      + [Ping, IndexExists(TmpName(spec.name)), Ping, DeleteIndex(TmpName(spec.name))]
  }

  lemma ReindexAllShape(src: MappingSource, e: Run<()>, spec: DocSpec, pulls: seq<Pull>, body: Json)
    requires Reliable(e.world) && e.result.Success? && Steady(e.world.state, spec.name)
    requires MappingFile(src, e.world.version, spec.docType) == Some(JsonFile(body))
    ensures var p := CreateIndexRun(src, e.world, TmpName(spec.name), spec.docType);
      var l := LoadRun(p.world, spec.(name := TmpName(spec.name)), pulls);
      ReindexAllFrom(src, e, spec, pulls) ==
        if l.run.result.Failure? then Loaded(Finally(l.run, TmpName(spec.name)), l.left)
        else Loaded(Finally(RebuildRun(src, l.run.world, spec.name, spec.docType), TmpName(spec.name)), l.left)
  {
    CreateIndexReliable(src, e.world, TmpName(spec.name), spec.docType, body, spec.name);
  }

  /** tmp created and loaded from the stream: the rebuild can start. */
  lemma LoadFill(s: Snapshot, p: Snapshot, l: Snapshot, spec: DocSpec, pulls: seq<Pull>, body: Json)
    requires Steady(s, spec.name) && Keyed(spec, pulls)
    requires p == Created(s, TmpName(spec.name), body)
    requires TmpName(spec.name) in p.indices && Keyed(spec.(name := TmpName(spec.name)), pulls)
    requires l == Stored(p, spec.(name := TmpName(spec.name)), Flatten(Batches(pulls)))
    ensures Rebuildable(l, spec.name)
    ensures l.indices == s.indices[TmpName(spec.name) := SearchEngine.Index(body, Reloaded(spec, pulls))]
    ensures l.aliases == s.aliases
  {
    var tmp := TmpName(spec.name);
    NamesDistinct(spec.name);
    UpsertsRenamed(map[], spec, Flatten(Batches(pulls)), tmp);
    assert Docs(p, tmp) == map[];
    assert tmp !in Bound(s, spec.name);
  }

  /** Deleting tmp from a store that only gained tmp restores it. */
  lemma DropTmp(s: Snapshot, l: Snapshot, tmp: string, index: SearchEngine.Index)
    requires Consistent(s) && tmp !in s.indices
    requires l.indices == s.indices[tmp := index] && l.aliases == s.aliases
    ensures Accepts(l, DeleteIndex(tmp)) && After(l, DeleteIndex(tmp)) == s
  {
    assert l.indices - {tmp} == s.indices;
    assert forall a :: a in s.aliases ==> s.aliases[a] - {tmp} == s.aliases[a];
    assert Unbind(l.aliases, tmp) == s.aliases;
  }

  /**
   * `reindexAll` once ensureIndexIsConfiguredProperly has resolved with the
   * alias set up, on a reliable engine, when the stream ends before any
   * rejection: it resolves; it sends the loading requests, the rebuild and the
   * cleanup; real(name) ends with the current mapping and exactly the
   * streamed documents; the alias is served in every store along the way.
   */
  lemma ReindexAllLoaded(src: MappingSource, e: Run<()>, spec: DocSpec, pulls: seq<Pull>, body: Json)
    requires Reliable(e.world) && e.result.Success? && Steady(e.world.state, spec.name)
    requires MappingFile(src, e.world.version, spec.docType) == Some(JsonFile(body))
    requires Keyed(spec, pulls) && Ends(pulls)
    ensures var out := ReindexAllFrom(src, e, spec, pulls);
      && out.run.result == Success(())
      && out.left == Unread(pulls)
      && e.world.log <= out.run.world.log
      && Sent(e.world, out.run.world) == ReindexAllTail(spec, pulls, body)
      && Refreshed(e.world.state, out.run.world.state, spec.name, body, Reloaded(spec, pulls))
      && Serving(e.world, out.run.world, spec.name)
  {
    var name := spec.name;
    var tmp := TmpName(name);
    var w := e.world;
    var p := CreateIndexRun(src, w, tmp, spec.docType);
    CreateIndexReliable(src, w, tmp, spec.docType, body, name);
    ReliableLater(w, p.world);
    UpsertsRenamed(map[], spec, Flatten(Batches(pulls)), tmp);
    var l := LoadRun(p.world, spec.(name := tmp), pulls);
    LoadReliable(p.world, spec.(name := tmp), pulls);
    LoadKeepsAliases(p.world, spec.(name := tmp), pulls);
    LoadFill(w.state, p.world.state, l.run.world.state, spec, pulls, body);
    ReliableLater(w, l.run.world);
    var rb := RebuildRun(src, l.run.world, name, spec.docType);
    RebuildReliable(src, l.run.world, name, spec.docType, body);
    ReliableLater(w, rb.world);
    CleanupReliable(rb, tmp, name);
    ReindexAllShape(src, e, spec, pulls, body);
    ReindexAllLoadedSteps(w, p.world, l.run.world, rb.world, Finally(rb, tmp).world, spec, pulls, body);
  }

  lemma ReindexAllLoadedSteps(w: World, p: World, l: World, rb: World, out: World, spec: DocSpec, pulls: seq<Pull>, body: Json)
    requires Steady(w.state, spec.name) && Keyed(spec, pulls) && Keyed(spec.(name := TmpName(spec.name)), pulls)
    requires w.log <= p.log && Sent(w, p) == CreateRequests(w.state, TmpName(spec.name), body)
    requires p.state == Created(w.state, TmpName(spec.name), body) && Serving(w, p, spec.name)
    requires p.log <= l.log && Sent(p, l) == IndexRequests(spec.(name := TmpName(spec.name)), Flatten(Batches(pulls)))
    requires AliasesKept(p, l)
    requires l.state.indices == w.state.indices[TmpName(spec.name) := SearchEngine.Index(body, Reloaded(spec, pulls))]
      && l.state.aliases == w.state.aliases
    requires l.log <= rb.log && Sent(l, rb) == RebuildRequests(spec.name, body)
    requires Rebuilt(l.state, rb.state, spec.name, body) && Serving(l, rb, spec.name)
    requires rb.log <= out.log && Sent(rb, out) == DeleteRequests(rb.state, TmpName(spec.name))
    requires out.state == After(rb.state, DeleteIndex(TmpName(spec.name)))
    requires spec.name in rb.state.aliases && spec.name in out.state.aliases ==> Serving(rb, out, spec.name)
    ensures w.log <= out.log
    ensures Sent(w, out) == ReindexAllTail(spec, pulls, body)
    ensures Refreshed(w.state, out.state, spec.name, body, Reloaded(spec, pulls))
    ensures Serving(w, out, spec.name)
  {
    var name := spec.name;
    RebuildCleaned(w.state, l.state, rb.state, out.state, name, body, Reloaded(spec, pulls));
    AliasesKeptServing(p, l, name);
    ThreeSteps(w, p, l, rb, name);
    SentTrans(w, rb, out);
    ServingTrans(w, rb, out, name);
  }

  /**
   * The same when the caller's `next` rejects first: the rejection is the
   * result, tmp is deleted and the store is the one the setup left, so
   * real(name) keeps its documents; the alias is served throughout.
   */
  lemma ReindexAllFeedFails(src: MappingSource, e: Run<()>, spec: DocSpec, pulls: seq<Pull>, body: Json)
    requires Reliable(e.world) && e.result.Success? && Steady(e.world.state, spec.name)
    requires MappingFile(src, e.world.version, spec.docType) == Some(JsonFile(body))
    requires Keyed(spec, pulls) && !Ends(pulls)
    ensures var out := ReindexAllFrom(src, e, spec, pulls);
      && out.run.result.Failure? && out.run.result.error.PullFailed?
      && out.left == Unread(pulls)
      && e.world.log <= out.run.world.log
      && Sent(e.world, out.run.world) == FeedRequests(spec, pulls, body)
           + [Ping, IndexExists(TmpName(spec.name)), Ping, DeleteIndex(TmpName(spec.name))]
      && out.run.world.state == e.world.state
      && Serving(e.world, out.run.world, spec.name)
  {
    var name := spec.name;
    var tmp := TmpName(name);
    var w := e.world;
    var p := CreateIndexRun(src, w, tmp, spec.docType);
    CreateIndexReliable(src, w, tmp, spec.docType, body, name);
    ReliableLater(w, p.world);
    UpsertsRenamed(map[], spec, Flatten(Batches(pulls)), tmp);
    var l := LoadRun(p.world, spec.(name := tmp), pulls);
    LoadReliable(p.world, spec.(name := tmp), pulls);
    LoadKeepsAliases(p.world, spec.(name := tmp), pulls);
    LoadFill(w.state, p.world.state, l.run.world.state, spec, pulls, body);
    DropTmp(w.state, l.run.world.state, tmp, SearchEngine.Index(body, Reloaded(spec, pulls)));
    ReliableLater(w, l.run.world);
    CleanupReliable(l.run, tmp, name);
    ReindexAllShape(src, e, spec, pulls, body);
    AliasesKeptServing(p.world, l.run.world, name);
    ThreeSteps(w, p.world, l.run.world, Finally(l.run, tmp).world, name);
  }

  /**
   * `reindexAll` of an existing alias on a reliable engine, when real(name)
   * is no alias and tmp is free, and the stream ends before any rejection:
   * it resolves; real(name) ends with the current mapping and exactly the
   * streamed documents; the alias is bound as before plus real(name); the
   * alias exists in every store the engine passes through.
   */
  lemma ReindexAllReliable(src: MappingSource, w: World, spec: DocSpec, pulls: seq<Pull>, body: Json)
    requires Reliable(w) && Consistent(w.state)
    requires spec.name in w.state.aliases && RealName(spec.name) !in w.state.aliases
    requires TmpName(spec.name) !in w.state.indices && TmpName(spec.name) !in w.state.aliases
    requires MappingFile(src, w.version, spec.docType) == Some(JsonFile(body))
    requires Keyed(spec, pulls) && Ends(pulls)
    ensures var out := ReindexAllRun(src, w, spec, pulls);
      var target := RealName(spec.name);
      && out.run.result == Success(())
      && out.left == Unread(pulls)
      && w.log <= out.run.world.log
      && Sent(w, out.run.world) == AliasSetupRequests(w.state, spec.name, body) + ReindexAllTail(spec, pulls, body)
      && out.run.world.state.indices == w.state.indices[target := SearchEngine.Index(body, Reloaded(spec, pulls))]
      && Bound(out.run.world.state, spec.name) == Bound(w.state, spec.name) + {target}
      && (forall a :: a != spec.name ==> Bound(out.run.world.state, a) == Bound(w.state, a) - {target})
      && Serving(w, out.run.world, spec.name) && Resolving(w, out.run.world, spec.name)
  {
    var name := spec.name;
    var e := EnsureRun(src, w, name, spec.docType);
    EnsureWithAlias(src, w, name, spec.docType, body);
    ReliableLater(w, e.world);
    EnsureSteady(w.state, e.world.state, name, body);
    ReindexAllLoaded(src, e, spec, pulls, body);
    SetupThenRefresh(w, e.world, ReindexAllFrom(src, e, spec, pulls).run.world, name, body, Reloaded(spec, pulls), ReindexAllTail(spec, pulls, body));
    ServingResolves(w, ReindexAllRun(src, w, spec, pulls).run.world, name);
  }

  // ---------------------------------------------------------------------
  // The order of the writes

  /** A request that may change the store: checks, pings and the version query do not. */
  predicate IsWrite(r: Request) {
    !(r.Ping? || r.Info? || r.IndexExists? || r.AliasExists?)
  }

  /** The requests that may change the store, in the order they were sent. */
  function Writes(reqs: seq<Request>): seq<Request> {
    if reqs == [] then []
    else (if IsWrite(reqs[0]) then [reqs[0]] else []) + Writes(reqs[1..])
  }

  lemma {:induction false} WritesAppend(a: seq<Request>, b: seq<Request>)
    ensures Writes(a + b) == Writes(a) + Writes(b)
    decreases |a|
  {
    if a == [] {
      assert a + b == b;
    } else {
      assert (a + b)[0] == a[0] && (a + b)[1..] == a[1..] + b;
      WritesAppend(a[1..], b);
    }
  }

  /** A request as a write: itself, or nothing. */
  function Kept(x: Request): seq<Request> {
    if IsWrite(x) then [x] else []
  }

  /** A remote call contributes its request, when that is a write. */
  lemma WritesCall(x: Request, rest: seq<Request>)
    ensures Writes([Ping, x] + rest) == Kept(x) + Writes(rest)
  {
    var c := [Ping, x] + rest;
    assert c[1..] == [x] + rest;
    assert ([x] + rest)[1..] == rest;
  }

  lemma WritesOne(x: Request)
    ensures Writes([Ping, x]) == Kept(x)
  {
    WritesCall(x, []);
    assert [Ping, x] + [] == [Ping, x];
  }

  /** A call after an existence check, as `deleteIndex` makes it. */
  lemma WritesChecked(n: string, x: Request)
    ensures Writes([Ping, IndexExists(n), Ping, x]) == Kept(x)
  {
    WritesCall(x, []);
    WritesCall(IndexExists(n), [Ping, x] + []);
    assert [Ping, IndexExists(n)] + ([Ping, x] + []) == [Ping, IndexExists(n), Ping, x];
  }

  /** A call after an existence check and the version query, as `createIndex` makes it. */
  lemma WritesConfigured(n: string, x: Request)
    ensures Writes([Ping, IndexExists(n), Ping, Info, Ping, x]) == Kept(x)
  {
    WritesCall(x, []);
    WritesCall(Info, [Ping, x] + []);
    WritesCall(IndexExists(n), [Ping, Info] + ([Ping, x] + []));
    assert [Ping, IndexExists(n)] + ([Ping, Info] + ([Ping, x] + [])) == [Ping, IndexExists(n), Ping, Info, Ping, x];
  }

  /** The writes of the rebuild: the switch to tmp, the delete of real(name), its creation, the copy back, the switch back. */
  lemma RebuildWrites(name: string, body: Json)
    ensures var target := RealName(name);
      var tmp := TmpName(name);
      Writes(RebuildRequests(name, body)) ==
        [Switch(name, target, tmp), DeleteIndex(target), CreateIndex(target, body), Reindex(tmp, target, true), Switch(name, tmp, target)]
  {
    var target := RealName(name);
    var tmp := TmpName(name);
    var a := [Ping, Switch(name, target, tmp)];
    var b := [Ping, IndexExists(target), Ping, DeleteIndex(target)];
    var c := [Ping, IndexExists(target), Ping, Info, Ping, CreateIndex(target, body)];
    var d := [Ping, Reindex(tmp, target, true)];
    var e := [Ping, Switch(name, tmp, target)];
    WritesOne(Switch(name, target, tmp));
    WritesChecked(target, DeleteIndex(target));
    WritesConfigured(target, CreateIndex(target, body));
    WritesOne(Reindex(tmp, target, true));
    WritesOne(Switch(name, tmp, target));
    WritesAppend(a, b);
    WritesAppend(a + b, c);
    WritesAppend(a + b + c, d);
    WritesAppend(a + b + c + d, e);
  }

  /**
   * The writes `reconfigure` makes after the setup on a reliable engine: two
   * creates, two copies, two switches and two deletes, the switch to tmp
   * before the delete of real(name), the delete of tmp last.
   */
  lemma ReconfigureWrites(name: string, body: Json)
    ensures var target := RealName(name);
      var tmp := TmpName(name);
      Writes(ReconfigureTail(name, body)) ==
        [CreateIndex(tmp, body), Reindex(target, tmp, true),
         Switch(name, target, tmp), DeleteIndex(target), CreateIndex(target, body), Reindex(tmp, target, true), Switch(name, tmp, target),
         DeleteIndex(tmp)]
  {
    var target := RealName(name);
    var tmp := TmpName(name);
    var a := [Ping, IndexExists(tmp), Ping, Info, Ping, CreateIndex(tmp, body)];
    var r := [Ping, Reindex(target, tmp, true)];
    var c := [Ping, IndexExists(tmp), Ping, DeleteIndex(tmp)];
    assert ReconfigureTail(name, body) == a + r + RebuildRequests(name, body) + c;
    WritesConfigured(tmp, CreateIndex(tmp, body));
    WritesOne(Reindex(target, tmp, true));
    WritesChecked(tmp, DeleteIndex(tmp));
    RebuildWrites(name, body);
    WritesAppend(a, r);
    WritesAppend(a + r, RebuildRequests(name, body));
    WritesAppend(a + r + RebuildRequests(name, body), c);
  }

  /** Indexing a batch writes one document request per document, in order, all into the spec's index. */
  lemma {:induction false} IndexWrites(spec: DocSpec, batch: seq<Json>)
    requires forall d :: d in batch ==> Key(spec, d).Some?
    ensures |Writes(IndexRequests(spec, batch))| == |batch|
    ensures forall k :: 0 <= k < |batch| ==>
      Writes(IndexRequests(spec, batch))[k] == IndexDoc(spec.name, spec.docType, Key(spec, batch[k]).value, Body(spec, batch[k]), true)
    decreases |batch|
  {
    if batch != [] {
      var first := IndexDoc(spec.name, spec.docType, Key(spec, batch[0]).value, Body(spec, batch[0]), true);
      var tail := batch[1..];
      assert forall d :: d in tail ==> d in batch;
      var rest := IndexRequests(spec, tail);
      assert IndexRequests(spec, batch) == [Ping, first] + rest;
      IndexWrites(spec, tail);
      WritesCall(first, rest);
      var ws := Writes(IndexRequests(spec, batch));
      assert ws == [first] + Writes(rest);
      forall k | 0 <= k < |batch|
        ensures ws[k] == IndexDoc(spec.name, spec.docType, Key(spec, batch[k]).value, Body(spec, batch[k]), true)
      {
        if k > 0 {
          assert ws[k] == Writes(rest)[k - 1];
          assert tail[k - 1] == batch[k];
        }
      }
    }
  }

  /**
   * The writes `reindexAll` makes after the setup when the stream ends: tmp
   * created, then one write into tmp per streamed document, in order, then the
   * rebuild, whose only copy is tmp into real(name), and the delete of tmp.
   */
  lemma ReindexAllWrites(spec: DocSpec, pulls: seq<Pull>, body: Json)
    requires Keyed(spec, pulls)
    ensures var target := RealName(spec.name);
      var tmp := TmpName(spec.name);
      var docs := Flatten(Batches(pulls));
      var loads := Writes(IndexRequests(spec.(name := tmp), docs));
      && Writes(ReindexAllTail(spec, pulls, body)) ==
           [CreateIndex(tmp, body)] + loads
           + [Switch(spec.name, target, tmp), DeleteIndex(target), CreateIndex(target, body), Reindex(tmp, target, true),
              Switch(spec.name, tmp, target), DeleteIndex(tmp)]
      && |loads| == |docs|
      && forall k :: 0 <= k < |docs| ==> loads[k] == IndexDoc(tmp, spec.docType, Key(spec, docs[k]).value, Body(spec, docs[k]), true)
  {
    var name := spec.name;
    var tmp := TmpName(name);
    var spec' := spec.(name := tmp);
    var docs := Flatten(Batches(pulls));
    UpsertsRenamed(map[], spec, docs, tmp);
    var a := [Ping, IndexExists(tmp), Ping, Info, Ping, CreateIndex(tmp, body)];
    var l := IndexRequests(spec', docs);
    var c := [Ping, IndexExists(tmp), Ping, DeleteIndex(tmp)];
    assert ReindexAllTail(spec, pulls, body) == a + l + RebuildRequests(name, body) + c;
    WritesConfigured(tmp, CreateIndex(tmp, body));
    WritesChecked(tmp, DeleteIndex(tmp));
    IndexWrites(spec', docs);
    RebuildWrites(name, body);
    WritesAppend(a, l);
    WritesAppend(a + l, RebuildRequests(name, body));
    WritesAppend(a + l + RebuildRequests(name, body), c);
  }

  /** Three consecutive stretches, each serving the alias: the requests add up and the alias is served throughout. */
  lemma ThreeSteps(w1: World, w2: World, w3: World, w4: World, alias: string)
    requires w1.log <= w2.log && w2.log <= w3.log && w3.log <= w4.log
    requires Serving(w1, w2, alias) && Serving(w2, w3, alias) && Serving(w3, w4, alias)
    ensures w1.log <= w4.log && Sent(w1, w4) == Sent(w1, w2) + Sent(w2, w3) + Sent(w3, w4)
    ensures Serving(w1, w4, alias)
  {
    SentTrans(w1, w2, w3);
    SentTrans(w1, w3, w4);
    ServingTrans(w1, w2, w3, alias);
    ServingTrans(w1, w3, w4, alias);
  }
}
