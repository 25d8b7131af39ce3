/**
 * The search engine the configuration class talks to, as an abstract store:
 * concrete indices (a mapping and documents by id) and aliases (a name bound
 * to a set of indices). The engine answers one request at a time. Which
 * requests fail for reasons outside the store (a lost connection, a timeout,
 * an internal error) is fixed in advance by a fault schedule: the request the
 * engine receives in position k is refused iff k is in `faults`.
 *
 * The store semantics follows the engine's documented behaviour where the
 * configuration class depends on it: deleting an index removes it from every
 * alias, an alias left with no index disappears, an alias and an index never
 * share a name, and `updateAliases` applies its actions atomically.
 */
module SearchEngine {
  import opened Wrappers
  import opened JsValues

  /** A concrete index: the mapping it was created with and its documents by id. */
  datatype Index = Index(mapping: Json, docs: map<string, Json>)

  datatype AliasAction = Add(index: string, alias: string) | Remove(index: string, alias: string)

  /** The requests the configuration class sends, with the arguments it passes. */
  datatype Request =
    | Ping
    | Info
    | IndexExists(index: string)
    | AliasExists(alias: string)
    | CreateIndex(index: string, body: Json)
    | DeleteIndex(index: string)
    | PutAlias(alias: string, index: string)
    | UpdateAliases(actions: seq<AliasAction>)
    | Reindex(source: string, dest: string, refresh: bool)
    | IndexDoc(index: string, docType: string, id: string, body: Json, refresh: bool)

  datatype Response = Refused | Acknowledged | Exists(found: bool) | Version(number: string)

  datatype Snapshot = Snapshot(indices: map<string, Index>, aliases: map<string, set<string>>)

  /** The engine's invariant: every alias is bound to at least one existing index, and is not itself an index. */
  ghost predicate Consistent(s: Snapshot) {
    forall a :: a in s.aliases ==> s.aliases[a] != {} && s.aliases[a] <= s.indices.Keys && a !in s.indices
  }

  /** The indices an alias is bound to (none when the alias does not exist). */
  function Bound(s: Snapshot, alias: string): set<string> {
    if alias in s.aliases then s.aliases[alias] else {}
  }

  /** The documents of an index (none when the index does not exist). */
  function Docs(s: Snapshot, index: string): map<string, Json> {
    if index in s.indices then s.indices[index].docs else map[]
  }

  /** Sets the binding of an alias; an alias left with no index disappears. */
  function Rebind(aliases: map<string, set<string>>, alias: string, targets: set<string>): map<string, set<string>> {
    if targets == {} then aliases - {alias} else aliases[alias := targets]
  }

  /** The bindings after an index is deleted: the index leaves every alias. */
  function Unbind(aliases: map<string, set<string>>, index: string): map<string, set<string>> {
    map a | a in aliases && aliases[a] - {index} != {} :: aliases[a] - {index}
  }

  /** `updateAliases`: the actions applied in order, all of them or none. */
  function ApplyActions(s: Snapshot, actions: seq<AliasAction>): Option<Snapshot>
    decreases |actions|
  {
    if actions == [] then Some(s)
    else
      match actions[0]
      case Add(ix, al) =>
        if ix in s.indices && al !in s.indices
        then ApplyActions(s.(aliases := s.aliases[al := Bound(s, al) + {ix}]), actions[1..])
        else None
      case Remove(ix, al) =>
        if ix in Bound(s, al)
        then ApplyActions(s.(aliases := Rebind(s.aliases, al, Bound(s, al) - {ix})), actions[1..])
        else None
  }

  /** Whether the store itself accepts a request (faults aside). */
  predicate Accepts(s: Snapshot, r: Request) {
    match r
    case CreateIndex(n, _) => n !in s.indices && n !in s.aliases
    case DeleteIndex(n) => n in s.indices
    case PutAlias(a, n) => n in s.indices && a !in s.indices
    case UpdateAliases(acts) => ApplyActions(s, acts).Some?
    case Reindex(src, dst, _) => src in s.indices && dst in s.indices
    case IndexDoc(n, _, _, _, _) => n in s.indices
    case _ => true
  }

  /** The store after an accepted request. Reindex copies every document of the source over the destination's. */
  function Apply(s: Snapshot, r: Request): Snapshot
    requires Accepts(s, r)
  {
    match r
    case CreateIndex(n, body) => s.(indices := s.indices[n := Index(body, map[])])
    case DeleteIndex(n) => Snapshot(s.indices - {n}, Unbind(s.aliases, n))
    case PutAlias(a, n) => s.(aliases := s.aliases[a := Bound(s, a) + {n}])
    case UpdateAliases(acts) => ApplyActions(s, acts).value
    case Reindex(src, dst, _) =>
      s.(indices := s.indices[dst := s.indices[dst].(docs := s.indices[dst].docs + s.indices[src].docs)])
    case IndexDoc(n, _, id, body, _) =>
      s.(indices := s.indices[n := s.indices[n].(docs := s.indices[n].docs[id := body])])
    case _ => s
  }

  /** The store after a request, refused (`rejected` is the fault schedule's verdict) or not. */
  function Step(s: Snapshot, r: Request, rejected: bool): Snapshot {
    if rejected || !Accepts(s, r) then s else Apply(s, r)
  }

  /** The engine's answer to a request. */
  function Respond(s: Snapshot, r: Request, version: string, rejected: bool): Response {
    if rejected || !Accepts(s, r) then Refused
    else
      match r
      case IndexExists(n) => Exists(n in s.indices)
      case AliasExists(a) => Exists(a in s.aliases)
      case Info => Version(version)
      case _ => Acknowledged
  }

  /** Alias actions keep the store consistent. */
  lemma {:induction false} ApplyActionsConsistent(s: Snapshot, actions: seq<AliasAction>)
    requires Consistent(s)
    requires ApplyActions(s, actions).Some?
    ensures Consistent(ApplyActions(s, actions).value)
    ensures ApplyActions(s, actions).value.indices == s.indices
    decreases |actions|
  {
    if actions != [] {
      match actions[0]
      case Add(ix, al) =>
        ApplyActionsConsistent(s.(aliases := s.aliases[al := Bound(s, al) + {ix}]), actions[1..]);
      case Remove(ix, al) =>
        ApplyActionsConsistent(s.(aliases := Rebind(s.aliases, al, Bound(s, al) - {ix})), actions[1..]);
    }
  }

  /** Every request keeps the store consistent. */
  lemma StepConsistent(s: Snapshot, r: Request, rejected: bool)
    ensures Consistent(s) ==> Consistent(Step(s, r, rejected))
  {
    if Consistent(s) && !rejected && Accepts(s, r) && r.UpdateAliases? {
      ApplyActionsConsistent(s, r.actions);
    }
  }

  /**
   * An add followed by a remove on one alias: accepted iff the added index
   * exists, the alias is not an index name and the removed index is bound
   * once the add is done; then only that alias changes, to (bound + {dest}) - {source}.
   */
  lemma AddThenRemove(s: Snapshot, alias: string, source: string, dest: string)
    ensures var r := ApplyActions(s, [Add(dest, alias), Remove(source, alias)]);
      && (r.Some? <==> dest in s.indices && alias !in s.indices && source in Bound(s, alias) + {dest})
      && (r.Some? ==>
            && r.value.indices == s.indices
            && Bound(r.value, alias) == (Bound(s, alias) + {dest}) - {source}
            && forall a :: a != alias ==> Bound(r.value, a) == Bound(s, a))
  {
    var acts := [Add(dest, alias), Remove(source, alias)];
    assert acts[1..] == [Remove(source, alias)];
    assert acts[1..][1..] == [];
    if dest in s.indices && alias !in s.indices {
      var s1 := s.(aliases := s.aliases[alias := Bound(s, alias) + {dest}]);
      assert Bound(s1, alias) == Bound(s, alias) + {dest};
      assert ApplyActions(s, acts) == ApplyActions(s1, acts[1..]);
      if source in Bound(s1, alias) {
        var s2 := s1.(aliases := Rebind(s1.aliases, alias, Bound(s1, alias) - {source}));
        assert ApplyActions(s1, acts[1..]) == ApplyActions(s2, acts[1..][1..]) == Some(s2);
        assert Bound(s2, alias) == Bound(s1, alias) - {source};
        assert forall a :: a != alias ==> Bound(s2, a) == Bound(s, a);
      } else {
        assert ApplyActions(s1, acts[1..]) == None;
      }
    } else {
      assert ApplyActions(s, acts) == None;
    }
  }

  /** Deleting an index removes it from every alias and from nothing else. */
  lemma DeleteUnbinds(s: Snapshot, n: string)
    requires Accepts(s, DeleteIndex(n))
    ensures var t := Apply(s, DeleteIndex(n));
      && n !in t.indices
      && (forall m :: m != n ==> (m in t.indices <==> m in s.indices))
      && forall a :: Bound(t, a) == Bound(s, a) - {n}
  {
  }

  /**
   * Everything the engine holds, as a value: the store, the requests received,
   * the store after each of them, the reported version and the fault schedule.
   */
  datatype World = World(state: Snapshot, log: seq<Request>, trail: seq<Snapshot>, version: string, faults: set<nat>)

  datatype Delivery = Delivery(world: World, response: Response)

  /** The engine receiving one request: refused iff its position is in the fault schedule or the store refuses it. */
  function Deliver(w: World, r: Request): (d: Delivery)
    ensures Consistent(w.state) ==> Consistent(d.world.state)
    ensures d.response == Refused <==> |w.log| in w.faults || !Accepts(w.state, r)
  {
    var rejected := |w.log| in w.faults;
    var t := Step(w.state, r, rejected);
    StepConsistent(w.state, r, rejected);
    Delivery(World(t, w.log + [r], w.trail + [t], w.version, w.faults), Respond(w.state, r, w.version, rejected))
  }

  /** The engine: the store, the requests received so far and the fault schedule. */
  class Engine {
    var indices: map<string, Index>
    var aliases: map<string, set<string>>
    /** Every request received, in order. */
    var log: seq<Request>
    /** The store after each request: trail[k] is the state once log[k] has been answered. */
    ghost var trail: seq<Snapshot>
    /** The number the engine reports as `version.number`. */
    const version: string
    /** Positions in the log of the requests the engine refuses. */
    const faults: set<nat>

    function State(): Snapshot
      reads this
    {
      Snapshot(indices, aliases)
    }

    /** The engine as a World value. */
    ghost function View(): World
      reads this
    {
      World(State(), log, trail, version, faults)
    }

    ghost predicate Valid()
      reads this
    {
      Consistent(State()) && |trail| == |log|
    }

    constructor (start: Snapshot, version: string, faults: set<nat>)
      requires Consistent(start)
      ensures Valid() && State() == start && log == [] && trail == []
      ensures this.version == version && this.faults == faults
    {
      indices, aliases := start.indices, start.aliases;
      log, trail := [], [];
      this.version, this.faults := version, faults;
    }

    /** Receives one request, answers it and updates the store. */
    method Send(r: Request) returns (res: Response)
      requires Valid()
      modifies this
      ensures Valid()
      ensures View() == Deliver(old(View()), r).world
      ensures res == Deliver(old(View()), r).response
    {
      var s := State();
      var rejected := |log| in faults;
      StepConsistent(s, r, rejected);
      res := Respond(s, r, version, rejected);
      var t := Step(s, r, rejected);
      indices, aliases := t.indices, t.aliases;
      log := log + [r];
      trail := trail + [t];
    }
  }
}
