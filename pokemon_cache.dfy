/** The result cache of src/exercise/03.extra-2.js: `pokemonCacheReducer` over a plain object,
    the `usePokemon` provider check, the key listing of `PreviousPokemon`, and the effect of
    `PokemonInfo` that consults the cache before running a fetch and fills it on success. */
module PokemonCache {
  import opened JsModel
  import opened AsyncInfo

  /** The cache object: its own keys in insertion order (the order `Object.keys` lists them)
      and the value stored under each key. */
  datatype Cache<D> = Cache(names: seq<string>, entries: map<string, Nullable<D>>)

  /** An action of `pokemonCacheReducer`. */
  datatype CacheAction<D> = CacheAction(kind: string, pokemonName: string, pokemonData: Nullable<D>)

  /** What the effect does for a name: nothing, adopt a value found in the cache, or fetch.
      `AdoptInherited` is the case where the lookup found a member of `Object.prototype`. */
  datatype ConsultStep<D> = Skip | AdoptCached(data: D) | AdoptInherited(member: string) | Fetch

  /** What a property read `cache[name]` gives: an own value, a member of `Object.prototype`, or `undefined`. */
  datatype PropertyRead<D> = Own(data: Nullable<D>) | Inherited(member: string) | Absent

  /** The value `usePokemon` reads from the context: the cache and the provider's `dispatch`. */
  datatype ContextValue<D> = ContextValue(cache: Cache<D>, dispatch: CacheStore<D>)

  /** The properties every plain object inherits from `Object.prototype` (sections 20.1.3 and
      B.2.2 of ECMA-262); each of them is a truthy value. */
  const ObjectPrototypeNames: set<string> :=
    {"constructor", "hasOwnProperty", "isPrototypeOf", "propertyIsEnumerable", "toLocaleString",
     "toString", "valueOf", "__defineGetter__", "__defineSetter__", "__lookupGetter__",
     "__lookupSetter__", "__proto__"}

  /** Each key is listed once, and exactly the keys are listed. */
  ghost predicate WellFormed<D>(c: Cache<D>)
  {
    (forall i, j :: 0 <= i < j < |c.names| ==> c.names[i] != c.names[j])
    && (forall n :: n in c.names <==> n in c.entries)
  }

  /** The provider's initial cache `{}`. */
  function EmptyCache<D>(): (c: Cache<D>)
    ensures WellFormed(c) && c.entries == map[]
  {
    Cache([], map[])
  }

  function AddPokemon<D>(name: string, data: Nullable<D>): CacheAction<D>
  {
    CacheAction("ADD_POKEMON", name, data)
  }

  /** `pokemonCacheReducer`: `ADD_POKEMON` stores the data under the name, overwriting, and keeps
      every other entry; any other tag throws an error naming it. */
  function CacheReducer<D>(c: Cache<D>, a: CacheAction<D>): (r: Result<Cache<D>>)
    ensures r.Ok? <==> a.kind == "ADD_POKEMON"
    ensures r.Ok? ==>
      && a.pokemonName in r.value.entries && r.value.entries[a.pokemonName] == a.pokemonData
      && r.value.entries.Keys == c.entries.Keys + {a.pokemonName}
      && (forall n :: n in c.entries && n != a.pokemonName ==> r.value.entries[n] == c.entries[n])
    ensures r.Err? ==> r.error == Failure("Unhandled action type: " + a.kind)
  {
    if a.kind == "ADD_POKEMON" then
      var names := if a.pokemonName in c.entries then c.names else c.names + [a.pokemonName];
      Ok(Cache(names, c.entries[a.pokemonName := a.pokemonData]))
    else
      Err(Failure("Unhandled action type: " + a.kind))
  }

  /** The cache after a sequence of actions, or the error of the first one that throws. */
  function ReduceCache<D>(c: Cache<D>, actions: seq<CacheAction<D>>): Result<Cache<D>>
    decreases |actions|
  {
    if |actions| == 0 then Ok(c)
    else match CacheReducer(c, actions[0])
      case Ok(next) => ReduceCache(next, actions[1..])
      case Err(f) => Err(f)
  }

  /** `cache[name]` as JavaScript evaluates it on a plain object: own properties first, then the
      prototype's. */
  function ReadProperty<D>(c: Cache<D>, name: string): (r: PropertyRead<D>)
    ensures r.Own? <==> name in c.entries
    ensures r.Own? ==> r.data == c.entries[name]
    ensures r.Inherited? <==> name !in c.entries && name in ObjectPrototypeNames
  {
    if name in c.entries then Own(c.entries[name])
    else if name in ObjectPrototypeNames then Inherited(name)
    else Absent
  }

  /** A lookup of the cache's own entries: a hit is a truthy stored value. */
  function Lookup<D>(c: Cache<D>, name: string): (r: Option<D>)
    ensures r.Some? <==> name in c.entries && c.entries[name].Value?
    ensures r.Some? ==> c.entries[name] == Value(r.value)
  {
    if name in c.entries && c.entries[name].Value? then Some(c.entries[name].value) else None
  }

  /** The branch the effect of `PokemonInfo` takes, as written: the hit test reads `cache[name]`,
      which also finds the members of `Object.prototype`. */
  function ConsultAsWritten<D>(c: Cache<D>, name: string): (r: ConsultStep<D>)
    ensures r.Skip? <==> name == ""
    ensures r.AdoptInherited? <==> name != "" && name !in c.entries && name in ObjectPrototypeNames
  {
    if name == "" then Skip
    else match ReadProperty(c, name)
      case Own(Value(d)) => AdoptCached(d)
      case Inherited(m) => AdoptInherited(m)
      case _ => Fetch
  }

  /** The branch the effect takes when the hit test looks only at the cache's own entries:
      no name does nothing, a cached value is adopted, and anything else is fetched. */
  function ConsultDecision<D>(c: Cache<D>, name: string): (r: ConsultStep<D>)
    ensures r.Skip? <==> name == ""
    ensures r.AdoptCached? <==> name != "" && Lookup(c, name).Some?
    ensures r.AdoptCached? ==> c.entries[name] == Value(r.data)
    ensures r.Fetch? <==> name != "" && Lookup(c, name).None?
    ensures !r.AdoptInherited?
  {
    if name == "" then Skip
    else match Lookup(c, name)
      case Some(d) => AdoptCached(d)
      case None => Fetch
  }

  /** `usePokemon`: throws outside a provider, otherwise hands back the context's pair unchanged. */
  function UsePokemon<D>(ctx: Option<ContextValue<D>>): (r: Result<ContextValue<D>>)
    ensures r.Ok? <==> ctx.Some?
    ensures r.Ok? ==> r.value == ctx.value
    ensures r.Err? ==> r.error == Failure("usePokemon must be used within a PokemonCacheProvider")
  {
    match ctx
    case Some(v) => Ok(v)
    case None => Err(Failure("usePokemon must be used within a PokemonCacheProvider"))
  }

  /** The names `PreviousPokemon` lists: every key of the cache, each once. */
  function PreviousNames<D>(c: Cache<D>): (r: seq<string>)
    requires WellFormed(c)
    ensures forall n :: n in r <==> n in c.entries
    ensures forall i, j :: 0 <= i < j < |r| ==> r[i] != r[j]
  {
    c.names
  }

  /** Adding a pokemon keeps the key list well formed; a new name is listed last, a known one keeps its place. */
  lemma AddKeepsWellFormed<D>(c: Cache<D>, name: string, data: Nullable<D>)
    requires WellFormed(c)
    ensures WellFormed(CacheReducer(c, AddPokemon(name, data)).value)
    ensures name in c.entries ==> PreviousNames(CacheReducer(c, AddPokemon(name, data)).value) == PreviousNames(c)
    ensures name !in c.entries ==> PreviousNames(CacheReducer(c, AddPokemon(name, data)).value) == PreviousNames(c) + [name]
  {
    var r := CacheReducer(c, AddPokemon(name, data)).value;
    if name !in c.entries {
      assert name !in c.names;
      forall n
        ensures n in r.names <==> n in r.entries
      {
        assert n in r.names <==> n in c.names || n == name;
      }
    }
  }

  /** Cache round trip: a name just added is a hit with the same data, on own entries. */
  lemma AddThenLookup<D>(c: Cache<D>, name: string, data: D)
    ensures Lookup(CacheReducer(c, AddPokemon(name, Value(data))).value, name) == Some(data)
    ensures name != "" ==> ConsultDecision(CacheReducer(c, AddPokemon(name, Value(data))).value, name) == AdoptCached(data)
  {
  }

  /** A second add under the same name overwrites the first: nothing of the first stays. */
  lemma AddOverwrites<D>(c: Cache<D>, name: string, first: Nullable<D>, second: Nullable<D>)
    ensures CacheReducer(CacheReducer(c, AddPokemon(name, first)).value, AddPokemon(name, second)).value.entries
         == CacheReducer(c, AddPokemon(name, second)).value.entries
  {
  }

  /** A lookup of a name the cache does not hold is a miss. */
  lemma UnknownNameMisses<D>(c: Cache<D>, name: string)
    requires name !in c.entries
    ensures Lookup(c, name).None?
  {
  }

  /** No sequence of actions removes a key or breaks the key list. */
  lemma {:induction false} KeysOnlyGrow<D>(c: Cache<D>, actions: seq<CacheAction<D>>)
    requires WellFormed(c)
    ensures ReduceCache(c, actions).Ok? ==>
      c.entries.Keys <= ReduceCache(c, actions).value.entries.Keys && WellFormed(ReduceCache(c, actions).value)
    decreases |actions|
  {
    if |actions| > 0 && CacheReducer(c, actions[0]).Ok? {
      var a := actions[0];
      AddKeepsWellFormed(c, a.pokemonName, a.pokemonData);
      KeysOnlyGrow(CacheReducer(c, a).value, actions[1..]);
    }
  }

  /** The discrepancy: on an empty cache the name "constructor" is taken as a hit, so no fetch is
      run and an inherited function is adopted as pokemon data; the own-entry lookup fetches it. */
  lemma InheritedNameIsAHit<D>()
    ensures ConsultAsWritten(EmptyCache<D>(), "constructor") == AdoptInherited("constructor")
    ensures ConsultDecision(EmptyCache<D>(), "constructor") == Fetch
  {
    assert "constructor" in ObjectPrototypeNames;
  }

  /** The two hit tests agree on every name that is not an `Object.prototype` member or that the cache holds. */
  lemma ConsultAgreesOffPrototype<D>(c: Cache<D>, name: string)
    requires name !in ObjectPrototypeNames || name in c.entries
    ensures ConsultAsWritten(c, name) == ConsultDecision(c, name)
  {
  }

  /** The state of `PokemonCacheProvider`: the cache its `useReducer` holds. */
  class CacheStore<D> {
    var cache: Cache<D>

    ghost predicate Valid()
      reads this
    {
      WellFormed(cache)
    }

    constructor ()
      ensures Valid() && cache == EmptyCache()
    {
      cache := EmptyCache();
    }

    /** The provider's `dispatch`: the reducer's new cache, or no change and its error when it throws. */
    method Dispatch(a: CacheAction<D>) returns (thrown: Option<Failure>)
      requires Valid()
      modifies this
      ensures Valid()
      ensures match CacheReducer(old(cache), a)
              case Ok(next) => cache == next && thrown.None?
              case Err(f) => cache == old(cache) && thrown == Some(f)
    {
      match CacheReducer(cache, a)
      case Ok(next) =>
        AddKeepsWellFormed(cache, a.pokemonName, a.pokemonData);
        cache := next;
        thrown := None;
      case Err(f) =>
        thrown := Some(f);
    }
  }

  /** One `PokemonInfo` component: the provider's store, its `useAsync` session, and the fetches
      its effect has started, by ticket, with the name each one is for. */
  class PokemonInfo<D, E> {
    const store: CacheStore<D>
    const session: AsyncSession<D, E>
    var fetching: map<nat, string>

    ghost predicate Valid()
      reads this, store, session
    {
      store.Valid() && session.Valid() && forall t :: t in fetching ==> t in session.waiting
    }

    constructor (store: CacheStore<D>, session: AsyncSession<D, E>)
      requires store.Valid() && session.Valid()
      ensures Valid() && this.store == store && this.session == session && fetching == map[]
    {
      this.store := store;
      this.session := session;
      fetching := map[];
    }

    /** The effect for `name`: nothing without a name; a hit on the cache's own entries is adopted
        with `setData` and `run` is not called; a miss runs the fetch, whose ticket is returned. */
    method Effect(name: string) returns (ticket: Option<nat>)
      requires Valid()
      modifies this, session
      ensures Valid()
      ensures session.mounted == old(session.mounted)
      ensures match ConsultDecision(old(store.cache), name)
        case AdoptCached(d) =>
          session.state == Guarded(session.mounted, old(session.state), ResolvedAction(Value(d)))
          && (session.mounted ==> session.state == InfoState(Resolved, Value(d), Null))
          && ticket.None? && fetching == old(fetching)
          && session.waiting == old(session.waiting) && session.nextTicket == old(session.nextTicket)
          && session.attempted == old(session.attempted) + [ResolvedAction(Value(d))]
        case Fetch =>
          ticket == Some(old(session.nextTicket))
          && fetching == old(fetching)[old(session.nextTicket) := name]
          && session.waiting == old(session.waiting) + {old(session.nextTicket)}
          && session.state == Guarded(session.mounted, old(session.state), PendingAction())
          && session.attempted == old(session.attempted) + [PendingAction()]
        case _ =>
          session.state == old(session.state) && ticket.None? && fetching == old(fetching)
          && session.waiting == old(session.waiting) && session.attempted == old(session.attempted)
    {
      match ConsultDecision(store.cache, name)
      case Skip =>
        ticket := None;
      case AdoptCached(d) =>
        session.SetData(Value(d));
        ticket := None;
      case Fetch =>
        ticket := session.Run(Thenable);
        fetching := fetching[ticket.value := name];
    }

    /** The fetch behind ticket `t` settles. On success the continuation adds the data to the cache
        under the fetched name (through the provider's unguarded `dispatch`) and passes the same data
        on to `run`'s handler; on failure the cache is untouched and the handler sees the same reason. */
    method FetchSettled(t: nat, o: Outcome<D, E>)
      requires Valid()
      modifies this, store, session
      ensures Valid()
      ensures session.mounted == old(session.mounted)
      ensures t in old(fetching) ==>
        fetching == old(fetching) - {t}
        && store.cache == (match o
                           case Fulfilled(v) => CacheReducer(old(store.cache), AddPokemon(old(fetching)[t], v)).value
                           case Failed(_) => old(store.cache))
        && session.state == Guarded(session.mounted, old(session.state), SettleAction(o))
        && session.waiting == old(session.waiting) - {t}
      ensures t !in old(fetching) ==>
        fetching == old(fetching) && store.cache == old(store.cache)
        && session.state == old(session.state) && session.waiting == old(session.waiting)
    {
      if t in fetching {
        var name := fetching[t];
        if o.Fulfilled? {
          var _ := store.Dispatch(AddPokemon(name, o.value));
        }
        session.Settle(t, o);
        fetching := fetching - {t};
      }
    }
  }
}
