/** The asynchronous-operation state machine of src/exercise/02.js: the pure `pokemonInfoReducer`,
    the mounted-flag guard of `useSafeDispatch`, and `useAsync` with its `run`. A promise is not
    awaited here: `run` registers a pending settlement, and the environment later delivers it by
    calling `Settle`. */
module AsyncInfo {
  import opened JsModel

  datatype Status = Idle | Pending | Resolved | Rejected

  /** The reducer state `{status, data, error}`. */
  datatype InfoState<D, E> = InfoState(status: Status, data: Nullable<D>, error: Nullable<E>)

  /** A dispatched action: its `type` tag and the `data` and `error` properties it may carry. */
  datatype InfoAction<D, E> = InfoAction(kind: string, data: Nullable<D>, error: Nullable<E>)

  /** What `run` is given: a falsy value, or a promise-like value that settles later. */
  datatype PromiseArg = Falsy | Thenable

  /** How a promise settles: fulfilled with a value or rejected with a reason. */
  datatype Outcome<D, E> = Fulfilled(value: Nullable<D>) | Failed(reason: Nullable<E>)

  /** What the guarded dispatcher gives back: nothing when it drops the action, otherwise what
      the underlying dispatch produced (the reducer's error, if it threw). */
  datatype DispatchReturn = Dropped | Forwarded(thrown: Option<Failure>)

  function PendingAction<D, E>(): InfoAction<D, E> { InfoAction("pending", Null, Null) }

  function ResolvedAction<D, E>(data: Nullable<D>): InfoAction<D, E> { InfoAction("resolved", data, Null) }

  function RejectedAction<D, E>(error: Nullable<E>): InfoAction<D, E> { InfoAction("rejected", Null, error) }

  /** The action the `then` handlers of `run` dispatch for an outcome. */
  function SettleAction<D, E>(o: Outcome<D, E>): (a: InfoAction<D, E>)
    ensures IsInfoKind(a.kind) && a.kind != "pending"
    ensures o.Fulfilled? ==> a.kind == "resolved" && a.data == o.value && a.error.Null?
    ensures o.Failed? ==> a.kind == "rejected" && a.error == o.reason && a.data.Null?
  {
    match o
    case Fulfilled(v) => ResolvedAction(v)
    case Failed(e) => RejectedAction(e)
  }

  predicate IsInfoKind(kind: string)
  {
    kind == "pending" || kind == "resolved" || kind == "rejected"
  }

  /** The state invariant: data is present only when resolved, an error only when rejected. */
  predicate Consistent<D, E>(s: InfoState<D, E>)
  {
    (s.data.Value? ==> s.status == Resolved) && (s.error.Value? ==> s.status == Rejected)
  }

  /** `pokemonInfoReducer`: each known tag gives a fixed, consistent state; any other tag throws. */
  function InfoReducer<D, E>(s: InfoState<D, E>, a: InfoAction<D, E>): (r: Result<InfoState<D, E>>)
    ensures r.Ok? <==> IsInfoKind(a.kind)
    ensures r.Ok? ==> Consistent(r.value) && r.value.status != Idle
    ensures a.kind == "pending" ==> r == Ok(InfoState(Pending, Null, Null))
    ensures a.kind == "resolved" ==> r == Ok(InfoState(Resolved, a.data, Null))
    ensures a.kind == "rejected" ==> r == Ok(InfoState(Rejected, Null, a.error))
    ensures r.Err? ==> r.error == Failure("Unhandled action type: " + a.kind)
  {
    if a.kind == "pending" then Ok(InfoState(Pending, Null, Null))
    else if a.kind == "resolved" then Ok(InfoState(Resolved, a.data, Null))
    else if a.kind == "rejected" then Ok(InfoState(Rejected, Null, a.error))
    else Err(Failure("Unhandled action type: " + a.kind))
  }

  /** The state after React's dispatch hands `a` to the reducer; a throwing reducer changes nothing. */
  function Reduce<D, E>(s: InfoState<D, E>, a: InfoAction<D, E>): InfoState<D, E>
  {
    match InfoReducer(s, a)
    case Ok(next) => next
    case Err(_) => s
  }

  /** The reducer's error for `a`, if it throws. */
  function Thrown<D, E>(s: InfoState<D, E>, a: InfoAction<D, E>): Option<Failure>
  {
    match InfoReducer(s, a)
    case Ok(_) => None
    case Err(f) => Some(f)
  }

  /** The state after the dispatcher of `useSafeDispatch` is called with `a`. */
  function Guarded<D, E>(mounted: bool, s: InfoState<D, E>, a: InfoAction<D, E>): (r: InfoState<D, E>)
    ensures !mounted ==> r == s
    ensures mounted && IsInfoKind(a.kind) ==> r == InfoReducer(s, a).value
    ensures mounted && !IsInfoKind(a.kind) ==> r == s
    ensures Consistent(s) ==> Consistent(r)
  {
    if mounted then Reduce(s, a) else s
  }

  /** The state after a sequence of guarded dispatches with the flag held at `mounted`. */
  function DispatchAll<D, E>(mounted: bool, s: InfoState<D, E>, actions: seq<InfoAction<D, E>>): InfoState<D, E>
    decreases |actions|
  {
    if |actions| == 0 then s else DispatchAll(mounted, Guarded(mounted, s, actions[0]), actions[1..])
  }

  /** The three transitions of the reducer, from any state. */
  lemma TransitionTable<D, E>(s: InfoState<D, E>, d: Nullable<D>, e: Nullable<E>)
    ensures InfoReducer(s, PendingAction()) == Ok(InfoState(Pending, Null, Null))
    ensures InfoReducer(s, ResolvedAction(d)) == Ok(InfoState(Resolved, d, Null))
    ensures InfoReducer(s, RejectedAction(e)) == Ok(InfoState(Rejected, Null, e))
  {
  }

  /** The reducer never looks at the state it is given: the same action gives the same result. */
  lemma ReducerIgnoresState<D, E>(s1: InfoState<D, E>, s2: InfoState<D, E>, a: InfoAction<D, E>)
    ensures InfoReducer(s1, a) == InfoReducer(s2, a)
  {
  }

  /** While the flag is false, no number of dispatches changes the state. */
  lemma {:induction false} DroppedWhileUnmounted<D, E>(s: InfoState<D, E>, actions: seq<InfoAction<D, E>>)
    ensures DispatchAll(false, s, actions) == s
    decreases |actions|
  {
    if |actions| > 0 {
      DroppedWhileUnmounted(s, actions[1..]);
    }
  }

  /** Every sequence of dispatches, mounted or not, with known or unknown tags, keeps the state invariant. */
  lemma {:induction false} DispatchKeepsConsistent<D, E>(mounted: bool, s: InfoState<D, E>, actions: seq<InfoAction<D, E>>)
    requires Consistent(s)
    ensures Consistent(DispatchAll(mounted, s, actions))
    decreases |actions|
  {
    if |actions| > 0 {
      DispatchKeepsConsistent(mounted, Guarded(mounted, s, actions[0]), actions[1..]);
    }
  }

  /** Overlapping runs: whichever settlement is delivered last decides the state. */
  lemma LastSettledWins<D, E>(mounted: bool, s: InfoState<D, E>, first: Outcome<D, E>, last: Outcome<D, E>)
    ensures Guarded(mounted, Guarded(mounted, s, SettleAction(first)), SettleAction(last))
         == Guarded(mounted, s, SettleAction(last))
  {
  }

  /** A run while mounted: `pending` is observable until the settlement, which then decides the state. */
  lemma RunThenSettle<D, E>(s: InfoState<D, E>, o: Outcome<D, E>)
    ensures Guarded(true, s, PendingAction()) == InfoState(Pending, Null, Null)
    ensures DispatchAll(true, s, [PendingAction(), SettleAction(o)])
         == match o
            case Fulfilled(v) => InfoState(Resolved, v, Null)
            case Failed(e) => InfoState(Rejected, Null, e)
  {
    var run: seq<InfoAction<D, E>> := [PendingAction(), SettleAction(o)];
    var pending := Guarded(true, s, PendingAction());
    assert run[1..] == [SettleAction(o)] && run[1..][1..] == [];
    assert DispatchAll(true, s, run) == DispatchAll(true, pending, [SettleAction(o)]);
    assert DispatchAll(true, pending, [SettleAction(o)]) == Guarded(true, pending, SettleAction(o));
  }

  /** One `useAsync` instance inside one component: the reducer state, the `mounted` ref of
      `useSafeDispatch`, and the `then` handlers `run` has registered and that have not yet fired,
      each identified by a ticket. `attempted` records every action handed to the guarded dispatcher. */
  class AsyncSession<D, E> {
    var state: InfoState<D, E>
    var mounted: bool
    var waiting: set<nat>
    var nextTicket: nat
    ghost var attempted: seq<InfoAction<D, E>>

    ghost predicate Valid()
      reads this
    {
      Consistent(state) && forall t :: t in waiting ==> t < nextTicket
    }

    /** `useAsync(status)`: the given status with no data and no error; the flag starts false. */
    constructor (initial: Status)
      ensures Valid()
      ensures state == InfoState(initial, Null, Null)
      ensures !mounted && waiting == {} && attempted == []
    {
      state := InfoState(initial, Null, Null);
      mounted := false;
      waiting := {};
      nextTicket := 0;
      attempted := [];
    }

    /** The mount effect of `useSafeDispatch`. */
    method Mount()
      modifies this`mounted
      ensures mounted
    {
      mounted := true;
    }

    /** The cleanup of that effect. */
    method Unmount()
      modifies this`mounted
      ensures !mounted
    {
      mounted := false;
    }

    /** The dispatcher `useSafeDispatch` returns: forwards `a` to the reducer only while mounted. */
    method Dispatch(a: InfoAction<D, E>) returns (r: DispatchReturn)
      requires Valid()
      modifies this`state, this`attempted
      ensures Valid()
      ensures state == Guarded(mounted, old(state), a)
      ensures r == if mounted then Forwarded(Thrown(old(state), a)) else Dropped
      ensures attempted == old(attempted) + [a]
    {
      attempted := attempted + [a];
      if mounted {
        match InfoReducer(state, a)
        case Ok(next) =>
          state := next;
          r := Forwarded(None);
        case Err(f) =>
          r := Forwarded(Some(f));
      } else {
        r := Dropped;
      }
    }

    /** `run(promise)`: nothing for a falsy argument; otherwise `pending` is dispatched at once and
        a settlement is registered, whose ticket is returned. */
    method Run(p: PromiseArg) returns (ticket: Option<nat>)
      requires Valid()
      modifies this
      ensures Valid()
      ensures mounted == old(mounted)
      ensures p.Falsy? ==>
        ticket.None? && state == old(state) && waiting == old(waiting)
        && nextTicket == old(nextTicket) && attempted == old(attempted)
      ensures p.Thenable? ==>
        ticket == Some(old(nextTicket)) && old(nextTicket) !in old(waiting)
        && waiting == old(waiting) + {old(nextTicket)}
        && state == Guarded(mounted, old(state), PendingAction())
        && attempted == old(attempted) + [PendingAction()]
    {
      if p.Falsy? {
        return None;
      }
      var _ := Dispatch(PendingAction());
      ticket := Some(nextTicket);
      waiting := waiting + {nextTicket};
      nextTicket := nextTicket + 1;
    }

    /** The environment delivers the settlement of ticket `t`: its handler dispatches `resolved` or
        `rejected` through the guard and is spent; a ticket that is not waiting fires nothing. */
    method Settle(t: nat, o: Outcome<D, E>)
      requires Valid()
      modifies this
      ensures Valid()
      ensures mounted == old(mounted) && nextTicket == old(nextTicket)
      ensures t in old(waiting) ==>
        waiting == old(waiting) - {t}
        && state == Guarded(mounted, old(state), SettleAction(o))
        && attempted == old(attempted) + [SettleAction(o)]
      ensures t !in old(waiting) ==>
        waiting == old(waiting) && state == old(state) && attempted == old(attempted)
    {
      if t in waiting {
        waiting := waiting - {t};
        var _ := Dispatch(SettleAction(o));
      }
    }

    /** `setData(v)` of the `useAsync` that src/exercise/03.extra-2.js imports: like every state
        change of this hook it goes through the guard, and while mounted the state becomes resolved
        with `v`. */
    method SetData(v: Nullable<D>)
      requires Valid()
      modifies this`state, this`attempted
      ensures Valid()
      ensures state == Guarded(mounted, old(state), ResolvedAction(v))
      ensures mounted ==> state == InfoState(Resolved, v, Null)
      ensures !mounted ==> state == old(state)
      ensures attempted == old(attempted) + [ResolvedAction(v)]
    {
      var _ := Dispatch(ResolvedAction(v));
    }
  }

  /** A client: a run before mount is dropped, a run while mounted is observed as pending and then
      resolved, and after unmount neither a new run nor a late settlement changes the state. */
  method Scenario<D, E>(pikachu: D, late: D)
  {
    var session := new AsyncSession<D, E>(Idle);
    var early := session.Run(Thenable);
    assert session.state == InfoState(Idle, Null, Null);
    session.Mount();
    var a := session.Run(Thenable);
    assert session.state.status == Pending && a.Some?;
    session.Settle(a.value, Fulfilled(Value(pikachu)));
    assert session.state == InfoState(Resolved, Value(pikachu), Null);
    session.Settle(a.value, Failed(Null));
    assert session.state == InfoState(Resolved, Value(pikachu), Null);
    session.Unmount();
    var b := session.Run(Thenable);
    session.Settle(b.value, Fulfilled(Value(late)));
    assert session.state == InfoState(Resolved, Value(pikachu), Null);
  }
}
