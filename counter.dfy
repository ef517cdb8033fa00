/** The counter update rules of src/exercise/01.js: a `useState`-style reducer, a lazy
    initialiser and a traditional action reducer. All of them are pure. */
module Counter {
  import opened JsModel

  /** The second argument of `countReducer`: a function of the previous state, or a plain new state. */
  datatype Update<!S> = Apply(f: S -> S) | Replace(value: S)

  /** The third argument of `useReducer` receives this: a lazy initialiser or a plain initial state. */
  datatype Initial<S> = Lazy(init: () -> S) | Eager(value: S)

  /** A counter state: its `count` and any other own properties, with their values of type `V`,
      which an object spread copies. */
  datatype CountState<V> = CountState(count: int, rest: map<string, V>)

  /** An action of `traditionCountReducer`: its `type` tag and its `step`. */
  datatype CountAction = CountAction(kind: string, step: int)

  /** A state a JavaScript object can be: `count` is not also one of the other properties. */
  predicate Plain<V>(s: CountState<V>)
  {
    "count" !in s.rest
  }

  /** `countReducer`: a function update is applied to the previous state, any other update replaces it. */
  function CountReducer<S>(prev: S, u: Update<S>): (r: S)
    ensures u.Apply? ==> r == u.f(prev)
    ensures u.Replace? ==> r == u.value
  {
    match u
    case Apply(f) => f(prev)
    case Replace(v) => v
  }

  /** `initialCountReducer`: a lazy initialiser is called, any other initial value is kept. */
  function InitialCountReducer<S>(i: Initial<S>): (r: S)
    ensures i.Lazy? ==> r == i.init()
    ensures i.Eager? ==> r == i.value
  {
    match i
    case Lazy(init) => init()
    case Eager(v) => v
  }

  /** `traditionCountReducer`: `INCREMENT` adds the step and keeps every other property;
      any other tag throws an error naming it. */
  function TraditionCountReducer<V>(s: CountState<V>, a: CountAction): (r: Result<CountState<V>>)
    ensures r.Ok? <==> a.kind == "INCREMENT"
    ensures r.Ok? ==> r.value.count == s.count + a.step && r.value.rest == s.rest
    ensures r.Ok? && Plain(s) ==> Plain(r.value)
    ensures r.Err? ==> r.error == Failure("Unhandled reducer with action: " + a.kind)
  {
    if a.kind == "INCREMENT" then Ok(s.(count := s.count + a.step))
    else Err(Failure("Unhandled reducer with action: " + a.kind))
  }

  /** The updater the counter button hands to `setState`: a new object that holds only `count`. */
  function Increment<V(!new)>(step: int): (u: CountState<V> -> CountState<V>)
    ensures forall s :: u(s).count == s.count + step && u(s).rest == map[] && Plain(u(s))
  {
    (s: CountState<V>) => CountState(s.count + step, map[])
  }

  /** The state after the button has been clicked `n` times, each click going through `countReducer`. */
  function Clicks<V(!new)>(s: CountState<V>, step: int, n: nat): CountState
    decreases n
  {
    if n == 0 then s else Clicks(CountReducer(s, Apply(Increment(step))), step, n - 1)
  }

  /** The counter starts from `initialCount`: the lazy initialiser it passes is called once. */
  lemma CounterStartsAtInitialCount<V>(initialCount: int)
    ensures var s := InitialCountReducer(Lazy(() => CountState<V>.CountState(initialCount, map[])));
            s == CountState(initialCount, map[]) && Plain(s)
  {
  }

  /** A plain update overrides whatever the previous state was. */
  lemma ReplaceIgnoresPrevious<S>(p1: S, p2: S, v: S)
    ensures CountReducer(p1, Replace(v)) == CountReducer(p2, Replace(v)) == v
  {
  }

  /** Two function updates in a row act as their composition. */
  lemma FunctionUpdatesCompose<S>(s: S, f: S -> S, g: S -> S)
    ensures CountReducer(CountReducer(s, Apply(f)), Apply(g)) == CountReducer(s, Apply(x => g(f(x))))
  {
  }

  /** One click adds `step` to `count` and drops every other property. */
  lemma IncrementAddsStep<V(!new)>(s: CountState<V>, step: int)
    ensures CountReducer(s, Apply(Increment(step))) == CountState<V>.CountState(s.count + step, map[])
  {
  }

  /** The function update and the traditional `INCREMENT` action agree on the count;
      only the traditional one keeps the other properties. */
  lemma UpdateStylesAgree<V(!new)>(s: CountState<V>, step: int)
    ensures var t := TraditionCountReducer(s, CountAction("INCREMENT", step));
            t.Ok? && t.value.count == CountReducer(s, Apply(Increment(step))).count && t.value.rest == s.rest
  {
  }

  /** After `n` clicks the counter shows `count + n * step`. */
  lemma {:induction false} ClicksAccumulate<V(!new)>(s: CountState<V>, step: int, n: nat)
    ensures Clicks(s, step, n).count == s.count + n * step
    decreases n
  {
    if n > 0 {
      var next := CountReducer(s, Apply(Increment(step)));
      ClicksAccumulate(next, step, n - 1);
      assert next.count == s.count + step;
      assert (n - 1) * step + step == n * step;
    }
  }
}
