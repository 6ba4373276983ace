/** Calls to the server and writes to the secrets tree, each of which can fail or be the last of a run. */
module Remote {
  import opened Common

  /** A call is answered, or fails before it takes effect, or takes effect and then fails. */
  datatype Fate = Answered | LostRequest | LostReply

  /**
   What the server does with a role a group already holds. The repository says three things of it:
   nothing is refused; the same binding a second time is; any second binding of the role is, at
   whatever scope. The model is stated for each.
   */
  datatype ScopeRule = NoUniqueness | ManyScopes | OneScope

  /** The state that outlives runs, the fates of this run's calls, and the next unused random value. */
  datatype World<S> = World(state: S, fates: seq<Fate>, next: nat)

  /** Why a run stopped: killed, a call failed, or what it found was refused. */
  datatype Stop = CutOff | CallFailed | BadName | Ambiguous | Missing | NotBound | WrongTenant | HasChildren
    | ResetRequired

  datatype Step<S, +T> = Step(world: World<S>, result: Result<T, Stop>)

  /** One call: `changed` is the state if it takes effect, `value` the answer if it is answered. */
  function Call<S, T>(w: World<S>, changed: S, value: T): Step<S, T> {
    if w.fates == [] then Step(w, Err(CutOff))
    else
      var state := if w.fates[0] == LostRequest then w.state else changed;
      Step(w.(state := state, fates := w.fates[1..]), if w.fates[0] == Answered then Ok(value) else Err(CallFailed))
  }

  /** A stored secret, or a fresh one stored before anything is done with it. */
  function StoredOrFresh<S>(w: World<S>, stored: Option<nat>, store: (S, nat) -> S): Step<S, nat> {
    if stored.Some? then Step(w, Ok(stored.value))
    else Call(w.(next := w.next + 1), store(w.state, w.next), w.next)
  }

  /** The next `n` calls are answered. */
  predicate Clear(fates: seq<Fate>, n: nat) { n <= |fates| && forall i | 0 <= i < n :: fates[i] == Answered }

  /** An answered call takes effect and leaves the rest of the fates to come. */
  lemma AnsweredCall<S, T>(w: World<S>, changed: S, value: T, rest: nat)
    ensures Clear(w.fates, 1 + rest) ==>
              Call(w, changed, value) == Step(w.(state := changed, fates := w.fates[1..]), Ok(value))
                                         && Clear(Call(w, changed, value).world.fates, rest)
  {
  }

  lemma ClearTail(fates: seq<Fate>, n: nat)
    ensures Clear(fates, 1 + n) ==> fates != [] && fates[0] == Answered && Clear(fates[1..], n)
  {
  }

  lemma ClearLess(fates: seq<Fate>, n: nat, m: nat)
    requires m <= n
    ensures Clear(fates, n) ==> Clear(fates, m)
  {
  }

  /** The program's side of a run: the state as it stands, the fates and values still to come. */
  class Caller<S> {
    var state: S
    var fates: seq<Fate>
    var next: nat

    function Now(): World<S>
      reads this
    {
      World(state, fates, next)
    }

    constructor (w: World<S>)
      ensures Now() == w
    {
      state, fates, next := w.state, w.fates, w.next;
    }

    /** One call; the caller says what it changes if it takes effect. */
    method Do(changed: S) returns (r: Result<(), Stop>)
      modifies this
      ensures Step(Now(), r) == Call(old(Now()), changed, ())
    {
      if fates == [] {
        return Err(CutOff);
      }
      if fates[0] != LostRequest {
        state := changed;
      }
      r := if fates[0] == Answered then Ok(()) else Err(CallFailed);
      fates := fates[1..];
    }

    method ReadOrMint(stored: Option<nat>, store: (S, nat) -> S) returns (r: Result<nat, Stop>)
      modifies this
      ensures Step(Now(), r) == StoredOrFresh(old(Now()), stored, store)
    {
      if stored.Some? {
        return Ok(stored.value);
      }
      var secret := Draw();
      var _ :- Do(store(state, secret));
      r := Ok(secret);
    }

    /** A value no earlier run has used. */
    method Draw() returns (value: nat)
      modifies this
      ensures value == old(next) && Now() == old(Now()).(next := value + 1)
    {
      value := next;
      next := next + 1;
    }
  }
}
