/**
 Creating the organization and its super-admin (`tools/domo-bootstrap/src/stages/org_bootstrap.rs`):
 a password stored before it is used, a login probe, and the one-time gate's three answers.
 */
module OrgBootstrap {
  import opened Common
  import opened Remote

  /** What lets the bootstrap route through: a token still to be used, one used up, or an admin's address. */
  datatype Gate = Token(token: nat) | Consumed | Email

  /** The super-admin's password on the server, its gate; the stored password, the saved token, the stage's marker. */
  datatype State = State(admin: Option<nat>, gate: Gate, stored: Option<nat>, saved: Option<nat>, marked: bool)

  datatype Outcome = Created | AlreadyInitialised | GateConsumed

  predicate Admits(gate: Gate, token: Option<nat>) {
    gate.Email? || (gate.Token? && token == Some(gate.token))
  }

  /** The server's answer to a bootstrap request. */
  function Answer(s: State, token: Option<nat>): Outcome {
    if s.admin.Some? then (if s.gate.Email? then AlreadyInitialised else GateConsumed)
    else if Admits(s.gate, token) then Created
    else GateConsumed
  }

  function Stored(s: State, password: nat): State { s.(stored := Some(password)) }

  function Credentials(w: World<State>): Step<State, nat> {
    StoredOrFresh(w, w.state.stored, Stored)
  }

  function Login(w: World<State>, password: nat): Step<State, ()> {
    var asked := Call(w, w.state, ());
    if asked.result.Ok? && w.state.admin != Some(password) then Step(asked.world, Err(CallFailed)) else asked
  }

  function Bootstrap(w: World<State>, password: nat, token: Option<nat>): Step<State, Outcome> {
    var outcome := Answer(w.state, token);
    var used := if w.state.gate.Email? then Email else Consumed;
    Call(w, if outcome.Created? then w.state.(admin := Some(password), gate := used) else w.state, outcome)
  }

  function Mark(w: World<State>): Step<State, ()> {
    Call(w, w.state.(marked := true), ())
  }

  function LoginThenMark(w: World<State>, password: nat): Step<State, ()> {
    var login := Login(w, password);
    if login.result.Ok? then Mark(login.world) else login
  }

  function AfterProbe(w: World<State>, password: nat, token: Option<nat>): Step<State, ()> {
    var boot := Bootstrap(w, password, token);
    if boot.result.Err? then Step(boot.world, Err(boot.result.error))
    else if boot.result.value.GateConsumed? then
      var again := LoginThenMark(boot.world, password);
      var login := Login(boot.world, password);
      if login.result == Err(CallFailed) then Step(login.world, Err(ResetRequired)) else again
    else LoginThenMark(boot.world, password)
  }

  /** `passed` is the caller's token; without one the saved token is used. */
  function Run(w: World<State>, passed: Option<nat>): Step<State, ()> {
    var creds := Credentials(w);
    if creds.result.Err? then Step(creds.world, Err(creds.result.error))
    else
      var password := creds.result.value;
      var probe := Login(creds.world, password);
      if probe.result.Ok? then Mark(probe.world)
      else if probe.result.error == CutOff then probe
      else AfterProbe(probe.world, password, if passed.Some? then passed else probe.world.state.saved)
  }

  // ---------------------------------------------------------------- what a run guarantees

  /** The super-admin's password, if there is a super-admin, is the stored one. */
  predicate WriteAhead(s: State) { s.admin.Some? ==> s.stored == s.admin }

  predicate SignsIn(s: State) { s.admin.Some? && s.stored == s.admin }

  /** Random values are fresh: none in use is still to come. */
  predicate Unused(w: World<State>) {
    (w.state.admin.Some? ==> w.state.admin.value < w.next) && (w.state.stored.Some? ==> w.state.stored.value < w.next)
  }

  function TokenUsed(s: State, passed: Option<nat>): Option<nat> { if passed.Some? then passed else s.saved }

  lemma AfterProbeChanges(w: World<State>, password: nat, token: Option<nat>)
    requires w.state.stored == Some(password)
    ensures var out := AfterProbe(w, password, token);
            var s := out.world.state;
            && out.world.next == w.next && s.stored == w.state.stored && s.saved == w.state.saved
            && ((s.admin == w.state.admin && s.gate == w.state.gate)
                || (w.state.admin.None? && Admits(w.state.gate, token) && s.admin == s.stored))
            && (out.result.Ok? ==> SignsIn(s) && s.marked)
  {
  }

  /** All that one run may change. */
  lemma RunChanges(w: World<State>, passed: Option<nat>)
    ensures var out := Run(w, passed);
            var s := out.world.state;
            && s.saved == w.state.saved && w.next <= out.world.next
            && (s.stored == w.state.stored || (w.state.stored.None? && s.stored == Some(w.next) &&
                out.world.next > w.next))
            && ((s.admin == w.state.admin && s.gate == w.state.gate)
                || (w.state.admin.None? && Admits(w.state.gate, TokenUsed(w.state, passed)) && SignsIn(s)))
            && (out.result.Ok? ==> SignsIn(s) && s.marked)
  {
    var creds := Credentials(w);
    if creds.result.Ok? {
      var probe := Login(creds.world, creds.result.value);
      AfterProbeChanges(probe.world, creds.result.value, TokenUsed(w.state, passed));
    }
  }

  /** At every point a run can be cut off, an account it made has its password in the stored file. */
  lemma RunWritesAhead(w: World<State>, passed: Option<nat>)
    requires WriteAhead(w.state)
    ensures WriteAhead(Run(w, passed).world.state)
    ensures w.state.stored.Some? ==> Run(w, passed).world.state.stored == w.state.stored
  {
    RunChanges(w, passed);
  }

  /** A run succeeds only if the stored credentials sign in, whatever state it found and whatever failed on the way. */
  lemma SuccessSignsIn(w: World<State>, passed: Option<nat>)
    requires Run(w, passed).result.Ok?
    ensures SignsIn(Run(w, passed).world.state) && Run(w, passed).world.state.marked
  {
    RunChanges(w, passed);
  }

  /**
   With its calls answered a run succeeds exactly when the stored credentials already sign in, or
   nobody holds the volume yet and the gate admits the token; a reset is demanded exactly when neither
   holds and the gate is closed.
   */
  lemma OutcomeExactly(w: World<State>, passed: Option<nat>)
    requires Unused(w) && Clear(w.fates, 5)
    ensures var token := TokenUsed(w.state, passed);
            var r := Run(w, passed).result;
            && (r.Ok? <==> SignsIn(w.state) || (w.state.admin.None? && Admits(w.state.gate, token)))
            && (r == Err(ResetRequired) <==>
                  !SignsIn(w.state) && !w.state.gate.Email?
                  && (w.state.admin.Some? || w.state.gate.Consumed? || token != Some(w.state.gate.token)))
            && (r == Err(CallFailed) <==> !SignsIn(w.state) && w.state.admin.Some? && w.state.gate.Email?)
  {
  }

  /** What a stretch of a run may do to the gate and the marker: use the gate up on creation, mark once signed in. */
  ghost predicate SpendsAndMarks(s: State, s': State) {
    && s'.gate == (if s'.admin == s.admin then s.gate else if s.gate.Email? then Email else Consumed)
    && (s.admin.Some? ==> s'.admin == s.admin) && (s.stored.Some? ==> s'.stored == s.stored)
    && (s.marked ==> s'.marked) && (s'.marked && !s.marked ==> SignsIn(s'))
  }

  lemma LoginThenMarkMarks(w: World<State>, password: nat)
    requires w.state.stored == Some(password)
    ensures var out := LoginThenMark(w, password);
            && SpendsAndMarks(w.state, out.world.state) && out.world.state.admin == w.state.admin
            && (out.result == Err(CutOff) ==> out.world.state == w.state)
  {
  }

  lemma BootstrapSpends(w: World<State>, password: nat, token: Option<nat>)
    ensures var out := Bootstrap(w, password, token);
            && SpendsAndMarks(w.state, out.world.state) && out.world.state.stored == w.state.stored
            && out.world.state.marked == w.state.marked
  {
  }

  lemma SpendsOn(a: State, b: State, c: State)
    requires SpendsAndMarks(a, b) && SpendsAndMarks(b, c) && b.marked == a.marked && c.admin == b.admin
    ensures SpendsAndMarks(a, c)
  {
  }

  lemma AfterProbeSpends(w: World<State>, password: nat, token: Option<nat>)
    requires w.state.stored == Some(password)
    ensures var out := AfterProbe(w, password, token);
            && SpendsAndMarks(w.state, out.world.state)
            && (out.result == Err(ResetRequired) || out.result == Err(CutOff) ==>
                  out.world.state.marked == w.state.marked)
  {
    BootstrapSpends(w, password, token);
    var boot := Bootstrap(w, password, token);
    if boot.result.Ok? {
      LoginThenMarkMarks(boot.world, password);
      SpendsOn(w.state, boot.world.state, LoginThenMark(boot.world, password).world.state);
    }
  }

  /**
   A run that creates the super-admin uses the token up; it writes the marker only once the stored
   credentials have signed in; and one that is cut off or demands a reset has not written it.
   */
  lemma RunSpendsAndMarks(w: World<State>, passed: Option<nat>)
    ensures var out := Run(w, passed);
            && SpendsAndMarks(w.state, out.world.state)
            && (out.result == Err(ResetRequired) || out.result == Err(CutOff) ==>
                  out.world.state.marked == w.state.marked)
  {
    var creds := Credentials(w);
    if creds.result.Ok? {
      var probe := Login(creds.world, creds.result.value);
      AfterProbeSpends(probe.world, creds.result.value, if passed.Some? then passed else probe.world.state.saved);
    }
  }

  /** The marker is never ahead of the work: where it is, the stored credentials sign in. */
  predicate MarkedSignsIn(s: State) { s.marked ==> SignsIn(s) }

  function AfterRuns(w: World<State>, runs: seq<seq<Fate>>, passed: Option<nat>): World<State>
    decreases |runs|
  {
    if runs == [] then w else AfterRuns(Run(w.(fates := runs[0]), passed).world, runs[1..], passed)
  }

  /** So at every cut of every history: if the marker stands, the stored credentials sign in. */
  lemma {:induction false} MarkersAreEarned(w: World<State>, runs: seq<seq<Fate>>, passed: Option<nat>)
    requires MarkedSignsIn(w.state)
    ensures MarkedSignsIn(AfterRuns(w, runs, passed).state)
    decreases |runs|
  {
    if runs != [] {
      var start := w.(fates := runs[0]);
      RunChanges(start, passed);
      RunSpendsAndMarks(start, passed);
      MarkersAreEarned(Run(start, passed).world, runs[1..], passed);
    }
  }

  /** The stored credentials sign in, or a run with this token can still make them. */
  predicate Recoverable(s: State, passed: Option<nat>) {
    SignsIn(s) || (s.admin.None? && Admits(s.gate, TokenUsed(s, passed)))
  }

  lemma RunIsNeverLockedOut(w: World<State>, passed: Option<nat>)
    requires Recoverable(w.state, passed) && Unused(w)
    ensures Unused(Run(w, passed).world) && Recoverable(Run(w, passed).world.state, passed)
  {
    RunChanges(w, passed);
  }

  /**
   From a volume whose gate admits the token, or whose super-admin is stored: however many runs are cut
   off, and wherever, the next one that is answered succeeds.
   */
  lemma {:induction false} InterruptedRunsRecover(w: World<State>, runs: seq<seq<Fate>>, last: seq<Fate>,
                                                  passed: Option<nat>)
    requires Recoverable(w.state, passed) && Unused(w) && Clear(last, 5)
    ensures Run(AfterRuns(w, runs, passed).(fates := last), passed).result.Ok?
    decreases |runs|
  {
    if runs == [] {
      OutcomeExactly(w.(fates := last), passed);
    } else {
      var start := w.(fates := runs[0]);
      RunIsNeverLockedOut(start, passed);
      InterruptedRunsRecover(Run(start, passed).world, runs[1..], last, passed);
    }
  }
}
