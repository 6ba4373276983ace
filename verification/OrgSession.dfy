/** The cookie-jar session of `hand_rolled.rs` making the calls of `org_bootstrap.rs` in their order. */
module OrgSession {
  import opened Common
  import opened Remote
  import opened OrgBootstrap

  class Session {
    const client: Caller<State>
    var csrf: bool

    constructor (client: Caller<State>)
      ensures this.client == client && !csrf
    {
      this.client, csrf := client, false;
    }

    /** A successful login leaves the token that later calls echo. */
    method SignIn(password: nat) returns (r: Result<(), Stop>)
      modifies this, client
      ensures Step(client.Now(), r) == Login(old(client.Now()), password)
      ensures csrf == (old(csrf) || r.Ok?)
    {
      r := client.Do(client.state);
      if r.Err? {
        return;
      }
      if client.state.admin != Some(password) {
        return Err(CallFailed);
      }
      csrf := true;
    }

    method CallBootstrap(password: nat, token: Option<nat>) returns (r: Result<Outcome, Stop>)
      modifies client
      ensures Step(client.Now(), r) == Bootstrap(old(client.Now()), password, token)
    {
      var s := client.state;
      var outcome := Answer(s, token);
      var used := if s.gate.Email? then Email else Consumed;
      var _ :- client.Do(if outcome.Created? then s.(admin := Some(password), gate := used) else s);
      r := Ok(outcome);
    }

    method RunStage(passed: Option<nat>) returns (r: Result<(), Stop>)
      requires !csrf
      modifies this, client
      ensures Step(client.Now(), r) == Run(old(client.Now()), passed)
    {
      var password :- client.ReadOrMint(client.state.stored, Stored);
      var probe := SignIn(password);
      if probe.Ok? {
        r := client.Do(client.state.(marked := true));
        return;
      }
      if probe.error == CutOff {
        return probe;
      }
      var token := if passed.Some? then passed else client.state.saved;
      var outcome :- CallBootstrap(password, token);
      if outcome.GateConsumed? {
        var again := SignIn(password);
        if again.Err? {
          return if again.error == CutOff then again else Err(ResetRequired);
        }
      }
      if !csrf {
        var _ :- SignIn(password);
      }
      r := client.Do(client.state.(marked := true));
    }
  }
}
