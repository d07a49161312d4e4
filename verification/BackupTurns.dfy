/**
 The loop of the server takes its turns one at a time.  `AppServer.Work` does a turn in one call; in
 `BackupProtocol` it is up to three steps of the loop, with any steps of the broker, the handlers
 and the clients between them.  The two are the same: from one time that the loop consumes a message
 to the next, it sends and registers, and spawns, exactly what `Work` does with that message.
 */
module BackupTurns {
  import opened Common
  import opened Announcement
  import opened BackupProtocol
  import opened BackupApp

  // What the loop sends in a step.
  function Sends(cfg: Config, s: State, e: Event): seq<Packet>
    requires Enabled(cfg, s, e)
  {
    if e.ServerConsumes? || e.ServerSubscribed? || e.ServerRegisters? then Apply(cfg, s, e).server.up[|s.server.up|..]
    else []
  }

  function AllSends(cfg: Config, s: State, es: seq<Event>): seq<Packet>
    requires Runs(cfg, s, es)
    decreases |es|
  {
    if es == [] then [] else Sends(cfg, s, es[0]) + AllSends(cfg, Apply(cfg, s, es[0]), es[1..])
  }

  // The messages that the handlers have been given.
  function Given(hs: seq<Handler>): seq<Message> {
    seq(|hs|, i requires 0 <= i < |hs| => hs[i].msg)
  }

  predicate InTurn(pc: ServerPc) {
    pc.Looping? || ((pc.Opening? || pc.Keying?) && Words(pc.announced) != [])
  }

  // What the turn has still to send, and whom it has still to register.
  function ToSend(cfg: Config, pc: ServerPc): seq<Packet>
    requires InTurn(pc)
  {
    if pc.Opening? then [Publish(Announced(cfg, pc.announced), cfg.key, None)] else []
  }

  function ToRegister(cfg: Config, pc: ServerPc): seq<ClientInfo>
    requires InTurn(pc)
  {
    if pc.Looping? then [] else [Registered(cfg, pc.announced)]
  }

  // A step of anybody else leaves the turn alone.
  lemma StepBesideTurn(cfg: Config, s: State, e: Event)
    requires Enabled(cfg, s, e) && InTurn(s.server.pc)
    requires !e.ServerConsumes? && !e.ServerSubscribed? && !e.ServerRegisters?
    ensures var s' := Apply(cfg, s, e);
      s'.server.pc == s.server.pc && s'.server.clients == s.server.clients
      && Given(s'.server.handlers) == Given(s.server.handlers)
  {
  }

  // One step in the middle of a turn.
  lemma StepOfTurn(cfg: Config, s: State, e: Event)
    requires Enabled(cfg, s, e) && InTurn(s.server.pc) && !e.ServerConsumes?
    ensures var s' := Apply(cfg, s, e);
      && InTurn(s'.server.pc)
      && Sends(cfg, s, e) + ToSend(cfg, s'.server.pc) == ToSend(cfg, s.server.pc)
      && s'.server.clients + ToRegister(cfg, s'.server.pc) == s.server.clients + ToRegister(cfg, s.server.pc)
      && Given(s'.server.handlers) == Given(s.server.handlers)
  {
    if !e.ServerSubscribed? && !e.ServerRegisters? {
      StepBesideTurn(cfg, s, e);
    }
  }

  predicate Consumes(es: seq<Event>) {
    exists i :: 0 <= i < |es| && es[i].ServerConsumes?
  }

  lemma {:induction false} RestOfTurn(cfg: Config, s: State, es: seq<Event>)
    requires Runs(cfg, s, es) && InTurn(s.server.pc) && !Consumes(es)
    ensures var s' := After(cfg, s, es);
      && InTurn(s'.server.pc)
      && AllSends(cfg, s, es) + ToSend(cfg, s'.server.pc) == ToSend(cfg, s.server.pc)
      && s'.server.clients + ToRegister(cfg, s'.server.pc) == s.server.clients + ToRegister(cfg, s.server.pc)
      && Given(s'.server.handlers) == Given(s.server.handlers)
    decreases |es|
  {
    if es != [] {
      assert forall i :: 0 <= i < |es[1..]| ==> es[1..][i] == es[i + 1];
      StepOfTurn(cfg, s, es[0]);
      RestOfTurn(cfg, Apply(cfg, s, es[0]), es[1..]);
    }
  }

  lemma TurnBegins(cfg: Config, s: State)
    requires Enabled(cfg, s, ServerConsumes)
    ensures var s', turn := Apply(cfg, s, ServerConsumes), TurnFor(cfg.isIP4, cfg.key, s.server.queue[0]);
      && InTurn(s'.server.pc)
      && Sends(cfg, s, ServerConsumes) + ToSend(cfg, s'.server.pc) == turn.sent
      && s'.server.clients + ToRegister(cfg, s'.server.pc) == s.server.clients + turn.registered
      && Given(s'.server.handlers) == Given(s.server.handlers) + turn.spawned
  {
  }

  // In every run from one time that the loop is about to consume a message to the next.
  lemma TurnIsWork(cfg: Config, s: State, es: seq<Event>)
    requires es != [] && es[0].ServerConsumes? && Runs(cfg, s, es) && !Consumes(es[1..])
    requires After(cfg, s, es).server.pc == Looping
    ensures var s', turn := After(cfg, s, es), TurnFor(cfg.isIP4, cfg.key, s.server.queue[0]);
      && AllSends(cfg, s, es) == turn.sent
      && s'.server.clients == s.server.clients + turn.registered
      && Given(s'.server.handlers) == Given(s.server.handlers) + turn.spawned
  {
    TurnBegins(cfg, s);
    RestOfTurn(cfg, Apply(cfg, s, ServerConsumes), es[1..]);
  }
}
