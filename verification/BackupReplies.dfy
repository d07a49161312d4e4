/**
 Requests and replies of the backup service match: every reply pairs with one "~" request that the
 server took from the same client's topic, no reply is ever served, and a request that the broker
 still retains is one whose reply it has not processed yet.
 */
module BackupReplies {
  import opened Common
  import opened BackupProtocol
  import R = BackupRegistration

  // ---- Places in the log ----

  ghost predicate IdsBelow(ms: seq<Message>, n: nat) {
    forall i :: 0 <= i < |ms| ==> ms[i].id < n
  }

  ghost predicate LogInv(s: State) {
    && (forall i :: 0 <= i < |s.log| ==> s.log[i].msg.id == i)
    && IdsBelow(s.server.down, |s.log|) && IdsBelow(s.server.queue, |s.log|)
    && (forall h :: 0 <= h < |s.server.handlers| ==> s.server.handlers[h].msg.id < |s.log|)
    // what is retained on a topic is the last message of that topic
    && (forall t :: t in s.slots ==> s.slots[t].id < |s.log|)
    && (forall t, j :: t in s.slots && 0 <= j < |s.log| && s.slots[t].id < j ==> s.log[j].msg.topic != t)
  }

  lemma PublishKeepsLogInv(s: State, origin: Party, topic: string, payload: string, cause: Option<nat>)
    requires LogInv(s)
    ensures LogInv(BrokerPublishes(s, origin, topic, payload, cause))
  {
  }

  lemma BrokerKeepsLogInv(cfg: Config, s: State, e: Event)
    requires LogInv(s) && Enabled(cfg, s, e) && (e.BrokerTakesServer? || e.BrokerTakesClient?)
    ensures LogInv(Apply(cfg, s, e))
  {
    if e.BrokerTakesServer? {
      if s.server.up[0].Publish? {
        var p := s.server.up[0];
        PublishKeepsLogInv(s.(server := s.server.(up := s.server.up[1..])), Server, p.topic, p.payload, p.cause);
      }
    } else {
      var c := s.clients[e.ip];
      if c.up[0].Publish? {
        var p := c.up[0];
        PublishKeepsLogInv(SetClient(s, e.ip, c.(up := c.up[1..])), Client(e.ip), p.topic, p.payload, p.cause);
      }
    }
  }

  lemma StepKeepsLogInv(cfg: Config, s: State, e: Event)
    requires LogInv(s) && Enabled(cfg, s, e)
    ensures LogInv(Apply(cfg, s, e))
  {
    if e.BrokerTakesServer? || e.BrokerTakesClient? {
      BrokerKeepsLogInv(cfg, s, e);
    }
  }

  // ---- Who replies to what ----

  predicate IsReplyTo(topic: string, payload: string, m: Message) {
    && topic == m.topic && IsRequest(m.payload)
    && (payload == Reply(m.payload, true) || payload == Reply(m.payload, false))
  }

  predicate SentBy(sv: ServerState, topic: string, payload: string, cause: Option<nat>) {
    cause.Some? ==>
      cause.value < |sv.handlers| && sv.handlers[cause.value].pc != Spawned
      && IsReplyTo(topic, payload, sv.handlers[cause.value].msg)
  }

  ghost predicate CauseInv(s: State) {
    && (forall i :: 0 <= i < |s.server.up| && s.server.up[i].Publish? ==>
          SentBy(s.server, s.server.up[i].topic, s.server.up[i].payload, s.server.up[i].cause))
    && (forall i :: 0 <= i < |s.log| ==>
          SentBy(s.server, s.log[i].msg.topic, s.log[i].msg.payload, s.log[i].cause)
          && (s.log[i].cause.Some? ==> s.server.handlers[s.log[i].cause.value].msg.id < i))
  }

  // How many replies of handler h the broker has still to take, and has taken.
  function InUp(up: seq<Packet>, h: nat): nat {
    if up == [] then 0 else (if up[0].Publish? && up[0].cause == Some(h) then 1 else 0) + InUp(up[1..], h)
  }

  function InLog(log: seq<Entry>, h: nat): nat {
    if log == [] then 0
    else InLog(log[..|log| - 1], h) + if log[|log| - 1].cause == Some(h) then 1 else 0
  }

  predicate HasReplied(sv: ServerState, h: nat) {
    h < |sv.handlers| && sv.handlers[h].pc != Spawned && IsRequest(sv.handlers[h].msg.payload)
  }

  ghost predicate CountInv(s: State, h: nat) {
    && InUp(s.server.up, h) + InLog(s.log, h) == (if HasReplied(s.server, h) then 1 else 0)
    && (HasReplied(s.server, h) && s.server.handlers[h].pc == Finished ==> InUp(s.server.up, h) == 0)
  }

  lemma {:induction false} InUpAppend(up: seq<Packet>, p: Packet, h: nat)
    ensures InUp(up + [p], h) == InUp(up, h) + if p.Publish? && p.cause == Some(h) then 1 else 0
  {
    if up == [] {
      assert up + [p] == [p];
      assert InUp([p], h) == (if p.Publish? && p.cause == Some(h) then 1 else 0) + InUp([p][1..], h);
    } else {
      assert (up + [p])[1..] == up[1..] + [p];
      InUpAppend(up[1..], p, h);
    }
  }

  lemma {:induction false} InUpNone(up: seq<Packet>, h: nat)
    requires forall p :: p in up && p.Publish? ==> p.cause != Some(h)
    ensures InUp(up, h) == 0
  {
    if up != [] {
      InUpNone(up[1..], h);
    }
  }

  lemma InLogAppend(log: seq<Entry>, e: Entry, h: nat)
    ensures InLog(log + [e], h) == InLog(log, h) + if e.cause == Some(h) then 1 else 0
  {
    assert (log + [e])[..|log|] == log;
  }

  // The handlers only ever grow in number and advance.
  ghost predicate HandlersKept(sv: ServerState, sv': ServerState) {
    && |sv.handlers| <= |sv'.handlers|
    && (forall h :: 0 <= h < |sv.handlers| ==>
          sv'.handlers[h].msg == sv.handlers[h].msg && (sv.handlers[h].pc != Spawned ==> sv'.handlers[h].pc != Spawned))
  }

  lemma StepKeepsHandlers(cfg: Config, s: State, e: Event)
    requires Enabled(cfg, s, e)
    ensures HandlersKept(s.server, Apply(cfg, s, e).server)
  {
  }

  // What the broker's steps do to the packets and the log.
  lemma ServerPacketTaken(cfg: Config, s: State)
    requires Enabled(cfg, s, BrokerTakesServer)
    ensures var s', p := Apply(cfg, s, BrokerTakesServer), s.server.up[0];
      && s'.server.handlers == s.server.handlers && s'.server.up == s.server.up[1..]
      && s'.log == s.log + if p.Publish? then [Entry(Message(p.topic, p.payload, Server, |s.log|), p.cause)] else []
  {
  }

  lemma ClientPacketTaken(cfg: Config, s: State, ip: string)
    requires R.Inv(cfg, s) && Enabled(cfg, s, BrokerTakesClient(ip))
    ensures var s', p := Apply(cfg, s, BrokerTakesClient(ip)), s.clients[ip].up[0];
      && s'.server.handlers == s.server.handlers && s'.server.up == s.server.up
      && s'.log == s.log + if p.Publish? then [Entry(Message(p.topic, p.payload, Client(ip), |s.log|), None)] else []
  {
    assert R.ClientSends(cfg, s.clients[ip], ip, s.clients[ip].up[0]);
  }

  lemma BrokerKeepsCauseInv(cfg: Config, s: State, e: Event)
    requires R.Inv(cfg, s) && LogInv(s) && CauseInv(s) && Enabled(cfg, s, e)
    requires e.BrokerTakesServer? || e.BrokerTakesClient?
    ensures CauseInv(Apply(cfg, s, e))
  {
    if e.BrokerTakesServer? {
      ServerPacketTaken(cfg, s);
    } else {
      ClientPacketTaken(cfg, s, e.ip);
    }
  }

  lemma OtherStepKeepsCauseInv(cfg: Config, s: State, e: Event)
    requires CauseInv(s) && Enabled(cfg, s, e) && !e.BrokerTakesServer? && !e.BrokerTakesClient?
    ensures CauseInv(Apply(cfg, s, e))
  {
    var s' := Apply(cfg, s, e);
    StepKeepsHandlers(cfg, s, e);
    assert s'.log == s.log;
    forall i | 0 <= i < |s'.server.up| && s'.server.up[i].Publish?
      ensures SentBy(s'.server, s'.server.up[i].topic, s'.server.up[i].payload, s'.server.up[i].cause)
    {
      assert i < |s.server.up| ==> s'.server.up[i] == s.server.up[i];
    }
  }

  lemma BrokerKeepsCountInv(cfg: Config, s: State, e: Event, h: nat)
    requires R.Inv(cfg, s) && CountInv(s, h) && Enabled(cfg, s, e)
    requires e.BrokerTakesServer? || e.BrokerTakesClient?
    ensures CountInv(Apply(cfg, s, e), h)
  {
    if e.BrokerTakesServer? {
      ServerPacketTaken(cfg, s);
      var p := s.server.up[0];
      if p.Publish? {
        InLogAppend(s.log, Entry(Message(p.topic, p.payload, Server, |s.log|), p.cause), h);
      }
    } else {
      ClientPacketTaken(cfg, s, e.ip);
      var p := s.clients[e.ip].up[0];
      if p.Publish? {
        InLogAppend(s.log, Entry(Message(p.topic, p.payload, Client(e.ip), |s.log|), None), h);
      }
    }
  }

  lemma OtherStepKeepsCountInv(cfg: Config, s: State, e: Event, h: nat)
    requires CountInv(s, h) && Enabled(cfg, s, e) && !e.BrokerTakesServer? && !e.BrokerTakesClient?
    ensures CountInv(Apply(cfg, s, e), h)
  {
    var up, up' := s.server.up, Apply(cfg, s, e).server.up;
    if up' != up {
      assert up' == up + [up'[|up|]];
      InUpAppend(up, up'[|up|], h);
    }
    if e == HandlerEnds(h) {
      InUpNone(up, h);
    }
  }

  // The messages that get a handler, among those that the loop has taken.
  function Served(cfg: Config, taken: seq<Message>): seq<Message> {
    if taken == [] then []
    else
      var m := taken[|taken| - 1];
      Served(cfg, taken[..|taken| - 1]) + if m.topic != PUBLIC && cfg.isIP4(m.topic) then [m] else []
  }

  function HandlerMessages(hs: seq<Handler>): seq<Message> {
    seq(|hs|, h requires 0 <= h < |hs| => hs[h].msg)
  }

  // Only the loop takes messages and makes handlers.
  lemma OnlyTheLoopServes(cfg: Config, s: State, e: Event)
    requires Enabled(cfg, s, e) && !e.ServerConsumes?
    ensures var sv, sv' := s.server, Apply(cfg, s, e).server;
      && sv'.taken == sv.taken && |sv'.handlers| == |sv.handlers|
      && forall h :: 0 <= h < |sv.handlers| ==> sv'.handlers[h].msg == sv.handlers[h].msg
  {
  }

  lemma StepKeepsServed(cfg: Config, s: State, e: Event)
    requires HandlerMessages(s.server.handlers) == Served(cfg, s.server.taken) && Enabled(cfg, s, e)
    ensures HandlerMessages(Apply(cfg, s, e).server.handlers) == Served(cfg, Apply(cfg, s, e).server.taken)
  {
    if e.ServerConsumes? {
      LoopKeepsServed(cfg, s);
    } else {
      OnlyTheLoopServes(cfg, s, e);
      assert HandlerMessages(Apply(cfg, s, e).server.handlers) == HandlerMessages(s.server.handlers);
    }
  }

  lemma LoopKeepsServed(cfg: Config, s: State)
    requires HandlerMessages(s.server.handlers) == Served(cfg, s.server.taken) && Enabled(cfg, s, ServerConsumes)
    ensures var sv' := Apply(cfg, s, ServerConsumes).server;
      HandlerMessages(sv'.handlers) == Served(cfg, sv'.taken)
  {
    var sv, m := s.server, s.server.queue[0];
    assert (sv.taken + [m])[..|sv.taken|] == sv.taken;
    assert HandlerMessages(sv.handlers + [Handler(m, Spawned)]) == HandlerMessages(sv.handlers) + [m];
  }

  ghost predicate Inv(cfg: Config, s: State) {
    && R.Inv(cfg, s) && LogInv(s) && CauseInv(s)
    && (forall h: nat :: CountInv(s, h))
    && HandlerMessages(s.server.handlers) == Served(cfg, s.server.taken)
  }

  lemma StepKeepsInv(cfg: Config, s: State, e: Event)
    requires Inv(cfg, s) && Enabled(cfg, s, e)
    ensures Inv(cfg, Apply(cfg, s, e))
  {
    R.StepKeepsInv(cfg, s, e);
    StepKeepsLogInv(cfg, s, e);
    StepKeepsServed(cfg, s, e);
    var broker := e.BrokerTakesServer? || e.BrokerTakesClient?;
    if broker {
      BrokerKeepsCauseInv(cfg, s, e);
    } else {
      OtherStepKeepsCauseInv(cfg, s, e);
    }
    forall h: nat ensures CountInv(Apply(cfg, s, e), h) {
      if broker {
        BrokerKeepsCountInv(cfg, s, e, h);
      } else {
        OtherStepKeepsCountInv(cfg, s, e, h);
      }
    }
  }

  lemma {:induction false} RunsKeepInv(cfg: Config, s: State, es: seq<Event>)
    requires Inv(cfg, s) && Runs(cfg, s, es)
    ensures Inv(cfg, After(cfg, s, es))
    decreases |es|
  {
    if es != [] {
      StepKeepsInv(cfg, s, es[0]);
      RunsKeepInv(cfg, Apply(cfg, s, es[0]), es[1..]);
    }
  }

  lemma InvHolds(cfg: Config, es: seq<Event>)
    requires ValidConfig(cfg) && Runs(cfg, Start(cfg), es)
    ensures Inv(cfg, After(cfg, Start(cfg), es))
  {
    RunsKeepInv(cfg, Start(cfg), es);
  }

  // ---- Results ----

  // In every run there is one handler for each message taken from a client's topic, in order.
  lemma OneHandlerPerMessage(cfg: Config, es: seq<Event>)
    requires ValidConfig(cfg) && Runs(cfg, Start(cfg), es)
    ensures var sv := After(cfg, Start(cfg), es).server;
      HandlerMessages(sv.handlers) == Served(cfg, sv.taken)
  {
    InvHolds(cfg, es);
  }

  // In every run, of the handler of any message taken by the loop: it has sent exactly one reply
  // if the message is a request and the handler has come so far, and none otherwise; once it has
  // ended the broker has that reply.
  lemma OneReplyPerRequest(cfg: Config, es: seq<Event>, h: nat)
    requires ValidConfig(cfg) && Runs(cfg, Start(cfg), es)
    ensures var s := After(cfg, Start(cfg), es);
      && InUp(s.server.up, h) + InLog(s.log, h) == (if HasReplied(s.server, h) then 1 else 0)
      && (HasReplied(s.server, h) && s.server.handlers[h].pc == Finished ==> InLog(s.log, h) == 1)
  {
    InvHolds(cfg, es);
    assert CountInv(After(cfg, Start(cfg), es), h);
  }

  // Every reply in the broker's log answers a request that the server took from the same topic
  // and that was published before it by a client, or was there from the start; and a reply is
  // not itself a request.
  lemma RepliesAnswerRequests(cfg: Config, es: seq<Event>, i: nat)
    requires ValidConfig(cfg) && Runs(cfg, Start(cfg), es)
    requires i < |After(cfg, Start(cfg), es).log| && After(cfg, Start(cfg), es).log[i].cause.Some?
    ensures var s := After(cfg, Start(cfg), es);
      var h := s.log[i].cause.value;
      && h < |s.server.handlers|
      && IsReplyTo(s.log[i].msg.topic, s.log[i].msg.payload, s.server.handlers[h].msg)
      && s.server.handlers[h].msg.id < i && s.server.handlers[h].msg.origin != Server
      && !IsRequest(s.log[i].msg.payload)
  {
    InvHolds(cfg, es);
  }

  // No handler, and so no reply, is ever caused by something the server itself has published.
  lemma NoReplyIsServed(cfg: Config, es: seq<Event>, h: nat)
    requires ValidConfig(cfg) && Runs(cfg, Start(cfg), es) && h < |After(cfg, Start(cfg), es).server.handlers|
    ensures After(cfg, Start(cfg), es).server.handlers[h].msg.origin != Server
  {
    InvHolds(cfg, es);
  }

  // A retained request has not been answered: a reply to it would have taken its place.
  lemma RetainedRequestIsUnanswered(cfg: Config, es: seq<Event>, t: string, i: nat)
    requires ValidConfig(cfg) && Runs(cfg, Start(cfg), es)
    requires var s := After(cfg, Start(cfg), es);
      t in s.slots && IsRequest(s.slots[t].payload) && i < |s.log| && s.log[i].cause.Some?
    ensures var s := After(cfg, Start(cfg), es);
      s.log[i].cause.value < |s.server.handlers| && s.server.handlers[s.log[i].cause.value].msg != s.slots[t]
  {
    InvHolds(cfg, es);
  }
}
