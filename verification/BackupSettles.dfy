/**
 The service always comes to rest.  Every step but the users' typing leaves less to do, so a run in
 which nobody types is short, every run can be continued until nothing is left to do, and then
 `BackupOutcome` says who has the key.
 */
module BackupSettles {
  import opened Common
  import opened Announcement
  import opened BackupProtocol
  import opened BackupOutcome
  import R = BackupRegistration

  // ---- Sums ----

  ghost function Total<T>(w: T -> nat, xs: seq<T>): nat {
    if xs == [] then 0 else w(xs[0]) + Total(w, xs[1..])
  }

  lemma {:induction false} TotalAppend<T>(w: T -> nat, xs: seq<T>, x: T)
    ensures Total(w, xs + [x]) == Total(w, xs) + w(x)
  {
    if xs == [] {
      assert xs + [x] == [x];
      assert Total(w, [x]) == w(x) + Total(w, [x][1..]);
    } else {
      TotalAppend(w, xs[1..], x);
      assert (xs + [x])[1..] == xs[1..] + [x];
    }
  }

  lemma {:induction false} TotalUpdate<T>(w: T -> nat, xs: seq<T>, i: nat, x: T)
    requires i < |xs|
    ensures Total(w, xs[i := x]) + w(xs[i]) == Total(w, xs) + w(x)
  {
    if i == 0 {
      assert xs[0 := x][1..] == xs[1..];
    } else {
      TotalUpdate(w, xs[1..], i - 1, x);
      assert xs[i := x][1..] == xs[1..][i - 1 := x];
    }
  }

  // ---- What is left to do ----

  // A message for a client: to be received, and to be consumed.
  const ToClient: nat := 2

  // A message for the server: one for the loop's handlers ends in a reply, one on the public topic
  // in a registration.
  function InQueue(m: Message): nat {
    if m.topic == PUBLIC then 14 else 6
  }

  function OnTheWay(m: Message): nat {
    InQueue(m) + 1
  }

  function HandlerWork(h: Handler): nat {
    match h.pc
    case Spawned => 5
    case Replied => 1
    case Finished => 0
  }

  // What the server sends: its subscriptions bring a retained message at most.
  function ServerPacket(p: Packet): nat {
    match p
    case Subscribe(topic) => if topic == PUBLIC then 16 else 8
    case Publish(_, _, _) => 1 + ToClient
  }

  function ServerPcWork(pc: ServerPc): nat {
    match pc
    case Boot => 18
    case Booting => 1
    case Looping => 0
    case Opening(_) => 5
    case Keying(_) => 1
  }

  ghost function ServerWork(sv: ServerState): nat {
    ServerPcWork(sv.pc) + Total(ServerPacket, sv.up) + Total(OnTheWay, sv.down) + Total(InQueue, sv.queue)
    + Total(HandlerWork, sv.handlers)
  }

  function ClientPacket(p: Packet): nat {
    match p
    case Subscribe(_) => 1 + ToClient
    case Publish(topic, _, _) => if topic == PUBLIC then 16 else 8 + ToClient
  }

  function ClientPcWork(pc: ClientPc): nat {
    match pc
    case Fresh => 22
    case Announcing => 5
    case Subscribing => 1
    case _ => 0
  }

  ghost function ClientWork(c: ClientState): nat {
    ClientPcWork(c.pc) + Total(ClientPacket, c.up) + 2 * |c.down| + |c.queue|
  }

  ghost predicate Distinct(ips: seq<string>) {
    forall i, j :: 0 <= i < j < |ips| ==> ips[i] != ips[j]
  }

  // The clients in some order, each once.
  ghost predicate Order(ips: seq<string>, clients: set<string>) {
    Distinct(ips) && forall ip :: ip in clients <==> ip in ips
  }

  ghost function ClientsWork(clients: map<string, ClientState>, ips: seq<string>): nat
    requires forall ip :: ip in ips ==> ip in clients
  {
    if ips == [] then 0 else ClientWork(clients[ips[0]]) + ClientsWork(clients, ips[1..])
  }

  ghost function Work(s: State, ips: seq<string>): nat
    requires forall ip :: ip in ips ==> ip in s.clients
  {
    ServerWork(s.server) + ClientsWork(s.clients, ips)
  }

  lemma {:induction false} SameClients(clients: map<string, ClientState>, clients': map<string, ClientState>,
                                       ips: seq<string>)
    requires forall ip :: ip in ips ==> ip in clients && ip in clients' && clients[ip] == clients'[ip]
    ensures ClientsWork(clients, ips) == ClientsWork(clients', ips)
  {
    if ips != [] {
      SameClients(clients, clients', ips[1..]);
    }
  }

  // A client among the others.
  lemma {:induction false} OneClient(clients: map<string, ClientState>, ips: seq<string>, ip: string, c: ClientState)
    requires Distinct(ips) && ip in ips && forall a :: a in ips ==> a in clients
    ensures ClientsWork(clients[ip := c], ips) + ClientWork(clients[ip]) == ClientsWork(clients, ips) + ClientWork(c)
  {
    if ips[0] == ip {
      assert ip !in ips[1..];
      SameClients(clients, clients[ip := c], ips[1..]);
    } else {
      OneClient(clients, ips[1..], ip, c);
    }
  }

  lemma {:induction false} SomeOrder(clients: set<string>) returns (ips: seq<string>)
    ensures Order(ips, clients) && |ips| == |clients|
  {
    if clients == {} {
      ips := [];
    } else {
      var ip :| ip in clients;
      var rest := SomeOrder(clients - {ip});
      ips := [ip] + rest;
    }
  }

  // ---- Every step but typing leaves less ----

  ghost predicate Ordered(cfg: Config, s: State, ips: seq<string>) {
    R.Inv(cfg, s) && Order(ips, cfg.clients)
  }

  lemma LoopShrinks(cfg: Config, s: State, e: Event)
    requires R.Inv(cfg, s) && Enabled(cfg, s, e)
    requires e.ServerConnects? || e.ServerReady? || e.ServerConsumes? || e.ServerSubscribed? || e.ServerRegisters?
    ensures ServerWork(Apply(cfg, s, e).server) < ServerWork(s.server)
  {
    var sv := s.server;
    match e
    case ServerConnects => TotalAppend(ServerPacket, sv.up, Subscribe(PUBLIC));
    case ServerConsumes => ConsumingShrinks(cfg, s);
    case ServerSubscribed =>
      TotalAppend(ServerPacket, sv.up, Publish(Announced(cfg, sv.pc.announced), cfg.key, None));
    case _ =>
  }

  lemma ConsumingShrinks(cfg: Config, s: State)
    requires R.Inv(cfg, s) && Enabled(cfg, s, ServerConsumes)
    ensures ServerWork(Apply(cfg, s, ServerConsumes).server) < ServerWork(s.server)
  {
    var sv, m := s.server, s.server.queue[0];
    assert R.ServerGets(cfg, sv.subs, m);
    if m.topic == PUBLIC {
      TotalAppend(ServerPacket, sv.up, Subscribe(Announced(cfg, m.payload)));
    } else {
      TotalAppend(HandlerWork, sv.handlers, Handler(m, Spawned));
    }
  }

  lemma HandlerShrinks(cfg: Config, s: State, e: Event)
    requires Enabled(cfg, s, e) && (e.HandlerReplies? || e.HandlerSkips? || e.HandlerEnds?)
    ensures ServerWork(Apply(cfg, s, e).server) < ServerWork(s.server)
  {
    var sv, h := s.server, s.server.handlers[e.h];
    TotalUpdate(HandlerWork, sv.handlers, e.h, h.(pc := if e.HandlerReplies? then Replied else Finished));
    if e.HandlerReplies? {
      TotalAppend(ServerPacket, sv.up, Publish(h.msg.topic, Reply(h.msg.payload, e.ok), Some(e.h)));
    }
  }

  lemma ReceivingShrinks(cfg: Config, s: State)
    requires Enabled(cfg, s, ServerReceives)
    ensures ServerWork(Apply(cfg, s, ServerReceives).server) < ServerWork(s.server)
  {
    TotalAppend(InQueue, s.server.queue, s.server.down[0]);
  }

  // What a step of client ip does to it.
  lemma ClientShrinks(cfg: Config, s: State, e: Event)
    requires R.Inv(cfg, s) && Enabled(cfg, s, e)
    requires e.ClientAnnounces? || e.ClientSubscribes? || e.ClientReady? || e.ClientConsumes? || e.ClientReceives?
    ensures var s' := Apply(cfg, s, e);
      && e.ip in s.clients && s' == s.(clients := s.clients[e.ip := s'.clients[e.ip]])
      && ClientWork(s'.clients[e.ip]) < ClientWork(s.clients[e.ip])
  {
    var c := s.clients[e.ip];
    match e
    case ClientAnnounces(ip, info) => TotalAppend(ClientPacket, c.up, Publish(PUBLIC, Announce(ip, info), None));
    case ClientSubscribes(ip) => TotalAppend(ClientPacket, c.up, Subscribe(ip));
    case _ =>
  }

  // What a publication brings.
  lemma PublicationBrings(s: State, ips: seq<string>, origin: Party, topic: string, payload: string, cause: Option<nat>)
    requires Order(ips, s.clients.Keys)
    ensures var s' := BrokerPublishes(s, origin, topic, payload, cause);
      && s'.clients.Keys == s.clients.Keys
      && Work(s', ips) <= Work(s, ips)
         + (if origin == Server then 0 else if topic == PUBLIC then 15 else 7)
         + if topic in s.clients then ToClient else 0
  {
    var m := Message(topic, payload, origin, |s.log|);
    TotalAppend(OnTheWay, s.server.down, m);
    if topic in s.clients {
      var c := s.clients[topic];
      OneClient(s.clients, ips, topic, c.(down := c.down + [m]));
    }
  }

  lemma TakingServerShrinks(cfg: Config, s: State, ips: seq<string>)
    requires Ordered(cfg, s, ips) && Enabled(cfg, s, BrokerTakesServer)
    ensures var s' := Apply(cfg, s, BrokerTakesServer);
      s'.clients.Keys == s.clients.Keys && Work(s', ips) < Work(s, ips)
  {
    var s1 := s.(server := s.server.(up := s.server.up[1..]));
    match s.server.up[0]
    case Subscribe(topic) =>
      if topic in s.slots {
        TotalAppend(OnTheWay, s.server.down, s.slots[topic]);
      }
    case Publish(topic, payload, cause) =>
      PublicationBrings(s1, ips, Server, topic, payload, cause);
  }

  // The packet gone, before the broker does anything for it.
  lemma PacketGone(cfg: Config, s: State, ip: string, ips: seq<string>)
    requires Ordered(cfg, s, ips) && ip in s.clients && s.clients[ip].up != []
    ensures var s1 := SetClient(s, ip, s.clients[ip].(up := s.clients[ip].up[1..]));
      s1.clients.Keys == s.clients.Keys && Work(s1, ips) + ClientPacket(s.clients[ip].up[0]) == Work(s, ips)
  {
    OneClient(s.clients, ips, ip, s.clients[ip].(up := s.clients[ip].up[1..]));
  }

  lemma SubscriptionBrings(s: State, ip: string, ips: seq<string>)
    requires Order(ips, s.clients.Keys) && ip in s.clients
    ensures var s' := ClientSubscribed(s, ip);
      s'.clients.Keys == s.clients.Keys && Work(s', ips) <= Work(s, ips) + ToClient
  {
    OneClient(s.clients, ips, ip, ClientSubscribed(s, ip).clients[ip]);
  }

  lemma TakingClientShrinks(cfg: Config, s: State, ip: string, ips: seq<string>)
    requires Ordered(cfg, s, ips) && Enabled(cfg, s, BrokerTakesClient(ip))
    ensures var s' := Apply(cfg, s, BrokerTakesClient(ip));
      s'.clients.Keys == s.clients.Keys && Work(s', ips) < Work(s, ips)
  {
    var c := s.clients[ip];
    var s1 := SetClient(s, ip, c.(up := c.up[1..]));
    PacketGone(cfg, s, ip, ips);
    match c.up[0]
    case Subscribe(topic) =>
      SubscriptionBrings(s1, ip, ips);
    case Publish(topic, payload, cause) =>
      assert PUBLIC !in s.clients;
      PublicationBrings(s1, ips, Client(ip), topic, payload, cause);
  }

  lemma StepShrinks(cfg: Config, s: State, e: Event, ips: seq<string>)
    requires Ordered(cfg, s, ips) && Enabled(cfg, s, e) && !e.ClientTypes?
    ensures var s' := Apply(cfg, s, e);
      s'.clients.Keys == s.clients.Keys && Work(s', ips) < Work(s, ips)
  {
    match e
    case BrokerTakesServer => TakingServerShrinks(cfg, s, ips);
    case BrokerTakesClient(ip) => TakingClientShrinks(cfg, s, ip, ips);
    case ServerReceives => ReceivingShrinks(cfg, s);
    case HandlerReplies(_, _) => HandlerShrinks(cfg, s, e);
    case HandlerSkips(_) => HandlerShrinks(cfg, s, e);
    case HandlerEnds(_) => HandlerShrinks(cfg, s, e);
    case ClientAnnounces(ip, _) => OwnStepShrinks(cfg, s, e, ips);
    case ClientSubscribes(ip) => OwnStepShrinks(cfg, s, e, ips);
    case ClientReady(ip) => OwnStepShrinks(cfg, s, e, ips);
    case ClientConsumes(ip) => OwnStepShrinks(cfg, s, e, ips);
    case ClientReceives(ip) => OwnStepShrinks(cfg, s, e, ips);
    case _ => LoopShrinks(cfg, s, e);
  }

  lemma OwnStepShrinks(cfg: Config, s: State, e: Event, ips: seq<string>)
    requires Ordered(cfg, s, ips) && Enabled(cfg, s, e)
    requires e.ClientAnnounces? || e.ClientSubscribes? || e.ClientReady? || e.ClientConsumes? || e.ClientReceives?
    ensures var s' := Apply(cfg, s, e);
      s'.clients.Keys == s.clients.Keys && Work(s', ips) < Work(s, ips)
  {
    ClientShrinks(cfg, s, e);
    OneClient(s.clients, ips, e.ip, Apply(cfg, s, e).clients[e.ip]);
  }

  // ---- So the service comes to rest ----

  predicate NobodyTypes(es: seq<Event>) {
    forall i :: 0 <= i < |es| ==> !es[i].ClientTypes?
  }

  lemma {:induction false} RunsShrink(cfg: Config, s: State, es: seq<Event>, ips: seq<string>)
    requires Ordered(cfg, s, ips) && Runs(cfg, s, es) && NobodyTypes(es)
    ensures Ordered(cfg, After(cfg, s, es), ips) && |es| + Work(After(cfg, s, es), ips) <= Work(s, ips)
    decreases |es|
  {
    if es != [] {
      StepShrinks(cfg, s, es[0], ips);
      R.StepKeepsInv(cfg, s, es[0]);
      RunsShrink(cfg, Apply(cfg, s, es[0]), es[1..], ips);
    }
  }

  lemma {:induction false} WorkAtStart(clients: map<string, ClientState>, ips: seq<string>)
    requires forall ip :: ip in ips ==> ip in clients && clients[ip] == ClientState(Fresh, [], false, [], [], None)
    ensures ClientsWork(clients, ips) == 22 * |ips|
  {
    if ips != [] {
      WorkAtStart(clients, ips[1..]);
    }
  }

  // A run in which nobody types has a bounded number of steps.
  lemma SettlesInTime(cfg: Config, es: seq<Event>)
    requires ValidConfig(cfg) && Runs(cfg, Start(cfg), es) && NobodyTypes(es)
    ensures |es| <= 18 + 22 * |cfg.clients|
  {
    var ips := SomeOrder(cfg.clients);
    RunsShrink(cfg, Start(cfg), es, ips);
    WorkAtStart(Start(cfg).clients, ips);
  }

  lemma OneMore(cfg: Config, s: State, es: seq<Event>, more: seq<Event>, e: Event)
    requires Runs(cfg, s, es + more) && Enabled(cfg, After(cfg, s, es + more), e)
    ensures Runs(cfg, s, es + (more + [e]))
    ensures After(cfg, s, es + (more + [e])) == Apply(cfg, After(cfg, s, es + more), e)
  {
    RunsAppend(cfg, s, es + more, e);
    assert es + more + [e] == es + (more + [e]);
  }

  lemma {:induction false} GoesOnToRest(cfg: Config, es: seq<Event>, more: seq<Event>, ips: seq<string>)
    returns (all: seq<Event>)
    requires Runs(cfg, Start(cfg), es + more) && NobodyTypes(more)
    requires Ordered(cfg, After(cfg, Start(cfg), es + more), ips)
    ensures NobodyTypes(all) && Runs(cfg, Start(cfg), es + all) && Settled(cfg, After(cfg, Start(cfg), es + all))
    decreases Work(After(cfg, Start(cfg), es + more), ips)
  {
    var s := After(cfg, Start(cfg), es + more);
    all := more;
    if !Settled(cfg, s) {
      var e :| Enabled(cfg, s, e) && !e.ClientTypes?;
      StepShrinks(cfg, s, e, ips);
      R.StepKeepsInv(cfg, s, e);
      OneMore(cfg, Start(cfg), es, more, e);
      all := GoesOnToRest(cfg, es, more + [e], ips);
    }
  }

  // Every run can be continued, without anybody typing, until nothing is left to do.
  lemma RunsOut(cfg: Config, es: seq<Event>) returns (more: seq<Event>)
    requires ValidConfig(cfg) && Runs(cfg, Start(cfg), es)
    ensures NobodyTypes(more) && Runs(cfg, Start(cfg), es + more)
    ensures Settled(cfg, After(cfg, Start(cfg), es + more))
  {
    var ips := SomeOrder(cfg.clients);
    R.RunsKeepInv(cfg, Start(cfg), es);
    assert es + [] == es;
    more := GoesOnToRest(cfg, es, [], ips);
  }

  lemma {:induction false} RunsKeepHeard(cfg: Config, s: State, es: seq<Event>, more: seq<Event>, x: string)
    requires R.Inv(cfg, s) && BootInv(s) && Runs(cfg, s, es + more)
    ensures Runs(cfg, s, es) && (Heard(cfg, After(cfg, s, es), x) ==> Heard(cfg, After(cfg, s, es + more), x))
    decreases |es| + |more|
  {
    if es != [] {
      assert (es + more)[1..] == es[1..] + more;
      StepKeepsBoot(cfg, s, es[0]);
      R.StepKeepsInv(cfg, s, es[0]);
      RunsKeepHeard(cfg, Apply(cfg, s, es[0]), es[1..], more, x);
    } else if more != [] {
      assert es + more == more && [] + more[1..] == more[1..];
      if Heard(cfg, s, x) { StepKeepsHeard(cfg, s, more[0], x); }
      StepKeepsBoot(cfg, s, more[0]);
      R.StepKeepsInv(cfg, s, more[0]);
      RunsKeepHeard(cfg, Apply(cfg, s, more[0]), [], more[1..], x);
    } else {
      assert es + more == es;
    }
  }

  // So a client that has been heard gets its key, if only nobody types for long enough.
  lemma HeardGetsItsKey(cfg: Config, es: seq<Event>, x: string) returns (more: seq<Event>)
    requires ValidConfig(cfg) && Runs(cfg, Start(cfg), es) && x in cfg.clients && CleanSlot(cfg, x)
    requires Heard(cfg, After(cfg, Start(cfg), es), x) || LeftBehind(cfg, x)
    ensures NobodyTypes(more) && Runs(cfg, Start(cfg), es + more)
    ensures var s := After(cfg, Start(cfg), es + more); x in s.clients && s.clients[x].key == Some(cfg.key)
  {
    more := RunsOut(cfg, es);
    StartsWithInv(cfg, x);
    RunsKeepHeard(cfg, Start(cfg), es, more, x);
    KeyExactlyWhenHeard(cfg, es + more, x);
  }
}
