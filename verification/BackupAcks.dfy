/**
 What waiting for the acknowledgements achieves, over every run: nobody goes on before the broker has
 what was sent.  Whoever is registered has its topic subscribed to and its key published; a client
 that subscribes has been announced, and one that waits for its key is subscribed; and a client has
 one packet on the way at most.
 */
module BackupAcks {
  import opened Common
  import opened BackupProtocol
  import opened BackupKeyHandover
  import R = BackupRegistration

  // The broker has taken an announcement of the client.
  ghost predicate AnnouncementTaken(s: State, ip: string) {
    exists i :: 0 <= i < |s.log| && s.log[i].msg.topic == PUBLIC && s.log[i].msg.origin == Client(ip)
  }

  ghost predicate ClientAcked(s: State, c: ClientState, ip: string) {
    && |c.up| <= 1
    && (c.pc == Fresh ==> c.up == [])
    && (c.pc == Announcing ==>
          if c.up == [] then AnnouncementTaken(s, ip) else c.up[0].Publish? && c.up[0].topic == PUBLIC)
    && (c.pc == ClientPc.Subscribing || c.pc == AwaitingKey || c.pc == Working ==> AnnouncementTaken(s, ip))
    && (c.pc == ClientPc.Subscribing ==> if c.up == [] then c.subscribed else c.up[0].Subscribe?)
    && (c.pc == AwaitingKey || c.pc == Working ==> c.subscribed)
  }

  ghost predicate Opened(cfg: Config, s: State, ip: string) {
    ip in s.server.subs && KeyPublished(s, ip, cfg.key)
  }

  ghost predicate ServerAcked(cfg: Config, s: State) {
    var sv := s.server;
    && (sv.pc.Opening? && IsAnnouncement(cfg, sv.pc.announced) ==>
          Subscribe(Announced(cfg, sv.pc.announced)) in sv.up || Announced(cfg, sv.pc.announced) in sv.subs)
    && (sv.pc.Keying? && IsAnnouncement(cfg, sv.pc.announced) ==>
          var ip := Announced(cfg, sv.pc.announced);
          ip in sv.subs && (Publish(ip, cfg.key, None) in sv.up || KeyPublished(s, ip, cfg.key)))
    && (forall i :: 0 <= i < |sv.clients| ==> Opened(cfg, s, sv.clients[i].ip))
  }

  ghost predicate Inv(cfg: Config, s: State) {
    && R.Inv(cfg, s) && ServerAcked(cfg, s)
    && forall ip :: ip in s.clients ==> ClientAcked(s, s.clients[ip], ip)
  }

  // What the broker has stays there.
  lemma LogStays(cfg: Config, s: State, e: Event)
    requires Enabled(cfg, s, e)
    ensures |s.log| <= |Apply(cfg, s, e).log| && s.server.subs <= Apply(cfg, s, e).server.subs
    ensures forall i :: 0 <= i < |s.log| ==> Apply(cfg, s, e).log[i] == s.log[i]
  {
  }

  lemma TakenStays(s: State, s': State, ip: string)
    requires |s.log| <= |s'.log| && forall i :: 0 <= i < |s.log| ==> s'.log[i] == s.log[i]
    ensures AnnouncementTaken(s, ip) ==> AnnouncementTaken(s', ip)
  {
    if AnnouncementTaken(s, ip) {
      var i :| 0 <= i < |s.log| && s.log[i].msg.topic == PUBLIC && s.log[i].msg.origin == Client(ip);
      assert s'.log[i] == s.log[i];
    }
  }

  lemma KeyStays(s: State, s': State, ip: string, key: string)
    requires |s.log| <= |s'.log| && forall i :: 0 <= i < |s.log| ==> s'.log[i] == s.log[i]
    ensures KeyPublished(s, ip, key) ==> KeyPublished(s', ip, key)
  {
    if KeyPublished(s, ip, key) {
      var i :| 0 <= i < |s.log| &&
        s.log[i].msg.topic == ip && s.log[i].msg.payload == key && s.log[i].msg.origin == Server;
      assert s'.log[i] == s.log[i];
    }
  }

  // ---- The clients ----

  // A step of the client, or of the broker for it.
  predicate Concerns(e: Event, ip: string) {
    match e
    case ClientAnnounces(a, _) => a == ip
    case ClientSubscribes(a) => a == ip
    case ClientReady(a) => a == ip
    case ClientConsumes(a) => a == ip
    case ClientTypes(a, _) => a == ip
    case ClientReceives(a) => a == ip
    case BrokerTakesClient(a) => a == ip
    case _ => false
  }

  lemma OwnStepKeepsAcked(cfg: Config, s: State, e: Event, ip: string)
    requires ip in s.clients && ClientAcked(s, s.clients[ip], ip) && Enabled(cfg, s, e)
    requires Concerns(e, ip) && !e.BrokerTakesClient?
    ensures ip in Apply(cfg, s, e).clients && ClientAcked(Apply(cfg, s, e), Apply(cfg, s, e).clients[ip], ip)
  {
    assert Apply(cfg, s, e).log == s.log;
    TakenStays(s, Apply(cfg, s, e), ip);
  }

  // The broker takes the one packet.
  lemma PacketTaken(cfg: Config, s: State, ip: string)
    requires ip in s.clients && ClientAcked(s, s.clients[ip], ip) && Enabled(cfg, s, BrokerTakesClient(ip))
    ensures var s' := Apply(cfg, s, BrokerTakesClient(ip));
      ip in s'.clients && ClientAcked(s', s'.clients[ip], ip)
  {
    var s', p := Apply(cfg, s, BrokerTakesClient(ip)), s.clients[ip].up[0];
    LogStays(cfg, s, BrokerTakesClient(ip));
    TakenStays(s, s', ip);
    if p.Publish? {
      assert s'.log[|s.log|].msg == Message(p.topic, p.payload, Client(ip), |s.log|);
    }
  }

  lemma BesideKeepsAcked(cfg: Config, s: State, e: Event, ip: string)
    requires ip in s.clients && ClientAcked(s, s.clients[ip], ip) && Enabled(cfg, s, e)
    requires !Concerns(e, ip)
    ensures ip in Apply(cfg, s, e).clients && ClientAcked(Apply(cfg, s, e), Apply(cfg, s, e).clients[ip], ip)
  {
    var s' := Apply(cfg, s, e);
    LogStays(cfg, s, e);
    TakenStays(s, s', ip);
    SameButForComing(cfg, s, e, ip);
  }

  lemma SameButForComing(cfg: Config, s: State, e: Event, ip: string)
    requires ip in s.clients && Enabled(cfg, s, e)
    requires !Concerns(e, ip)
    ensures var s' := Apply(cfg, s, e);
      ip in s'.clients && s'.clients[ip] == s.clients[ip].(down := s'.clients[ip].down)
  {
  }

  lemma ClientKeepsAcked(cfg: Config, s: State, e: Event, ip: string)
    requires ip in s.clients && ClientAcked(s, s.clients[ip], ip) && Enabled(cfg, s, e)
    ensures ip in Apply(cfg, s, e).clients && ClientAcked(Apply(cfg, s, e), Apply(cfg, s, e).clients[ip], ip)
  {
    if !Concerns(e, ip) {
      BesideKeepsAcked(cfg, s, e, ip);
    } else if e.BrokerTakesClient? {
      PacketTaken(cfg, s, ip);
    } else {
      OwnStepKeepsAcked(cfg, s, e, ip);
    }
  }

  // ---- The server ----

  lemma OpenedStays(cfg: Config, s: State, e: Event, ip: string)
    requires Enabled(cfg, s, e) && Opened(cfg, s, ip)
    ensures Opened(cfg, Apply(cfg, s, e), ip)
  {
    LogStays(cfg, s, e);
    KeyStays(s, Apply(cfg, s, e), ip, cfg.key);
  }

  lemma LoopKeepsAcked(cfg: Config, s: State, e: Event)
    requires R.Inv(cfg, s) && ServerAcked(cfg, s) && Enabled(cfg, s, e)
    requires e.ServerConsumes? || e.ServerSubscribed? || e.ServerRegisters?
    ensures ServerAcked(cfg, Apply(cfg, s, e))
  {
    var sv, s' := s.server, Apply(cfg, s, e);
    forall i | 0 <= i < |s'.server.clients| ensures Opened(cfg, s', s'.server.clients[i].ip) {
      if i < |sv.clients| {
        assert Opened(cfg, s, sv.clients[i].ip);
        OpenedStays(cfg, s, e, sv.clients[i].ip);
      } else {
        assert KeyPublished(s, Announced(cfg, sv.pc.announced), cfg.key);
        OpenedStays(cfg, s, e, Announced(cfg, sv.pc.announced));
      }
    }
  }

  lemma QuietKeepsAcked(cfg: Config, s: State, e: Event)
    requires ServerAcked(cfg, s) && Enabled(cfg, s, e)
    requires !e.ServerConsumes? && !e.ServerSubscribed? && !e.ServerRegisters? && !e.BrokerTakesServer?
    ensures ServerAcked(cfg, Apply(cfg, s, e))
  {
    var s' := Apply(cfg, s, e);
    LogStays(cfg, s, e);
    ServerBeside(cfg, s, e);
    if s.server.pc.Keying? && IsAnnouncement(cfg, s.server.pc.announced) {
      KeyStays(s, s', Announced(cfg, s.server.pc.announced), cfg.key);
    }
    forall i | 0 <= i < |s'.server.clients| ensures Opened(cfg, s', s'.server.clients[i].ip) {
      OpenedStays(cfg, s, e, s.server.clients[i].ip);
    }
  }

  // The others neither take a packet of the server nor move its loop, once it runs.
  lemma ServerBeside(cfg: Config, s: State, e: Event)
    requires Enabled(cfg, s, e)
    requires !e.ServerConsumes? && !e.ServerSubscribed? && !e.ServerRegisters? && !e.BrokerTakesServer?
    ensures var sv, sv' := s.server, Apply(cfg, s, e).server;
      && sv'.clients == sv.clients && sv.up <= sv'.up
      && (sv'.pc.Opening? || sv'.pc.Keying? || sv.pc.Opening? || sv.pc.Keying? ==> sv'.pc == sv.pc)
  {
  }

  lemma PacketOfServerTaken(cfg: Config, s: State)
    requires ServerAcked(cfg, s) && Enabled(cfg, s, BrokerTakesServer)
    ensures ServerAcked(cfg, Apply(cfg, s, BrokerTakesServer))
  {
    var s', sv, p := Apply(cfg, s, BrokerTakesServer), s.server, s.server.up[0];
    LogStays(cfg, s, BrokerTakesServer);
    assert forall q :: q in sv.up ==> q == p || q in sv.up[1..];
    if p.Publish? {
      assert s'.log[|s.log|].msg == Message(p.topic, p.payload, Server, |s.log|);
    }
    if sv.pc.Keying? && IsAnnouncement(cfg, sv.pc.announced) {
      KeyStays(s, s', Announced(cfg, sv.pc.announced), cfg.key);
    }
    forall i | 0 <= i < |s'.server.clients| ensures Opened(cfg, s', s'.server.clients[i].ip) {
      OpenedStays(cfg, s, BrokerTakesServer, sv.clients[i].ip);
    }
  }

  lemma StepKeepsInv(cfg: Config, s: State, e: Event)
    requires Inv(cfg, s) && Enabled(cfg, s, e)
    ensures Inv(cfg, Apply(cfg, s, e))
  {
    R.StepKeepsInv(cfg, s, e);
    if e.BrokerTakesServer? {
      PacketOfServerTaken(cfg, s);
    } else if e.ServerConsumes? || e.ServerSubscribed? || e.ServerRegisters? {
      LoopKeepsAcked(cfg, s, e);
    } else {
      QuietKeepsAcked(cfg, s, e);
    }
    forall ip | ip in Apply(cfg, s, e).clients
      ensures ClientAcked(Apply(cfg, s, e), Apply(cfg, s, e).clients[ip], ip)
    {
      assert ip in s.clients;
      ClientKeepsAcked(cfg, s, e, ip);
    }
  }

  lemma {:induction false} RunsKeepAcked(cfg: Config, s: State, es: seq<Event>)
    requires Inv(cfg, s) && Runs(cfg, s, es)
    ensures Inv(cfg, After(cfg, s, es))
    decreases |es|
  {
    if es != [] {
      StepKeepsInv(cfg, s, es[0]);
      RunsKeepAcked(cfg, Apply(cfg, s, es[0]), es[1..]);
    }
  }

  // In every run: whoever is registered has its topic subscribed to and its key published, and the key
  // is published only on a topic that is subscribed to.
  lemma RegisteredIsOpened(cfg: Config, es: seq<Event>)
    requires ValidConfig(cfg) && Runs(cfg, Start(cfg), es)
    ensures var s := After(cfg, Start(cfg), es);
      && (forall i :: 0 <= i < |s.server.clients| ==> Opened(cfg, s, s.server.clients[i].ip))
      && (s.server.pc.Keying? ==> IsAnnouncement(cfg, s.server.pc.announced)
                                  && Announced(cfg, s.server.pc.announced) in s.server.subs)
  {
    RunsKeepAcked(cfg, Start(cfg), es);
  }

  // In every run: a client has at most one packet on the way, it subscribes after its announcement has
  // been taken, and it waits for its key after it has been subscribed.
  lemma ClientsTakeTurns(cfg: Config, es: seq<Event>, ip: string)
    requires ValidConfig(cfg) && Runs(cfg, Start(cfg), es) && ip in cfg.clients
    ensures var s := After(cfg, Start(cfg), es);
      && ip in s.clients && |s.clients[ip].up| <= 1
      && (s.clients[ip].pc != Fresh && s.clients[ip].pc != Announcing ==> AnnouncementTaken(s, ip))
      && (s.clients[ip].pc == AwaitingKey || s.clients[ip].pc == Working ==> s.clients[ip].subscribed)
  {
    RunsKeepAcked(cfg, Start(cfg), es);
  }
}
