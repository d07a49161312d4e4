/**
 Who has the key when nothing is left to do?  The server hears of a client only through the public
 topic, of which the broker keeps one message: of all the announcements that come before the server
 does, it hears the last.  A client whose announcement it does not hear is never registered and
 waits for ever.
 */
module BackupOutcome {
  import opened Common
  import opened Announcement
  import opened BackupProtocol
  import opened BackupKeyHandover
  import R = BackupRegistration

  predicate Announces(cfg: Config, m: Message, y: string) {
    m.topic == PUBLIC && Words(m.payload) != [] && Announced(cfg, m.payload) == y
  }

  // An announcement of y reached the broker after the server's subscription, or was retained then.
  ghost predicate Heard(cfg: Config, s: State, y: string) {
    s.joined.Some? &&
    ((s.joined.value.retained.Some? && Announces(cfg, s.joined.value.retained.value, y))
     || exists i :: s.joined.value.at <= i < |s.log| && 0 <= i && Announces(cfg, s.log[i].msg, y))
  }

  // ---- The server's start ----

  ghost predicate BootInv(s: State) {
    var sv := s.server;
    && (s.joined.None? ==> sv.down == [] && sv.queue == [] && sv.subs == {})
    && (s.joined.Some? ==> PUBLIC in sv.subs && s.joined.value.at <= |s.log|)
    && (match sv.pc
        case Boot => sv.up == [] && s.joined.None? && sv.handlers == []
        case Booting => sv.handlers == [] && sv.up == (if s.joined.None? then [Subscribe(PUBLIC)] else [])
        case _ => s.joined.Some? && Subscribe(PUBLIC) !in sv.up)
    && (PUBLIC in s.slots ==> s.slots[PUBLIC].origin != Server)
  }

  lemma ServerStepKeepsBoot(cfg: Config, s: State, e: Event)
    requires R.Inv(cfg, s) && BootInv(s) && Enabled(cfg, s, e)
    requires e.ServerConnects? || e.ServerReady? || e.ServerConsumes? || e.ServerSubscribed? || e.ServerRegisters?
             || e.HandlerReplies? || e.HandlerSkips? || e.HandlerEnds? || e.ServerReceives?
    ensures BootInv(Apply(cfg, s, e))
  {
    if e.ServerConsumes? {
      assert R.ServerGets(cfg, s.server.subs, s.server.queue[0]);
    }
  }

  lemma ClientStepKeepsBoot(cfg: Config, s: State, e: Event)
    requires R.Inv(cfg, s) && BootInv(s) && Enabled(cfg, s, e)
    requires e.ClientAnnounces? || e.ClientSubscribes? || e.ClientReady? || e.ClientConsumes? || e.ClientTypes?
             || e.ClientReceives?
    ensures BootInv(Apply(cfg, s, e))
  {
  }

  lemma TakeServerKeepsBoot(cfg: Config, s: State)
    requires R.Inv(cfg, s) && BootInv(s) && Enabled(cfg, s, BrokerTakesServer)
    ensures BootInv(Apply(cfg, s, BrokerTakesServer))
  {
    assert s.server.up[0].Publish? ==> s.server.up[0].topic != PUBLIC;
  }

  lemma TakeClientKeepsBoot(cfg: Config, s: State, ip: string)
    requires R.Inv(cfg, s) && BootInv(s) && Enabled(cfg, s, BrokerTakesClient(ip))
    ensures BootInv(Apply(cfg, s, BrokerTakesClient(ip)))
  {
    assert R.ClientSends(cfg, s.clients[ip], ip, s.clients[ip].up[0]);
  }

  lemma StepKeepsBoot(cfg: Config, s: State, e: Event)
    requires R.Inv(cfg, s) && BootInv(s) && Enabled(cfg, s, e)
    ensures BootInv(Apply(cfg, s, e))
  {
    match e
    case BrokerTakesServer => TakeServerKeepsBoot(cfg, s);
    case BrokerTakesClient(ip) => TakeClientKeepsBoot(cfg, s, ip);
    case ClientAnnounces(_, _) => ClientStepKeepsBoot(cfg, s, e);
    case ClientSubscribes(_) => ClientStepKeepsBoot(cfg, s, e);
    case ClientReady(_) => ClientStepKeepsBoot(cfg, s, e);
    case ClientConsumes(_) => ClientStepKeepsBoot(cfg, s, e);
    case ClientTypes(_, _) => ClientStepKeepsBoot(cfg, s, e);
    case ClientReceives(_) => ClientStepKeepsBoot(cfg, s, e);
    case _ => ServerStepKeepsBoot(cfg, s, e);
  }

  // What has been heard stays heard.
  lemma StepKeepsHeard(cfg: Config, s: State, e: Event, y: string)
    requires BootInv(s) && Enabled(cfg, s, e) && Heard(cfg, s, y)
    ensures Heard(cfg, Apply(cfg, s, e), y)
  {
    var s' := Apply(cfg, s, e);
    LogGrows(cfg, s, e);
    if !(s.joined.value.retained.Some? && Announces(cfg, s.joined.value.retained.value, y)) {
      var i :| s.joined.value.at <= i < |s.log| && 0 <= i && Announces(cfg, s.log[i].msg, y);
      assert s'.log[i] == s.log[i];
    }
  }

  lemma LogGrows(cfg: Config, s: State, e: Event)
    requires BootInv(s) && Enabled(cfg, s, e)
    ensures var s' := Apply(cfg, s, e);
      && |s.log| <= |s'.log| && s'.log[..|s.log|] == s.log
      && (s.joined.Some? ==> s'.joined == s.joined)
  {
  }

  // ---- What is done for a client has been asked for ----

  ghost predicate OnlyHeard(cfg: Config, s: State, ms: seq<Message>, y: string) {
    forall i :: 0 <= i < |ms| && Announces(cfg, ms[i], y) ==> Heard(cfg, s, y)
  }

  ghost predicate Sourced(cfg: Config, s: State, y: string) {
    var sv := s.server;
    && OnlyHeard(cfg, s, sv.down, y) && OnlyHeard(cfg, s, sv.queue, y)
    && (R.Opens(cfg, sv, y) || R.Known(sv, y) ==> Heard(cfg, s, y))
    && (forall i :: 0 <= i < |sv.up| && sv.up[i].Publish? && sv.up[i].topic == y ==> Heard(cfg, s, y))
    && (y in s.slots && s.slots[y].origin == Server ==> Heard(cfg, s, y))
  }

  lemma KnownBefore(cfg: Config, s: State, e: Event, y: string)
    requires Enabled(cfg, s, e) && R.Known(Apply(cfg, s, e).server, y)
    requires !e.ServerRegisters?
    ensures R.Known(s.server, y)
  {
    var sv, sv' := s.server, Apply(cfg, s, e).server;
    assert sv'.clients == sv.clients;
  }

  lemma LoopKeepsSourced(cfg: Config, s: State, e: Event, y: string)
    requires R.Inv(cfg, s) && BootInv(s) && Sourced(cfg, s, y) && y != PUBLIC && Enabled(cfg, s, e)
    requires e.ServerConsumes? || e.ServerSubscribed? || e.ServerRegisters?
    ensures Sourced(cfg, Apply(cfg, s, e), y)
  {
    var sv, s' := s.server, Apply(cfg, s, e);
    assert Heard(cfg, s, y) ==> Heard(cfg, s', y) by {
      if Heard(cfg, s, y) { StepKeepsHeard(cfg, s, e, y); }
    }
    if e.ServerRegisters? {
      if R.Known(s'.server, y) && !R.Known(sv, y) {
        var i :| 0 <= i < |s'.server.clients| && s'.server.clients[i].ip == y;
        assert i == |sv.clients|;
        assert R.Opens(cfg, sv, y);
      }
    } else if R.Known(s'.server, y) {
      KnownBefore(cfg, s, e, y);
    }
  }

  lemma QuietServerKeepsSourced(cfg: Config, s: State, e: Event, y: string)
    requires R.Inv(cfg, s) && BootInv(s) && Sourced(cfg, s, y) && y != PUBLIC && Enabled(cfg, s, e)
    requires e.ServerConnects? || e.ServerReady? || e.HandlerReplies? || e.HandlerSkips? || e.HandlerEnds?
             || e.ServerReceives?
    ensures Sourced(cfg, Apply(cfg, s, e), y)
  {
    var s' := Apply(cfg, s, e);
    assert s'.joined == s.joined && s'.log == s.log && s'.slots == s.slots && s'.server.clients == s.server.clients;
    assert Heard(cfg, s', y) <==> Heard(cfg, s, y);
    assert R.Known(s'.server, y) <==> R.Known(s.server, y);
  }

  lemma ClientStepKeepsSourced(cfg: Config, s: State, e: Event, y: string)
    requires R.Inv(cfg, s) && BootInv(s) && Sourced(cfg, s, y) && Enabled(cfg, s, e)
    requires e.ClientAnnounces? || e.ClientSubscribes? || e.ClientReady? || e.ClientConsumes? || e.ClientTypes?
             || e.ClientReceives?
    ensures Sourced(cfg, Apply(cfg, s, e), y)
  {
    var s' := Apply(cfg, s, e);
    assert s'.server == s.server && s'.joined == s.joined && s'.log == s.log && s'.slots == s.slots;
    assert Heard(cfg, s', y) <==> Heard(cfg, s, y);
  }

  // A publication that the broker takes.
  lemma PublishKeepsSourced(cfg: Config, s: State, origin: Party, topic: string, payload: string,
                            cause: Option<nat>, y: string)
    requires BootInv(s) && Sourced(cfg, s, y) && y != PUBLIC
    requires origin == Server ==> topic != PUBLIC && (topic == y ==> Heard(cfg, s, y))
    requires s.joined.None? ==> PUBLIC !in s.server.subs
    ensures Sourced(cfg, BrokerPublishes(s, origin, topic, payload, cause), y)
  {
    var s' := BrokerPublishes(s, origin, topic, payload, cause);
    var m := Message(topic, payload, origin, |s.log|);
    R.PublishedTo(s, origin, topic, payload, cause);
    assert Heard(cfg, s, y) ==> Heard(cfg, s', y) by {
      PublishKeepsHeard(cfg, s, origin, topic, payload, cause, y);
    }
    assert s'.log[|s.log|].msg == m;
    assert R.Known(s'.server, y) <==> R.Known(s.server, y);
  }

  lemma PublishKeepsHeard(cfg: Config, s: State, origin: Party, topic: string, payload: string,
                          cause: Option<nat>, y: string)
    requires BootInv(s)
    ensures Heard(cfg, s, y) ==> Heard(cfg, BrokerPublishes(s, origin, topic, payload, cause), y)
  {
    var s' := BrokerPublishes(s, origin, topic, payload, cause);
    if Heard(cfg, s, y) && !(s.joined.value.retained.Some? && Announces(cfg, s.joined.value.retained.value, y)) {
      var i :| s.joined.value.at <= i < |s.log| && 0 <= i && Announces(cfg, s.log[i].msg, y);
      assert s'.log[i] == s.log[i];
    }
  }

  lemma SubscribeKeepsSourced(cfg: Config, s: State, topic: string, y: string)
    requires R.Inv(cfg, s) && BootInv(s) && Sourced(cfg, s, y) && y != PUBLIC
    requires Enabled(cfg, s, BrokerTakesServer) && s.server.up[0] == Subscribe(topic)
    ensures Sourced(cfg, Apply(cfg, s, BrokerTakesServer), y)
  {
    var s' := Apply(cfg, s, BrokerTakesServer);
    assert Heard(cfg, s, y) ==> Heard(cfg, s', y) by {
      if Heard(cfg, s, y) { StepKeepsHeard(cfg, s, BrokerTakesServer, y); }
    }
    assert R.Known(s'.server, y) <==> R.Known(s.server, y);
  }

  lemma TakeServerKeepsSourced(cfg: Config, s: State, y: string)
    requires R.Inv(cfg, s) && BootInv(s) && Sourced(cfg, s, y) && y != PUBLIC && Enabled(cfg, s, BrokerTakesServer)
    ensures Sourced(cfg, Apply(cfg, s, BrokerTakesServer), y)
  {
    match s.server.up[0]
    case Subscribe(topic) => SubscribeKeepsSourced(cfg, s, topic, y);
    case Publish(topic, payload, cause) =>
      var s1 := s.(server := s.server.(up := s.server.up[1..]));
      assert Heard(cfg, s1, y) <==> Heard(cfg, s, y);
      assert R.Known(s1.server, y) <==> R.Known(s.server, y);
      PublishKeepsSourced(cfg, s1, Server, topic, payload, cause, y);
  }

  lemma TakeClientKeepsSourced(cfg: Config, s: State, ip: string, y: string)
    requires R.Inv(cfg, s) && BootInv(s) && Sourced(cfg, s, y) && y != PUBLIC && Enabled(cfg, s, BrokerTakesClient(ip))
    ensures Sourced(cfg, Apply(cfg, s, BrokerTakesClient(ip)), y)
  {
    var c := s.clients[ip];
    var s1 := SetClient(s, ip, c.(up := c.up[1..]));
    assert Heard(cfg, s1, y) <==> Heard(cfg, s, y);
    match c.up[0]
    case Subscribe(topic) =>
      assert Heard(cfg, ClientSubscribed(s1, ip), y) <==> Heard(cfg, s, y);
    case Publish(topic, payload, cause) =>
      PublishKeepsSourced(cfg, s1, Client(ip), topic, payload, cause, y);
  }

  lemma StepKeepsSourced(cfg: Config, s: State, e: Event, y: string)
    requires R.Inv(cfg, s) && BootInv(s) && Sourced(cfg, s, y) && y != PUBLIC && Enabled(cfg, s, e)
    ensures Sourced(cfg, Apply(cfg, s, e), y)
  {
    match e
    case BrokerTakesServer => TakeServerKeepsSourced(cfg, s, y);
    case BrokerTakesClient(ip) => TakeClientKeepsSourced(cfg, s, ip, y);
    case ServerConsumes => LoopKeepsSourced(cfg, s, e, y);
    case ServerSubscribed => LoopKeepsSourced(cfg, s, e, y);
    case ServerRegisters => LoopKeepsSourced(cfg, s, e, y);
    case ClientAnnounces(_, _) => ClientStepKeepsSourced(cfg, s, e, y);
    case ClientSubscribes(_) => ClientStepKeepsSourced(cfg, s, e, y);
    case ClientReady(_) => ClientStepKeepsSourced(cfg, s, e, y);
    case ClientConsumes(_) => ClientStepKeepsSourced(cfg, s, e, y);
    case ClientTypes(_, _) => ClientStepKeepsSourced(cfg, s, e, y);
    case ClientReceives(_) => ClientStepKeepsSourced(cfg, s, e, y);
    case _ => QuietServerKeepsSourced(cfg, s, e, y);
  }

  // ---- Whoever is heard gets its key sent ----

  ghost predicate Among(cfg: Config, ms: seq<Message>, y: string) {
    exists i :: 0 <= i < |ms| && Announces(cfg, ms[i], y)
  }

  // The key is in the hands of the server's connection, or published.
  ghost predicate Sent(cfg: Config, s: State, y: string) {
    Publish(y, cfg.key, None) in s.server.up || KeyPublished(s, y, cfg.key)
  }

  ghost predicate Served(cfg: Config, s: State, y: string) {
    var sv := s.server;
    && (Heard(cfg, s, y) ==>
          Among(cfg, sv.down, y) || Among(cfg, sv.queue, y)
          || (sv.pc.Opening? && R.Opens(cfg, sv, y)) || Sent(cfg, s, y))
    && (sv.pc.Keying? && R.Opens(cfg, sv, y) ==> Sent(cfg, s, y))
  }

  lemma AmongRest(cfg: Config, ms: seq<Message>, y: string)
    requires ms != [] && Among(cfg, ms, y)
    ensures Announces(cfg, ms[0], y) || Among(cfg, ms[1..], y)
  {
    var i :| 0 <= i < |ms| && Announces(cfg, ms[i], y);
    assert i > 0 ==> ms[1..][i - 1] == ms[i];
  }

  lemma AmongMore(cfg: Config, ms: seq<Message>, m: Message, y: string)
    ensures Among(cfg, ms, y) || Announces(cfg, m, y) ==> Among(cfg, ms + [m], y)
  {
    if Among(cfg, ms, y) {
      var i :| 0 <= i < |ms| && Announces(cfg, ms[i], y);
      assert (ms + [m])[i] == ms[i];
    } else {
      assert (ms + [m])[|ms|] == m;
    }
  }

  lemma LoopKeepsServed(cfg: Config, s: State, e: Event, y: string)
    requires R.Inv(cfg, s) && Served(cfg, s, y) && Enabled(cfg, s, e)
    requires e.ServerConsumes? || e.ServerSubscribed? || e.ServerRegisters? || e.ServerReceives?
    ensures Served(cfg, Apply(cfg, s, e), y)
  {
    var sv, s' := s.server, Apply(cfg, s, e);
    assert s'.joined == s.joined && s'.log == s.log;
    assert Heard(cfg, s', y) <==> Heard(cfg, s, y);
    assert KeyPublished(s', y, cfg.key) <==> KeyPublished(s, y, cfg.key);
    match e
    case ServerConsumes =>
      assert R.ServerGets(cfg, sv.subs, sv.queue[0]);
      if Among(cfg, sv.queue, y) { AmongRest(cfg, sv.queue, y); }
    case ServerReceives =>
      if Among(cfg, sv.down, y) { AmongRest(cfg, sv.down, y); }
      AmongMore(cfg, sv.queue, sv.down[0], y);
    case ServerSubscribed =>
      assert R.Opens(cfg, sv, y) ==> Publish(y, cfg.key, None) in s'.server.up;
    case ServerRegisters =>
  }

  lemma QuietKeepsServed(cfg: Config, s: State, e: Event, y: string)
    requires R.Inv(cfg, s) && BootInv(s) && Served(cfg, s, y) && Enabled(cfg, s, e)
    requires e.ServerConnects? || e.ServerReady? || e.HandlerReplies? || e.HandlerSkips? || e.HandlerEnds?
             || e.ClientAnnounces? || e.ClientSubscribes? || e.ClientReady? || e.ClientConsumes? || e.ClientTypes?
             || e.ClientReceives?
    ensures Served(cfg, Apply(cfg, s, e), y)
  {
    var s' := Apply(cfg, s, e);
    assert s'.joined == s.joined && s'.log == s.log;
    assert s'.server.down == s.server.down && s'.server.queue == s.server.queue;
    assert Heard(cfg, s', y) <==> Heard(cfg, s, y);
    assert KeyPublished(s', y, cfg.key) <==> KeyPublished(s, y, cfg.key);
    assert R.Opens(cfg, s'.server, y) <==> R.Opens(cfg, s.server, y);
  }

  lemma PublishKeepsServed(cfg: Config, s: State, origin: Party, topic: string, payload: string,
                           cause: Option<nat>, y: string)
    requires BootInv(s) && Served(cfg, s, y) && (origin == Server ==> topic != PUBLIC)
    ensures Served(cfg, BrokerPublishes(s, origin, topic, payload, cause), y)
  {
    var s' := BrokerPublishes(s, origin, topic, payload, cause);
    var m := Message(topic, payload, origin, |s.log|);
    R.PublishedTo(s, origin, topic, payload, cause);
    assert s'.log == s.log + [Entry(m, cause)] && s'.joined == s.joined;
    AmongMore(cfg, s.server.down, m, y);
    KeyStaysPublished(s, s', Entry(m, cause), y, cfg.key);
    if Heard(cfg, s', y) {
      HeardBefore(cfg, s, s', Entry(m, cause), y);
    }
  }

  lemma KeyStaysPublished(s: State, s': State, e: Entry, y: string, key: string)
    requires s'.log == s.log + [e]
    ensures KeyPublished(s, y, key) ==> KeyPublished(s', y, key)
  {
    if KeyPublished(s, y, key) {
      var i :| 0 <= i < |s.log| &&
        s.log[i].msg.topic == y && s.log[i].msg.payload == key && s.log[i].msg.origin == Server;
      assert s'.log[i] == s.log[i];
    }
  }

  lemma HeardBefore(cfg: Config, s: State, s': State, e: Entry, y: string)
    requires s'.log == s.log + [e] && s'.joined == s.joined && Heard(cfg, s', y)
    ensures Heard(cfg, s, y) || (s.joined.Some? && Announces(cfg, e.msg, y))
  {
    if !(s.joined.value.retained.Some? && Announces(cfg, s.joined.value.retained.value, y)) {
      var i :| s.joined.value.at <= i < |s'.log| && 0 <= i && Announces(cfg, s'.log[i].msg, y);
      assert i < |s.log| ==> s.log[i] == s'.log[i];
    }
  }

  lemma SubscribeKeepsServed(cfg: Config, s: State, topic: string, y: string)
    requires R.Inv(cfg, s) && BootInv(s) && Served(cfg, s, y)
    requires Enabled(cfg, s, BrokerTakesServer) && s.server.up[0] == Subscribe(topic)
    ensures Served(cfg, Apply(cfg, s, BrokerTakesServer), y)
  {
    var s' := Apply(cfg, s, BrokerTakesServer);
    assert s'.log == s.log && s'.server.queue == s.server.queue;
    assert KeyPublished(s', y, cfg.key) <==> KeyPublished(s, y, cfg.key);
    if topic in s.slots {
      AmongMore(cfg, s.server.down, s.slots[topic], y);
    }
    if topic != PUBLIC {
      assert Heard(cfg, s', y) <==> Heard(cfg, s, y);
    }
    assert Publish(y, cfg.key, None) in s.server.up ==> Publish(y, cfg.key, None) in s.server.up[1..];
  }

  lemma TakeServerKeepsServed(cfg: Config, s: State, y: string)
    requires R.Inv(cfg, s) && BootInv(s) && Served(cfg, s, y) && Enabled(cfg, s, BrokerTakesServer)
    ensures Served(cfg, Apply(cfg, s, BrokerTakesServer), y)
  {
    match s.server.up[0]
    case Subscribe(topic) => SubscribeKeepsServed(cfg, s, topic, y);
    case Publish(topic, payload, cause) =>
      if s.server.up[0] == Publish(y, cfg.key, None) {
        // it is published now, so nothing more is asked
        var s' := Apply(cfg, s, BrokerTakesServer);
        assert s'.log[|s.log|].msg == Message(y, cfg.key, Server, |s.log|);
        assert KeyPublished(s', y, cfg.key);
      } else {
        var s1 := s.(server := s.server.(up := s.server.up[1..]));
        assert Publish(y, cfg.key, None) in s.server.up ==> Publish(y, cfg.key, None) in s1.server.up;
        assert Heard(cfg, s1, y) <==> Heard(cfg, s, y);
        assert KeyPublished(s1, y, cfg.key) <==> KeyPublished(s, y, cfg.key);
        PublishKeepsServed(cfg, s1, Server, topic, payload, cause, y);
      }
  }

  lemma TakeClientKeepsServed(cfg: Config, s: State, ip: string, y: string)
    requires R.Inv(cfg, s) && BootInv(s) && Served(cfg, s, y) && Enabled(cfg, s, BrokerTakesClient(ip))
    ensures Served(cfg, Apply(cfg, s, BrokerTakesClient(ip)), y)
  {
    var c := s.clients[ip];
    var s1 := SetClient(s, ip, c.(up := c.up[1..]));
    assert Heard(cfg, s1, y) <==> Heard(cfg, s, y);
    assert KeyPublished(s1, y, cfg.key) <==> KeyPublished(s, y, cfg.key);
    match c.up[0]
    case Subscribe(topic) =>
      var s' := ClientSubscribed(s1, ip);
      assert Heard(cfg, s', y) <==> Heard(cfg, s, y);
      assert KeyPublished(s', y, cfg.key) <==> KeyPublished(s, y, cfg.key);
    case Publish(topic, payload, cause) =>
      PublishKeepsServed(cfg, s1, Client(ip), topic, payload, cause, y);
  }

  lemma StepKeepsServed(cfg: Config, s: State, e: Event, y: string)
    requires R.Inv(cfg, s) && BootInv(s) && Served(cfg, s, y) && Enabled(cfg, s, e)
    ensures Served(cfg, Apply(cfg, s, e), y)
  {
    match e
    case BrokerTakesServer => TakeServerKeepsServed(cfg, s, y);
    case BrokerTakesClient(ip) => TakeClientKeepsServed(cfg, s, ip, y);
    case ServerConsumes => LoopKeepsServed(cfg, s, e, y);
    case ServerSubscribed => LoopKeepsServed(cfg, s, e, y);
    case ServerRegisters => LoopKeepsServed(cfg, s, e, y);
    case ServerReceives => LoopKeepsServed(cfg, s, e, y);
    case _ => QuietKeepsServed(cfg, s, e, y);
  }

  // ---- Where a client's key comes from ----

  // What was retained for the client at the start is the key.
  predicate LeftBehind(cfg: Config, x: string) {
    x in cfg.slots && cfg.slots[x] == cfg.key
  }

  ghost predicate Genuine(cfg: Config, s: State, x: string, m: Message) {
    m.topic == x ==>
      (m.origin == Server && Heard(cfg, s, x)) || (m.origin == Foreign && x in cfg.slots && m.payload == cfg.slots[x])
  }

  ghost predicate AllGenuine(cfg: Config, s: State, x: string, ms: seq<Message>) {
    forall i :: 0 <= i < |ms| ==> Genuine(cfg, s, x, ms[i])
  }

  // Until the client has a key, all that comes on its topic is the server's or was there before.
  ghost predicate KeyOrigin(cfg: Config, s: State, x: string) {
    x in s.clients &&
    var c := s.clients[x];
    && (c.pc == ClientPc.Subscribing ==> Subscribe(x) in c.up || c.subscribed)
    && (c.pc == AwaitingKey || c.pc == Working ==> c.subscribed)
    && (c.key.None? ==>
          && AllGenuine(cfg, s, x, c.down) && AllGenuine(cfg, s, x, c.queue)
          && (x in s.slots ==> Genuine(cfg, s, x, s.slots[x]))
          && (LeftBehind(cfg, x) ==>
                if c.subscribed then Coming(c, x, cfg.key) else x in s.slots && s.slots[x].payload == cfg.key))
    && (c.key.Some? ==> Heard(cfg, s, x) || LeftBehind(cfg, x))
  }

  lemma ServerStepKeepsOrigin(cfg: Config, s: State, e: Event, x: string)
    requires KeyOrigin(cfg, s, x) && Enabled(cfg, s, e)
    requires e.ServerConnects? || e.ServerReady? || e.ServerConsumes? || e.ServerSubscribed? || e.ServerRegisters?
             || e.HandlerReplies? || e.HandlerSkips? || e.HandlerEnds? || e.ServerReceives?
    ensures KeyOrigin(cfg, Apply(cfg, s, e), x)
  {
    var s' := Apply(cfg, s, e);
    assert s'.clients == s.clients && s'.slots == s.slots && s'.log == s.log && s'.joined == s.joined;
    assert Heard(cfg, s', x) <==> Heard(cfg, s, x);
  }

  lemma OthersKeepOrigin(cfg: Config, s: State, e: Event, x: string)
    requires KeyOrigin(cfg, s, x) && Enabled(cfg, s, e)
    requires (e.ClientAnnounces? || e.ClientSubscribes? || e.ClientReady? || e.ClientConsumes? || e.ClientTypes?
              || e.ClientReceives?) && e.ip != x
    ensures KeyOrigin(cfg, Apply(cfg, s, e), x)
  {
    var s' := Apply(cfg, s, e);
    assert s'.clients[x] == s.clients[x] && s'.slots == s.slots && s'.log == s.log && s'.joined == s.joined;
    assert Heard(cfg, s', x) <==> Heard(cfg, s, x);
  }

  // What is coming goes on coming, until it is accepted.
  lemma ComingGoesOn(c: ClientState, c': ClientState, x: string, key: string, consumes: bool)
    requires Coming(c, x, key)
    requires if consumes then c.queue != [] && c' == Consume(x, c)
             else c.down != [] && c' == c.(down := c.down[1..], queue := c.queue + [c.down[0]])
    requires c.pc == AwaitingKey || !consumes
    requires IsKey(key)
    ensures Coming(c', x, key) || c'.key.Some?
  {
    if HasKey(c.queue, x, key) {
      var i :| 0 <= i < |c.queue| && c.queue[i].topic == x && c.queue[i].payload == key;
      if consumes {
        assert i > 0 ==> c'.queue[i - 1] == c.queue[i];
      } else {
        assert c'.queue[i] == c.queue[i];
      }
    } else {
      var i :| 0 <= i < |c.down| && c.down[i].topic == x && c.down[i].payload == key;
      if consumes {
        assert c'.down[i] == c.down[i];
      } else {
        assert if i == 0 then c'.queue[|c.queue|] == c.down[0] else c'.down[i - 1] == c.down[i];
      }
    }
  }

  lemma OwnStepKeepsOrigin(cfg: Config, s: State, e: Event, x: string)
    requires ValidConfig(cfg) && CleanSlot(cfg, x) && KeyOrigin(cfg, s, x) && Handover(cfg, s, x) && Enabled(cfg, s, e)
    requires e == ClientSubscribes(x) || e == ClientReady(x) || e == ClientConsumes(x) || e == ClientReceives(x)
             || (e.ClientAnnounces? && e.ip == x) || (e.ClientTypes? && e.ip == x)
    ensures KeyOrigin(cfg, Apply(cfg, s, e), x)
  {
    var s' := Apply(cfg, s, e);
    var c, c' := s.clients[x], s'.clients[x];
    assert Heard(cfg, s', x) <==> Heard(cfg, s, x);
    if c.key.None? && LeftBehind(cfg, x) && c.subscribed {
      if e == ClientConsumes(x) {
        ComingGoesOn(c, c', x, cfg.key, true);
      } else if e == ClientReceives(x) {
        ComingGoesOn(c, c', x, cfg.key, false);
      } else {
        assert c'.down == c.down && c'.queue == c.queue;
      }
    }
    if e == ClientConsumes(x) && c.key.None? {
      assert Genuine(cfg, s, x, c.queue[0]);
    }
  }

  lemma ComingStays(c: ClientState, m: Message, x: string, key: string)
    requires Coming(c, x, key)
    ensures Coming(c.(down := c.down + [m]), x, key)
  {
    var c' := c.(down := c.down + [m]);
    if HasKey(c.down, x, key) {
      var i :| 0 <= i < |c.down| && c.down[i].topic == x && c.down[i].payload == key;
      assert c'.down[i] == c.down[i];
    }
  }

  // A publication on another topic, or by the server for a client that it has heard.
  lemma PublishKeepsOrigin(cfg: Config, s: State, origin: Party, topic: string, payload: string,
                           cause: Option<nat>, x: string)
    requires BootInv(s) && KeyOrigin(cfg, s, x)
    requires topic == x && s.clients[x].key.None? ==> origin == Server && Heard(cfg, s, x) && payload == cfg.key
    requires ValidConfig(cfg)
    ensures KeyOrigin(cfg, BrokerPublishes(s, origin, topic, payload, cause), x)
  {
    var s' := BrokerPublishes(s, origin, topic, payload, cause);
    var m := Message(topic, payload, origin, |s.log|);
    var c, c' := s.clients[x], s'.clients[x];
    PublishKeepsHeard(cfg, s, origin, topic, payload, cause, x);
    if c.key.None? {
      assert c' == c || (c' == c.(down := c.down + [m]) && topic == x);
      if LeftBehind(cfg, x) && c.subscribed && c' != c {
        ComingStays(c, m, x, cfg.key);
      }
      if topic != x && x in s'.slots {
        assert s'.slots[x] == s.slots[x];
      }
    }
  }

  lemma TakeServerKeepsOrigin(cfg: Config, s: State, x: string)
    requires R.Inv(cfg, s) && BootInv(s) && Sourced(cfg, s, x) && KeyOrigin(cfg, s, x) && Handover(cfg, s, x)
    requires Enabled(cfg, s, BrokerTakesServer)
    ensures KeyOrigin(cfg, Apply(cfg, s, BrokerTakesServer), x)
  {
    match s.server.up[0]
    case Subscribe(topic) =>
      var s' := Apply(cfg, s, BrokerTakesServer);
      assert s'.clients == s.clients && s'.slots == s.slots;
      assert Heard(cfg, s, x) ==> Heard(cfg, s', x) by {
        if Heard(cfg, s, x) { StepKeepsHeard(cfg, s, BrokerTakesServer, x); }
      }
    case Publish(topic, payload, cause) =>
      var s1 := s.(server := s.server.(up := s.server.up[1..]));
      assert Heard(cfg, s1, x) <==> Heard(cfg, s, x);
      PublishKeepsOrigin(cfg, s1, Server, topic, payload, cause, x);
  }

  // The retained message comes when the client subscribes.
  lemma SubscribedKeepsOrigin(cfg: Config, s: State, ip: string, x: string)
    requires KeyOrigin(cfg, s, x) && ip in s.clients && (x in s.slots ==> s.slots[x].topic == x)
    ensures KeyOrigin(cfg, ClientSubscribed(s, ip), x)
  {
    var s' := ClientSubscribed(s, ip);
    assert Heard(cfg, s', x) <==> Heard(cfg, s, x);
    if ip == x {
      var c, c' := s.clients[x], s'.clients[x];
      if c.key.None? && LeftBehind(cfg, x) {
        if c.subscribed {
          if x in s.slots { ComingStays(c, s.slots[x], x, cfg.key); }
        } else {
          assert c'.down[|c.down|] == s.slots[x];
          assert HasKey(c'.down, x, cfg.key);
        }
      }
    }
  }

  lemma TakeClientKeepsOrigin(cfg: Config, s: State, ip: string, x: string)
    requires R.Inv(cfg, s) && BootInv(s) && KeyOrigin(cfg, s, x) && Handover(cfg, s, x)
    requires Enabled(cfg, s, BrokerTakesClient(ip))
    ensures KeyOrigin(cfg, Apply(cfg, s, BrokerTakesClient(ip)), x)
  {
    var c := s.clients[ip];
    var s1 := SetClient(s, ip, c.(up := c.up[1..]));
    assert R.ClientSends(cfg, c, ip, c.up[0]);
    assert Heard(cfg, s1, x) <==> Heard(cfg, s, x);
    match c.up[0]
    case Subscribe(topic) =>
      TakenSubscription(cfg, s, ip, x);
    case Publish(topic, payload, cause) =>
      assert Subscribe(x) in c.up ==> Subscribe(x) in c.up[1..];
      PublishKeepsOrigin(cfg, s1, Client(ip), topic, payload, cause, x);
  }

  lemma TakenSubscription(cfg: Config, s: State, ip: string, x: string)
    requires KeyOrigin(cfg, s, x) && Enabled(cfg, s, BrokerTakesClient(ip)) && s.clients[ip].up[0].Subscribe?
    requires x in s.slots ==> s.slots[x].topic == x
    ensures KeyOrigin(cfg, Apply(cfg, s, BrokerTakesClient(ip)), x)
  {
    // the subscription first, its removal from what is sent afterwards
    SubscribedKeepsOrigin(cfg, s, ip, x);
    var s1, c := ClientSubscribed(s, ip), s.clients[ip];
    var s' := Apply(cfg, s, BrokerTakesClient(ip));
    assert s'.clients == s1.clients[ip := s1.clients[ip].(up := c.up[1..])];
    ShorterKeepsOrigin(cfg, s1, s', ip, c.up[1..], x);
  }

  lemma ShorterKeepsOrigin(cfg: Config, s: State, s': State, ip: string, up: seq<Packet>, x: string)
    requires KeyOrigin(cfg, s, x) && ip in s.clients && s.clients[ip].subscribed
    requires s'.clients == s.clients[ip := s.clients[ip].(up := up)]
    requires s'.slots == s.slots && s'.log == s.log && s'.joined == s.joined
    ensures KeyOrigin(cfg, s', x)
  {
    assert Heard(cfg, s', x) <==> Heard(cfg, s, x);
  }

  lemma StepKeepsOrigin(cfg: Config, s: State, e: Event, x: string)
    requires R.Inv(cfg, s) && BootInv(s) && Sourced(cfg, s, x) && KeyOrigin(cfg, s, x) && Handover(cfg, s, x)
    requires CleanSlot(cfg, x) && Enabled(cfg, s, e)
    ensures KeyOrigin(cfg, Apply(cfg, s, e), x)
  {
    match e
    case BrokerTakesServer => TakeServerKeepsOrigin(cfg, s, x);
    case BrokerTakesClient(ip) => TakeClientKeepsOrigin(cfg, s, ip, x);
    case ClientAnnounces(ip, _) => ClientStepKeepsOrigin(cfg, s, e, x);
    case ClientSubscribes(ip) => ClientStepKeepsOrigin(cfg, s, e, x);
    case ClientReady(ip) => ClientStepKeepsOrigin(cfg, s, e, x);
    case ClientConsumes(ip) => ClientStepKeepsOrigin(cfg, s, e, x);
    case ClientTypes(ip, _) => ClientStepKeepsOrigin(cfg, s, e, x);
    case ClientReceives(ip) => ClientStepKeepsOrigin(cfg, s, e, x);
    case _ => ServerStepKeepsOrigin(cfg, s, e, x);
  }

  lemma ClientStepKeepsOrigin(cfg: Config, s: State, e: Event, x: string)
    requires ValidConfig(cfg) && CleanSlot(cfg, x) && KeyOrigin(cfg, s, x) && Handover(cfg, s, x) && Enabled(cfg, s, e)
    requires e.ClientAnnounces? || e.ClientSubscribes? || e.ClientReady? || e.ClientConsumes? || e.ClientTypes?
             || e.ClientReceives?
    ensures KeyOrigin(cfg, Apply(cfg, s, e), x)
  {
    if e.ip == x {
      OwnStepKeepsOrigin(cfg, s, e, x);
    } else {
      OthersKeepOrigin(cfg, s, e, x);
    }
  }

  // ---- The outcome ----

  ghost predicate Inv(cfg: Config, s: State, x: string) {
    && R.Inv(cfg, s) && BootInv(s) && Handover(cfg, s, x)
    && Sourced(cfg, s, x) && Served(cfg, s, x) && KeyOrigin(cfg, s, x)
  }

  lemma {:induction false} RunsKeepInv(cfg: Config, s: State, es: seq<Event>, x: string)
    requires Inv(cfg, s, x) && CleanSlot(cfg, x) && x != PUBLIC && Runs(cfg, s, es)
    ensures Inv(cfg, After(cfg, s, es), x)
    decreases |es|
  {
    if es != [] {
      R.StepKeepsInv(cfg, s, es[0]);
      StepKeepsBoot(cfg, s, es[0]);
      StepKeepsSourced(cfg, s, es[0], x);
      StepKeepsServed(cfg, s, es[0], x);
      StepKeepsOrigin(cfg, s, es[0], x);
      StepKeepsHandover(cfg, s, es[0], x);
      RunsKeepInv(cfg, Apply(cfg, s, es[0]), es[1..], x);
    }
  }

  // Nothing is left to do but what the users type.
  ghost predicate Settled(cfg: Config, s: State) {
    forall e :: Enabled(cfg, s, e) ==> e.ClientTypes?
  }

  // Then the server waits in its loop, with nothing on the way to it or from it.
  lemma SettledServer(cfg: Config, s: State)
    requires R.Inv(cfg, s) && BootInv(s) && Settled(cfg, s)
    ensures s.server.pc == Looping && s.server.up == [] && s.server.down == [] && s.server.queue == []
  {
    var sv := s.server;
    assert !Enabled(cfg, s, BrokerTakesServer) && !Enabled(cfg, s, ServerReceives);
    assert !Enabled(cfg, s, ServerConnects) && !Enabled(cfg, s, ServerReady);
    assert !Enabled(cfg, s, ServerSubscribed) && !Enabled(cfg, s, ServerRegisters);
    assert !Enabled(cfg, s, ServerConsumes);
    LoopCanConsume(cfg, s);
  }

  lemma LoopCanConsume(cfg: Config, s: State)
    requires R.Inv(cfg, s)
    ensures s.server.pc == Looping && s.server.queue != [] ==> Enabled(cfg, s, ServerConsumes)
  {
    if s.server.queue != [] {
      assert R.ServerGets(cfg, s.server.subs, s.server.queue[0]);
    }
  }

  // And so does every client in its own, subscribed.
  lemma SettledClient(cfg: Config, s: State, x: string)
    requires KeyOrigin(cfg, s, x) && Settled(cfg, s)
    ensures s.clients[x].subscribed && s.clients[x].down == [] && s.clients[x].queue == []
  {
    assert !Enabled(cfg, s, BrokerTakesClient(x)) && !Enabled(cfg, s, ClientReceives(x));
    assert !Enabled(cfg, s, ClientAnnounces(x, "")) && !Enabled(cfg, s, ClientSubscribes(x));
    assert !Enabled(cfg, s, ClientReady(x)) && !Enabled(cfg, s, ClientConsumes(x));
  }

  // In every run, when nothing is left to do but what the users type: a client has the key if and
  // only if its announcement reached the broker after the server's subscription or was the one
  // retained then, or the key was left in its slot from before.
  lemma KeyExactlyWhenHeard(cfg: Config, es: seq<Event>, x: string)
    requires ValidConfig(cfg) && Runs(cfg, Start(cfg), es) && x in cfg.clients && CleanSlot(cfg, x)
    requires Settled(cfg, After(cfg, Start(cfg), es))
    ensures var s := After(cfg, Start(cfg), es);
      x in s.clients && (s.clients[x].key == Some(cfg.key) <==> Heard(cfg, s, x) || LeftBehind(cfg, x))
  {
    var s := After(cfg, Start(cfg), es);
    StartsWithInv(cfg, x);
    RunsKeepInv(cfg, Start(cfg), es, x);
    SettledServer(cfg, s);
    SettledClient(cfg, s, x);
  }

  lemma StartsWithInv(cfg: Config, x: string)
    requires ValidConfig(cfg) && x in cfg.clients && CleanSlot(cfg, x)
    ensures Inv(cfg, Start(cfg), x) && x != PUBLIC
  {
  }
}
