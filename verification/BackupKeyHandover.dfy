/**
 The hand-over of the server's public key.  A client announces itself before it subscribes to its
 own topic, so the key may be published before anybody listens.  It is never lost: nothing can
 overwrite the retained key before the client has it, because until then nobody publishes
 anything but the key on that topic.
 */
module BackupKeyHandover {
  import opened Common
  import opened BackupProtocol
  import R = BackupRegistration

  ghost predicate NoRequests(ms: seq<Message>, x: string) {
    forall i :: 0 <= i < |ms| && ms[i].topic == x ==> !IsRequest(ms[i].payload)
  }

  ghost predicate NoOtherKeys(ms: seq<Message>, key: string) {
    forall i :: 0 <= i < |ms| && IsKey(ms[i].payload) ==> ms[i].payload == key
  }

  ghost predicate HasKey(ms: seq<Message>, x: string, key: string) {
    exists i :: 0 <= i < |ms| && ms[i].topic == x && ms[i].payload == key
  }

  // The broker has processed a publication of the key to x.
  ghost predicate KeyPublished(s: State, x: string, key: string) {
    exists i :: 0 <= i < |s.log| &&
      s.log[i].msg.topic == x && s.log[i].msg.payload == key && s.log[i].msg.origin == Server
  }

  predicate KeyOrStale(m: Message, key: string) {
    if m.origin == Server then m.payload == key
    else m.origin == Foreign && !IsRequest(m.payload) && (IsKey(m.payload) ==> m.payload == key)
  }

  // Nothing on the topic can make the server publish anything but the key.
  ghost predicate ServerQuiet(sv: ServerState, x: string, key: string) {
    && NoRequests(sv.down, x) && NoRequests(sv.queue, x)
    && (forall h :: 0 <= h < |sv.handlers| && sv.handlers[h].msg.topic == x ==> !IsRequest(sv.handlers[h].msg.payload))
    && (forall i :: 0 <= i < |sv.up| && sv.up[i].Publish? && sv.up[i].topic == x ==> sv.up[i].payload == key)
  }

  ghost predicate BrokerQuiet(s: State, x: string, key: string) {
    && (x in s.slots ==> KeyOrStale(s.slots[x], key))
    && (forall i :: 0 <= i < |s.log| && s.log[i].msg.topic == x ==> s.log[i].msg.payload == key)
  }

  // The key is on the way to the client, or in its queue.
  ghost predicate Coming(c: ClientState, x: string, key: string) {
    HasKey(c.down, x, key) || HasKey(c.queue, x, key)
  }

  ghost predicate Kept(s: State, x: string, key: string)
    requires x in s.clients
  {
    KeyPublished(s, x, key) ==>
      if s.clients[x].subscribed then Coming(s.clients[x], x, key) else x in s.slots && s.slots[x].payload == key
  }

  ghost predicate Waiting(s: State, x: string, key: string)
    requires x in s.clients
  {
    && ServerQuiet(s.server, x, key)
    && BrokerQuiet(s, x, key)
    && NoOtherKeys(s.clients[x].down, key) && NoOtherKeys(s.clients[x].queue, key)
    && Kept(s, x, key)
  }

  ghost predicate Handover(cfg: Config, s: State, x: string) {
    && x in s.clients && x in cfg.clients
    && (s.clients[x].pc == Working <==> s.clients[x].key.Some?)
    && (s.clients[x].key.Some? ==> s.clients[x].key.value == cfg.key)
    && (s.clients[x].key.None? ==> Waiting(s, x, cfg.key))
  }

  lemma ServerStepKeepsWaiting(cfg: Config, s: State, e: Event, x: string)
    requires R.Inv(cfg, s) && Handover(cfg, s, x) && s.clients[x].key.None? && Enabled(cfg, s, e)
    requires e.ServerConnects? || e.ServerReady? || e.ServerConsumes? || e.ServerSubscribed? || e.ServerRegisters?
             || e.HandlerReplies? || e.HandlerSkips? || e.HandlerEnds? || e.ServerReceives?
    ensures Waiting(Apply(cfg, s, e), x, cfg.key)
  {
    var s' := Apply(cfg, s, e);
    assert s'.clients == s.clients && s'.slots == s.slots && s'.log == s.log;
  }

  // The client's own steps: consuming accepts the key when it comes, and nothing else.
  lemma OwnStepKeepsInv(cfg: Config, s: State, e: Event, x: string)
    requires R.Inv(cfg, s) && Handover(cfg, s, x) && Enabled(cfg, s, e)
    requires e == ClientSubscribes(x) || e == ClientReady(x) || e == ClientConsumes(x) || e == ClientReceives(x)
             || (e.ClientAnnounces? && e.ip == x) || (e.ClientTypes? && e.ip == x)
    ensures Handover(cfg, Apply(cfg, s, e), x)
  {
    var s' := Apply(cfg, s, e);
    var c, c' := s.clients[x], s'.clients[x];
    if c'.key.None? && c.subscribed && KeyPublished(s, x, cfg.key) {
      if HasKey(c.queue, x, cfg.key) {
        var i :| 0 <= i < |c.queue| && c.queue[i].topic == x && c.queue[i].payload == cfg.key;
        assert e == ClientConsumes(x) ==> i > 0 && c'.queue[i - 1] == c.queue[i];
        assert e != ClientConsumes(x) ==> c'.queue[i] == c.queue[i];
        assert HasKey(c'.queue, x, cfg.key);
      } else {
        var i :| 0 <= i < |c.down| && c.down[i].topic == x && c.down[i].payload == cfg.key;
        if e == ClientReceives(x) {
          assert if i == 0 then c'.queue[|c.queue|] == c.down[0] else c'.down[i - 1] == c.down[i];
        } else {
          assert c'.down[i] == c.down[i];
        }
      }
    }
  }

  lemma OthersStepKeepsInv(cfg: Config, s: State, e: Event, x: string)
    requires R.Inv(cfg, s) && Handover(cfg, s, x) && Enabled(cfg, s, e)
    requires (e.ClientAnnounces? || e.ClientSubscribes? || e.ClientReady? || e.ClientConsumes? || e.ClientTypes?
              || e.ClientReceives?)
             && e.ip != x
    ensures Handover(cfg, Apply(cfg, s, e), x)
  {
    var s' := Apply(cfg, s, e);
    assert s'.clients[x] == s.clients[x] && s'.slots == s.slots && s'.log == s.log && s'.server == s.server;
  }

  // ---- The broker ----

  lemma PublishElsewhereKeepsWaiting(s: State, origin: Party, topic: string, payload: string, cause: Option<nat>,
                                     x: string, key: string)
    requires x in s.clients && Waiting(s, x, key) && topic != x
    ensures Waiting(BrokerPublishes(s, origin, topic, payload, cause), x, key)
    ensures BrokerPublishes(s, origin, topic, payload, cause).clients[x] == s.clients[x]
  {
    var s' := BrokerPublishes(s, origin, topic, payload, cause);
    assert s'.clients[x] == s.clients[x];
    assert KeyPublished(s', x, key) ==> KeyPublished(s, x, key);
  }

  // The key goes to the subscriber, or stays in the slot for it.
  lemma PublishKeyKeepsWaiting(s: State, cause: Option<nat>, x: string, key: string)
    requires x in s.clients && Waiting(s, x, key) && IsKey(key)
    ensures var s' := BrokerPublishes(s, Server, x, key, cause);
      Waiting(s', x, key) && s'.clients[x] == s.clients[x].(down := s'.clients[x].down)
  {
    var s' := BrokerPublishes(s, Server, x, key, cause);
    var c, c' := s.clients[x], s'.clients[x];
    if c.subscribed {
      assert c'.down[|c.down|].topic == x && c'.down[|c.down|].payload == key;
    }
  }

  lemma TakeServerKeepsInv(cfg: Config, s: State, x: string)
    requires R.Inv(cfg, s) && Handover(cfg, s, x) && Enabled(cfg, s, BrokerTakesServer)
    ensures Handover(cfg, Apply(cfg, s, BrokerTakesServer), x)
  {
    var sv := s.server;
    var s1 := s.(server := sv.(up := sv.up[1..]));
    match sv.up[0]
    case Subscribe(topic) =>
    case Publish(topic, payload, cause) =>
      if s.clients[x].key.None? {
        assert Waiting(s1, x, cfg.key);
        if topic == x {
          PublishKeyKeepsWaiting(s1, cause, x, cfg.key);
        } else {
          PublishElsewhereKeepsWaiting(s1, Server, topic, payload, cause, x, cfg.key);
        }
      }
  }

  // Until it has the key, a client publishes only its announcement.
  lemma TakeClientKeepsInv(cfg: Config, s: State, ip: string, x: string)
    requires R.Inv(cfg, s) && Handover(cfg, s, x) && Enabled(cfg, s, BrokerTakesClient(ip))
    ensures Handover(cfg, Apply(cfg, s, BrokerTakesClient(ip)), x)
  {
    var c := s.clients[ip];
    var s1 := SetClient(s, ip, c.(up := c.up[1..]));
    assert R.ClientSends(cfg, c, ip, c.up[0]);
    match c.up[0]
    case Subscribe(topic) =>
      if ip == x && s.clients[x].key.None? {
        SubscribeKeepsWaiting(s1, x, cfg.key);
      }
    case Publish(topic, payload, cause) =>
      if s.clients[x].key.None? {
        assert Waiting(s1, x, cfg.key);
        PublishElsewhereKeepsWaiting(s1, Client(ip), topic, payload, cause, x, cfg.key);
      }
  }

  // The retained key is sent when the client subscribes.
  lemma SubscribeKeepsWaiting(s: State, x: string, key: string)
    requires x in s.clients && Waiting(s, x, key) && IsKey(key) && (x in s.slots ==> s.slots[x].topic == x)
    ensures Waiting(ClientSubscribed(s, x), x, key)
  {
    var c, c' := s.clients[x], ClientSubscribed(s, x).clients[x];
    if KeyPublished(s, x, key) {
      if !c.subscribed {
        assert c'.down[|c.down|].topic == x && c'.down[|c.down|].payload == key;
      } else if HasKey(c.down, x, key) {
        var i :| 0 <= i < |c.down| && c.down[i].topic == x && c.down[i].payload == key;
        assert c'.down[i] == c.down[i];
      }
    }
  }

  // ---- Runs ----

  lemma StepKeepsHandover(cfg: Config, s: State, e: Event, x: string)
    requires R.Inv(cfg, s) && Handover(cfg, s, x) && Enabled(cfg, s, e)
    ensures Handover(cfg, Apply(cfg, s, e), x)
  {
    match e
    case BrokerTakesServer => TakeServerKeepsInv(cfg, s, x);
    case BrokerTakesClient(ip) => TakeClientKeepsInv(cfg, s, ip, x);
    case ClientAnnounces(ip, _) => ClientStepKeepsHandover(cfg, s, e, x);
    case ClientSubscribes(ip) => ClientStepKeepsHandover(cfg, s, e, x);
    case ClientReady(ip) => ClientStepKeepsHandover(cfg, s, e, x);
    case ClientConsumes(ip) => ClientStepKeepsHandover(cfg, s, e, x);
    case ClientTypes(ip, _) => ClientStepKeepsHandover(cfg, s, e, x);
    case ClientReceives(ip) => ClientStepKeepsHandover(cfg, s, e, x);
    case _ => ServerStepKeepsHandover(cfg, s, e, x);
  }

  lemma ServerStepKeepsHandover(cfg: Config, s: State, e: Event, x: string)
    requires R.Inv(cfg, s) && Handover(cfg, s, x) && Enabled(cfg, s, e)
    requires e.ServerConnects? || e.ServerReady? || e.ServerConsumes? || e.ServerSubscribed? || e.ServerRegisters?
             || e.HandlerReplies? || e.HandlerSkips? || e.HandlerEnds? || e.ServerReceives?
    ensures Handover(cfg, Apply(cfg, s, e), x)
  {
    if s.clients[x].key.None? {
      ServerStepKeepsWaiting(cfg, s, e, x);
    }
  }

  lemma ClientStepKeepsHandover(cfg: Config, s: State, e: Event, x: string)
    requires R.Inv(cfg, s) && Handover(cfg, s, x) && Enabled(cfg, s, e)
    requires e.ClientAnnounces? || e.ClientSubscribes? || e.ClientReady? || e.ClientConsumes? || e.ClientTypes?
             || e.ClientReceives?
    ensures Handover(cfg, Apply(cfg, s, e), x)
  {
    if e.ip == x {
      OwnStepKeepsInv(cfg, s, e, x);
    } else {
      OthersStepKeepsInv(cfg, s, e, x);
    }
  }

  lemma {:induction false} RunsKeepHandover(cfg: Config, s: State, es: seq<Event>, x: string)
    requires R.Inv(cfg, s) && Handover(cfg, s, x) && Runs(cfg, s, es)
    ensures Handover(cfg, After(cfg, s, es), x)
    decreases |es|
  {
    if es != [] {
      StepKeepsHandover(cfg, s, es[0], x);
      R.StepKeepsInv(cfg, s, es[0]);
      RunsKeepHandover(cfg, Apply(cfg, s, es[0]), es[1..], x);
    }
  }

  // In every run, once the broker has processed both the publication of the key to a client's
  // topic and the client's subscription, in either order, the key is on the way to the client,
  // in its queue, or accepted; before the subscription it is what the broker retains.
  lemma KeyIsHandedOver(cfg: Config, es: seq<Event>, x: string)
    requires ValidConfig(cfg) && Runs(cfg, Start(cfg), es) && x in cfg.clients && CleanSlot(cfg, x)
    requires KeyPublished(After(cfg, Start(cfg), es), x, cfg.key)
    ensures var s := After(cfg, Start(cfg), es);
      && x in s.clients
      && (s.clients[x].subscribed ==> Coming(s.clients[x], x, cfg.key) || s.clients[x].key == Some(cfg.key))
      && (!s.clients[x].subscribed ==>
            s.clients[x].key == Some(cfg.key) || (x in s.slots && s.slots[x].payload == cfg.key))
  {
    RunsKeepHandover(cfg, Start(cfg), es, x);
  }

  // A client accepts nothing but the server's key, and works only once it has it.
  lemma OnlyTheServersKeyIsAccepted(cfg: Config, es: seq<Event>, x: string)
    requires ValidConfig(cfg) && Runs(cfg, Start(cfg), es) && x in cfg.clients && CleanSlot(cfg, x)
    ensures var s := After(cfg, Start(cfg), es);
      && x in s.clients
      && (s.clients[x].key.Some? ==> s.clients[x].key.value == cfg.key)
      && (s.clients[x].pc == Working <==> s.clients[x].key.Some?)
  {
    RunsKeepHandover(cfg, Start(cfg), es, x);
  }
}
