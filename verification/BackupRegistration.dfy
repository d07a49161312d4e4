/**
 Registered before served: every message that the server's loop takes from a client's topic comes
 from a client that is already in `m_clients`, so searchForClient() finds it.  Its not-found
 return would read the first of no words.
 */
module BackupRegistration {
  import opened Common
  import opened Announcement
  import opened BackupProtocol

  // ---- What travels where ----

  // A client sends its announcement, then the subscription to its own topic, then, once it has
  // the key, whatever its user types, to its own topic.
  predicate ClientSends(cfg: Config, c: ClientState, ip: string, p: Packet) {
    match p
    case Subscribe(topic) => topic == ip
    case Publish(topic, payload, cause) =>
      cause == None && ((topic == PUBLIC && IsAnnouncement(cfg, payload)) || (topic == ip && c.pc == Working))
  }

  ghost predicate ClientInv(cfg: Config, c: ClientState, ip: string) {
    forall i :: 0 <= i < |c.up| ==> ClientSends(cfg, c, ip, c.up[i])
  }

  // Announcements on the public topic; nothing that the server itself published; only topics to
  // which it has subscribed.
  predicate ServerGets(cfg: Config, subs: set<string>, m: Message) {
    && m.origin != Server
    && m.topic in subs
    && (m.topic == PUBLIC ==> IsAnnouncement(cfg, m.payload))
  }

  ghost predicate Receiving(cfg: Config, sv: ServerState) {
    && (forall i :: 0 <= i < |sv.down| ==> ServerGets(cfg, sv.subs, sv.down[i]))
    && (forall i :: 0 <= i < |sv.queue| ==> ServerGets(cfg, sv.subs, sv.queue[i]))
  }

  // ---- Who is registered ----

  ghost predicate Known(sv: ServerState, ip: string) {
    exists i :: 0 <= i < |sv.clients| && sv.clients[i].ip == ip
  }

  // In handleNewSubscriber() for this address.
  predicate Opens(cfg: Config, sv: ServerState, ip: string) {
    && (sv.pc.Opening? || sv.pc.Keying?)
    && IsAnnouncement(cfg, sv.pc.announced)
    && Announced(cfg, sv.pc.announced) == ip
  }

  predicate Subscribing(sv: ServerState, ip: string) {
    Subscribe(ip) in sv.up || ip in sv.subs
  }

  ghost predicate ServerInv(cfg: Config, sv: ServerState) {
    && Receiving(cfg, sv)
    && (sv.pc.Opening? || sv.pc.Keying? ==> IsAnnouncement(cfg, sv.pc.announced))
    && (forall ip :: Subscribing(sv, ip) ==> ip == PUBLIC || Known(sv, ip) || Opens(cfg, sv, ip))
    && (forall h :: 0 <= h < |sv.handlers| ==>
          var m := sv.handlers[h].msg;
          cfg.isIP4(m.topic) && m.origin != Server && Known(sv, m.topic))
    && (forall i :: 0 <= i < |sv.up| && sv.up[i].Publish? ==> sv.up[i].topic != PUBLIC)
  }

  ghost predicate Inv(cfg: Config, s: State) {
    && ValidConfig(cfg)
    && s.clients.Keys == cfg.clients
    && (forall ip :: ip in s.clients ==> ClientInv(cfg, s.clients[ip], ip))
    && ServerInv(cfg, s.server)
    && (forall t :: t in s.slots ==> s.slots[t].topic == t)
    && (PUBLIC in s.slots ==> IsAnnouncement(cfg, s.slots[PUBLIC].payload))
  }

  // ---- Steps ----

  lemma ConsumeKeepsInv(cfg: Config, s: State)
    requires Inv(cfg, s) && Enabled(cfg, s, ServerConsumes)
    ensures Inv(cfg, Apply(cfg, s, ServerConsumes))
  {
    var sv, m := s.server, s.server.queue[0];
    var sv' := Apply(cfg, s, ServerConsumes).server;
    assert ServerGets(cfg, sv.subs, m);
    if m.topic != PUBLIC && cfg.isIP4(m.topic) {
      // in the loop nobody is being opened, so the subscribed address is a registered one
      assert Subscribing(sv, m.topic);
    }
    forall ip | Subscribing(sv', ip) ensures ip == PUBLIC || Known(sv', ip) || Opens(cfg, sv', ip) {
      assert Subscribing(sv, ip) || sv'.pc.Opening?;
    }
  }

  lemma RegisterKeepsInv(cfg: Config, s: State)
    requires Inv(cfg, s) && Enabled(cfg, s, ServerRegisters)
    ensures Inv(cfg, Apply(cfg, s, ServerRegisters))
  {
    var sv, sv' := s.server, Apply(cfg, s, ServerRegisters).server;
    forall ip | Known(sv, ip) ensures Known(sv', ip) {
      var i :| 0 <= i < |sv.clients| && sv.clients[i].ip == ip;
      assert sv'.clients[i].ip == ip;
    }
    forall ip | Subscribing(sv', ip) ensures ip == PUBLIC || Known(sv', ip) {
      assert Subscribing(sv, ip);
      assert sv'.clients[|sv.clients|].ip == Announced(cfg, sv.pc.announced);
    }
  }

  lemma SendKeepsInv(cfg: Config, s: State, e: Event)
    requires Inv(cfg, s) && Enabled(cfg, s, e) && (e.ServerConnects? || e.ServerSubscribed? || e.HandlerReplies?)
    ensures Inv(cfg, Apply(cfg, s, e))
  {
    var sv, sv' := s.server, Apply(cfg, s, e).server;
    forall ip | Subscribing(sv', ip) ensures ip == PUBLIC || Known(sv', ip) || Opens(cfg, sv', ip) {
      assert Subscribing(sv, ip) || ip == PUBLIC;
    }
  }

  lemma OtherServerStepKeepsInv(cfg: Config, s: State, e: Event)
    requires Inv(cfg, s) && Enabled(cfg, s, e)
    requires e.ServerReady? || e.HandlerSkips? || e.HandlerEnds? || e.ServerReceives?
    ensures Inv(cfg, Apply(cfg, s, e))
  {
    var sv, sv' := s.server, Apply(cfg, s, e).server;
    forall ip | Subscribing(sv', ip) ensures ip == PUBLIC || Known(sv', ip) || Opens(cfg, sv', ip) {
      assert Subscribing(sv, ip);
    }
  }

  lemma AnnounceKeepsInv(cfg: Config, s: State, ip: string, info: string)
    requires Inv(cfg, s) && Enabled(cfg, s, ClientAnnounces(ip, info))
    ensures Inv(cfg, Apply(cfg, s, ClientAnnounces(ip, info)))
  {
    AnnouncementReadBack(ip, info, cfg.isIP4);
    WordsOfAnnouncement(ip, info);
  }

  lemma ClientStepKeepsInv(cfg: Config, s: State, e: Event)
    requires Inv(cfg, s) && Enabled(cfg, s, e)
    requires e.ClientSubscribes? || e.ClientReady? || e.ClientConsumes? || e.ClientTypes? || e.ClientReceives?
    ensures Inv(cfg, Apply(cfg, s, e))
  {
  }

  // A publication adds at most one message to what the server gets, changes nothing of what the
  // clients are sending, and is retained on its own topic.
  lemma PublishedTo(s: State, origin: Party, topic: string, payload: string, cause: Option<nat>)
    ensures var s' := BrokerPublishes(s, origin, topic, payload, cause);
      && s'.server == s.server.(down := s'.server.down)
      && s'.server.down ==
           (if topic in s.server.subs && origin != Server
            then s.server.down + [Message(topic, payload, origin, |s.log|)]
            else s.server.down)
      && s'.clients.Keys == s.clients.Keys
      && (forall ip :: ip in s.clients ==>
            s'.clients[ip].up == s.clients[ip].up && s'.clients[ip].pc == s.clients[ip].pc)
      && (forall t :: t in s'.slots ==>
            if t == topic then s'.slots[t].topic == topic && s'.slots[t].payload == payload
            else t in s.slots && s'.slots[t] == s.slots[t])
  {
  }

  lemma ReceivingKeepsServerInv(cfg: Config, sv: ServerState, m: Message)
    requires ServerInv(cfg, sv) && ServerGets(cfg, sv.subs, m)
    ensures ServerInv(cfg, sv.(down := sv.down + [m]))
  {
    var sv' := sv.(down := sv.down + [m]);
    forall ip | Subscribing(sv', ip) ensures ip == PUBLIC || Known(sv', ip) || Opens(cfg, sv', ip) {
      assert Subscribing(sv, ip);
    }
  }

  lemma PublishKeepsInv(cfg: Config, s: State, origin: Party, topic: string, payload: string, cause: Option<nat>)
    requires Inv(cfg, s) && (topic == PUBLIC ==> IsAnnouncement(cfg, payload))
    ensures Inv(cfg, BrokerPublishes(s, origin, topic, payload, cause))
  {
    PublishedTo(s, origin, topic, payload, cause);
    if topic in s.server.subs && origin != Server {
      ReceivingKeepsServerInv(cfg, s.server, Message(topic, payload, origin, |s.log|));
    }
    var s' := BrokerPublishes(s, origin, topic, payload, cause);
    forall ip | ip in s'.clients ensures ClientInv(cfg, s'.clients[ip], ip) {
      assert ClientInv(cfg, s.clients[ip], ip);
    }
  }

  lemma TakeServerKeepsInv(cfg: Config, s: State)
    requires Inv(cfg, s) && Enabled(cfg, s, BrokerTakesServer)
    ensures Inv(cfg, Apply(cfg, s, BrokerTakesServer))
  {
    var sv := s.server;
    var s1 := s.(server := sv.(up := sv.up[1..]));
    forall ip | Subscribing(s1.server, ip) ensures ip == PUBLIC || Known(s1.server, ip) || Opens(cfg, s1.server, ip) {
      assert Subscribing(sv, ip);
    }
    assert Inv(cfg, s1);
    match sv.up[0]
    case Subscribe(topic) =>
      var sv' := Apply(cfg, s, BrokerTakesServer).server;
      forall ip | Subscribing(sv', ip) ensures ip == PUBLIC || Known(sv', ip) || Opens(cfg, sv', ip) {
        assert Subscribing(sv, ip);
      }
    case Publish(topic, payload, cause) =>
      PublishKeepsInv(cfg, s1, Server, topic, payload, cause);
  }

  lemma TakeClientKeepsInv(cfg: Config, s: State, ip: string)
    requires Inv(cfg, s) && Enabled(cfg, s, BrokerTakesClient(ip))
    ensures Inv(cfg, Apply(cfg, s, BrokerTakesClient(ip)))
  {
    var c := s.clients[ip];
    var s1 := SetClient(s, ip, c.(up := c.up[1..]));
    assert ClientSends(cfg, c, ip, c.up[0]);
    assert Inv(cfg, s1);
    match c.up[0]
    case Subscribe(topic) =>
    case Publish(topic, payload, cause) =>
      PublishKeepsInv(cfg, s1, Client(ip), topic, payload, cause);
  }

  lemma StepKeepsInv(cfg: Config, s: State, e: Event)
    requires Inv(cfg, s) && Enabled(cfg, s, e)
    ensures Inv(cfg, Apply(cfg, s, e))
  {
    match e
    case ServerConnects => SendKeepsInv(cfg, s, e);
    case ServerReady => OtherServerStepKeepsInv(cfg, s, e);
    case ServerConsumes => ConsumeKeepsInv(cfg, s);
    case ServerSubscribed => SendKeepsInv(cfg, s, e);
    case ServerRegisters => RegisterKeepsInv(cfg, s);
    case HandlerReplies(_, _) => SendKeepsInv(cfg, s, e);
    case HandlerSkips(_) => OtherServerStepKeepsInv(cfg, s, e);
    case HandlerEnds(_) => OtherServerStepKeepsInv(cfg, s, e);
    case ServerReceives => OtherServerStepKeepsInv(cfg, s, e);
    case ClientAnnounces(ip, info) => AnnounceKeepsInv(cfg, s, ip, info);
    case BrokerTakesServer => TakeServerKeepsInv(cfg, s);
    case BrokerTakesClient(ip) => TakeClientKeepsInv(cfg, s, ip);
    case _ => ClientStepKeepsInv(cfg, s, e);
  }

  lemma {:induction false} RunsKeepInv(cfg: Config, s: State, es: seq<Event>)
    requires Inv(cfg, s) && Runs(cfg, s, es)
    ensures Inv(cfg, After(cfg, s, es))
    decreases |es|
  {
    if es != [] {
      StepKeepsInv(cfg, s, es[0]);
      RunsKeepInv(cfg, Apply(cfg, s, es[0]), es[1..]);
    }
  }

  // ---- Results ----

  // In every run: when the loop takes a message from a client's topic, that client is registered.
  lemma RegisteredBeforeServed(cfg: Config, es: seq<Event>)
    requires ValidConfig(cfg) && Runs(cfg, Start(cfg), es)
    ensures var sv := After(cfg, Start(cfg), es).server;
      && (sv.pc == Looping && sv.queue != [] && cfg.isIP4(sv.queue[0].topic) ==> Known(sv, sv.queue[0].topic))
      && (forall h :: 0 <= h < |sv.handlers| ==> Known(sv, sv.handlers[h].msg.topic))
  {
    RunsKeepInv(cfg, Start(cfg), es);
    var sv := After(cfg, Start(cfg), es).server;
    if sv.pc == Looping && sv.queue != [] {
      assert ServerGets(cfg, sv.subs, sv.queue[0]);
      assert Subscribing(sv, sv.queue[0].topic);
    }
  }

  // The loop never meets a public message without words, whose first one it would read.
  lemma AnnouncementsAreReadable(cfg: Config, es: seq<Event>)
    requires ValidConfig(cfg) && Runs(cfg, Start(cfg), es)
    ensures var sv := After(cfg, Start(cfg), es).server;
      sv.pc == Looping && sv.queue != [] ==> Enabled(cfg, After(cfg, Start(cfg), es), ServerConsumes)
  {
    RunsKeepInv(cfg, Start(cfg), es);
    var sv := After(cfg, Start(cfg), es).server;
    if sv.queue != [] {
      assert ServerGets(cfg, sv.subs, sv.queue[0]);
    }
  }
}
