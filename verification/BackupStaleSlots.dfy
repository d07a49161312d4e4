/**
 When exactly the hand-over of the key is safe: what the broker retains for the client before the
 service starts must be neither a request nor a foreign key.  A request left there is served when
 the server subscribes, and the reply overwrites the key; a foreign key is accepted in the place
 of the server's.
 */
module BackupStaleSlots {
  import opened Common
  import opened Announcement
  import opened BackupProtocol
  import opened BackupKeyHandover

  // Once the broker has processed both the publication of the key and the subscription of the
  // client, the key is on the way to the client, in its queue, or accepted.
  ghost predicate HandedOver(cfg: Config, s: State, x: string) {
    x in s.clients && s.clients[x].subscribed && KeyPublished(s, x, cfg.key) ==>
      Coming(s.clients[x], x, cfg.key) || s.clients[x].key == Some(cfg.key)
  }

  ghost predicate Leads(cfg: Config, es: seq<Event>, s: State) {
    Runs(cfg, Start(cfg), es) && After(cfg, Start(cfg), es) == s
  }

  lemma Go(cfg: Config, es: seq<Event>, s: State, e: Event) returns (es': seq<Event>, s': State)
    requires Leads(cfg, es, s) && Enabled(cfg, s, e)
    ensures s' == Apply(cfg, s, e) && Leads(cfg, es', s')
  {
    RunsAppend(cfg, Start(cfg), es, e);
    es', s' := es + [e], Apply(cfg, s, e);
  }

  // ---- Pieces of runs ----

  // A client whose announcement is retained, and nothing else has happened to the broker.
  function TheAnnouncement(x: string): Message {
    Message(PUBLIC, Announce(x, ""), Client(x), 0)
  }

  lemma ClientAnnounced(cfg: Config, x: string) returns (es: seq<Event>, s: State)
    requires ValidConfig(cfg) && x in cfg.clients
    ensures Leads(cfg, es, s) && s.server == Start(cfg).server && s.clients.Keys == cfg.clients
    ensures s.clients[x] == ClientState(Announcing, [], false, [], [], None)
    ensures forall y :: y in cfg.clients && y != x ==> s.clients[y] == Start(cfg).clients[y]
    ensures PUBLIC in s.slots && s.slots[PUBLIC] == TheAnnouncement(x)
    ensures x in cfg.slots ==> x in s.slots && s.slots[x] == Message(x, cfg.slots[x], Foreign, -1)
  {
    es, s := [], Start(cfg);
    es, s := Go(cfg, es, s, ClientAnnounces(x, ""));
    es, s := Go(cfg, es, s, BrokerTakesClient(x));
  }

  // The client subscribes to its topic and is sent what is retained there.
  lemma ClientListens(cfg: Config, es: seq<Event>, s: State, x: string) returns (es': seq<Event>, s': State)
    requires Leads(cfg, es, s) && x in s.clients && s.clients[x] == ClientState(Announcing, [], false, [], [], None)
    requires x in s.slots
    ensures Leads(cfg, es', s') && s'.server == s.server && s'.slots == s.slots && s'.log == s.log
    ensures s'.clients.Keys == s.clients.Keys
    ensures s'.clients[x] == ClientState(ClientPc.Subscribing, [], true, [s.slots[x]], [], None)
  {
    es', s' := Go(cfg, es, s, ClientSubscribes(x));
    es', s' := Go(cfg, es', s', BrokerTakesClient(x));
  }

  lemma AnnouncedAddress(cfg: Config, x: string)
    requires ValidConfig(cfg) && x in cfg.clients
    ensures Words(Announce(x, "")) != [] && Announced(cfg, Announce(x, "")) == x && x != PUBLIC
  {
    AnnouncementReadBack(x, "", cfg.isIP4);
  }

  // The server starts and is sent the retained announcement.
  lemma ServerLoops(cfg: Config, es: seq<Event>, s: State, x: string) returns (es': seq<Event>, s': State)
    requires ValidConfig(cfg) && Leads(cfg, es, s) && s.server == Start(cfg).server
    requires PUBLIC in s.slots && s.slots[PUBLIC] == TheAnnouncement(x)
    ensures Leads(cfg, es', s') && s' == s.(server := s'.server, joined := s'.joined)
    ensures s'.server == ServerState(Looping, [], {PUBLIC}, [], [TheAnnouncement(x)], [], [], [])
  {
    es', s' := Go(cfg, es, s, ServerConnects);
    es', s' := Go(cfg, es', s', BrokerTakesServer);
    es', s' := Go(cfg, es', s', ServerReady);
    es', s' := Go(cfg, es', s', ServerReceives);
    assert s'.server.subs == {PUBLIC};
  }

  // It subscribes to the client's topic and is sent what is retained there.
  lemma ServerOpens(cfg: Config, es: seq<Event>, s: State, x: string) returns (es': seq<Event>, s': State)
    requires ValidConfig(cfg) && x in cfg.clients && Leads(cfg, es, s)
    requires s.server == ServerState(Looping, [], {PUBLIC}, [], [TheAnnouncement(x)], [], [], [])
    requires x in s.slots && s.slots[x].origin == Foreign
    ensures Leads(cfg, es', s') && s' == s.(server := s'.server)
    ensures s'.server
         == ServerState(Opening(Announce(x, "")), [], {PUBLIC, x}, [s.slots[x]], [], [TheAnnouncement(x)], [], [])
  {
    AnnouncedAddress(cfg, x);
    es', s' := Go(cfg, es, s, ServerConsumes);
    es', s' := Go(cfg, es', s', BrokerTakesServer);
    assert s'.server.subs == {PUBLIC, x};
  }

  // It publishes the key there.
  lemma ServerKeys(cfg: Config, es: seq<Event>, s: State, x: string) returns (es': seq<Event>, s': State)
    requires ValidConfig(cfg) && x in cfg.clients && Leads(cfg, es, s) && x in s.clients
    requires s.server
          == ServerState(Opening(Announce(x, "")), [], {PUBLIC, x}, s.server.down, [], s.server.taken, [], [])
    ensures Leads(cfg, es', s') && KeyPublished(s', x, cfg.key) && s'.clients.Keys == s.clients.Keys
    ensures s'.server == s.server.(pc := Keying(Announce(x, "")))
    ensures var m := Message(x, cfg.key, Server, |s.log|);
      s'.clients[x] == if s.clients[x].subscribed then s.clients[x].(down := s.clients[x].down + [m]) else s.clients[x]
  {
    AnnouncedAddress(cfg, x);
    es', s' := Go(cfg, es, s, ServerSubscribed);
    es', s' := Go(cfg, es', s', BrokerTakesServer);
    assert s'.log[|s.log|].msg == Message(x, cfg.key, Server, |s.log|);
  }

  // It serves the request that was retained, whose reply replaces the key.
  lemma ServerAnswersStale(cfg: Config, es: seq<Event>, s: State, x: string, m: Message, ok: bool)
    returns (es': seq<Event>, s': State)
    requires ValidConfig(cfg) && x in cfg.clients && Leads(cfg, es, s) && x in s.clients && !s.clients[x].subscribed
    requires s.server == ServerState(Keying(Announce(x, "")), [], {PUBLIC, x}, [m], [], s.server.taken, [], [])
    requires m.topic == x && IsRequest(m.payload) && KeyPublished(s, x, cfg.key)
    ensures Leads(cfg, es', s') && s'.clients == s.clients && KeyPublished(s', x, cfg.key)
    ensures x in s'.slots && s'.slots[x].payload == Reply(m.payload, ok)
  {
    AnnouncedAddress(cfg, x);
    es', s' := Go(cfg, es, s, ServerRegisters);
    es', s' := Go(cfg, es', s', ServerReceives);
    es', s' := Go(cfg, es', s', ServerConsumes);
    es', s' := Go(cfg, es', s', HandlerReplies(0, ok));
    es', s' := Go(cfg, es', s', BrokerTakesServer);
    var i :| 0 <= i < |s.log| &&
      s.log[i].msg.topic == x && s.log[i].msg.payload == cfg.key && s.log[i].msg.origin == Server;
    assert s'.log[i] == s.log[i];
  }

  // The client accepts the foreign key that is retained.
  lemma ClientAcceptsForeign(cfg: Config, es: seq<Event>, s: State, x: string) returns (es': seq<Event>, s': State)
    requires Leads(cfg, es, s) && x in s.clients && s.clients[x] == ClientState(Announcing, [], false, [], [], None)
    requires x in s.slots && s.slots[x].topic == x && IsKey(s.slots[x].payload)
    ensures Leads(cfg, es', s') && s'.server == s.server && s'.slots == s.slots && s'.log == s.log && x in s'.clients
    ensures s'.clients[x] == ClientState(Working, [], true, [], [], Some(s.slots[x].payload))
  {
    es', s' := ClientListens(cfg, es, s, x);
    es', s' := Go(cfg, es', s', ClientReady(x));
    es', s' := Go(cfg, es', s', ClientReceives(x));
    es', s' := Go(cfg, es', s', ClientConsumes(x));
  }

  // A client that has a key discards what comes.
  lemma ClientDiscards(cfg: Config, es: seq<Event>, s: State, x: string, m: Message)
    returns (es': seq<Event>, s': State)
    requires Leads(cfg, es, s) && x in s.clients && s.clients[x].pc == Working
    requires s.clients[x].down == [m] && s.clients[x].queue == []
    ensures Leads(cfg, es', s') && s'.log == s.log && x in s'.clients
    ensures s'.clients[x] == s.clients[x].(down := [])
  {
    es', s' := Go(cfg, es, s, ClientReceives(x));
    es', s' := Go(cfg, es', s', ClientConsumes(x));
  }

  // ---- The two runs that lose the key ----

  // One of the two replies is not the key.
  lemma SomeReplyIsNotTheKey(path: string, key: string) returns (ok: bool)
    ensures Reply(path, ok) != key
  {
    ok := key != Reply(path, true);
    assert Reply(path, true)[|Reply(path, true)| - 1] == '!';
    assert Reply(path, false)[|Reply(path, false)| - 1] == ' ';
  }

  lemma StaleRequestMeetsKey(cfg: Config, x: string) returns (es: seq<Event>, s: State)
    requires ValidConfig(cfg) && x in cfg.clients && x in cfg.slots && IsRequest(cfg.slots[x])
    ensures Leads(cfg, es, s) && x in s.clients && KeyPublished(s, x, cfg.key)
    ensures s.clients[x] == ClientState(Announcing, [], false, [], [], None)
    ensures s.server == ServerState(Keying(Announce(x, "")), [], {PUBLIC, x},
                                    [Message(x, cfg.slots[x], Foreign, -1)], [], s.server.taken, [], [])
  {
    es, s := ClientAnnounced(cfg, x);
    es, s := ServerLoops(cfg, es, s, x);
    es, s := ServerOpens(cfg, es, s, x);
    es, s := ServerKeys(cfg, es, s, x);
  }

  lemma StaleRequestLosesKey(cfg: Config, x: string) returns (es: seq<Event>)
    requires ValidConfig(cfg) && x in cfg.clients && x in cfg.slots && IsRequest(cfg.slots[x])
    ensures Runs(cfg, Start(cfg), es) && !HandedOver(cfg, After(cfg, Start(cfg), es), x)
  {
    var stale := cfg.slots[x];
    var ok := SomeReplyIsNotTheKey(stale, cfg.key);
    var s;
    es, s := StaleRequestMeetsKey(cfg, x);
    es, s := ServerAnswersStale(cfg, es, s, x, Message(x, stale, Foreign, -1), ok);
    es, s := ClientListens(cfg, es, s, x);
  }

  lemma ForeignKeyLosesKey(cfg: Config, x: string) returns (es: seq<Event>)
    requires ValidConfig(cfg) && x in cfg.clients && x in cfg.slots && IsKey(cfg.slots[x]) && cfg.slots[x] != cfg.key
    ensures Runs(cfg, Start(cfg), es) && !HandedOver(cfg, After(cfg, Start(cfg), es), x)
  {
    var s;
    es, s := ClientAnnounced(cfg, x);
    es, s := ClientAcceptsForeign(cfg, es, s, x);
    es, s := ServerLoops(cfg, es, s, x);
    es, s := ServerOpens(cfg, es, s, x);
    es, s := ServerKeys(cfg, es, s, x);
    es, s := ClientDiscards(cfg, es, s, x, s.clients[x].down[0]);
  }

  // Every run hands the key over to a client if and only if its slot is clean at the start.
  lemma HandoverSafeExactly(cfg: Config, x: string)
    requires ValidConfig(cfg) && x in cfg.clients
    ensures (forall es :: Runs(cfg, Start(cfg), es) ==> HandedOver(cfg, After(cfg, Start(cfg), es), x))
       <==> CleanSlot(cfg, x)
  {
    if CleanSlot(cfg, x) {
      forall es | Runs(cfg, Start(cfg), es) ensures HandedOver(cfg, After(cfg, Start(cfg), es), x) {
        if KeyPublished(After(cfg, Start(cfg), es), x, cfg.key) {
          KeyIsHandedOver(cfg, es, x);
        }
      }
    } else if IsRequest(cfg.slots[x]) {
      var es := StaleRequestLosesKey(cfg, x);
    } else {
      var es := ForeignKeyLosesKey(cfg, x);
    }
  }
}
