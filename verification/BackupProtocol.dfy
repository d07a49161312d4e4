/**
 The backup service of appFiles/ as a protocol: any number of clients and one server, which talk
 through a broker (appFiles/_appClient.cpp, appFiles/_appServer.cpp).

 The broker takes the packets of each connection in the order of sending and delivers in order.
 It keeps the last message of each topic for later subscribers, an empty payload clearing the
 slot (section 3.3.1.3 of MQTT Version 5.0); every publication of the service asks for that.  The
 server subscribes with No Local, so it is never sent its own publications (section 3.8.3.1 of
 MQTT Version 5.0); a client's subscription is without it.  A publish or subscribe has been
 acknowledged when the broker has processed it.
 */
module BackupProtocol {
  import opened Common
  import opened Announcement
  import opened Streams

  const PUBLIC := "subscribersList"
  const KEY_MARK := "ssh-rsa"
  const MAIN_BACKUP_PATH := "/home/shiranlupo/Desktop/bupAppBackup"

  datatype Config = Config(
    clients: set<string>,         // the addresses of the clients that run
    isIP4: string -> bool,
    key: string,                  // the server's public key
    slots: map<string, string>)   // what the broker retains at the start

  // ---- Payloads ----

  // s.find(t) != string::npos
  predicate Contains(s: string, t: string) {
    |s| >= |t| && (s[..|t|] == t || (s != "" && Contains(s[1..], t)))
  }

  predicate StandsAt(s: string, t: string, i: int) {
    0 <= i <= |s| - |t| && s[i..i + |t|] == t
  }

  lemma {:induction false} ContainedStands(s: string, t: string) returns (i: int)
    requires Contains(s, t)
    ensures StandsAt(s, t, i)
  {
    if s[..|t|] == t {
      i := 0;
    } else {
      var j := ContainedStands(s[1..], t);
      i := j + 1;
      assert s[1..][j..j + |t|] == s[i..i + |t|];
    }
  }

  lemma {:induction false} StandingIsContained(s: string, t: string, i: int)
    requires StandsAt(s, t, i)
    ensures Contains(s, t)
    decreases |s|
  {
    if i == 0 {
      assert s[..|t|] == s[0..|t|];
    } else {
      assert s[i..i + |t|] == s[1..][i - 1..i - 1 + |t|];
      StandingIsContained(s[1..], t, i - 1);
    }
  }

  // Exactly when t stands somewhere in s, at the beginning and at the end included.
  lemma ContainsExactly(s: string, t: string)
    ensures Contains(s, t) <==> exists i :: StandsAt(s, t, i)
  {
    if Contains(s, t) {
      var i := ContainedStands(s, t);
    }
    forall i | StandsAt(s, t, i) ensures Contains(s, t) {
      StandingIsContained(s, t, i);
    }
  }

  predicate IsKey(payload: string) {
    Contains(payload, KEY_MARK)
  }

  // payload.find_first_of("~") == 0
  predicate IsRequest(payload: string) {
    payload != "" && payload[0] == '~'
  }

  function Reply(path: string, ok: bool): string {
    "Msg from Server: " + path + " backup " + if ok then "succeed!" else "failed! "
  }

  predicate IsAnnouncement(cfg: Config, payload: string) {
    Words(payload) != [] && cfg.isIP4(Words(payload)[0])
  }

  // ---- Messages ----

  datatype Party = Server | Client(ip: string) | Foreign

  // `id` is the place in the broker's log; the messages retained at the start have none.
  datatype Message = Message(topic: string, payload: string, origin: Party, id: int)

  // A reply carries the number of the handler that sends it.
  datatype Packet = Subscribe(topic: string) | Publish(topic: string, payload: string, cause: Option<nat>)

  datatype Entry = Entry(msg: Message, cause: Option<nat>)

  // ---- States ----

  datatype ClientPc = Fresh | Announcing | Subscribing | AwaitingKey | Working

  datatype ClientState = ClientState(
    pc: ClientPc,
    up: seq<Packet>,          // sent and not yet processed by the broker
    subscribed: bool,         // to its own topic
    down: seq<Message>,       // on the way from the broker
    queue: seq<Message>,      // in the consumer queue
    key: Option<string>)      // m_serverPublicKey, once GOT_PUBLIC_KEY is set

  datatype ServerPc =
    | Boot
    | Booting                     // subscribing to the public topic
    | Looping                     // in working(), about to consume
    | Opening(announced: string)  // in handleNewSubscriber(), subscribing to the client's topic
    | Keying(announced: string)   // publishing the key there

  datatype HandlerPc = Spawned | Replied | Finished

  // A thread running handleBackupRequest(), with the message it has read from m_msgPtr.
  datatype Handler = Handler(msg: Message, pc: HandlerPc)

  datatype ServerState = ServerState(
    pc: ServerPc,
    up: seq<Packet>,
    subs: set<string>,
    down: seq<Message>,
    queue: seq<Message>,
    taken: seq<Message>,          // what the loop has consumed
    clients: seq<ClientInfo>,     // m_clients
    handlers: seq<Handler>)       // m_threadPool

  // When the server came to the public topic: the length of the log, and what was retained then.
  datatype Joining = Joining(at: nat, retained: Option<Message>)

  datatype State = State(
    server: ServerState,
    clients: map<string, ClientState>,
    slots: map<string, Message>,
    log: seq<Entry>,              // the publications the broker has processed
    joined: Option<Joining>)

  datatype Event =
    | ServerConnects
    | ServerReady
    | ServerConsumes
    | ServerSubscribed
    | ServerRegisters
    | HandlerReplies(h: nat, ok: bool)
    | HandlerSkips(h: nat)
    | HandlerEnds(h: nat)
    | ClientAnnounces(ip: string, info: string)
    | ClientSubscribes(ip: string)
    | ClientReady(ip: string)
    | ClientConsumes(ip: string)
    | ClientTypes(ip: string, line: string)
    | BrokerTakesServer
    | BrokerTakesClient(ip: string)
    | ServerReceives
    | ClientReceives(ip: string)

  function Start(cfg: Config): State {
    State(
      ServerState(Boot, [], {}, [], [], [], [], []),
      map ip | ip in cfg.clients :: ClientState(Fresh, [], false, [], [], None),
      map t | t in cfg.slots :: Message(t, cfg.slots[t], Foreign, -1),
      [],
      None)
  }

  // What the service needs to be told: see the section on the backup service in the README.
  ghost predicate ValidConfig(cfg: Config) {
    && IsKey(cfg.key)
    && !cfg.isIP4(PUBLIC)
    && (forall ip :: ip in cfg.clients ==> ip != "" && NoSpaces(ip) && cfg.isIP4(ip))
    && (PUBLIC in cfg.slots ==> IsAnnouncement(cfg, cfg.slots[PUBLIC]))
    && (forall t :: t in cfg.slots ==> cfg.slots[t] != "")
  }

  // What the broker retains for the client at the start is not a request, and not a foreign key.
  predicate CleanSlot(cfg: Config, x: string) {
    x in cfg.slots ==> !IsRequest(cfg.slots[x]) && (IsKey(cfg.slots[x]) ==> cfg.slots[x] == cfg.key)
  }

  // ---- Enabledness ----

  function Announced(cfg: Config, payload: string): string
    requires Words(payload) != []
  {
    Parse(payload, cfg.isIP4).ip
  }

  predicate Enabled(cfg: Config, s: State, e: Event) {
    match e
    case ServerConnects => s.server.pc == Boot
    case ServerReady => s.server.pc == Booting && Subscribe(PUBLIC) !in s.server.up
    case ServerConsumes =>
      s.server.pc == Looping && s.server.queue != []
      && (s.server.queue[0].topic == PUBLIC ==> Words(s.server.queue[0].payload) != [])
    case ServerSubscribed =>
      && s.server.pc.Opening? && Words(s.server.pc.announced) != []
      && Subscribe(Announced(cfg, s.server.pc.announced)) !in s.server.up
    case ServerRegisters =>
      && s.server.pc.Keying? && Words(s.server.pc.announced) != []
      && Publish(Announced(cfg, s.server.pc.announced), cfg.key, None) !in s.server.up
    case HandlerReplies(h, _) =>
      h < |s.server.handlers| && s.server.handlers[h].pc == Spawned && IsRequest(s.server.handlers[h].msg.payload)
    case HandlerSkips(h) =>
      h < |s.server.handlers| && s.server.handlers[h].pc == Spawned && !IsRequest(s.server.handlers[h].msg.payload)
    case HandlerEnds(h) =>
      && h < |s.server.handlers| && s.server.handlers[h].pc == Replied
      && (forall p :: p in s.server.up && p.Publish? ==> p.cause != Some(h))
    case ClientAnnounces(ip, _) => ip in s.clients && s.clients[ip].pc == Fresh
    case ClientSubscribes(ip) => ip in s.clients && s.clients[ip].pc == Announcing && s.clients[ip].up == []
    case ClientReady(ip) => ip in s.clients && s.clients[ip].pc == Subscribing && s.clients[ip].up == []
    case ClientConsumes(ip) =>
      ip in s.clients && (s.clients[ip].pc == AwaitingKey || s.clients[ip].pc == Working) && s.clients[ip].queue != []
    case ClientTypes(ip, _) => ip in s.clients && s.clients[ip].pc == Working && s.clients[ip].up == []
    case BrokerTakesServer => s.server.up != []
    case BrokerTakesClient(ip) => ip in s.clients && s.clients[ip].up != []
    case ServerReceives => s.server.down != []
    case ClientReceives(ip) => ip in s.clients && s.clients[ip].down != []
  }

  // ---- The broker ----

  function Retain(slots: map<string, Message>, m: Message): map<string, Message> {
    if m.payload == "" then slots - {m.topic} else slots[m.topic := m]
  }

  function DeliverToServer(s: State, m: Message): State {
    if m.topic in s.server.subs && m.origin != Server then s.(server := s.server.(down := s.server.down + [m])) else s
  }

  // A client subscribes to the topic that bears its address.
  function DeliverToClient(s: State, m: Message): State {
    if m.topic in s.clients && s.clients[m.topic].subscribed then
      s.(clients := s.clients[m.topic := s.clients[m.topic].(down := s.clients[m.topic].down + [m])])
    else s
  }

  function BrokerPublishes(s: State, origin: Party, topic: string, payload: string, cause: Option<nat>): State {
    var m := Message(topic, payload, origin, |s.log|);
    DeliverToClient(DeliverToServer(s, m), m).(slots := Retain(s.slots, m), log := s.log + [Entry(m, cause)])
  }

  function ServerSubscribes(s: State, topic: string): State {
    var retained := if PUBLIC in s.slots then Some(s.slots[PUBLIC]) else None;
    var s' := s.(server := s.server.(subs := s.server.subs + {topic}),
                 joined := if topic == PUBLIC then Some(Joining(|s.log|, retained)) else s.joined);
    if topic in s.slots && s.slots[topic].origin != Server then
      s'.(server := s'.server.(down := s'.server.down + [s.slots[topic]]))
    else s'
  }

  function ClientSubscribed(s: State, ip: string): State
    requires ip in s.clients
  {
    var c := s.clients[ip];
    var down := if ip in s.slots then c.down + [s.slots[ip]] else c.down;
    s.(clients := s.clients[ip := c.(subscribed := true, down := down)])
  }

  // ---- The steps ----

  function SetClient(s: State, ip: string, c: ClientState): State {
    s.(clients := s.clients[ip := c])
  }

  function ServerSends(s: State, p: Packet, pc: ServerPc): State {
    s.(server := s.server.(up := s.server.up + [p], pc := pc))
  }

  // One turn of the loop in working().
  function Dispatch(cfg: Config, s: State, m: Message): State
    requires s.server.queue != [] && (m.topic == PUBLIC ==> Words(m.payload) != [])
  {
    var taken := s.(server := s.server.(queue := s.server.queue[1..], taken := s.server.taken + [m]));
    if m.topic == PUBLIC then ServerSends(taken, Subscribe(Announced(cfg, m.payload)), Opening(m.payload))
    else if cfg.isIP4(m.topic) then
      taken.(server := taken.server.(handlers := s.server.handlers + [Handler(m, Spawned)]))
    else taken
  }

  function Registered(cfg: Config, payload: string): ClientInfo
    requires Words(payload) != []
  {
    var c := Parse(payload, cfg.isIP4);
    c.(backupPath := MAIN_BACKUP_PATH + "/" + c.ip)
  }

  function SetHandler(s: State, h: nat, pc: HandlerPc): State
    requires h < |s.server.handlers|
  {
    s.(server := s.server.(handlers := s.server.handlers[h := s.server.handlers[h].(pc := pc)]))
  }

  predicate AcceptsAsKey(ip: string, m: Message) {
    m.topic == ip && IsKey(m.payload)
  }

  // getPublicKeyMsg() before the key has come, handleServerReplyMsg() after.
  function Consume(ip: string, c: ClientState): ClientState
    requires c.queue != []
  {
    var m := c.queue[0];
    var taken := c.(queue := c.queue[1..]);
    if c.pc == AwaitingKey && AcceptsAsKey(ip, m) then taken.(key := Some(m.payload), pc := Working)
    else taken
  }

  function Apply(cfg: Config, s: State, e: Event): State
    requires Enabled(cfg, s, e)
  {
    match e
    case ServerConnects => ServerSends(s, Subscribe(PUBLIC), Booting)
    case ServerReady => s.(server := s.server.(pc := Looping))
    case ServerConsumes => Dispatch(cfg, s, s.server.queue[0])
    case ServerSubscribed =>
      var payload := s.server.pc.announced;
      ServerSends(s, Publish(Announced(cfg, payload), cfg.key, None), Keying(payload))
    case ServerRegisters =>
      s.(server := s.server.(pc := Looping, clients := s.server.clients + [Registered(cfg, s.server.pc.announced)]))
    case HandlerReplies(h, ok) =>
      var m := s.server.handlers[h].msg;
      ServerSends(SetHandler(s, h, Replied), Publish(m.topic, Reply(m.payload, ok), Some(h)), s.server.pc)
    case HandlerSkips(h) => SetHandler(s, h, Finished)
    case HandlerEnds(h) => SetHandler(s, h, Finished)
    case ClientAnnounces(ip, info) =>
      var c := s.clients[ip];
      SetClient(s, ip, c.(pc := Announcing, up := c.up + [Publish(PUBLIC, Announce(ip, info), None)]))
    case ClientSubscribes(ip) =>
      var c := s.clients[ip];
      SetClient(s, ip, c.(pc := Subscribing, up := c.up + [Subscribe(ip)]))
    case ClientReady(ip) => SetClient(s, ip, s.clients[ip].(pc := AwaitingKey))
    case ClientConsumes(ip) => SetClient(s, ip, Consume(ip, s.clients[ip]))
    case ClientTypes(ip, line) => SetClient(s, ip, s.clients[ip].(up := s.clients[ip].up + [Publish(ip, line, None)]))
    case BrokerTakesServer =>
      var s' := s.(server := s.server.(up := s.server.up[1..]));
      (match s.server.up[0]
       case Subscribe(topic) => ServerSubscribes(s', topic)
       case Publish(topic, payload, cause) => BrokerPublishes(s', Server, topic, payload, cause))
    case BrokerTakesClient(ip) =>
      var s' := SetClient(s, ip, s.clients[ip].(up := s.clients[ip].up[1..]));
      (match s.clients[ip].up[0]
       case Subscribe(topic) => ClientSubscribed(s', ip)
       case Publish(topic, payload, cause) => BrokerPublishes(s', Client(ip), topic, payload, cause))
    case ServerReceives =>
      s.(server := s.server.(down := s.server.down[1..], queue := s.server.queue + [s.server.down[0]]))
    case ClientReceives(ip) =>
      var c := s.clients[ip];
      SetClient(s, ip, c.(down := c.down[1..], queue := c.queue + [c.down[0]]))
  }

  predicate Runs(cfg: Config, s: State, es: seq<Event>)
    decreases |es|
  {
    es != [] ==> Enabled(cfg, s, es[0]) && Runs(cfg, Apply(cfg, s, es[0]), es[1..])
  }

  function After(cfg: Config, s: State, es: seq<Event>): State
    requires Runs(cfg, s, es)
    decreases |es|
  {
    if es == [] then s else After(cfg, Apply(cfg, s, es[0]), es[1..])
  }

  lemma {:induction false} RunsAppend(cfg: Config, s: State, es: seq<Event>, e: Event)
    requires Runs(cfg, s, es) && Enabled(cfg, After(cfg, s, es), e)
    ensures Runs(cfg, s, es + [e]) && After(cfg, s, es + [e]) == Apply(cfg, After(cfg, s, es), e)
    decreases |es|
  {
    if es != [] {
      RunsAppend(cfg, Apply(cfg, s, es[0]), es[1..], e);
      assert (es + [e])[1..] == es[1..] + [e];
    }
  }
}
