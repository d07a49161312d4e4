/**
 Nothing is lost, repeated or put out of order on the way, over every run: what a user sends is what
 the broker takes, in order; what the broker sends to a party is what that party takes; what the
 broker retains on a topic is what was published there last; and a reply tells the outcome of the
 command that it is about.
 */
module BackupWires {
  import opened Common
  import opened Announcement
  import opened BackupProtocol

  // ---- The broker's slots ----

  // The last publication on a topic.
  function LastOn(log: seq<Entry>, t: string): Option<Message> {
    if log == [] then None
    else
      var m := log[|log| - 1].msg;
      if m.topic == t then Some(m) else LastOn(log[..|log| - 1], t)
  }

  // What is retained after these publications: an empty one clears the slot.
  function Retained(atFirst: map<string, Message>, log: seq<Entry>, t: string): Option<Message> {
    match LastOn(log, t)
    case None => if t in atFirst then Some(atFirst[t]) else None
    case Some(m) => if m.payload == "" then None else Some(m)
  }

  ghost predicate SlotsRight(atFirst: map<string, Message>, s: State) {
    forall t :: (if t in s.slots then Some(s.slots[t]) else None) == Retained(atFirst, s.log, t)
  }

  lemma PublishKeepsSlots(atFirst: map<string, Message>, s: State, origin: Party, topic: string, payload: string,
                          cause: Option<nat>)
    requires SlotsRight(atFirst, s)
    ensures SlotsRight(atFirst, BrokerPublishes(s, origin, topic, payload, cause))
  {
    var s' := BrokerPublishes(s, origin, topic, payload, cause);
    assert s'.log[..|s.log|] == s.log;
    forall t ensures (if t in s'.slots then Some(s'.slots[t]) else None) == Retained(atFirst, s'.log, t) {
      assert (if t in s.slots then Some(s.slots[t]) else None) == Retained(atFirst, s.log, t);
    }
  }

  lemma StepKeepsSlots(cfg: Config, atFirst: map<string, Message>, s: State, e: Event)
    requires SlotsRight(atFirst, s) && Enabled(cfg, s, e)
    ensures SlotsRight(atFirst, Apply(cfg, s, e))
  {
    if e.BrokerTakesServer? && s.server.up[0].Publish? {
      var p := s.server.up[0];
      var s1 := s.(server := s.server.(up := s.server.up[1..]));
      PublishKeepsSlots(atFirst, s1, Server, p.topic, p.payload, p.cause);
    } else if e.BrokerTakesClient? && s.clients[e.ip].up[0].Publish? {
      var c, p := s.clients[e.ip], s.clients[e.ip].up[0];
      var s1 := SetClient(s, e.ip, c.(up := c.up[1..]));
      PublishKeepsSlots(atFirst, s1, Client(e.ip), p.topic, p.payload, p.cause);
    } else {
      assert Apply(cfg, s, e).slots == s.slots && Apply(cfg, s, e).log == s.log;
    }
  }

  lemma {:induction false} RunsKeepSlots(cfg: Config, atFirst: map<string, Message>, s: State, es: seq<Event>)
    requires SlotsRight(atFirst, s) && Runs(cfg, s, es)
    ensures SlotsRight(atFirst, After(cfg, s, es))
    decreases |es|
  {
    if es != [] {
      StepKeepsSlots(cfg, atFirst, s, es[0]);
      RunsKeepSlots(cfg, atFirst, Apply(cfg, s, es[0]), es[1..]);
    }
  }

  // In every run the broker retains on a topic what was published there last, unless that was empty,
  // and what was there from the start when nothing has been published.
  lemma SlotIsLastPublished(cfg: Config, es: seq<Event>, t: string)
    requires Runs(cfg, Start(cfg), es)
    ensures var s := After(cfg, Start(cfg), es);
      (if t in s.slots then Some(s.slots[t]) else None) == Retained(Start(cfg).slots, s.log, t)
  {
    RunsKeepSlots(cfg, Start(cfg).slots, Start(cfg), es);
  }

  // ---- From a user to the broker ----

  datatype Publication = Publication(topic: string, payload: string)

  // What client ip says in a step.
  function SaidIn(e: Event, ip: string): seq<Publication> {
    match e
    case ClientAnnounces(a, info) => if a == ip then [Publication("subscribersList", ip + " " + info)] else []
    case ClientTypes(a, line) => if a == ip then [Publication(ip, line)] else []
    case _ => []
  }

  function Said(es: seq<Event>, ip: string): seq<Publication> {
    if es == [] then [] else SaidIn(es[0], ip) + Said(es[1..], ip)
  }

  // The publications among its packets that the broker has still to take.
  function Waiting(up: seq<Packet>): seq<Publication> {
    if up == [] then []
    else (if up[0].Publish? then [Publication(up[0].topic, up[0].payload)] else []) + Waiting(up[1..])
  }

  // Its publications in the log.
  function LoggedBy(log: seq<Entry>, ip: string): seq<Publication> {
    if log == [] then []
    else
      var m := log[|log| - 1].msg;
      LoggedBy(log[..|log| - 1], ip) + if m.origin == Client(ip) then [Publication(m.topic, m.payload)] else []
  }

  function Heard(s: State, ip: string): seq<Publication>
    requires ip in s.clients
  {
    LoggedBy(s.log, ip) + Waiting(s.clients[ip].up)
  }

  lemma {:induction false} WaitingAppend(up: seq<Packet>, p: Packet)
    ensures Waiting(up + [p]) == Waiting(up) + if p.Publish? then [Publication(p.topic, p.payload)] else []
  {
    if up == [] {
      assert up + [p] == [p];
      assert Waiting([p]) == (if p.Publish? then [Publication(p.topic, p.payload)] else []) + Waiting([p][1..]);
    } else {
      WaitingAppend(up[1..], p);
      assert (up + [p])[1..] == up[1..] + [p];
    }
  }

  lemma LoggedMore(log: seq<Entry>, e: Entry, ip: string)
    ensures LoggedBy(log + [e], ip)
         == LoggedBy(log, ip) + if e.msg.origin == Client(ip) then [Publication(e.msg.topic, e.msg.payload)] else []
  {
    assert (log + [e])[..|log|] == log;
  }

  // What a publication does to the log, and to what the clients have still to send.
  lemma PublicationLogged(s: State, origin: Party, topic: string, payload: string, cause: Option<nat>, ip: string)
    requires ip in s.clients
    ensures var s' := BrokerPublishes(s, origin, topic, payload, cause);
      && ip in s'.clients && s'.clients[ip].up == s.clients[ip].up
      && LoggedBy(s'.log, ip)
      == LoggedBy(s.log, ip) + if origin == Client(ip) then [Publication(topic, payload)] else []
  {
    LoggedMore(s.log, Entry(Message(topic, payload, origin, |s.log|), cause), ip);
  }

  // What the broker's steps do to the log, and to what one client has still to send.
  lemma TakenFromServer(cfg: Config, s: State, ip: string)
    requires Enabled(cfg, s, BrokerTakesServer) && ip in s.clients
    ensures var s' := Apply(cfg, s, BrokerTakesServer);
      ip in s'.clients && s'.clients[ip].up == s.clients[ip].up && LoggedBy(s'.log, ip) == LoggedBy(s.log, ip)
  {
    var s1, p := s.(server := s.server.(up := s.server.up[1..])), s.server.up[0];
    if p.Publish? {
      PublicationLogged(s1, Server, p.topic, p.payload, p.cause, ip);
    }
  }

  lemma TakenFromClient(cfg: Config, s: State, a: string, ip: string)
    requires Enabled(cfg, s, BrokerTakesClient(a)) && ip in s.clients
    ensures var s', p := Apply(cfg, s, BrokerTakesClient(a)), s.clients[a].up[0];
      && ip in s'.clients && s'.clients[ip].up == (if a == ip then s.clients[ip].up[1..] else s.clients[ip].up)
      && LoggedBy(s'.log, ip)
      == LoggedBy(s.log, ip) + if a == ip && p.Publish? then [Publication(p.topic, p.payload)] else []
  {
    var c, p := s.clients[a], s.clients[a].up[0];
    var s1 := SetClient(s, a, c.(up := c.up[1..]));
    if p.Publish? {
      PublicationLogged(s1, Client(a), p.topic, p.payload, p.cause, ip);
    }
  }

  // The other steps leave the log alone, and of them only the client's own add to what it sends.
  lemma OthersSayNothing(cfg: Config, s: State, e: Event, ip: string)
    requires Enabled(cfg, s, e) && ip in s.clients && !e.BrokerTakesServer? && !e.BrokerTakesClient?
    requires !((e.ClientAnnounces? || e.ClientTypes? || e.ClientSubscribes?) && e.ip == ip)
    ensures var s' := Apply(cfg, s, e);
      ip in s'.clients && s'.log == s.log && s'.clients[ip].up == s.clients[ip].up && SaidIn(e, ip) == []
  {
  }

  lemma OwnStepSays(cfg: Config, s: State, e: Event, ip: string)
    requires Enabled(cfg, s, e) && ip in s.clients
    requires (e.ClientAnnounces? || e.ClientTypes? || e.ClientSubscribes?) && e.ip == ip
    ensures var s' := Apply(cfg, s, e);
      ip in s'.clients && s'.log == s.log && Waiting(s'.clients[ip].up) == Waiting(s.clients[ip].up) + SaidIn(e, ip)
  {
    var c := s.clients[ip];
    match e
    case ClientAnnounces(_, info) => WaitingAppend(c.up, Publish(PUBLIC, Announce(ip, info), None));
    case ClientTypes(_, line) => WaitingAppend(c.up, Publish(ip, line, None));
    case ClientSubscribes(_) => WaitingAppend(c.up, Subscribe(ip));
  }

  lemma BrokerStepSays(cfg: Config, s: State, e: Event, ip: string)
    requires Enabled(cfg, s, e) && ip in s.clients && (e.BrokerTakesServer? || e.BrokerTakesClient?)
    ensures ip in Apply(cfg, s, e).clients && Heard(Apply(cfg, s, e), ip) == Heard(s, ip)
  {
    if e.BrokerTakesServer? {
      TakenFromServer(cfg, s, ip);
    } else {
      TakenFromClient(cfg, s, e.ip, ip);
    }
  }

  lemma StepSays(cfg: Config, s: State, e: Event, ip: string)
    requires Enabled(cfg, s, e) && ip in s.clients
    ensures ip in Apply(cfg, s, e).clients && Heard(Apply(cfg, s, e), ip) == Heard(s, ip) + SaidIn(e, ip)
  {
    if e.BrokerTakesServer? || e.BrokerTakesClient? {
      BrokerStepSays(cfg, s, e, ip);
    } else if (e.ClientAnnounces? || e.ClientTypes? || e.ClientSubscribes?) && e.ip == ip {
      OwnStepSays(cfg, s, e, ip);
      Regrouped(LoggedBy(s.log, ip), Waiting(s.clients[ip].up), SaidIn(e, ip));
    } else {
      OthersSayNothing(cfg, s, e, ip);
    }
  }

  lemma Regrouped<T>(a: seq<T>, b: seq<T>, c: seq<T>)
    ensures (a + b) + c == a + (b + c)
  {
  }

  // In every run: what the broker has taken from a client, and then what it has still to take, is
  // what the client has said, in order.
  lemma {:induction false} SaidIsHeard(cfg: Config, s: State, es: seq<Event>, ip: string)
    requires Runs(cfg, s, es) && ip in s.clients
    ensures ip in After(cfg, s, es).clients && Heard(After(cfg, s, es), ip) == Heard(s, ip) + Said(es, ip)
    decreases |es|
  {
    if es != [] {
      StepSays(cfg, s, es[0], ip);
      SaidIsHeard(cfg, Apply(cfg, s, es[0]), es[1..], ip);
      Regrouped(Heard(s, ip), SaidIn(es[0], ip), Said(es[1..], ip));
    }
  }

  // ---- From the broker to the server and to the clients ----

  // What a step of the broker sends to the server: a publication of a client on a topic that the
  // server subscribes to, or what is retained on one that it comes to, but nothing of its own.
  function ToServer(cfg: Config, s: State, e: Event): seq<Message>
    requires Enabled(cfg, s, e)
  {
    match e
    case BrokerTakesServer =>
      (match s.server.up[0]
       case Subscribe(t) => if t in s.slots && s.slots[t].origin != Server then [s.slots[t]] else []
       case Publish(_, _, _) => [])
    case BrokerTakesClient(ip) =>
      (match s.clients[ip].up[0]
       case Subscribe(_) => []
       case Publish(t, payload, _) =>
         if t in s.server.subs then [Message(t, payload, Client(ip), |s.log|)] else [])
    case _ => []
  }

  // And to client x, which is sent what it publishes itself, too.
  function ToClient(cfg: Config, s: State, e: Event, x: string): seq<Message>
    requires Enabled(cfg, s, e) && x in s.clients
  {
    match e
    case BrokerTakesServer =>
      (match s.server.up[0]
       case Subscribe(_) => []
       case Publish(t, payload, _) =>
         if t == x && s.clients[x].subscribed then [Message(x, payload, Server, |s.log|)] else [])
    case BrokerTakesClient(ip) =>
      (match s.clients[ip].up[0]
       case Subscribe(_) => if ip == x && x in s.slots then [s.slots[x]] else []
       case Publish(t, payload, _) =>
         if t == x && s.clients[x].subscribed then [Message(x, payload, Client(ip), |s.log|)] else [])
    case _ => []
  }

  function SentToServer(cfg: Config, s: State, es: seq<Event>): seq<Message>
    requires Runs(cfg, s, es)
    decreases |es|
  {
    if es == [] then [] else ToServer(cfg, s, es[0]) + SentToServer(cfg, Apply(cfg, s, es[0]), es[1..])
  }

  // What the server has taken, and then what is still coming.
  function ServerStream(s: State): seq<Message> {
    s.server.taken + s.server.queue + s.server.down
  }

  lemma BrokerFeedsServer(cfg: Config, s: State, e: Event)
    requires Enabled(cfg, s, e) && (e.BrokerTakesServer? || e.BrokerTakesClient?)
    ensures ServerStream(Apply(cfg, s, e)) == ServerStream(s) + ToServer(cfg, s, e)
  {
  }

  lemma StepFeedsServer(cfg: Config, s: State, e: Event)
    requires Enabled(cfg, s, e)
    ensures ServerStream(Apply(cfg, s, e)) == ServerStream(s) + ToServer(cfg, s, e)
  {
    var s' := Apply(cfg, s, e);
    if e.BrokerTakesServer? || e.BrokerTakesClient? {
      BrokerFeedsServer(cfg, s, e);
    } else if e.ServerReceives? || e.ServerConsumes? {
      assert ServerStream(s') == ServerStream(s);
    }
  }

  // In every run the server takes what the broker sends it, in order.
  lemma {:induction false} ServerTakesWhatIsSent(cfg: Config, s: State, es: seq<Event>)
    requires Runs(cfg, s, es)
    ensures ServerStream(After(cfg, s, es)) == ServerStream(s) + SentToServer(cfg, s, es)
    decreases |es|
  {
    if es != [] {
      StepFeedsServer(cfg, s, es[0]);
      ServerTakesWhatIsSent(cfg, Apply(cfg, s, es[0]), es[1..]);
      Regrouped(ServerStream(s), ToServer(cfg, s, es[0]), SentToServer(cfg, Apply(cfg, s, es[0]), es[1..]));
    }
  }

  function SentToClient(cfg: Config, s: State, es: seq<Event>, x: string): seq<Message>
    requires Runs(cfg, s, es) && x in s.clients
    decreases |es|
  {
    if es == [] then []
    else
      ClientsStay(cfg, s, es[0]);
      ToClient(cfg, s, es[0], x) + SentToClient(cfg, Apply(cfg, s, es[0]), es[1..], x)
  }

  // What client x consumes, read off the events.
  function Consumed(cfg: Config, s: State, es: seq<Event>, x: string): seq<Message>
    requires Runs(cfg, s, es)
    decreases |es|
  {
    if es == [] then []
    else
      (if es[0] == ClientConsumes(x) then [s.clients[x].queue[0]] else [])
      + Consumed(cfg, Apply(cfg, s, es[0]), es[1..], x)
  }

  lemma ClientsStay(cfg: Config, s: State, e: Event)
    requires Enabled(cfg, s, e)
    ensures Apply(cfg, s, e).clients.Keys == s.clients.Keys
  {
  }

  function ClientStream(s: State, x: string): seq<Message>
    requires x in s.clients
  {
    s.clients[x].queue + s.clients[x].down
  }

  // What the broker's steps add to what is coming.
  lemma BrokerFeedsClient(cfg: Config, s: State, e: Event, x: string)
    requires Enabled(cfg, s, e) && x in s.clients && (e.BrokerTakesServer? || e.BrokerTakesClient?)
    ensures var s' := Apply(cfg, s, e);
      && x in s'.clients && s'.clients[x].queue == s.clients[x].queue
      && s'.clients[x].down == s.clients[x].down + ToClient(cfg, s, e, x)
  {
  }

  lemma OwnStepFeedsClient(cfg: Config, s: State, e: Event, x: string)
    requires Enabled(cfg, s, e) && x in s.clients && !e.BrokerTakesServer? && !e.BrokerTakesClient?
    ensures x in Apply(cfg, s, e).clients
    ensures (if e == ClientConsumes(x) then [s.clients[x].queue[0]] else []) + ClientStream(Apply(cfg, s, e), x)
         == ClientStream(s, x)
  {
  }

  lemma StepFeedsClient(cfg: Config, s: State, e: Event, x: string)
    requires Enabled(cfg, s, e) && x in s.clients
    ensures x in Apply(cfg, s, e).clients
    ensures (if e == ClientConsumes(x) then [s.clients[x].queue[0]] else []) + ClientStream(Apply(cfg, s, e), x)
         == ClientStream(s, x) + ToClient(cfg, s, e, x)
  {
    if e.BrokerTakesServer? || e.BrokerTakesClient? {
      BrokerFeedsClient(cfg, s, e, x);
    } else {
      OwnStepFeedsClient(cfg, s, e, x);
    }
  }

  lemma Chained(consumed: seq<Message>, rest: seq<Message>, left: seq<Message>, mid: seq<Message>, at: seq<Message>,
                sent: seq<Message>, more: seq<Message>)
    requires consumed + mid == at + sent && rest + left == mid + more
    ensures (consumed + rest) + left == at + (sent + more)
  {
    calc {
      (consumed + rest) + left;
      consumed + (rest + left);
      consumed + (mid + more);
      (consumed + mid) + more;
      (at + sent) + more;
      at + (sent + more);
    }
  }

  // And so does every client.
  lemma {:induction false} ClientTakesWhatIsSent(cfg: Config, s: State, es: seq<Event>, x: string)
    requires Runs(cfg, s, es) && x in s.clients
    ensures x in After(cfg, s, es).clients
    ensures Consumed(cfg, s, es, x) + ClientStream(After(cfg, s, es), x)
         == ClientStream(s, x) + SentToClient(cfg, s, es, x)
    decreases |es|
  {
    if es != [] {
      var e, s' := es[0], Apply(cfg, s, es[0]);
      StepFeedsClient(cfg, s, e, x);
      ClientTakesWhatIsSent(cfg, s', es[1..], x);
      Chained(if e == ClientConsumes(x) then [s.clients[x].queue[0]] else [], Consumed(cfg, s', es[1..], x),
              ClientStream(After(cfg, s, es), x), ClientStream(s', x), ClientStream(s, x),
              ToClient(cfg, s, e, x), SentToClient(cfg, s', es[1..], x));
    }
  }

  // ---- The outcome of a backup ----

  // A packet or a publication of handler h says what its command has come to.
  ghost predicate Tells(sv: ServerState, es: seq<Event>, payload: string, cause: Option<nat>) {
    cause.Some? ==>
      && cause.value < |sv.handlers|
      && exists i :: 0 <= i < |es| && es[i].HandlerReplies? && es[i].h == cause.value
           && payload == "Msg from Server: " + sv.handlers[cause.value].msg.payload + " backup "
                         + if es[i].ok then "succeed!" else "failed! "
  }

  ghost predicate AllTell(s: State, es: seq<Event>) {
    && (forall i :: 0 <= i < |s.server.up| && s.server.up[i].Publish? ==>
          Tells(s.server, es, s.server.up[i].payload, s.server.up[i].cause))
    && (forall i :: 0 <= i < |s.log| ==> Tells(s.server, es, s.log[i].msg.payload, s.log[i].cause))
    && (forall ip :: ip in s.clients ==> forall i :: 0 <= i < |s.clients[ip].up| && s.clients[ip].up[i].Publish? ==>
          s.clients[ip].up[i].cause == None)
  }

  lemma TellsStill(sv: ServerState, sv': ServerState, es: seq<Event>, e: Event, payload: string, cause: Option<nat>)
    requires Tells(sv, es, payload, cause) && |sv.handlers| <= |sv'.handlers|
    requires forall h :: 0 <= h < |sv.handlers| ==> sv'.handlers[h].msg == sv.handlers[h].msg
    ensures Tells(sv', es + [e], payload, cause)
  {
    if cause.Some? {
      var i :| 0 <= i < |es| && es[i].HandlerReplies? && es[i].h == cause.value
        && payload == "Msg from Server: " + sv.handlers[cause.value].msg.payload + " backup "
                      + if es[i].ok then "succeed!" else "failed! ";
      assert (es + [e])[i] == es[i];
    }
  }

  lemma HandlersStay(cfg: Config, s: State, e: Event)
    requires Enabled(cfg, s, e)
    ensures var sv' := Apply(cfg, s, e).server;
      && |s.server.handlers| <= |sv'.handlers|
      && forall h :: 0 <= h < |s.server.handlers| ==> sv'.handlers[h].msg == s.server.handlers[h].msg
  {
  }

  lemma ReplyTells(cfg: Config, s: State, es: seq<Event>, h: nat, ok: bool)
    requires Enabled(cfg, s, HandlerReplies(h, ok))
    ensures var s' := Apply(cfg, s, HandlerReplies(h, ok));
      && s'.server.up == s.server.up + [s'.server.up[|s.server.up|]] && s'.server.up[|s.server.up|].Publish?
      && Tells(s'.server, es + [HandlerReplies(h, ok)], s'.server.up[|s.server.up|].payload,
               s'.server.up[|s.server.up|].cause)
  {
    assert (es + [HandlerReplies(h, ok)])[|es|] == HandlerReplies(h, ok);
  }

  // The packets of the server: those that were there, and the one that the step may add.
  lemma ServerPackets(cfg: Config, s: State, e: Event, i: nat)
    requires Enabled(cfg, s, e) && i < |Apply(cfg, s, e).server.up| && Apply(cfg, s, e).server.up[i].Publish?
    ensures var p := Apply(cfg, s, e).server.up[i];
      p in s.server.up || p.cause == None || (e.HandlerReplies? && i == |s.server.up|)
  {
  }

  lemma LogEntries(cfg: Config, s: State, e: Event, i: nat)
    requires Enabled(cfg, s, e) && i < |Apply(cfg, s, e).log|
    requires forall ip :: ip in s.clients ==>
      forall j :: 0 <= j < |s.clients[ip].up| && s.clients[ip].up[j].Publish? ==> s.clients[ip].up[j].cause == None
    ensures var en := Apply(cfg, s, e).log[i];
      || en.cause == None
      || (i < |s.log| && en == s.log[i])
      || (e.BrokerTakesServer? && s.server.up[0].Publish?
          && s.server.up[0].payload == en.msg.payload && s.server.up[0].cause == en.cause)
  {
  }

  lemma ClientPackets(cfg: Config, s: State, es: seq<Event>, e: Event, ip: string, i: nat)
    requires AllTell(s, es) && Enabled(cfg, s, e) && ip in Apply(cfg, s, e).clients
    requires i < |Apply(cfg, s, e).clients[ip].up| && Apply(cfg, s, e).clients[ip].up[i].Publish?
    ensures Apply(cfg, s, e).clients[ip].up[i].cause == None
  {
    ClientsStay(cfg, s, e);
  }

  lemma StepKeepsTelling(cfg: Config, s: State, es: seq<Event>, e: Event)
    requires AllTell(s, es) && Enabled(cfg, s, e)
    ensures AllTell(Apply(cfg, s, e), es + [e])
  {
    var s' := Apply(cfg, s, e);
    HandlersStay(cfg, s, e);
    forall i | 0 <= i < |s'.server.up| && s'.server.up[i].Publish?
      ensures Tells(s'.server, es + [e], s'.server.up[i].payload, s'.server.up[i].cause)
    {
      var p := s'.server.up[i];
      ServerPackets(cfg, s, e, i);
      if p in s.server.up {
        TellsStill(s.server, s'.server, es, e, p.payload, p.cause);
      } else if e.HandlerReplies? {
        ReplyTells(cfg, s, es, e.h, e.ok);
      }
    }
    forall i | 0 <= i < |s'.log| ensures Tells(s'.server, es + [e], s'.log[i].msg.payload, s'.log[i].cause) {
      LogEntries(cfg, s, e, i);
      if s'.log[i].cause.Some? {
        TellsStill(s.server, s'.server, es, e, s'.log[i].msg.payload, s'.log[i].cause);
      }
    }
    forall ip | ip in s'.clients
      ensures forall i :: 0 <= i < |s'.clients[ip].up| && s'.clients[ip].up[i].Publish? ==>
        s'.clients[ip].up[i].cause == None
    {
      forall i | 0 <= i < |s'.clients[ip].up| && s'.clients[ip].up[i].Publish?
        ensures s'.clients[ip].up[i].cause == None
      {
        ClientPackets(cfg, s, es, e, ip, i);
      }
    }
  }

  lemma {:induction false} RunsKeepTelling(cfg: Config, s: State, before: seq<Event>, es: seq<Event>)
    requires AllTell(s, before) && Runs(cfg, s, es)
    ensures AllTell(After(cfg, s, es), before + es)
    decreases |es|
  {
    if es == [] {
      assert before + es == before;
    } else {
      StepKeepsTelling(cfg, s, before, es[0]);
      RunsKeepTelling(cfg, Apply(cfg, s, es[0]), before + [es[0]], es[1..]);
      assert before + [es[0]] + es[1..] == before + es;
    }
  }

  // In every run a reply names the path that was asked for, and says that the backup succeeded
  // exactly when the command that its handler ran did.
  lemma ReplyTellsTheOutcome(cfg: Config, es: seq<Event>, i: nat)
    requires Runs(cfg, Start(cfg), es) && i < |After(cfg, Start(cfg), es).log|
    ensures var s := After(cfg, Start(cfg), es);
      Tells(s.server, es, s.log[i].msg.payload, s.log[i].cause)
  {
    RunsKeepTelling(cfg, Start(cfg), [], es);
    assert [] + es == es;
  }
}
