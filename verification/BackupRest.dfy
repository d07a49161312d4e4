/**
 What it means that nothing is left to do, and what a request comes to.  When the service is at rest
 the server has taken all that it was sent and every handler has ended.  So a request that a user
 types on a topic to which the server has subscribed is answered, and the client has the answer,
 if only nobody types for long enough.
 */
module BackupRest {
  import opened Common
  import opened BackupProtocol
  import A = BackupAcks
  import O = BackupOutcome
  import P = BackupReplies
  import R = BackupRegistration
  import S = BackupSettles
  import W = BackupWires

  // ---- At rest ----

  lemma {:induction false} RunsKeepBoot(cfg: Config, s: State, es: seq<Event>)
    requires R.Inv(cfg, s) && O.BootInv(s) && Runs(cfg, s, es)
    ensures R.Inv(cfg, After(cfg, s, es)) && O.BootInv(After(cfg, s, es))
    decreases |es|
  {
    if es != [] {
      O.StepKeepsBoot(cfg, s, es[0]);
      R.StepKeepsInv(cfg, s, es[0]);
      RunsKeepBoot(cfg, Apply(cfg, s, es[0]), es[1..]);
    }
  }

  // The server waits in its loop, and every handler has ended.
  ghost predicate ServerRests(sv: ServerState) {
    && sv.pc == Looping && sv.up == [] && sv.down == [] && sv.queue == []
    && forall h :: 0 <= h < |sv.handlers| ==> sv.handlers[h].pc == Finished
  }

  // A client waits for its key, or lets its user type.
  ghost predicate ClientRests(cfg: Config, s: State, ip: string)
    requires ip in s.clients
  {
    var c := s.clients[ip];
    && c.up == [] && c.down == [] && c.queue == [] && (c.pc == AwaitingKey || c.pc == Working)
    && forall line :: Enabled(cfg, s, ClientTypes(ip, line)) <==> c.pc == Working
  }

  lemma RestOfServer(cfg: Config, s: State)
    requires R.Inv(cfg, s) && O.BootInv(s) && O.Settled(cfg, s)
    ensures ServerRests(s.server)
  {
    O.SettledServer(cfg, s);
    forall h | 0 <= h < |s.server.handlers| ensures s.server.handlers[h].pc == Finished {
      assert !Enabled(cfg, s, HandlerReplies(h, true)) && !Enabled(cfg, s, HandlerSkips(h));
      assert !Enabled(cfg, s, HandlerEnds(h));
    }
  }

  lemma RestOfClient(cfg: Config, s: State, ip: string)
    requires O.Settled(cfg, s) && ip in s.clients
    ensures ClientRests(cfg, s, ip)
  {
    assert !Enabled(cfg, s, BrokerTakesClient(ip)) && !Enabled(cfg, s, ClientReceives(ip));
    assert !Enabled(cfg, s, ClientAnnounces(ip, "")) && !Enabled(cfg, s, ClientSubscribes(ip));
    assert !Enabled(cfg, s, ClientReady(ip)) && !Enabled(cfg, s, ClientConsumes(ip));
  }

  // In every run, when nothing is left to do: nothing is on the way, the loop has taken all that was
  // sent to the server, every handler has ended, and a client either waits for its key or lets its
  // user type.
  lemma AtRest(cfg: Config, es: seq<Event>)
    requires ValidConfig(cfg) && Runs(cfg, Start(cfg), es) && O.Settled(cfg, After(cfg, Start(cfg), es))
    ensures var s := After(cfg, Start(cfg), es);
      && ServerRests(s.server) && s.server.taken == W.SentToServer(cfg, Start(cfg), es)
      && forall ip :: ip in s.clients ==> ClientRests(cfg, s, ip)
  {
    var s := After(cfg, Start(cfg), es);
    RunsKeepBoot(cfg, Start(cfg), es);
    RestOfServer(cfg, s);
    W.ServerTakesWhatIsSent(cfg, Start(cfg), es);
    assert W.ServerStream(Start(cfg)) == [] && W.ServerStream(s) == s.server.taken;
    forall ip | ip in s.clients ensures ClientRests(cfg, s, ip) {
      RestOfClient(cfg, s, ip);
    }
  }

  // ---- What is published reaches whoever has subscribed ----

  lemma {:induction false} LogGrows(cfg: Config, s: State, es: seq<Event>)
    requires Runs(cfg, s, es)
    ensures s.log <= After(cfg, s, es).log
    decreases |es|
  {
    if es != [] {
      LogGrowsAStep(cfg, s, es[0]);
      LogGrows(cfg, Apply(cfg, s, es[0]), es[1..]);
    }
  }

  lemma LogGrowsAStep(cfg: Config, s: State, e: Event)
    requires Enabled(cfg, s, e)
    ensures s.log <= Apply(cfg, s, e).log && |Apply(cfg, s, e).log| <= |s.log| + 1
    ensures s.server.subs <= Apply(cfg, s, e).server.subs
    ensures forall ip :: ip in s.clients ==>
      ip in Apply(cfg, s, e).clients && (s.clients[ip].subscribed ==> Apply(cfg, s, e).clients[ip].subscribed)
  {
  }

  // A publication of a client, to the server.
  lemma {:induction false} ReachesServer(cfg: Config, s: State, es: seq<Event>, j: nat)
    requires Runs(cfg, s, es) && |s.log| <= j < |After(cfg, s, es).log|
    requires var m := After(cfg, s, es).log[j].msg; m.origin != Server && m.topic in s.server.subs
    ensures After(cfg, s, es).log[j].msg in W.SentToServer(cfg, s, es)
    decreases |es|
  {
    var s' := Apply(cfg, s, es[0]);
    LogGrowsAStep(cfg, s, es[0]);
    LogGrows(cfg, s', es[1..]);
    if j < |s'.log| {
      assert s'.log[j] == After(cfg, s, es).log[j];
      assert W.ToServer(cfg, s, es[0]) == [s'.log[j].msg];
    } else {
      ReachesServer(cfg, s', es[1..], j);
    }
  }

  // And any, to a client.
  lemma {:induction false} ReachesClient(cfg: Config, s: State, es: seq<Event>, x: string, j: nat)
    requires Runs(cfg, s, es) && |s.log| <= j < |After(cfg, s, es).log|
    requires x in s.clients && s.clients[x].subscribed && After(cfg, s, es).log[j].msg.topic == x
    ensures After(cfg, s, es).log[j].msg in W.SentToClient(cfg, s, es, x)
    decreases |es|
  {
    var s' := Apply(cfg, s, es[0]);
    LogGrowsAStep(cfg, s, es[0]);
    LogGrows(cfg, s', es[1..]);
    if j < |s'.log| {
      assert s'.log[j] == After(cfg, s, es).log[j];
      assert W.ToClient(cfg, s, es[0], x) == [s'.log[j].msg];
    } else {
      ReachesClient(cfg, s', es[1..], x, j);
    }
  }

  // ---- A request taken is a request answered ----

  lemma {:induction false} ServedOnceTaken(cfg: Config, taken: seq<Message>, m: Message)
    requires m in taken && m.topic != PUBLIC && cfg.isIP4(m.topic)
    ensures m in P.Served(cfg, taken)
  {
    if m != taken[|taken| - 1] {
      ServedOnceTaken(cfg, taken[..|taken| - 1], m);
    }
  }

  lemma {:induction false} CountedIsThere(log: seq<Entry>, h: nat) returns (i: nat)
    requires P.InLog(log, h) > 0
    ensures i < |log| && log[i].cause == Some(h)
  {
    if log[|log| - 1].cause == Some(h) {
      i := |log| - 1;
    } else {
      i := CountedIsThere(log[..|log| - 1], h);
    }
  }

  lemma HandlerOf(cfg: Config, sv: ServerState, m: Message) returns (h: nat)
    requires P.HandlerMessages(sv.handlers) == P.Served(cfg, sv.taken)
    requires m in sv.taken && m.topic != PUBLIC && cfg.isIP4(m.topic)
    ensures h < |sv.handlers| && sv.handlers[h].msg == m
  {
    ServedOnceTaken(cfg, sv.taken, m);
    h :| 0 <= h < |sv.handlers| && P.HandlerMessages(sv.handlers)[h] == m;
  }

  // At rest, everything that was sent to the server has been dealt with: entry i answers m.
  lemma TakenIsAnswered(cfg: Config, es: seq<Event>, m: Message) returns (i: nat)
    requires ValidConfig(cfg) && Runs(cfg, Start(cfg), es) && O.Settled(cfg, After(cfg, Start(cfg), es))
    requires m in W.SentToServer(cfg, Start(cfg), es) && IsRequest(m.payload) && m.topic in cfg.clients
    ensures var log := After(cfg, Start(cfg), es).log;
      i < |log| && m.id < i && P.IsReplyTo(log[i].msg.topic, log[i].msg.payload, m)
  {
    AtRest(cfg, es);
    P.OneHandlerPerMessage(cfg, es);
    var h := HandlerOf(cfg, After(cfg, Start(cfg), es).server, m);
    P.OneReplyPerRequest(cfg, es, h);
    i := CountedIsThere(After(cfg, Start(cfg), es).log, h);
    P.RepliesAnswerRequests(cfg, es, i);
  }

  // ---- What a user types is answered ----

  lemma {:induction false} RunsSplit(cfg: Config, s: State, es: seq<Event>, more: seq<Event>)
    requires Runs(cfg, s, es + more)
    ensures Runs(cfg, s, es) && Runs(cfg, After(cfg, s, es), more)
    ensures After(cfg, After(cfg, s, es), more) == After(cfg, s, es + more)
    ensures W.SentToServer(cfg, s, es + more)
         == W.SentToServer(cfg, s, es) + W.SentToServer(cfg, After(cfg, s, es), more)
    decreases |es|
  {
    if es == [] {
      assert es + more == more;
    } else {
      assert (es + more)[1..] == es[1..] + more && (es + more)[0] == es[0];
      RunsSplit(cfg, Apply(cfg, s, es[0]), es[1..], more);
      W.Regrouped(W.ToServer(cfg, s, es[0]), W.SentToServer(cfg, Apply(cfg, s, es[0]), es[1..]),
                  W.SentToServer(cfg, After(cfg, s, es), more));
    }
  }

  lemma PacketStays(cfg: Config, s: State, e: Event, x: string)
    requires Enabled(cfg, s, e) && x in s.clients && e != BrokerTakesClient(x)
    ensures x in Apply(cfg, s, e).clients && s.clients[x].up <= Apply(cfg, s, e).clients[x].up
  {
  }

  // The first packet of a client that has nothing on the way in the end is in the log by then.
  lemma {:induction false} PacketGoesOut(cfg: Config, s: State, es: seq<Event>, x: string) returns (j: nat)
    requires Runs(cfg, s, es) && x in s.clients && s.clients[x].up != [] && s.clients[x].up[0].Publish?
    requires x in After(cfg, s, es).clients && After(cfg, s, es).clients[x].up == []
    ensures |s.log| <= j < |After(cfg, s, es).log|
    ensures var p := s.clients[x].up[0];
      After(cfg, s, es).log[j].msg == Message(p.topic, p.payload, Client(x), j)
    decreases |es|
  {
    var s' := Apply(cfg, s, es[0]);
    LogGrowsAStep(cfg, s, es[0]);
    LogGrows(cfg, s', es[1..]);
    if es[0] == BrokerTakesClient(x) {
      j := |s.log|;
      assert s'.log[j] == After(cfg, s, es).log[j];
    } else {
      PacketStays(cfg, s, es[0], x);
      j := PacketGoesOut(cfg, s', es[1..], x);
    }
  }

  // A request that is on its way when the last of what is typed is on its way: at rest the client
  // has consumed the answer.
  lemma RequestComesBack(cfg: Config, es: seq<Event>, more: seq<Event>, x: string) returns (r: Message)
    requires ValidConfig(cfg) && Runs(cfg, Start(cfg), es + more) && O.Settled(cfg, After(cfg, Start(cfg), es + more))
    requires Runs(cfg, Start(cfg), es) && Runs(cfg, After(cfg, Start(cfg), es), more)
    requires var s := After(cfg, Start(cfg), es);
      && x in cfg.clients && x in s.clients && s.clients[x].subscribed && x in s.server.subs
      && s.clients[x].up != [] && s.clients[x].up[0].Publish? && s.clients[x].up[0].topic == x
      && IsRequest(s.clients[x].up[0].payload)
    ensures var s := After(cfg, Start(cfg), es);
      && r in W.Consumed(cfg, s, more, x) && r.topic == x
      && var asked := s.clients[x].up[0].payload;
         r.payload == Reply(asked, true) || r.payload == Reply(asked, false)
  {
    var s, s' := After(cfg, Start(cfg), es), After(cfg, Start(cfg), es + more);
    RunsSplit(cfg, Start(cfg), es, more);
    W.ClientTakesWhatIsSent(cfg, s, more, x);
    AtRest(cfg, es + more);
    var j := PacketGoesOut(cfg, s, more, x);
    ReachesServer(cfg, s, more, j);
    var i := TakenIsAnswered(cfg, es + more, s'.log[j].msg);
    ReachesClient(cfg, s, more, x, i);
    r := s'.log[i].msg;
    assert W.ClientStream(s', x) == [];
    assert r in W.Consumed(cfg, s, more, x) + W.ClientStream(s', x);
  }

  // A client that has its key, and whose topic the server has subscribed to, types a request: however
  // the run goes on it can go on, without anybody typing, so that the client consumes the answer.
  lemma TypedRequestIsAnswered(cfg: Config, es: seq<Event>, x: string, line: string)
    returns (more: seq<Event>, r: Message)
    requires ValidConfig(cfg) && Runs(cfg, Start(cfg), es) && IsRequest(line)
    requires var s := After(cfg, Start(cfg), es);
      x in cfg.clients && x in s.clients && s.clients[x].pc == Working && s.clients[x].up == [] && x in s.server.subs
    ensures var s := After(cfg, Start(cfg), es);
      && Enabled(cfg, s, ClientTypes(x, line)) && S.NobodyTypes(more)
      && var s' := Apply(cfg, s, ClientTypes(x, line));
         && Runs(cfg, s', more) && O.Settled(cfg, After(cfg, s', more))
         && r in W.Consumed(cfg, s', more, x) && r.topic == x
         && (r.payload == Reply(line, true) || r.payload == Reply(line, false))
  {
    var e := ClientTypes(x, line);
    A.ClientsTakeTurns(cfg, es, x);
    RunsAppend(cfg, Start(cfg), es, e);
    more := S.RunsOut(cfg, es + [e]);
    RunsSplit(cfg, Start(cfg), es + [e], more);
    r := RequestComesBack(cfg, es + [e], more, x);
  }
}
