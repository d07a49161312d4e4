/**
 The announcement that is lost: of two clients that announce themselves before the server comes to
 the public topic, the first is forgotten.  However the run goes on, it never gets the key.
 */
module BackupForgotten {
  import opened Common
  import opened Announcement
  import opened BackupProtocol
  import opened BackupOutcome
  import R = BackupRegistration
  import S = BackupStaleSlots

  // A client announces its own address, once.
  predicate OwnAnnouncements(cfg: Config, c: ClientState, ip: string) {
    forall i :: 0 <= i < |c.up| && c.up[i].Publish? && c.up[i].topic == PUBLIC ==>
      Words(c.up[i].payload) != [] && Announced(cfg, c.up[i].payload) == ip && c.pc != Fresh
  }

  ghost predicate AllOwn(cfg: Config, s: State) {
    forall ip :: ip in s.clients ==> OwnAnnouncements(cfg, s.clients[ip], ip)
  }

  // Nothing more will be heard of the client.
  ghost predicate Forgotten(cfg: Config, s: State, x: string) {
    && x in s.clients && s.clients[x].pc != Fresh
    && (forall i :: 0 <= i < |s.clients[x].up| && s.clients[x].up[i].Publish? ==> s.clients[x].up[i].topic != PUBLIC)
    && s.joined.Some? && !Heard(cfg, s, x)
  }

  lemma StepKeepsOwn(cfg: Config, s: State, e: Event)
    requires R.Inv(cfg, s) && AllOwn(cfg, s) && Enabled(cfg, s, e)
    ensures AllOwn(cfg, Apply(cfg, s, e))
  {
    var s' := Apply(cfg, s, e);
    KeysStay(cfg, s, e);
    forall ip | ip in s'.clients ensures OwnAnnouncements(cfg, s'.clients[ip], ip) {
      SentOwn(cfg, s, e, ip);
    }
  }

  lemma KeysStay(cfg: Config, s: State, e: Event)
    requires R.Inv(cfg, s) && Enabled(cfg, s, e)
    ensures Apply(cfg, s, e).clients.Keys == s.clients.Keys
  {
    R.StepKeepsInv(cfg, s, e);
  }

  // How what a client sends, and where it is, changes in a step.
  ghost predicate Goes(cfg: Config, s: State, e: Event, ip: string)
    requires ip in s.clients && Enabled(cfg, s, e)
  {
    var s' := Apply(cfg, s, e);
    s'.clients.Keys == s.clients.Keys &&
    var c, c' := s.clients[ip], s'.clients[ip];
    || (c'.up == c.up && (c'.pc == c.pc || c'.pc != Fresh))
    || (c.up != [] && c'.up == c.up[1..] && c'.pc == c.pc)
    || (c'.up == c.up + [Subscribe(ip)] && c'.pc != Fresh)
    || (e.ClientTypes? && c'.up == c.up + [Publish(ip, e.line, None)] && c'.pc == c.pc)
    || (e.ClientAnnounces? && c.pc == Fresh && c'.pc == Announcing
        && c'.up == c.up + [Publish(PUBLIC, Announce(ip, e.info), None)])
  }

  lemma TakingGoes(cfg: Config, s: State, e: Event, ip: string)
    requires ip in s.clients && Enabled(cfg, s, e) && (e.BrokerTakesServer? || e.BrokerTakesClient?)
    ensures Goes(cfg, s, e, ip)
  {
    if e.BrokerTakesClient? {
      assert s.clients[e.ip].up != [];
    }
  }

  lemma OtherGoes(cfg: Config, s: State, e: Event, ip: string)
    requires ip in s.clients && Enabled(cfg, s, e) && !e.BrokerTakesServer? && !e.BrokerTakesClient?
    ensures Goes(cfg, s, e, ip)
  {
  }

  lemma SentOwn(cfg: Config, s: State, e: Event, ip: string)
    requires ValidConfig(cfg) && s.clients.Keys == cfg.clients && ip in s.clients && Enabled(cfg, s, e)
    requires OwnAnnouncements(cfg, s.clients[ip], ip)
    ensures Goes(cfg, s, e, ip) && OwnAnnouncements(cfg, Apply(cfg, s, e).clients[ip], ip)
  {
    if e.BrokerTakesServer? || e.BrokerTakesClient? {
      TakingGoes(cfg, s, e, ip);
    } else {
      OtherGoes(cfg, s, e, ip);
      if e.ClientAnnounces? {
        AnnouncementReadBack(ip, e.info, cfg.isIP4);
      }
    }
  }

  // Only the client's own announcement would be heard.
  lemma HeardFromItself(cfg: Config, s: State, e: Event, x: string)
    requires R.Inv(cfg, s) && BootInv(s) && AllOwn(cfg, s) && Enabled(cfg, s, e)
    requires s.joined.Some? && !Heard(cfg, s, x) && Heard(cfg, Apply(cfg, s, e), x)
    ensures x in s.clients && e == BrokerTakesClient(x)
    ensures s.clients[x].up[0].Publish? && s.clients[x].up[0].topic == PUBLIC
  {
    var s' := Apply(cfg, s, e);
    LogGrows(cfg, s, e);
    NewEntry(cfg, s, e);
    if s'.log != s.log {
      HeardBefore(cfg, s, s', s'.log[|s.log|], x);
      if e.BrokerTakesClient? {
        assert OwnAnnouncements(cfg, s.clients[e.ip], e.ip);
      }
    }
  }

  // What a step adds to the log.
  lemma NewEntry(cfg: Config, s: State, e: Event)
    requires R.Inv(cfg, s) && Enabled(cfg, s, e)
    ensures var s' := Apply(cfg, s, e);
      s'.log == s.log ||
      (|s'.log| == |s.log| + 1 && s'.log == s.log + [s'.log[|s.log|]] &&
       var m := s'.log[|s.log|].msg;
       || (e.BrokerTakesServer? && m.topic != PUBLIC)
       || (e.BrokerTakesClient? && s.clients[e.ip].up[0].Publish?
           && m.topic == s.clients[e.ip].up[0].topic && m.payload == s.clients[e.ip].up[0].payload))
  {
    if e.BrokerTakesServer? {
      assert s.server.up[0].Publish? ==> s.server.up[0].topic != PUBLIC;
    }
  }

  lemma StepKeepsForgotten(cfg: Config, s: State, e: Event, x: string)
    requires R.Inv(cfg, s) && BootInv(s) && AllOwn(cfg, s) && Forgotten(cfg, s, x) && Enabled(cfg, s, e)
    ensures Forgotten(cfg, Apply(cfg, s, e), x)
  {
    var s' := Apply(cfg, s, e);
    LogGrows(cfg, s, e);
    if Heard(cfg, s', x) {
      HeardFromItself(cfg, s, e, x);
      assert false;
    }
    SendsNoMore(cfg, s, e, x);
  }

  lemma SendsNoMore(cfg: Config, s: State, e: Event, x: string)
    requires R.Inv(cfg, s) && Forgotten(cfg, s, x) && Enabled(cfg, s, e)
    ensures var s' := Apply(cfg, s, e);
      && x in s'.clients && s'.clients[x].pc != Fresh
      && forall i :: 0 <= i < |s'.clients[x].up| && s'.clients[x].up[i].Publish? ==> s'.clients[x].up[i].topic != PUBLIC
  {
    if e.BrokerTakesServer? || e.BrokerTakesClient? {
      TakingGoes(cfg, s, e, x);
    } else {
      OtherGoes(cfg, s, e, x);
    }
  }

  lemma {:induction false} ForgottenForEver(cfg: Config, s: State, es: seq<Event>, x: string)
    requires R.Inv(cfg, s) && BootInv(s) && AllOwn(cfg, s) && Forgotten(cfg, s, x) && Runs(cfg, s, es)
    ensures Forgotten(cfg, After(cfg, s, es), x)
    decreases |es|
  {
    if es != [] {
      R.StepKeepsInv(cfg, s, es[0]);
      StepKeepsBoot(cfg, s, es[0]);
      StepKeepsOwn(cfg, s, es[0]);
      StepKeepsForgotten(cfg, s, es[0], x);
      ForgottenForEver(cfg, Apply(cfg, s, es[0]), es[1..], x);
    }
  }

  lemma {:induction false} RunsKeepOwn(cfg: Config, s: State, es: seq<Event>)
    requires R.Inv(cfg, s) && AllOwn(cfg, s) && Runs(cfg, s, es)
    ensures AllOwn(cfg, After(cfg, s, es))
    decreases |es|
  {
    if es != [] {
      StepKeepsOwn(cfg, s, es[0]);
      R.StepKeepsInv(cfg, s, es[0]);
      RunsKeepOwn(cfg, Apply(cfg, s, es[0]), es[1..]);
    }
  }

  // Two announcements reach the broker, and then the server's subscription.
  lemma TwoThenServer(cfg: Config, a: string, b: string) returns (es: seq<Event>, s: State)
    requires ValidConfig(cfg) && a in cfg.clients && b in cfg.clients && a != b
    ensures S.Leads(cfg, es, s) && Forgotten(cfg, s, a)
  {
    es, s := S.ClientAnnounced(cfg, a);
    es, s := SecondAnnounced(cfg, es, s, a, b);
    es, s := S.Go(cfg, es, s, ServerConnects);
    es, s := S.Go(cfg, es, s, BrokerTakesServer);
    assert s.joined == Some(Joining(|s.log|, Some(s.slots[PUBLIC])));
  }

  lemma SecondAnnounced(cfg: Config, es: seq<Event>, s: State, a: string, b: string)
    returns (es': seq<Event>, s': State)
    requires ValidConfig(cfg) && a in cfg.clients && b in cfg.clients && a != b
    requires S.Leads(cfg, es, s) && s.server == Start(cfg).server && s.clients.Keys == cfg.clients
    requires s.clients[a] == ClientState(Announcing, [], false, [], [], None)
    requires s.clients[b] == Start(cfg).clients[b]
    ensures S.Leads(cfg, es', s') && s'.server == Start(cfg).server && s'.clients.Keys == cfg.clients
    ensures s'.clients[a] == ClientState(Announcing, [], false, [], [], None)
    ensures PUBLIC in s'.slots && s'.slots[PUBLIC].topic == PUBLIC && s'.slots[PUBLIC].origin == Client(b)
    ensures !Announces(cfg, s'.slots[PUBLIC], a)
  {
    es', s' := S.Go(cfg, es, s, ClientAnnounces(b, ""));
    es', s' := S.Go(cfg, es', s', BrokerTakesClient(b));
    AnnouncementReadBack(b, "", cfg.isIP4);
  }

  // However the run goes on after that, the first of the two clients never has a key.
  lemma FirstOfTwoIsForgotten(cfg: Config, a: string, b: string) returns (es: seq<Event>)
    requires ValidConfig(cfg) && a in cfg.clients && b in cfg.clients && a != b
    requires CleanSlot(cfg, a) && !LeftBehind(cfg, a)
    ensures Runs(cfg, Start(cfg), es)
    ensures forall more :: Runs(cfg, After(cfg, Start(cfg), es), more) ==>
      var s := After(cfg, After(cfg, Start(cfg), es), more); a in s.clients && s.clients[a].key == None
  {
    var s;
    es, s := TwoThenServer(cfg, a, b);
    StartsWithInv(cfg, a);
    BackupOutcome.RunsKeepInv(cfg, Start(cfg), es, a);
    RunsKeepOwn(cfg, Start(cfg), es);
    forall more | Runs(cfg, s, more)
      ensures a in After(cfg, s, more).clients && After(cfg, s, more).clients[a].key == None
    {
      BackupOutcome.RunsKeepInv(cfg, s, more, a);
      ForgottenForEver(cfg, s, more, a);
    }
  }
}
