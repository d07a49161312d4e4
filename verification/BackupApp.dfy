/**
 The objects of the backup service, one call at a time: the methods of appServer and appClient
 that change their members.  What they send is returned, in order; `BackupProtocol` interleaves
 the same steps.
 */
module BackupApp {
  import opened Common
  import opened Announcement
  import opened BackupProtocol

  // What one turn of the loop in working() sends, whom it registers, and which messages get a handler.
  datatype Turn = Turn(sent: seq<Packet>, registered: seq<ClientInfo>, spawned: seq<Message>)

  function TurnFor(isIP4: string -> bool, key: string, m: Message): Turn
    requires m.topic == PUBLIC ==> Words(m.payload) != []
  {
    if m.topic == PUBLIC then
      var c := Parse(m.payload, isIP4);
      Turn([Subscribe(c.ip), Publish(c.ip, key, None)], [c.(backupPath := MAIN_BACKUP_PATH + "/" + c.ip)], [])
    else Turn([], [], if isIP4(m.topic) then [m] else [])
  }

  // The first registered client with the given address.
  predicate IsFirstWithIp(clients: seq<ClientInfo>, ip: string, i: int) {
    0 <= i < |clients| && clients[i].ip == ip && forall j :: 0 <= j < i ==> clients[j].ip != ip
  }

  class AppServer {
    const isIP4: string -> bool
    const publicKey: string
    var clients: seq<ClientInfo>   // m_clients
    var msg: Option<Message>       // m_msgPtr
    var handlers: seq<Message>     // m_threadPool: what each thread has read from m_msgPtr

    constructor (isIP4: string -> bool, publicKey: string)
      ensures clients == [] && msg == None && handlers == []
      ensures this.isIP4 == isIP4 && this.publicKey == publicKey
    {
      this.isIP4, this.publicKey := isIP4, publicKey;
      clients, msg, handlers := [], None, [];
    }

    // None is the not-found return, client(""), whose constructor reads the first of no words.
    method SearchForClient(ip: string) returns (found: Option<ClientInfo>)
      ensures found.Some? <==> exists i :: 0 <= i < |clients| && clients[i].ip == ip
      ensures found.Some? ==> exists i :: IsFirstWithIp(clients, ip, i) && found.value == clients[i]
    {
      var i := 0;
      while i < |clients| && clients[i].ip != ip
        invariant 0 <= i <= |clients|
        invariant forall j :: 0 <= j < i ==> clients[j].ip != ip
      {
        i := i + 1;
      }
      if i < |clients| {
        assert IsFirstWithIp(clients, ip, i);
        return Some(clients[i]);
      }
      return None;
    }

    // The client is registered after its topic has been subscribed to and the key published.
    method HandleNewSubscriber() returns (sent: seq<Packet>)
      requires msg.Some? && Words(msg.value.payload) != []
      modifies this`clients
      ensures var c := Parse(msg.value.payload, isIP4);
        && sent == [Subscribe(c.ip), Publish(c.ip, publicKey, None)]
        && clients == old(clients) + [c.(backupPath := MAIN_BACKUP_PATH + "/" + c.ip)]
    {
      var currClient := Parse(msg.value.payload, isIP4);
      sent := [Subscribe(currClient.ip)];
      sent := sent + [Publish(currClient.ip, publicKey, None)];
      currClient := currClient.(backupPath := MAIN_BACKUP_PATH + "/" + currClient.ip);
      clients := clients + [currClient];
    }

    // One thread of the pool; `ok` is the outcome of the copy command.
    method HandleBackupRequest(m: Message, ok: bool) returns (sent: Option<Packet>, served: Option<ClientInfo>)
      ensures sent.Some? <==> IsRequest(m.payload)
      ensures sent.Some? ==> IsReplyFor(m, sent.value)
      ensures sent.Some? && ok ==>
        sent.value == Publish(m.topic, "Msg from Server: " + m.payload + " backup succeed!", None)
      ensures sent.Some? && !ok ==>
        sent.value == Publish(m.topic, "Msg from Server: " + m.payload + " backup failed! ", None)
      ensures served.Some? <==> IsRequest(m.payload) && exists i :: 0 <= i < |clients| && clients[i].ip == m.topic
      ensures served.Some? ==> exists i :: IsFirstWithIp(clients, m.topic, i) && served.value == clients[i]
    {
      var subscriberIp, backUpPath := m.topic, m.payload;
      sent, served := None, None;
      if IsRequest(backUpPath) {
        served := SearchForClient(subscriberIp);
        var reply := Reply(backUpPath, ok);
        assert reply == "Msg from Server: " + m.payload + if ok then " backup succeed!" else " backup failed! ";
        sent := Some(Publish(subscriberIp, reply, None));
      }
    }

    // One turn of the loop in working(), with a message that is not null.
    method Work(m: Message) returns (sent: seq<Packet>)
      requires m.topic == PUBLIC ==> Words(m.payload) != []
      modifies this
      ensures msg == Some(m)
      ensures var turn := TurnFor(isIP4, publicKey, m);
        && sent == turn.sent
        && clients == old(clients) + turn.registered
        && handlers == old(handlers) + turn.spawned
    {
      msg := Some(m);
      sent := [];
      if m.topic == PUBLIC {
        sent := HandleNewSubscriber();
      } else if isIP4(m.topic) {
        handlers := handlers + [m];
      }
    }
  }

  predicate IsReplyFor(m: Message, p: Packet) {
    p.Publish? && p.topic == m.topic && !IsRequest(p.payload)
  }

  // A request is what begins with a tilde.
  lemma RequestsBeginWithTilde(payload: string)
    ensures IsRequest(payload) <==> exists path :: payload == "~" + path
  {
    if payload != "" && payload[0] == '~' {
      assert payload == "~" + payload[1..];
    }
  }

  // The key is what comes on the own topic and has "ssh-rsa" somewhere in it.
  lemma AcceptedKeys(ip: string, m: Message)
    ensures AcceptsAsKey(ip, m) <==> m.topic == ip && exists i :: StandsAt(m.payload, "ssh-rsa", i)
  {
    ContainsExactly(m.payload, "ssh-rsa");
  }

  class AppClient {
    const ip: string                    // m_privateChnl
    var gotPublicKey: bool              // GOT_PUBLIC_KEY
    var serverPublicKey: string         // m_serverPublicKey

    constructor (ip: string)
      ensures this.ip == ip && !gotPublicKey
    {
      this.ip, gotPublicKey, serverPublicKey := ip, false, "";
    }

    // getPublicKeyMsg() over the messages that the queue hands out; a null entry ends the loop.
    // It takes everything up to and including the first message that it accepts as the key.
    method GetPublicKeyMsg(queue: seq<Option<Message>>) returns (taken: nat)
      requires !gotPublicKey
      modifies this
      ensures taken <= |queue|
      ensures forall i :: 0 <= i < taken - 1 ==> queue[i].Some? && !AcceptsAsKey(ip, queue[i].value)
      ensures gotPublicKey <==> taken > 0 && queue[taken - 1].Some? && AcceptsAsKey(ip, queue[taken - 1].value)
      ensures gotPublicKey ==> serverPublicKey == queue[taken - 1].value.payload
      ensures !gotPublicKey ==> serverPublicKey == old(serverPublicKey)
                                && (taken == |queue| || (taken > 0 && queue[taken - 1].None?))
    {
      taken := 0;
      while !gotPublicKey && taken < |queue|
        invariant taken <= |queue|
        invariant forall i :: 0 <= i < taken - 1 ==> queue[i].Some? && !AcceptsAsKey(ip, queue[i].value)
        invariant gotPublicKey <==> taken > 0 && queue[taken - 1].Some? && AcceptsAsKey(ip, queue[taken - 1].value)
        invariant gotPublicKey ==> serverPublicKey == queue[taken - 1].value.payload
        invariant !gotPublicKey ==> serverPublicKey == old(serverPublicKey) && (taken > 0 ==> queue[taken - 1].Some?)
        decreases |queue| - taken
      {
        var msgPtr := queue[taken];
        taken := taken + 1;
        if msgPtr.None? {
          break;
        }
        if msgPtr.value.topic == ip {
          if IsKey(msgPtr.value.payload) {
            serverPublicKey := msgPtr.value.payload;
            gotPublicKey := true;
          }
        }
      }
    }
  }
}
