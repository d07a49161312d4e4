/**
 The lists, the connect token and the consumer queue of the asynchronous client
 (async_client.cpp, mqtt/async_client.h), one call at a time.  The answers of the C library are
 parameters.  `AsyncThreads` interleaves the same operations, and `Consuming` the queue's; what
 add_token() and remove_token() do to the lists here is what the steps there do to them.
 */
module AsyncClient {
  import opened Common
  import opened ThreadQueue
  import opened Tokens
  import A = AsyncThreads

  datatype Message = Message(topic: string, payload: string)

  // The parts of the user's code that a callback of the library reaches, in order.
  datatype Reached = MessageHandler | UserCallback | LostHandler | ConsumerQueue

  datatype ClientError = LibraryError(rc: int) | NeverConnected

  // pendingTokens_ and pendingDeliveryTokens_.
  datatype Lists = Lists(pending: seq<Token>, delivery: seq<Token>)

  function Without(l: Lists, tok: Token): Lists {
    if tok in l.delivery then l.(delivery := RemoveFirst(l.delivery, tok))
    else l.(pending := RemoveFirst(l.pending, tok))
  }

  // Whether the removal calls delivery_complete().
  predicate Delivers(l: Lists, callback: bool, tok: Token) {
    tok in l.delivery && callback && tok.qos.Some? && tok.qos.value > 0
  }

  class AsyncClient {
    var userCallback: bool     // userCallback_ is not null
    var msgHandler: bool       // msgHandler_ is set
    var connLostHandler: bool  // connLostHandler_ is set
    var connTok: Token?
    var pendingTokens: seq<Token>
    var pendingDeliveryTokens: seq<Token>
    var que: ThreadQueue?<Option<Message>>

    function Held(): Lists
      reads this
    {
      Lists(pendingTokens, pendingDeliveryTokens)
    }

    constructor ()
      ensures connTok == null && pendingTokens == [] && pendingDeliveryTokens == [] && que == null
      ensures !userCallback && !msgHandler && !connLostHandler
    {
      userCallback, msgHandler, connLostHandler := false, false, false;
      connTok, pendingTokens, pendingDeliveryTokens, que := null, [], [], null;
    }

    method AddToken(tok: Token?)
      modifies this`pendingTokens
      ensures pendingTokens == old(pendingTokens) + if tok == null then [] else [tok]
    {
      if tok != null {
        pendingTokens := pendingTokens + [tok];
      }
    }

    method AddDeliveryToken(tok: Token?)
      modifies this`pendingDeliveryTokens
      ensures pendingDeliveryTokens == old(pendingDeliveryTokens) + if tok == null then [] else [tok]
    {
      if tok != null {
        pendingDeliveryTokens := pendingDeliveryTokens + [tok];
      }
    }

    // `delivered` is the token with which the user's delivery_complete() is called, if it is.
    method RemoveToken(tok: Token?) returns (delivered: Token?)
      modifies this`pendingTokens, this`pendingDeliveryTokens
      ensures Held() == if tok == null then old(Held()) else Without(old(Held()), tok)
      ensures delivered == if tok != null && Delivers(old(Held()), userCallback, tok) then tok else null
    {
      delivered := null;
      if tok == null {
        return;
      }
      for i := 0 to |pendingDeliveryTokens|
        invariant tok !in pendingDeliveryTokens[..i]
        invariant pendingDeliveryTokens == old(pendingDeliveryTokens) && pendingTokens == old(pendingTokens)
      {
        if pendingDeliveryTokens[i] == tok {
          RemoveFirstAt<Token>(pendingDeliveryTokens, tok, i);
          pendingDeliveryTokens := pendingDeliveryTokens[..i] + pendingDeliveryTokens[i + 1..];
          if userCallback && tok.qos.Some? && tok.qos.value > 0 {
            delivered := tok;
          }
          return;
        }
      }
      RemoveFirstAbsent<Token>(pendingDeliveryTokens, tok);
      for i := 0 to |pendingTokens|
        invariant tok !in pendingTokens[..i]
        invariant pendingDeliveryTokens == old(pendingDeliveryTokens) && pendingTokens == old(pendingTokens)
      {
        if pendingTokens[i] == tok {
          RemoveFirstAt<Token>(pendingTokens, tok, i);
          pendingTokens := pendingTokens[..i] + pendingTokens[i + 1..];
          return;
        }
      }
      RemoveFirstAbsent<Token>(pendingTokens, tok);
    }

    // A second connect() leaves the token of the first one in the list.
    method Connect(rc: int) returns (r: Result<Token, ClientError>)
      modifies this`pendingTokens, this`pendingDeliveryTokens, this`connTok
      ensures pendingDeliveryTokens == old(pendingDeliveryTokens)
      ensures rc == 0 ==>
        r.Ok? && fresh(r.value) && connTok == r.value && pendingTokens == old(pendingTokens) + [r.value]
        && r.value.State() == NewFields(CONNECT, 0)
      ensures rc != 0 ==> r == Err(LibraryError(rc)) && connTok == null && pendingTokens == old(pendingTokens)
    {
      var tok := new Token(CONNECT, None);
      assert tok !in old(pendingTokens) && tok !in old(pendingDeliveryTokens);
      connTok := tok;
      AddToken(connTok);
      if rc != 0 {
        RemoveFirstAdded<Token>(old(pendingTokens), tok);
        RemoveFirstAbsent<Token>(pendingDeliveryTokens, tok);
        var _ := RemoveToken(connTok);
        connTok := null;
        return Err(LibraryError(rc));
      }
      return Ok(tok);
    }

    // The token may be in flight already: then it is in the list twice, and a refusal takes one
    // of the two out again.
    method Reconnect(rc: int) returns (r: Result<Token, ClientError>)
      requires connTok != null ==> connTok !in pendingDeliveryTokens
      modifies this`pendingTokens, this`pendingDeliveryTokens, connTok
      ensures pendingDeliveryTokens == old(pendingDeliveryTokens) && connTok == old(connTok)
      ensures connTok == null ==> r == Err(NeverConnected) && pendingTokens == old(pendingTokens)
      ensures connTok != null ==> connTok.State() == Cleared(old(connTok.State()))
      ensures connTok != null && rc == 0 ==> r == Ok(connTok) && pendingTokens == old(pendingTokens) + [connTok]
      ensures connTok != null && rc != 0 ==> r == Err(LibraryError(rc))
      ensures connTok != null && rc != 0 ==> multiset(pendingTokens) == multiset(old(pendingTokens))
    {
      if connTok == null {
        return Err(NeverConnected);
      }
      var tok := connTok;
      tok.Reset();
      AddToken(tok);
      if rc != 0 {
        RemoveFirstMultiset<Token>(pendingTokens, tok);
        RemoveFirstAbsent<Token>(pendingDeliveryTokens, tok);
        var _ := RemoveToken(tok);
        return Err(LibraryError(rc));
      }
      return Ok(tok);
    }

    // A refused publish leaves the lists as they were, and still calls delivery_complete().
    method Publish(qos: int, rc: int, msgId: int) returns (r: Result<Token, ClientError>, delivered: Token?)
      modifies this`pendingTokens, this`pendingDeliveryTokens
      ensures pendingTokens == old(pendingTokens)
      ensures rc == 0 ==>
        r.Ok? && fresh(r.value) && pendingDeliveryTokens == old(pendingDeliveryTokens) + [r.value] && delivered == null
        && r.value.State() == NewFields(PUBLISH, 0).(msgId := msgId)
      ensures rc != 0 ==> r == Err(LibraryError(rc)) && pendingDeliveryTokens == old(pendingDeliveryTokens)
      ensures rc != 0 ==> (delivered != null <==> userCallback && qos > 0)
      ensures delivered != null ==>
        fresh(delivered) && delivered.qos == Some(qos) && delivered.State() == NewFields(PUBLISH, 0)
    {
      var tok := new Token(PUBLISH, Some(qos));
      assert tok !in old(pendingDeliveryTokens);
      AddDeliveryToken(tok);
      delivered := null;
      if rc != 0 {
        RemoveFirstAdded<Token>(old(pendingDeliveryTokens), tok);
        delivered := RemoveToken(tok);
        return Err(LibraryError(rc)), delivered;
      }
      tok.SetMessageId(msgId);
      return Ok(tok), delivered;
    }

    method Subscribe(nExpected: nat, rc: int) returns (r: Result<Token, ClientError>)
      modifies this`pendingTokens, this`pendingDeliveryTokens
      ensures pendingDeliveryTokens == old(pendingDeliveryTokens)
      ensures rc == 0 ==>
        r.Ok? && fresh(r.value) && pendingTokens == old(pendingTokens) + [r.value]
        && r.value.State() == NewFields(SUBSCRIBE, nExpected)
      ensures rc != 0 ==> r == Err(LibraryError(rc)) && pendingTokens == old(pendingTokens)
    {
      var tok := new Token(SUBSCRIBE, None);
      assert tok !in old(pendingTokens) && tok !in old(pendingDeliveryTokens);
      tok.SetNumExpected(nExpected);
      AddToken(tok);
      if rc != 0 {
        RemoveFirstAdded<Token>(old(pendingTokens), tok);
        RemoveFirstAbsent<Token>(pendingDeliveryTokens, tok);
        var _ := RemoveToken(tok);
        return Err(LibraryError(rc));
      }
      return Ok(tok);
    }

    // The first pending token with the given message ID; IDs that are not positive match nothing.
    method GetPendingDeliveryToken(msgId: int) returns (tok: Token?)
      ensures tok != null ==> msgId > 0 && tok.msgId == msgId && tok in pendingDeliveryTokens
      ensures tok != null ==>
        exists i :: 0 <= i < |pendingDeliveryTokens|
                    && pendingDeliveryTokens[i] == tok && NoneHasId(pendingDeliveryTokens[..i], msgId)
      ensures tok == null ==> msgId <= 0 || NoneHasId(pendingDeliveryTokens, msgId)
    {
      if msgId > 0 {
        for i := 0 to |pendingDeliveryTokens|
          invariant NoneHasId(pendingDeliveryTokens[..i], msgId)
        {
          if pendingDeliveryTokens[i].msgId == msgId {
            return pendingDeliveryTokens[i];
          }
        }
      }
      return null;
    }

    // The pending tokens whose message has an ID, in the order of the list.
    method GetPendingDeliveryTokens() returns (toks: seq<Token>)
      ensures toks == WithId(pendingDeliveryTokens)
      ensures forall t :: t in toks <==> t in pendingDeliveryTokens && t.msgId > 0
    {
      toks := [];
      for i := 0 to |pendingDeliveryTokens|
        invariant toks == WithId(pendingDeliveryTokens[..i])
      {
        assert pendingDeliveryTokens[..i + 1][..i] == pendingDeliveryTokens[..i];
        if pendingDeliveryTokens[i].msgId > 0 {
          toks := toks + [pendingDeliveryTokens[i]];
        }
      }
      assert pendingDeliveryTokens[..|pendingDeliveryTokens|] == pendingDeliveryTokens;
      WithIdSelects(pendingDeliveryTokens);
    }

    // ---- The consumer queue ----

    // `disabled` and `enabled` are the library's answers when the callbacks are turned off and on.
    // A refusal to turn them on comes after the queue has been replaced.
    method StartConsuming(disabled: int, enabled: int) returns (r: Result<(), ClientError>)
      modifies this`que
      ensures disabled != 0 ==> r == Err(LibraryError(disabled)) && que == old(que)
      ensures disabled == 0 ==>
        que != null && fresh(que) && que.Valid() && que.que == [] && que.cap == MAX_CAPACITY
        && r == if enabled == 0 then Ok(()) else Err(LibraryError(enabled))
    {
      if disabled != 0 {
        return Err(LibraryError(disabled));
      }
      que := new ThreadQueue<Option<Message>>.Unbounded();
      if enabled != 0 {
        return Err(LibraryError(enabled));
      }
      return Ok(());
    }

    // Unread messages are discarded with the queue, whether or not the library refuses.
    method StopConsuming(disabled: int) returns (r: Result<(), ClientError>)
      modifies this`que
      ensures que == null
      ensures r == if disabled == 0 then Ok(()) else Err(LibraryError(disabled))
    {
      que := null;
      if disabled != 0 {
        return Err(LibraryError(disabled));
      }
      return Ok(());
    }

    // on_message_arrived(); `waits` when put() has to wait because the queue is full.
    method OnMessageArrived(m: Message) returns (reached: seq<Reached>, waits: bool)
      requires que != null ==> que.Valid()
      modifies que
      ensures que != null ==> que.Valid() && que.cap == old(que.cap)
      ensures waits == (que != null && |old(que.que)| >= que.cap)
      ensures que != null && !waits ==> que.que == old(que.que) + [Some(m)]
      ensures que != null && waits ==> que.que == old(que.que)
      ensures reached == (if msgHandler then [MessageHandler] else []) + (if userCallback then [UserCallback] else [])
                         + if que != null then [ConsumerQueue] else []
    {
      reached, waits := [], false;
      if userCallback || que != null || msgHandler {
        if msgHandler {
          reached := reached + [MessageHandler];
        }
        if userCallback {
          reached := reached + [UserCallback];
        }
        if que != null {
          var notify;
          waits, notify := que.Put(Some(m));
          reached := reached + [ConsumerQueue];
        }
      }
    }

    // on_connection_lost(): a null pointer goes into the queue.
    method OnConnectionLost() returns (reached: seq<Reached>, waits: bool)
      requires que != null ==> que.Valid()
      modifies que
      ensures que != null ==> que.Valid() && que.cap == old(que.cap)
      ensures waits == (que != null && |old(que.que)| >= que.cap)
      ensures que != null && !waits ==> que.que == old(que.que) + [None]
      ensures que != null && waits ==> que.que == old(que.que)
      ensures reached == (if userCallback then [UserCallback] else []) + (if connLostHandler then [LostHandler] else [])
                         + if que != null then [ConsumerQueue] else []
    {
      reached, waits := [], false;
      if userCallback {
        reached := reached + [UserCallback];
      }
      if connLostHandler {
        reached := reached + [LostHandler];
      }
      if que != null {
        var notify;
        waits, notify := que.Put(None);
        reached := reached + [ConsumerQueue];
      }
    }

    // try_consume_message(), and one pass of consume_message(): None when nothing is there.
    method ConsumeMessage() returns (msg: Option<Option<Message>>)
      requires que != null && que.Valid()
      modifies que
      ensures que.Valid() && que.cap == old(que.cap)
      ensures old(que.que) == [] ==> msg == None && que.que == []
      ensures old(que.que) != [] ==> msg == Some(old(que.que)[0]) && que.que == old(que.que)[1..]
    {
      var notify;
      msg, notify := que.Get();
    }
  }

  // ---- The same lists in `AsyncThreads`, where a token goes by a name ----

  function Named(name: Token -> A.Token, toks: seq<Token>): seq<A.Token> {
    seq(|toks|, i requires 0 <= i < |toks| => name(toks[i]))
  }

  // Different tokens have different names, and those of delivery tokens say whether the QoS is above 0.
  ghost predicate Names(name: Token -> A.Token, toks: set<Token>) {
    && (forall a, b | a in toks && b in toks :: name(a) == name(b) ==> a == b)
    && (forall a | a in toks && name(a).Delivery? :: name(a).qos > 0 <==> a.qos.Some? && a.qos.value > 0)
  }

  function TokensIn(l: Lists): set<Token> {
    (set t | t in l.pending) + (set t | t in l.delivery)
  }

  // What the machine's state has in common with the lists.
  ghost predicate Shows(s: A.State, name: Token -> A.Token, l: Lists) {
    s.pending == Named(name, l.pending) && s.pendingDelivery == Named(name, l.delivery)
  }

  lemma NamedIn(name: Token -> A.Token, toks: seq<Token>, tok: Token)
    requires forall t :: t in toks && name(t) == name(tok) ==> t == tok
    ensures name(tok) in Named(name, toks) <==> tok in toks
  {
    if tok in toks {
      var i :| 0 <= i < |toks| && toks[i] == tok;
      assert Named(name, toks)[i] == name(tok);
    }
  }

  lemma {:induction false} NamedRemoveFirst(name: Token -> A.Token, toks: seq<Token>, tok: Token)
    requires forall t :: t in toks && name(t) == name(tok) ==> t == tok
    ensures Named(name, RemoveFirst(toks, tok)) == RemoveFirst(Named(name, toks), name(tok))
  {
    if toks != [] {
      var names := Named(name, toks);
      assert names[1..] == Named(name, toks[1..]) && names[0] == name(toks[0]);
      if toks[0] != tok {
        NamedRemoveFirst(name, toks[1..], tok);
        assert Named(name, [toks[0]] + RemoveFirst(toks[1..], tok))
            == [names[0]] + Named(name, RemoveFirst(toks[1..], tok));
      }
    }
  }

  // The step of remove_token() under the mutex, and whether delivery_complete() follows.
  lemma RemovesAlike(s: A.State, t: nat, name: Token -> A.Token, l: Lists, tok: Token)
    requires Names(name, TokensIn(l) + {tok}) && Shows(s, name, l)
    requires forall d :: d in l.delivery ==> name(d).Delivery?
    ensures Shows(A.Effect(s, t, A.Remove(name(tok), A.Erasing)), name, Without(l, tok))
    ensures A.Next(s, A.Remove(name(tok), A.Erasing))
         == if Delivers(l, s.callback, tok) then [A.Remove(name(tok), A.AtDeliver)] else []
  {
    NamedIn(name, l.delivery, tok);
    NamedRemoveFirst(name, l.delivery, tok);
    NamedRemoveFirst(name, l.pending, tok);
  }

  // The step of add_token() under the mutex, in connect(), in publish(), and in the others.
  lemma AddsAlike(s: A.State, t: nat, name: Token -> A.Token, l: Lists, tok: Token, op: A.Op)
    requires Shows(s, name, l)
    ensures Shows(A.Effect(s, t, A.Connect(Some(name(tok)), A.Listing)), name, l.(pending := l.pending + [tok]))
    ensures Shows(A.Effect(s, t, A.Submit(name(tok), op, A.Adding)), name,
                  if name(tok).Delivery? then l.(delivery := l.delivery + [tok]) else l.(pending := l.pending + [tok]))
  {
  }

  predicate NoneHasId(toks: seq<Token>, msgId: int)
    reads toks
  {
    forall i :: 0 <= i < |toks| ==> toks[i].msgId != msgId
  }

  function WithId(toks: seq<Token>): seq<Token>
    reads toks
  {
    if toks == [] then []
    else
      var n := |toks| - 1;
      WithId(toks[..n]) + if toks[n].msgId > 0 then [toks[n]] else []
  }

  // Exactly the tokens with an ID, each as often as in the list.
  lemma {:induction false} WithIdSelects(toks: seq<Token>)
    ensures forall t :: t in WithId(toks) <==> t in toks && t.msgId > 0
    ensures forall t :: t in WithId(toks) ==> multiset(WithId(toks))[t] == multiset(toks)[t]
  {
    if toks != [] {
      var n := |toks| - 1;
      WithIdSelects(toks[..n]);
      assert toks == toks[..n] + [toks[n]];
    }
  }

  // In the order of the list: the selection from two lists one after the other is the one from the
  // first and then the one from the second.
  lemma {:induction false} WithIdKeepsOrder(a: seq<Token>, b: seq<Token>)
    ensures WithId(a + b) == WithId(a) + WithId(b)
  {
    if b == [] {
      assert a + b == a;
    } else {
      var n := |b| - 1;
      assert (a + b)[..|a + b| - 1] == a + b[..n];
      WithIdKeepsOrder(a, b[..n]);
    }
  }

  lemma WithIdOfOne(t: Token)
    ensures WithId([t]) == if t.msgId > 0 then [t] else []
  {
    assert [t][..0] == [];
  }

  lemma {:induction false} RemoveFirstMultiset<T>(xs: seq<T>, x: T)
    requires x in xs
    ensures multiset(RemoveFirst(xs, x)) == multiset(xs) - multiset{x}
  {
    assert xs == [xs[0]] + xs[1..];
    if xs[0] != x {
      RemoveFirstMultiset(xs[1..], x);
    }
  }
}
