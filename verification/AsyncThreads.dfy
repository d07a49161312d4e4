/**
 Submission and completion in the asynchronous client (async_client.cpp, token.cpp) as steps of
 any number of threads.

 Each thread has a stack of the functions it is executing, so that a listener and
 delivery_complete() can call back into the client.  A function advances in steps no larger than
 a critical section: taking a mutex is one step, and what is done under it happens with the
 release.  The C library is the environment.  It holds the raw addresses in `inFlight`, accepts
 or refuses each submission, and calls back exactly once for each that it accepted.
 */
module AsyncThreads {
  import opened Common

  // A token, identified by its address: made by connect(), for a published message, or other.
  datatype Token = Connection(id: nat) | Delivery(id: nat, qos: nat) | Plain(id: nat)

  // connect() has frames of its own.
  datatype Op = Reconnect | Publish | Other

  datatype SubmitPc =
    | AtReset     // reconnect(): about to take the token's mutex in reset()
    | Resetting   // token's mutex held
    | AtAdd       // about to take the client's mutex in add_token()
    | Adding      // client's mutex held
    | Added       // in a pending list, about to call the library
    | Refused     // about to call remove_token()
    | Unwinding   // remove_token() has been called, an exception follows
    | AtSetId     // accepted: about to take the token's mutex in set_message_id()
    | SettingId   // token's mutex held
    | Returning

  // connect() reads connTok_ anew, without a mutex, each time that it uses its token.
  datatype ConnectPc =
    | Made        // connTok_ is the new token; about to read it for add_token()
    | ToList      // about to take the client's mutex in add_token()
    | Listing     // client's mutex held
    | ToHand      // about to read connTok_ for the options
    | Handed      // about to call the library with them
    | Denied      // refused: about to read connTok_ for remove_token()
    | Clearing    // remove_token() has been called, connTok_.reset() follows
    | Granted     // accepted: about to return connTok_

  datatype CompletePc =
    | AtComplete  // entered by the library, about to take the token's mutex
    | Completing  // token's mutex held
    | InListener  // complete_ is set, the mutex released, and the listener (if any) is running
    | AtNotify    // about to call notify_all()
    | AtRemove    // about to call remove_token(this)
    | Completed   // remove_token() has been called; the token is not touched any more

  datatype RemovePc =
    | AtErase     // about to take the client's mutex
    | Erasing     // client's mutex held
    | AtDeliver   // mutex released, about to call delivery_complete(dtok)
    | InDeliver   // the user's delivery_complete() is running

  datatype WaitPc =
    | AtWait      // about to take the token's mutex
    | Testing     // token's mutex held, complete_ to be looked at
    | Blocked     // in the condition variable's wait()

  datatype Frame =
    | Submit(tok: Token, op: Op, at: SubmitPc)
    | Connect(seen: Option<Token>, pc: ConnectPc)  // what it last wrote to connTok_ or read there
    | Completion(tok: Token, step: CompletePc)
    | Remove(tok: Token, stage: RemovePc)
    | Wait(tok: Token, phase: WaitPc)
    | Query(holding: bool)                // get_pending_delivery_token(s)()
    | SetCallback(on: bool, holding: bool)

  // What has been done to complete_.
  datatype Mark = WasReset(tok: Token) | WasCompleted(tok: Token)

  datatype State = State(
    threads: seq<seq<Frame>>,        // the callee is last
    sleeping: set<nat>,              // the blocked threads that have not been signalled
    pending: seq<Token>,             // pendingTokens_
    pendingDelivery: seq<Token>,     // pendingDeliveryTokens_
    connTok: Option<Token>,          // connTok_
    callback: bool,                  // userCallback_ is not null
    inFlight: multiset<Token>,       // accepted submissions whose callback has not begun
    complete: set<Token>,            // complete_ is true
    userRefs: set<Token>,            // tokens to which the user holds a pointer
    created: set<Token>,
    displaced: set<Token>,           // found in connTok_ by a connect(), which keeps a pointer to it while it runs
    leftWith: map<Token, bool>,      // left the delivery list: was a callback set?
    delivered: seq<Token>,           // the calls of delivery_complete() that have begun
    marks: seq<Mark>)

  datatype Event =
    | BeginSubmit(t: nat, op: Op, tok: Token)
    | BeginConnect(t: nat, tok: Token)
    | BeginReconnect(t: nat)
    | BeginWait(t: nat, tok: Token)
    | BeginQuery(t: nat)
    | BeginSetCallback(t: nat, on: bool)
    | Advance(t: nat)                      // the callee of thread t takes its next step
    | Verdict(t: nat, accepted: bool)      // the library's answer to a submission
    | LibraryCompletes(t: nat, tok: Token) // on_success() or on_failure(), v3 or v5
    | WakeUp(t: nat)                       // spurious, or a time-out
    | GiveUp(t: nat)                       // a timed wait returns false
    | Drop(tok: Token)                     // the user gives up a pointer

  function Start(n: nat): State {
    State(seq(n, i => []), {}, [], [], None, false, multiset{}, {}, {}, {}, {}, map[], [], [])
  }

  // ---- The mutexes ----

  datatype Mutex = ClientMutex | TokenMutex(tok: Token)

  function Holds(f: Frame): Option<Mutex> {
    match f
    case Submit(tok, _, at) =>
      if at.Resetting? || at.SettingId? then Some(TokenMutex(tok)) else if at.Adding? then Some(ClientMutex) else None
    case Connect(_, pc) => if pc.Listing? then Some(ClientMutex) else None
    case Completion(tok, step) => if step.Completing? then Some(TokenMutex(tok)) else None
    case Remove(_, stage) => if stage.Erasing? then Some(ClientMutex) else None
    case Wait(tok, phase) => if phase.Testing? then Some(TokenMutex(tok)) else None
    case Query(holding) => if holding then Some(ClientMutex) else None
    case SetCallback(_, holding) => if holding then Some(ClientMutex) else None
  }

  // The mutex that the next step takes.
  function Takes(f: Frame): Option<Mutex> {
    match f
    case Submit(tok, _, at) =>
      if at.AtReset? || at.AtSetId? then Some(TokenMutex(tok)) else if at.AtAdd? then Some(ClientMutex) else None
    case Connect(_, pc) => if pc.ToList? then Some(ClientMutex) else None
    case Completion(tok, step) => if step.AtComplete? then Some(TokenMutex(tok)) else None
    case Remove(_, stage) => if stage.AtErase? then Some(ClientMutex) else None
    case Wait(tok, phase) => if phase.Testing? then None else Some(TokenMutex(tok))
    case Query(holding) => if holding then None else Some(ClientMutex)
    case SetCallback(_, holding) => if holding then None else Some(ClientMutex)
  }

  predicate Frees(s: State, m: Mutex) {
    forall t, i :: 0 <= t < |s.threads| && 0 <= i < |s.threads[t]| ==> Holds(s.threads[t][i]) != Some(m)
  }

  // ---- Steps ----

  predicate Busy(s: State, t: nat) {
    t < |s.threads| && s.threads[t] != []
  }

  function Top(s: State, t: nat): Frame
    requires Busy(s, t)
  {
    s.threads[t][|s.threads[t]| - 1]
  }

  // The thread is running the user's code: its own, a listener, or delivery_complete().
  predicate InUserCode(s: State, t: nat) {
    t < |s.threads| &&
    (s.threads[t] == []
     || (Top(s, t).Completion? && Top(s, t).step.InListener?)
     || (Top(s, t).Remove? && Top(s, t).stage.InDeliver?))
  }

  // The library's turn.
  predicate Asking(f: Frame) {
    (f.Submit? && f.at.Added?) || (f.Connect? && f.pc.Handed?)
  }

  predicate Enabled(s: State, e: Event) {
    match e
    case BeginSubmit(t, op, tok) =>
      InUserCode(s, t) && tok !in s.created && !op.Reconnect? && (if op.Publish? then tok.Delivery? else tok.Plain?)
    case BeginConnect(t, tok) => InUserCode(s, t) && tok !in s.created && tok.Connection?
    case BeginReconnect(t) => InUserCode(s, t) && s.connTok.Some?
    case BeginWait(t, tok) => InUserCode(s, t) && tok in s.userRefs
    case BeginQuery(t) => InUserCode(s, t)
    case BeginSetCallback(t, _) => InUserCode(s, t)
    case Advance(t) =>
      && Busy(s, t) && t !in s.sleeping
      && !Asking(Top(s, t))
      && (Takes(Top(s, t)).Some? ==> Frees(s, Takes(Top(s, t)).value))
    case Verdict(t, _) => Busy(s, t) && Asking(Top(s, t))
    case LibraryCompletes(t, tok) => t < |s.threads| && s.threads[t] == [] && tok in s.inFlight
    case WakeUp(t) => t in s.sleeping
    case GiveUp(t) => Busy(s, t) && Top(s, t).Wait? && Top(s, t).phase.Testing? && Top(s, t).tok !in s.complete
    case Drop(tok) => tok in s.userRefs
  }

  // ---- Control: the frames that take the callee's place ----

  function NextOfSubmit(f: Frame): seq<Frame>
    requires f.Submit?
  {
    var Submit(tok, op, at) := f;
    match at
    case AtReset => [Submit(tok, op, Resetting)]
    case Resetting => [Submit(tok, op, AtAdd)]
    case AtAdd => [Submit(tok, op, Adding)]
    case Adding => [Submit(tok, op, Added)]
    case Added => [f]
    case Refused => [Submit(tok, op, Unwinding), Remove(tok, AtErase)]
    case Unwinding => []
    case AtSetId => [Submit(tok, op, SettingId)]
    case SettingId => [Submit(tok, op, Returning)]
    case Returning => []
  }

  // Adding or removing a null pointer does nothing.
  function NextOfConnect(s: State, f: Frame): seq<Frame>
    requires f.Connect?
  {
    var Connect(seen, pc) := f;
    match pc
    case Made => [Connect(s.connTok, if s.connTok.Some? then ToList else ToHand)]
    case ToList => [Connect(seen, Listing)]
    case Listing => [Connect(seen, ToHand)]
    case ToHand => [Connect(s.connTok, Handed)]
    case Handed => [f]
    case Denied =>
      if s.connTok.Some? then [Connect(seen, Clearing), Remove(s.connTok.value, AtErase)] else [Connect(seen, Clearing)]
    case Clearing => []
    case Granted => []
  }

  function NextOfCompletion(f: Frame): seq<Frame>
    requires f.Completion?
  {
    var Completion(tok, step) := f;
    match step
    case AtComplete => [Completion(tok, Completing)]
    case Completing => [Completion(tok, InListener)]
    case InListener => [Completion(tok, AtNotify)]
    case AtNotify => [Completion(tok, AtRemove)]
    case AtRemove => [Completion(tok, Completed), Remove(tok, AtErase)]
    case Completed => []
  }

  function NextOfRemove(s: State, f: Frame): seq<Frame>
    requires f.Remove?
  {
    var Remove(tok, stage) := f;
    match stage
    case AtErase => [Remove(tok, Erasing)]
    case Erasing =>
      if tok in s.pendingDelivery && s.callback && tok.Delivery? && tok.qos > 0 then [Remove(tok, AtDeliver)] else []
    case AtDeliver => [Remove(tok, InDeliver)]
    case InDeliver => []
  }

  function NextOfWait(s: State, f: Frame): seq<Frame>
    requires f.Wait?
  {
    var Wait(tok, phase) := f;
    if phase.Testing? then (if tok in s.complete then [] else [Wait(tok, Blocked)]) else [Wait(tok, Testing)]
  }

  function Next(s: State, f: Frame): seq<Frame> {
    match f
    case Submit(_, _, _) => NextOfSubmit(f)
    case Connect(_, _) => NextOfConnect(s, f)
    case Completion(_, _) => NextOfCompletion(f)
    case Remove(_, _) => NextOfRemove(s, f)
    case Wait(_, _) => NextOfWait(s, f)
    case Query(holding) => if holding then [] else [Query(true)]
    case SetCallback(on, holding) => if holding then [] else [SetCallback(on, true)]
  }

  // Whether the event takes the callee's frame away, and the frames that it adds.
  predicate Replaces(e: Event) {
    e.Advance? || e.Verdict? || e.GiveUp?
  }

  function NewFrames(s: State, e: Event): seq<Frame>
    requires Enabled(s, e)
  {
    match e
    case BeginSubmit(_, op, tok) => [Submit(tok, op, AtAdd)]
    case BeginConnect(_, tok) => [Connect(Some(tok), Made)]
    case BeginReconnect(_) => [Submit(s.connTok.value, Reconnect, AtReset)]
    case BeginWait(_, tok) => [Wait(tok, AtWait)]
    case BeginQuery(_) => [Query(false)]
    case BeginSetCallback(_, on) => [SetCallback(on, false)]
    case Advance(t) => Next(s, Top(s, t))
    case Verdict(t, accepted) =>
      (match Top(s, t)
       case Submit(tok, op, _) =>
         [Submit(tok, op, if !accepted then Refused else if op.Publish? then AtSetId else Returning)]
       case Connect(seen, _) => [Connect(seen, if accepted then Granted else Denied)]
       case _ => [])
    case LibraryCompletes(_, tok) => [Completion(tok, AtComplete)]
    case _ => []
  }

  // ---- Data: what the event does to everything but the stacks ----

  // The threads asleep on a token's condition variable.
  function SleepersOn(s: State, tok: Token): set<nat> {
    set t | t in s.sleeping && Busy(s, t) && Top(s, t) == Wait(tok, Blocked)
  }

  function Effect(s: State, t: nat, f: Frame): State {
    match f
    case Submit(tok, _, Resetting) => s.(complete := s.complete - {tok}, marks := s.marks + [WasReset(tok)])
    case Submit(tok, _, Adding) =>
      if tok.Delivery? then s.(pendingDelivery := s.pendingDelivery + [tok]) else s.(pending := s.pending + [tok])
    case Submit(tok, _, Returning) => s.(userRefs := s.userRefs + {tok})
    case Connect(Some(tok), Listing) => s.(pending := s.pending + [tok])
    case Connect(_, Clearing) => s.(connTok := None)
    case Connect(_, Granted) => if s.connTok.Some? then s.(userRefs := s.userRefs + {s.connTok.value}) else s
    case Completion(tok, Completing) => s.(complete := s.complete + {tok}, marks := s.marks + [WasCompleted(tok)])
    case Completion(tok, AtNotify) => s.(sleeping := s.sleeping - SleepersOn(s, tok))
    case Remove(tok, Erasing) =>
      if tok in s.pendingDelivery then
        s.(pendingDelivery := RemoveFirst(s.pendingDelivery, tok), leftWith := s.leftWith[tok := s.callback])
      else s.(pending := RemoveFirst(s.pending, tok))
    case Remove(tok, AtDeliver) => s.(delivered := s.delivered + [tok])
    case Wait(tok, Testing) => if tok in s.complete then s else s.(sleeping := s.sleeping + {t})
    case SetCallback(on, true) => s.(callback := on)
    case _ => s
  }

  // The address handed to the library; a null one has no callbacks.
  function Handing(f: Frame): multiset<Token> {
    match f
    case Submit(tok, _, _) => multiset{tok}
    case Connect(Some(tok), _) => multiset{tok}
    case _ => multiset{}
  }

  function Data(s: State, e: Event): State
    requires Enabled(s, e)
  {
    match e
    case BeginSubmit(_, _, tok) => s.(created := s.created + {tok})
    case BeginConnect(_, tok) =>
      s.(created := s.created + {tok}, connTok := Some(tok),
         displaced := s.displaced + if s.connTok.Some? then {s.connTok.value} else {})
    case Advance(t) => Effect(s, t, Top(s, t))
    case Verdict(t, accepted) => if accepted then s.(inFlight := s.inFlight + Handing(Top(s, t))) else s
    case LibraryCompletes(_, tok) => s.(inFlight := s.inFlight - multiset{tok})
    case WakeUp(t) => s.(sleeping := s.sleeping - {t})
    case Drop(tok) => s.(userRefs := s.userRefs - {tok})
    case _ => s
  }

  function Stacks(s: State, e: Event): seq<seq<Frame>>
    requires Enabled(s, e)
  {
    if e.WakeUp? || e.Drop? then s.threads
    else
      var fs := s.threads[e.t];
      s.threads[e.t := (if Replaces(e) then fs[..|fs| - 1] else fs) + NewFrames(s, e)]
  }

  function Apply(s: State, e: Event): State
    requires Enabled(s, e)
  {
    Data(s, e).(threads := Stacks(s, e))
  }

  predicate Runs(s: State, es: seq<Event>)
    decreases |es|
  {
    es != [] ==> Enabled(s, es[0]) && Runs(Apply(s, es[0]), es[1..])
  }

  function After(s: State, es: seq<Event>): State
    requires Runs(s, es)
    decreases |es|
  {
    if es == [] then s else After(Apply(s, es[0]), es[1..])
  }

  // By some run of some number of threads, from the start.
  ghost predicate Reachable(s: State) {
    exists n: nat, es :: Runs(Start(n), es) && After(Start(n), es) == s
  }
}
