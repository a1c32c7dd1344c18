/**
  The signaling client as concurrent tasks over shared state.

  Each step is the code between two awaits. One connect runs at a time; any number of disconnects, of
  sends and of matcher registrations may run beside it. A send has two steps: the check of the state
  together with taking the channel, and the later arrival of the message in that channel. A reply to a
  login has two steps as well: a reader task hands it out, and later the login takes it.
 */
module Session {
  import opened Frames

  type Conn = nat
  type Token = nat

  datatype ClientMessage = Login | Logout | Other(text: string)

  datatype Status = Disconnected | Connected | LoggedIn

  /** Where a disconnect stands; it is over when it is no longer listed. */
  datatype Leaving = SendingLogout(tx: Conn) | Joining

  /** Where the connect stands. */
  datatype Progress =
    | Idle
    | Dialing
    | FetchingToken(conn: Conn)
    | SendingLogin(conn: Conn, tx: Conn)
    | AwaitingReply(conn: Conn, token: Token, replied: bool)
    | Failing(leaving: Leaving)

  datatype Pending = Pending(msg: ClientMessage, tx: Conn)

  /** `workers` gives each connection's tasks with the token they watch. */
  datatype Client = Client(
    status: Status,
    sendTx: Option<Conn>,
    workers: map<Conn, Token>,
    matcher: nat,
    token: Token,
    cancelled: set<Token>,
    closing: bool,
    progress: Progress,
    leaving: seq<Leaving>,
    pending: seq<Pending>,
    nextConn: Conn,
    outgoing: seq<Pending>,
    loggedIn: set<Conn>
  )

  /** `outgoing` lists, over all connections, the client messages in the order they were enqueued. */
  function Created(): Client {
    Client(Disconnected, None, map[], 0, 0, {}, false, Idle, [], [], 0, [], {})
  }

  /** Every token is a child of the shutdown token. */
  predicate Cancelled(s: Client, token: Token) {
    s.closing || token in s.cancelled
  }

  // ---------------------------------------------------------------- sending

  /** The state check of a send; `None` where it is refused. */
  function Admitted(s: Client, msg: ClientMessage): Option<Conn> {
    if s.status == Disconnected || (s.status == Connected && msg != Login) then None else s.sendTx
  }

  function Enqueued(s: Client, p: Pending): Client {
    s.(outgoing := s.outgoing + [p])
  }

  // ---------------------------------------------------------------- disconnecting

  /** Cancel, set the state, and take the worker tasks. */
  function Torn(s: Client): Client {
    s.(cancelled := s.cancelled + {s.token}, status := Disconnected, workers := map[])
  }

  /** The first step of a disconnect: it waits only if the logout message is admitted. */
  function BeginLeaving(s: Client): (Client, Leaving) {
    if s.status != Disconnected && Admitted(s, Logout).Some?
    then (s, SendingLogout(Admitted(s, Logout).value))
    else (Torn(s), Joining)
  }

  /** The logout message arrives, or its channel is gone. */
  function LogoutDone(s: Client, tx: Conn, open: bool): Client {
    Torn(if open then Enqueued(s, Pending(Logout, tx)) else s)
  }

  /** The end of the cleanup. */
  function CleanedUp(s: Client): Client {
    s.(matcher := 0, token := s.token + 1, sendTx := None)
  }

  // ---------------------------------------------------------------- steps

  datatype Step =
    | Connect
    | DialFails
    | DialSucceeds
    | TokenFails
    | TokenArrives
    | LoginSent(open: bool)
    | ReplyArrives
    | LoginAccepted
    | LoginRejected
    | FailureLogoutDone(open: bool)
    | FailureCleanedUp
    | Disconnect
    | LogoutSent(i: nat, open: bool)
    | DisconnectCleanedUp(i: nat)
    | SendCalled(msg: ClientMessage)
    | SendArrives(i: nat, open: bool)
    | WaiterRegisters
    | ShutDown
    | SupervisorEnds

  function Without<T>(s: seq<T>, i: nat): seq<T>
    requires i < |s|
  {
    s[..i] + s[i + 1..]
  }

  /** The failed connect disconnects before it returns its error. */
  function Fail(s: Client): Client {
    var (t, leaving) := BeginLeaving(s);
    t.(progress := Failing(leaving))
  }

  predicate Enabled(s: Client, e: Step) {
    match e
    case Connect => s.progress == Idle
    case DialFails => s.progress == Dialing
    case DialSucceeds => s.progress == Dialing
    case TokenFails => s.progress.FetchingToken?
    case TokenArrives => s.progress.FetchingToken?
    case LoginSent(_) => s.progress.SendingLogin?
    case ReplyArrives =>
      s.progress.AwaitingReply? && !s.progress.replied && exists c :: c in s.workers && !Cancelled(s, s.workers[c])
    case LoginAccepted => s.progress.AwaitingReply? && s.progress.replied && !Cancelled(s, s.progress.token)
    case LoginRejected => s.progress.AwaitingReply?
    case FailureLogoutDone(_) => s.progress.Failing? && s.progress.leaving.SendingLogout?
    case FailureCleanedUp => s.progress == Failing(Joining)
    case Disconnect => true
    case LogoutSent(i, _) => i < |s.leaving| && s.leaving[i].SendingLogout?
    case DisconnectCleanedUp(i) => i < |s.leaving| && s.leaving[i].Joining?
    case SendCalled(_) => true
    case SendArrives(i, _) => i < |s.pending|
    case WaiterRegisters => true
    case ShutDown => true
    case SupervisorEnds => s.closing
  }

  function Next(s: Client, e: Step): Client
    requires Enabled(s, e)
  {
    match e
    case Connect => s.(progress := Dialing)
    case DialFails => s.(progress := Idle)
    case DialSucceeds =>
      s.(workers := s.workers[s.nextConn := s.token], sendTx := Some(s.nextConn), status := Connected,
         progress := FetchingToken(s.nextConn), nextConn := s.nextConn + 1)
    case TokenFails => Fail(s)
    case TokenArrives =>
      if Admitted(s, Login).None? then Fail(s)
      else s.(progress := SendingLogin(s.progress.conn, Admitted(s, Login).value))
    case LoginSent(open) =>
      if !open then Fail(s)
      else
        var t := Enqueued(s, Pending(Login, s.progress.tx));
        if t.status == Disconnected then Fail(t)
        else t.(progress := AwaitingReply(s.progress.conn, t.token, false))
    case ReplyArrives => s.(progress := s.progress.(replied := true))
    case LoginAccepted =>
      s.(status := LoggedIn, loggedIn := s.loggedIn + {s.progress.conn}, progress := Idle)
    case LoginRejected => Fail(s)
    case FailureLogoutDone(open) => LogoutDone(s, s.progress.leaving.tx, open).(progress := Failing(Joining))
    case FailureCleanedUp => CleanedUp(s).(progress := Idle)
    case Disconnect =>
      var (t, leaving) := BeginLeaving(s);
      t.(leaving := t.leaving + [leaving])
    case LogoutSent(i, open) => LogoutDone(s, s.leaving[i].tx, open).(leaving := s.leaving[i := Joining])
    case DisconnectCleanedUp(i) => CleanedUp(s).(leaving := Without(s.leaving, i))
    case SendCalled(msg) =>
      if Admitted(s, msg).None? then s else s.(pending := s.pending + [Pending(msg, Admitted(s, msg).value)])
    case SendArrives(i, open) =>
      (if open then Enqueued(s, s.pending[i]) else s).(pending := Without(s.pending, i))
    case WaiterRegisters => s.(matcher := s.matcher + 1)
    case ShutDown => s.(closing := true)
    case SupervisorEnds => s.(status := Disconnected)
  }

  // ---------------------------------------------------------------- login gating

  predicate AllGated(messages: seq<Pending>, loggedIn: set<Conn>) {
    forall i :: 0 <= i < |messages| ==> messages[i].msg == Login || messages[i].tx in loggedIn
  }

  predicate LogoutGated(l: Leaving, loggedIn: set<Conn>) {
    l.SendingLogout? ==> l.tx in loggedIn
  }

  predicate AllLogoutsGated(ls: seq<Leaving>, loggedIn: set<Conn>) {
    forall i :: 0 <= i < |ls| ==> LogoutGated(ls[i], loggedIn)
  }

  predicate LoggingIn(p: Progress) {
    p.FetchingToken? || p.SendingLogin? || p.AwaitingReply?
  }

  /** Everything enqueued, admitted or about to be admitted respects the login of its connection. */
  predicate Gated(s: Client) {
    && AllGated(s.outgoing, s.loggedIn)
    && AllGated(s.pending, s.loggedIn)
    && AllLogoutsGated(s.leaving, s.loggedIn)
    && (s.progress.Failing? ==> LogoutGated(s.progress.leaving, s.loggedIn))
    && (s.status == LoggedIn && s.sendTx.Some? ==> s.sendTx.value in s.loggedIn)
    && (LoggingIn(s.progress) ==>
          s.status != LoggedIn && (s.sendTx.Some? ==> s.sendTx.value == s.progress.conn))
  }

  /** The cleanup of a failed connect finds the client disconnected and without workers. */
  predicate TornDown(s: Client) {
    s.progress == Failing(Joining) ==> s.status == Disconnected && s.workers == map[]
  }

  lemma BeginLeavingKeeps(s: Client)
    requires Gated(s)
    ensures var (t, l) := BeginLeaving(s);
      && LogoutGated(l, t.loggedIn)
      && (l.Joining? ==> t.status == Disconnected && t.workers == map[])
      && t == s.(cancelled := t.cancelled, status := t.status, workers := t.workers)
      && (t.status == s.status || t.status == Disconnected)
  {
  }

  lemma FailKeeps(s: Client)
    requires Gated(s)
    ensures Gated(Fail(s)) && TornDown(Fail(s))
  {
    BeginLeavingKeeps(s);
  }

  lemma DisconnectKeeps(s: Client)
    requires Gated(s) && TornDown(s)
    ensures Gated(Next(s, Disconnect)) && TornDown(Next(s, Disconnect))
  {
    BeginLeavingKeeps(s);
  }

  lemma LogoutDoneKeeps(s: Client, tx: Conn, open: bool)
    requires Gated(s) && tx in s.loggedIn
    ensures var t := LogoutDone(s, tx, open);
      && Gated(t) && t.status == Disconnected && t.workers == map[]
      && t.loggedIn == s.loggedIn && t.progress == s.progress && t.leaving == s.leaving
  {
  }

  lemma SendKeeps(s: Client, e: Step)
    requires Gated(s) && TornDown(s) && Enabled(s, e) && (e.SendCalled? || e.SendArrives?)
    ensures Gated(Next(s, e)) && TornDown(Next(s, e))
  {
  }

  lemma ConnectStepKeeps(s: Client, e: Step)
    requires Gated(s) && TornDown(s) && Enabled(s, e)
    requires e.Connect? || e.DialFails? || e.DialSucceeds? || e.TokenFails? || e.TokenArrives?
      || e.LoginSent? || e.ReplyArrives? || e.LoginAccepted? || e.LoginRejected?
    ensures Gated(Next(s, e)) && TornDown(Next(s, e))
  {
    FailKeeps(s);
    if e.LoginSent? {
      var t := Enqueued(s, Pending(Login, s.progress.tx));
      assert Gated(t);
      FailKeeps(t);
    }
  }

  lemma NextKeeps(s: Client, e: Step)
    requires Gated(s) && TornDown(s) && Enabled(s, e)
    ensures Gated(Next(s, e)) && TornDown(Next(s, e))
  {
    match e {
      case FailureLogoutDone(open) => LogoutDoneKeeps(s, s.progress.leaving.tx, open);
      case FailureCleanedUp =>
      case Disconnect => DisconnectKeeps(s);
      case LogoutSent(i, open) =>
        assert LogoutGated(s.leaving[i], s.loggedIn);
        LogoutDoneKeeps(s, s.leaving[i].tx, open);
      case DisconnectCleanedUp(i) =>
      case SendCalled(_) => SendKeeps(s, e);
      case SendArrives(_, _) => SendKeeps(s, e);
      case WaiterRegisters =>
      case ShutDown =>
      case SupervisorEnds =>
      case _ => ConnectStepKeeps(s, e);
    }
  }

  /** A sequence of steps from `s` on, with the states in between. */
  ghost predicate Leads(s: Client, trace: seq<Client>, steps: seq<Step>) {
    && |trace| == |steps| + 1 && trace[0] == s
    && forall i :: 0 <= i < |steps| ==> Enabled(trace[i], steps[i]) && trace[i + 1] == Next(trace[i], steps[i])
  }

  ghost predicate IsRun(trace: seq<Client>, steps: seq<Step>) {
    Leads(Created(), trace, steps)
  }

  lemma {:induction false} EveryRun(trace: seq<Client>, steps: seq<Step>, i: nat)
    requires IsRun(trace, steps) && i < |trace|
    ensures Gated(trace[i]) && TornDown(trace[i])
    decreases i
  {
    if i > 0 {
      EveryRun(trace, steps, i - 1);
      assert Enabled(trace[i - 1], steps[i - 1]);
      NextKeeps(trace[i - 1], steps[i - 1]);
    }
  }

  /**
    In every run, when a message other than Login is in a connection's outgoing queue, that connection's
    login has succeeded; so none can have entered before.
   */
  lemma LoginFirst(trace: seq<Client>, steps: seq<Step>, i: nat, k: nat)
    requires IsRun(trace, steps) && i < |trace| && k < |trace[i].outgoing|
    ensures trace[i].outgoing[k].msg != Login ==> trace[i].outgoing[k].tx in trace[i].loggedIn
  {
    EveryRun(trace, steps, i);
  }

  /** In every run a failed login leaves the client disconnected, without channel, workers or waiters. */
  lemma CleanAfterFailure(trace: seq<Client>, steps: seq<Step>, i: nat)
    requires IsRun(trace, steps) && i < |steps| && steps[i].FailureCleanedUp?
    ensures var t := trace[i + 1];
      t.status == Disconnected && t.sendTx == None && t.workers == map[] && t.matcher == 0 && t.progress == Idle
  {
    EveryRun(trace, steps, i);
    assert Enabled(trace[i], steps[i]);
  }

  // ---------------------------------------------------------------- no message is lost or made up

  /** The message a step takes in: a send that the state admits, or the client's own login or logout. */
  function TakenIn(s: Client, e: Step): Option<Pending>
    requires Enabled(s, e)
  {
    match e
    case SendCalled(msg) =>
      if s.sendTx.Some? && (s.status == LoggedIn || (s.status == Connected && msg == Login))
      then Some(Pending(msg, s.sendTx.value)) else None
    case LoginSent(open) => if open then Some(Pending(Login, s.progress.tx)) else None
    case FailureLogoutDone(open) => if open then Some(Pending(Logout, s.progress.leaving.tx)) else None
    case LogoutSent(i, open) => if open then Some(Pending(Logout, s.leaving[i].tx)) else None
    case _ => None
  }

  /** Only a send whose channel is gone by the time it arrives is dropped. */
  function DroppedBy(s: Client, e: Step): Option<Pending>
    requires Enabled(s, e)
  {
    if e.SendArrives? && !e.open then Some(s.pending[e.i]) else None
  }

  function Copies(messages: seq<Pending>, p: Pending): nat {
    multiset(messages)[p]
  }

  function One(found: Option<Pending>, p: Pending): nat {
    if found == Some(p) then 1 else 0
  }

  /** How often a message is enqueued or on its way. */
  function Held(s: Client, p: Pending): nat {
    Copies(s.outgoing, p) + Copies(s.pending, p)
  }

  lemma CopiesSnoc(messages: seq<Pending>, last: Pending, p: Pending)
    ensures Copies(messages + [last], p) == Copies(messages, p) + One(Some(last), p)
  {
  }

  lemma CopiesWithout(messages: seq<Pending>, i: nat, p: Pending)
    requires i < |messages|
    ensures Copies(messages, p) == Copies(Without(messages, i), p) + One(Some(messages[i]), p)
  {
    var a, b := messages[..i], messages[i + 1..];
    assert messages == a + [messages[i]] + b;
    assert multiset(messages) == multiset(a) + multiset{messages[i]} + multiset(b);
    assert multiset(a + b) == multiset(a) + multiset(b);
  }

  /** What a step that is no send does to the two queues. */
  lemma OwnMessages(s: Client, e: Step)
    requires Enabled(s, e) && !e.SendCalled? && !e.SendArrives?
    ensures Next(s, e).pending == s.pending
    ensures Next(s, e).outgoing == if TakenIn(s, e).Some? then s.outgoing + [TakenIn(s, e).value] else s.outgoing
  {
  }

  lemma SendCalledQueues(s: Client, e: Step)
    requires Enabled(s, e) && e.SendCalled?
    ensures Next(s, e).outgoing == s.outgoing
    ensures Next(s, e).pending == if TakenIn(s, e).Some? then s.pending + [TakenIn(s, e).value] else s.pending
  {
  }

  lemma SendArrivesQueues(s: Client, e: Step)
    requires Enabled(s, e) && e.SendArrives?
    ensures Next(s, e).pending == Without(s.pending, e.i)
    ensures Next(s, e).outgoing == if DroppedBy(s, e).Some? then s.outgoing else s.outgoing + [s.pending[e.i]]
  {
  }

  lemma StepHeld(s: Client, e: Step, p: Pending)
    requires Enabled(s, e)
    ensures Held(Next(s, e), p) + One(DroppedBy(s, e), p) == Held(s, p) + One(TakenIn(s, e), p)
  {
    if e.SendArrives? {
      SendArrivesQueues(s, e);
      CopiesWithout(s.pending, e.i, p);
      CopiesSnoc(s.outgoing, s.pending[e.i], p);
    } else if e.SendCalled? {
      SendCalledQueues(s, e);
      if TakenIn(s, e).Some? {
        CopiesSnoc(s.pending, TakenIn(s, e).value, p);
      }
    } else {
      OwnMessages(s, e);
      if TakenIn(s, e).Some? {
        CopiesSnoc(s.outgoing, TakenIn(s, e).value, p);
      }
    }
  }

  ghost function TakenInSoFar(trace: seq<Client>, steps: seq<Step>, i: nat, p: Pending): nat
    requires IsRun(trace, steps) && i <= |steps|
  {
    if i == 0 then 0 else TakenInSoFar(trace, steps, i - 1, p) + One(TakenIn(trace[i - 1], steps[i - 1]), p)
  }

  ghost function DroppedSoFar(trace: seq<Client>, steps: seq<Step>, i: nat, p: Pending): nat
    requires IsRun(trace, steps) && i <= |steps|
  {
    if i == 0 then 0 else DroppedSoFar(trace, steps, i - 1, p) + One(DroppedBy(trace[i - 1], steps[i - 1]), p)
  }

  /** In every run each message taken in is enqueued, on its way or dropped, exactly once, and there are no others. */
  lemma {:induction false} EveryMessage(trace: seq<Client>, steps: seq<Step>, i: nat, p: Pending)
    requires IsRun(trace, steps) && i <= |steps|
    ensures Held(trace[i], p) + DroppedSoFar(trace, steps, i, p) == TakenInSoFar(trace, steps, i, p)
  {
    if i > 0 {
      EveryMessage(trace, steps, i - 1, p);
      assert Enabled(trace[i - 1], steps[i - 1]) && trace[i] == Next(trace[i - 1], steps[i - 1]);
      StepHeld(trace[i - 1], steps[i - 1], p);
    }
  }

  // ---------------------------------------------------------------- a login that works

  lemma ConnectWorks(s: Client)
    requires s.progress == Idle
    ensures var dialed := Next(Next(s, Connect), DialSucceeds);
      Enabled(dialed, TokenArrives) && Next(dialed, TokenArrives)
        == s.(status := Connected, sendTx := Some(s.nextConn), workers := s.workers[s.nextConn := s.token],
              nextConn := s.nextConn + 1, progress := SendingLogin(s.nextConn, s.nextConn))
  {
  }

  lemma ReplyWorks(s: Client, conn: Conn)
    requires s.progress == SendingLogin(conn, conn) && s.status == Connected && !Cancelled(s, s.token)
    requires conn in s.workers && s.workers[conn] == s.token
    ensures var sent := Next(s, LoginSent(true));
      Enabled(sent, ReplyArrives) && Enabled(Next(sent, ReplyArrives), LoginAccepted)
        && Next(Next(sent, ReplyArrives), LoginAccepted)
             == s.(status := LoggedIn, outgoing := s.outgoing + [Pending(Login, conn)],
                   loggedIn := s.loggedIn + {conn}, progress := Idle)
  {
    var sent := Next(s, LoginSent(true));
    assert conn in sent.workers && !Cancelled(sent, sent.workers[conn]);
  }

  /**
    From any state in which no connect is going on and the current token is not cancelled, a connect whose
    steps all succeed ends logged in on the new connection, with its login and nothing else enqueued.
   */
  lemma LoginWorks(s: Client) returns (trace: seq<Client>, steps: seq<Step>)
    requires s.progress == Idle && !Cancelled(s, s.token)
    ensures steps == [Connect, DialSucceeds, TokenArrives, LoginSent(true), ReplyArrives, LoginAccepted]
    ensures Leads(s, trace, steps)
    ensures trace[6] == s.(status := LoggedIn, sendTx := Some(s.nextConn), workers := s.workers[s.nextConn := s.token],
                           nextConn := s.nextConn + 1, outgoing := s.outgoing + [Pending(Login, s.nextConn)],
                           loggedIn := s.loggedIn + {s.nextConn})
  {
    steps := [Connect, DialSucceeds, TokenArrives, LoginSent(true), ReplyArrives, LoginAccepted];
    var a := Next(s, Connect);
    var b := Next(a, DialSucceeds);
    ConnectWorks(s);
    var c := Next(b, TokenArrives);
    ReplyWorks(c, s.nextConn);
    var d := Next(c, LoginSent(true));
    var e := Next(d, ReplyArrives);
    trace := [s, a, b, c, d, e, Next(e, LoginAccepted)];
  }

  /** Logged in with a channel, a send that finds it open is enqueued behind everything before it. */
  lemma SendWorks(s: Client, msg: ClientMessage)
    requires s.status == LoggedIn && s.sendTx.Some?
    ensures var called := Next(s, SendCalled(msg));
      && |called.pending| == |s.pending| + 1
      && Next(called, SendArrives(|s.pending|, true)) == s.(outgoing := s.outgoing + [Pending(msg, s.sendTx.value)])
  {
    var called := Next(s, SendCalled(msg));
    assert Without(called.pending, |s.pending|) == s.pending;
  }

  /**
    A disconnect of a client that is logged in sends its logout behind everything before it and leaves the
    client disconnected, without channel, workers or waiters.
   */
  lemma LogoutWorks(s: Client)
    requires s.status == LoggedIn && s.sendTx.Some? && s.leaving == []
    ensures var begun := Next(s, Disconnect);
      && Enabled(begun, LogoutSent(0, true))
      && var sent := Next(begun, LogoutSent(0, true));
         Enabled(sent, DisconnectCleanedUp(0)) && Next(sent, DisconnectCleanedUp(0))
           == s.(status := Disconnected, sendTx := None, workers := map[], matcher := 0, token := s.token + 1,
                 cancelled := s.cancelled + {s.token}, outgoing := s.outgoing + [Pending(Logout, s.sendTx.value)])
  {
    var begun := Next(s, Disconnect);
    assert begun.leaving == [SendingLogout(s.sendTx.value)];
    var sent := Next(begun, LogoutSent(0, true));
    assert sent.leaving == [Joining] && Without(sent.leaving, 0) == [];
  }

  // ---------------------------------------------------------------- a disconnect during a login

  /** Connections are numbered in order, and the login that is going on has not succeeded yet. */
  predicate Numbered(s: Client) {
    && (forall c :: c in s.loggedIn ==> c < s.nextConn)
    && (LoggingIn(s.progress) ==> s.progress.conn < s.nextConn && s.progress.conn !in s.loggedIn)
  }

  lemma NumberedStays(s: Client, e: Step)
    requires Numbered(s) && Enabled(s, e)
    ensures Numbered(Next(s, e))
  {
  }

  lemma {:induction false} EveryRunNumbered(trace: seq<Client>, steps: seq<Step>, i: nat)
    requires IsRun(trace, steps) && i < |trace|
    ensures Numbered(trace[i])
    decreases i
  {
    if i > 0 {
      EveryRunNumbered(trace, steps, i - 1);
      assert Enabled(trace[i - 1], steps[i - 1]) && trace[i] == Next(trace[i - 1], steps[i - 1]);
      NumberedStays(trace[i - 1], steps[i - 1]);
    }
  }

  /**
    The reply has been handed out, and the token this login watches is neither cancelled nor the one a
    disconnect would cancel now, because the cleanup of an older disconnect has replaced it meanwhile.
   */
  predicate Escapes(s: Client) {
    && s.progress.AwaitingReply? && s.progress.replied
    && !Cancelled(s, s.progress.token) && s.progress.token != s.token
  }

  /** The login of this connection is over or cannot succeed. */
  predicate Lost(s: Client, conn: Conn) {
    && conn < s.nextConn && conn !in s.loggedIn
    && (LoggingIn(s.progress) && s.progress.conn == conn ==>
          && s.status == Disconnected && s.workers == map[]
          && (s.progress.AwaitingReply? ==> !s.progress.replied || Cancelled(s, s.progress.token)))
  }

  lemma LostStays(s: Client, e: Step, conn: Conn)
    requires Lost(s, conn) && Enabled(s, e)
    ensures Lost(Next(s, e), conn)
  {
  }

  lemma {:induction false} LostForGood(s: Client, trace: seq<Client>, steps: seq<Step>, conn: Conn, i: nat)
    requires Lost(s, conn) && Leads(s, trace, steps) && i < |trace|
    ensures Lost(trace[i], conn)
    decreases i
  {
    if i > 0 {
      LostForGood(s, trace, steps, conn, i - 1);
      assert Enabled(trace[i - 1], steps[i - 1]) && trace[i] == Next(trace[i - 1], steps[i - 1]);
      LostStays(trace[i - 1], steps[i - 1], conn);
    }
  }

  /** However the run goes on from `s`, the login of this connection does not succeed. */
  ghost predicate NeverLoggedIn(s: Client, conn: Conn) {
    forall trace: seq<Client>, steps: seq<Step> :: Leads(s, trace, steps) ==> conn !in trace[|steps|].loggedIn
  }

  lemma EscapedLogin(s: Client)
    requires Gated(s) && Escapes(s)
    ensures Enabled(Next(s, Disconnect), LoginAccepted) && !NeverLoggedIn(Next(s, Disconnect), s.progress.conn)
  {
    var t := Next(s, Disconnect);
    var trace, steps := [t, Next(t, LoginAccepted)], [LoginAccepted];
    assert Leads(t, trace, steps);
    assert s.progress.conn in trace[|steps|].loggedIn;
  }

  /** In every run a disconnect during a login prevents its success exactly when the login does not escape it. */
  lemma DisconnectPreventsIff(trace: seq<Client>, steps: seq<Step>, i: nat)
    requires IsRun(trace, steps) && i < |trace| && LoggingIn(trace[i].progress)
    ensures NeverLoggedIn(Next(trace[i], Disconnect), trace[i].progress.conn) <==> !Escapes(trace[i])
  {
    var s, conn := trace[i], trace[i].progress.conn;
    EveryRun(trace, steps, i);
    EveryRunNumbered(trace, steps, i);
    if Escapes(s) {
      EscapedLogin(s);
    } else {
      var t := Next(s, Disconnect);
      assert Lost(t, conn);
      forall after: seq<Client>, more: seq<Step> | Leads(t, after, more)
        ensures conn !in after[|more|].loggedIn
      {
        LostForGood(t, after, more, conn, |more|);
      }
    }
  }

  ghost predicate Reachable(s: Client) {
    exists trace: seq<Client>, steps: seq<Step> :: IsRun(trace, steps) && trace[|steps|] == s
  }

  lemma ReachableNext(s: Client, e: Step) returns (t: Client)
    requires Reachable(s) && Enabled(s, e)
    ensures t == Next(s, e) && Reachable(t)
  {
    t := Next(s, e);
    var trace, steps :| IsRun(trace, steps) && trace[|steps|] == s;
    var longer, more := trace + [t], steps + [e];
    forall i | 0 <= i < |more|
      ensures Enabled(longer[i], more[i]) && longer[i + 1] == Next(longer[i], more[i])
    {
      if i < |steps| {
        assert Enabled(trace[i], steps[i]) && trace[i + 1] == Next(trace[i], steps[i]);
      }
    }
    assert IsRun(longer, more);
  }

  /** One of two overlapping disconnects has cleaned up, the other has not yet. */
  lemma OneCleanupLeft() returns (s: Client)
    ensures Reachable(s) && s == Created().(token := 1, cancelled := {0}, leaving := [Joining])
  {
    s := Created();
    assert IsRun([s], []);
    s := ReachableNext(s, Disconnect);
    s := ReachableNext(s, Disconnect);
    s := ReachableNext(s, DisconnectCleanedUp(0));
  }

  /** A connection is up beside the other cleanup, and about to log in. */
  lemma ConnectedBesideCleanup() returns (s: Client)
    ensures Reachable(s)
    ensures s == Client(Connected, Some(0), map[0 := 1], 0, 1, {0}, false, SendingLogin(0, 0), [Joining], [], 1, [], {})
  {
    s := OneCleanupLeft();
    s := ReachableNext(s, Connect);
    s := ReachableNext(s, DialSucceeds);
    s := ReachableNext(s, TokenArrives);
  }

  /** The reply to its login has been handed out, and then the cleanup ends. */
  lemma RepliedBeforeCleanup() returns (s: Client)
    ensures Reachable(s)
    ensures s == Client(Connected, None, map[0 := 1], 0, 2, {0}, false, AwaitingReply(0, 1, true), [], [], 1,
                        [Pending(Login, 0)], {})
  {
    s := ConnectedBesideCleanup();
    s := ReachableNext(s, LoginSent(true));
    assert 0 in s.workers && !Cancelled(s, s.workers[0]);
    s := ReachableNext(s, ReplyArrives);
    s := ReachableNext(s, DisconnectCleanedUp(0));
  }

  /**
    That cleanup has replaced the token. A disconnect that follows does not reach the login: it ends
    logged in, without a channel and without workers.
   */
  lemma LoginEscapesDisconnect() returns (s: Client)
    ensures Reachable(s) && Escapes(s) && Enabled(Next(s, Disconnect), LoginAccepted)
    ensures var t := Next(Next(s, Disconnect), LoginAccepted);
      Reachable(t) && t.status == LoggedIn && t.sendTx == None && t.workers == map[]
  {
    s := RepliedBeforeCleanup();
    var t := ReachableNext(s, Disconnect);
    t := ReachableNext(t, LoginAccepted);
  }
}
