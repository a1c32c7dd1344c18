/**
  Signaling errors, what they trigger, and the supervisor that turns them into reconnects.
 */
module Supervisor {
  import opened Frames

  // ---------------------------------------------------------------- errors

  datatype TransportFailure = Send(text: string) | Receive(text: string) | Close(text: string)

  datatype RuntimeError =
    | Disconnected(reason: Option<string>)
    | ReconnectFailed(failure: FailureReason)
    | ReconnectSuppressed(until: int)
    | ServerError(error: string)
    | Transport(cause: TransportFailure)
    | SerializationError(text: string)
    | RateLimited(until: int)

  datatype SignalingError =
    | LoginError(login: string)
    | TransportError(detail: string)
    | ProtocolError(protocol: string)
    | Timeout(what: string)
    | Runtime(runtime: RuntimeError)
    | Other(text: string)

  datatype FailureReason = Connection | Login(login: string) | OtherReason(text: string)

  predicate CanReconnect(e: RuntimeError) {
    (e.Disconnected? && e.reason.None?) || e.ServerError? || e.Transport?
  }

  predicate NeedsSessionTerminate(e: RuntimeError) {
    e == Disconnected(None) || e.Transport?
  }

  predicate IsFatal(e: RuntimeError) {
    e.Disconnected? || e.ReconnectFailed? || e.ReconnectSuppressed? || e.ServerError? || e.Transport?
  }

  /** The failure reason of a connect error; `None` where the conversion is declared unreachable. */
  function Reason(e: SignalingError): Option<FailureReason> {
    match e
    case LoginError(login) => Some(Login(login))
    case TransportError(_) => Some(Connection)
    case ProtocolError(text) => Some(OtherReason(text))
    case Timeout(text) => Some(OtherReason(text))
    case Runtime(r) =>
      if r.Disconnected? || r.ServerError? || r.SerializationError? then Some(Connection) else None
    case Other(text) => Some(OtherReason(text))
  }

  /** A session to terminate implies a reconnect, a reconnect implies a fatal error, and no more. */
  lemma ErrorClasses(e: RuntimeError)
    ensures NeedsSessionTerminate(e) ==> CanReconnect(e)
    ensures CanReconnect(e) ==> IsFatal(e)
    ensures CanReconnect(e) && !NeedsSessionTerminate(e) <==> e.ServerError?
    ensures IsFatal(e) && !CanReconnect(e) <==>
      e.ReconnectFailed? || e.ReconnectSuppressed? || (e.Disconnected? && e.reason.Some?)
    ensures !IsFatal(e) <==> e.SerializationError? || e.RateLimited?
  {
  }

  // ---------------------------------------------------------------- one connect

  datatype Reply =
    | SessionInfo(activeProfile: bool)
    | LoginFailure(login: string)
    | ErrorReply(error: string)
    | OtherReply

  /** How sending the login message goes, and how waiting for the answer ends. */
  datatype Sending = Sent | NotConnected | NoChannel | Unserializable(text: string) | ChannelClosed

  datatype Waiting = Received(reply: Reply) | ConnectionGone | ShutDown | BroadcastFailed(text: string) | TimedOut

  /** What the transport, the token provider, the channel and the server answer to one connect. */
  datatype World = World(
    transport: Option<SignalingError>,
    token: Option<SignalingError>,
    sending: Sending,
    waiting: Waiting
  )

  function SendError(s: Sending): Option<SignalingError> {
    match s
    case Sent => None
    case Unserializable(text) => Some(Runtime(SerializationError(text)))
    case _ => Some(Runtime(Disconnected(None)))
  }

  function WaitError(w: Waiting): Option<SignalingError> {
    match w
    case Received(SessionInfo(active)) =>
      if active then None else Some(ProtocolError("Expected active profile after Login"))
    case Received(LoginFailure(login)) => Some(LoginError(login))
    case Received(ErrorReply(error)) => Some(Runtime(ServerError(error)))
    case Received(OtherReply) => Some(ProtocolError("Expected own session info after Login"))
    case ConnectionGone => Some(Runtime(Disconnected(None)))
    case ShutDown => Some(Timeout("Shutdown signal received"))
    case BroadcastFailed(text) => Some(Other(text))
    case TimedOut => Some(Timeout("Timeout waiting for message"))
  }

  /** The error of a connect, in the order its steps can fail. */
  function ConnectError(w: World): Option<SignalingError> {
    if w.transport.Some? then w.transport
    else if w.token.Some? then w.token
    else if SendError(w.sending).Some? then SendError(w.sending)
    else WaitError(w.waiting)
  }

  predicate Convertible(e: Option<SignalingError>) {
    e.Some? ==> Reason(e.value).Some?
  }

  /** A connect error is convertible exactly when the foreign error it may have passed on is. */
  lemma ConnectConvertibleIff(w: World)
    ensures Convertible(ConnectError(w))
       <==> Convertible(w.transport) && (w.transport.None? ==> Convertible(w.token))
  {
  }

  /**
    The reason a client is told, by what went wrong: a refused login by its own reason, everything about
    the connection as such, and what does not fit by its text. An accepted login is no failure.
   */
  lemma FailuresNamed(w: World)
    ensures w.transport.Some? ==> ConnectError(w) == w.transport
    ensures w.transport.Some? && w.transport.value.TransportError? ==> FailureOf(w) == Some(Connection)
    ensures w.transport.None? && w.token.Some? ==> ConnectError(w) == w.token
    ensures w.transport.None? && w.token.None? && !w.sending.Sent? ==> FailureOf(w) == Some(Connection)
    ensures w.transport.None? && w.token.None? && w.sending.Sent? ==>
      match w.waiting
      case Received(SessionInfo(active)) => ConnectError(w).None? <==> active
      case Received(LoginFailure(reason)) => FailureOf(w) == Some(Login(reason))
      case Received(ErrorReply(_)) => FailureOf(w) == Some(Connection)
      case Received(OtherReply) => FailureOf(w).Some? && FailureOf(w).value.OtherReason?
      case ConnectionGone => FailureOf(w) == Some(Connection)
      case ShutDown => FailureOf(w).Some? && FailureOf(w).value.OtherReason?
      case BroadcastFailed(text) => FailureOf(w) == Some(OtherReason(text))
      case TimedOut => FailureOf(w) == Some(OtherReason("Timeout waiting for message"))
  {
  }

  function FailureOf(w: World): Option<FailureReason> {
    var e := ConnectError(w);
    if e.None? then None else Reason(e.value)
  }

  // ---------------------------------------------------------------- reconnecting

  /** The answers to every attempt, and whether a shutdown ends the pause behind it. */
  datatype Attempts = Attempts(world: nat -> World, shutDown: nat -> bool)

  datatype Outcome = Reconnected | GivenUp | Failed(reason: FailureReason) | Unreachable

  /** Foreign code adds no runtime errors of its own. */
  ghost predicate Tame(a: Attempts) {
    forall i: nat :: Convertible(a.world(i).transport) && Convertible(a.world(i).token)
  }

  /**
    Attempts up to `maxTries` connects. Success and a shutdown end it early; otherwise the error of the
    last connect is converted.
   */
  method Reconnect(maxTries: nat, terminate: bool, a: Attempts)
    returns (outcome: Outcome, connects: nat, terminations: nat)
    ensures connects <= maxTries
    ensures terminations == if terminate then connects else 0
    ensures outcome.Reconnected? ==> connects > 0 && ConnectError(a.world(connects)).None?
    ensures outcome.Failed? || outcome.Unreachable? ==>
      && connects == maxTries > 0 && ConnectError(a.world(connects)).Some?
      && Reason(ConnectError(a.world(connects)).value) == if outcome.Failed? then Some(outcome.reason) else None
    ensures forall i :: 0 < i < connects ==> ConnectError(a.world(i)).Some?
    ensures Tame(a) ==> !outcome.Unreachable?
    ensures (outcome, connects) == Reconnecting(maxTries, 1, a)
  {
    connects, terminations := 0, 0;
    if maxTries == 0 {
      return GivenUp, 0, 0;
    }
    var error := Other("Unknown");
    while connects < maxTries
      invariant connects <= maxTries
      invariant terminations == if terminate then connects else 0
      invariant forall i :: 0 < i <= connects ==> ConnectError(a.world(i)).Some?
      invariant connects > 0 ==> Some(error) == ConnectError(a.world(connects))
      invariant connects < maxTries ==> Reconnecting(maxTries, connects + 1, a) == Reconnecting(maxTries, 1, a)
      invariant connects == maxTries ==> Reconnecting(maxTries, 1, a) == (LastOutcome(error), maxTries)
    {
      if terminate {
        terminations := terminations + 1;
      }
      connects := connects + 1;
      match ConnectError(a.world(connects)) {
        case None => return Reconnected, connects, terminations;
        case Some(e) =>
          error := e;
          if connects < maxTries && a.shutDown(connects) {
            return GivenUp, connects, terminations;
          }
      }
    }
    outcome := LastOutcome(error);
    ConnectConvertibleIff(a.world(connects));
  }

  function LastOutcome(error: SignalingError): Outcome {
    match Reason(error)
    case Some(reason) => Failed(reason)
    case None => Unreachable
  }

  /** The outcome and the number of connects from attempt `i` on. */
  function Reconnecting(maxTries: nat, i: nat, a: Attempts): (Outcome, nat)
    requires i > 0
    decreases maxTries - i
  {
    if maxTries < i then (GivenUp, 0)
    else
      match ConnectError(a.world(i))
      case None => (Reconnected, i)
      case Some(e) =>
        if i == maxTries then (LastOutcome(e), i)
        else if a.shutDown(i) then (GivenUp, i)
        else Reconnecting(maxTries, i + 1, a)
  }

  lemma {:induction false} ReconnectingBounded(maxTries: nat, i: nat, a: Attempts)
    requires i > 0
    ensures Reconnecting(maxTries, i, a).1 <= maxTries
    decreases maxTries - i
  {
    if i < maxTries {
      ReconnectingBounded(maxTries, i + 1, a);
    }
  }

  lemma {:induction false} NeverUnreachable(maxTries: nat, i: nat, a: Attempts)
    requires i > 0 && Tame(a)
    ensures !Reconnecting(maxTries, i, a).0.Unreachable?
    decreases maxTries - i
  {
    if i <= maxTries {
      assert Convertible(a.world(i).transport) && Convertible(a.world(i).token);
      ConnectConvertibleIff(a.world(i));
      if i < maxTries {
        NeverUnreachable(maxTries, i + 1, a);
      }
    }
  }

  /** What ends the attempts: a connect that succeeds, the last one, or a shutdown in the pause behind it. */
  predicate Ends(maxTries: nat, a: Attempts, i: nat) {
    ConnectError(a.world(i)).None? || i == maxTries || a.shutDown(i)
  }

  predicate FirstEnd(maxTries: nat, a: Attempts, i: nat) {
    0 < i <= maxTries && Ends(maxTries, a, i) && forall j :: 0 < j < i ==> !Ends(maxTries, a, j)
  }

  /** Attempts go on up to the first that ends them, and the outcome is that of this attempt. */
  lemma {:induction false} ReconnectsUntil(maxTries: nat, i: nat, a: Attempts)
    requires 0 < i <= maxTries && forall j :: 0 < j < i ==> !Ends(maxTries, a, j)
    ensures var (outcome, connects) := Reconnecting(maxTries, i, a);
      var error := ConnectError(a.world(connects));
      && FirstEnd(maxTries, a, connects)
      && (outcome == Reconnected <==> error.None?)
      && (outcome.Failed? || outcome.Unreachable? <==> error.Some? && connects == maxTries)
      && (forall reason :: outcome == Failed(reason) <==>
            error.Some? && connects == maxTries && FailureOf(a.world(connects)) == Some(reason))
    decreases maxTries - i
  {
    if !Ends(maxTries, a, i) {
      ReconnectsUntil(maxTries, i + 1, a);
    }
  }

  // ---------------------------------------------------------------- the supervisor

  datatype Event = Connected | Message | ErrorEvent(error: RuntimeError)

  /** What the supervisor meets while it handles one event. */
  datatype Answer = Answer(refusedUntil: Option<int>, attempts: Attempts)

  predicate Reconnectable(e: Event) {
    e.ErrorEvent? && IsFatal(e.error) && CanReconnect(e.error)
  }

  /** The events that handling an event broadcasts, and the connects it makes. */
  function Handled(e: Event, maxTries: nat, answer: Answer): (seq<Event>, nat) {
    if !Reconnectable(e) then ([], 0)
    else if answer.refusedUntil.Some? then ([ErrorEvent(ReconnectSuppressed(answer.refusedUntil.value))], 0)
    else
      var (outcome, connects) := Reconnecting(maxTries, 1, answer.attempts);
      match outcome
      case Reconnected => ([Connected], connects)
      case Failed(reason) => ([ErrorEvent(ReconnectFailed(reason))], connects)
      case _ => ([], connects)
  }

  /** One event causes a bounded number of connects and at most one event, never a reconnectable one. */
  lemma HandledBounded(e: Event, maxTries: nat, answer: Answer)
    ensures var (events, connects) := Handled(e, maxTries, answer);
      && connects <= (if Reconnectable(e) then maxTries else 0)
      && |events| <= 1 && (!Reconnectable(e) ==> events == [])
      && forall i :: 0 <= i < |events| ==> !Reconnectable(events[i])
  {
    ReconnectingBounded(maxTries, 1, answer.attempts);
  }

  /**
    What handling a reconnectable event comes to. Refused, it is reported and nothing is connected.
    Granted, connects go on to the first that succeeds, is the last or meets a shutdown; a success is
    reported, and a failure with the reason of the last connect exactly when all of them were made.
   */
  lemma HandledExactly(e: Event, maxTries: nat, answer: Answer)
    requires Reconnectable(e)
    ensures var (events, connects) := Handled(e, maxTries, answer);
      var error := ConnectError(answer.attempts.world(connects));
      && (forall u :: answer.refusedUntil == Some(u) <==> events == [ErrorEvent(ReconnectSuppressed(u))])
      && (answer.refusedUntil.Some? ==> connects == 0)
      && (answer.refusedUntil.None? && maxTries > 0 ==>
            && FirstEnd(maxTries, answer.attempts, connects)
            && (events == [Connected] <==> error.None?)
            && (forall reason :: events == [ErrorEvent(ReconnectFailed(reason))] <==>
                  error.Some? && connects == maxTries && FailureOf(answer.attempts.world(connects)) == Some(reason)))
  {
    if maxTries > 0 {
      ReconnectsUntil(maxTries, 1, answer.attempts);
    }
  }

  /** The handling of an event as written; an error of a connection that is lost terminates the session too. */
  method HandleEvent(e: Event, maxTries: nat, answer: Answer)
    returns (events: seq<Event>, connects: nat, terminations: nat)
    ensures (events, connects) == Handled(e, maxTries, answer)
    ensures terminations == if e.ErrorEvent? && NeedsSessionTerminate(e.error) then connects else 0
  {
    if !(e.ErrorEvent? && IsFatal(e.error) && CanReconnect(e.error)) {
      return [], 0, 0;
    }
    if answer.refusedUntil.Some? {
      return [ErrorEvent(ReconnectSuppressed(answer.refusedUntil.value))], 0, 0;
    }
    var outcome;
    outcome, connects, terminations := Reconnect(maxTries, NeedsSessionTerminate(e.error), answer.attempts);
    events := match outcome
      case Reconnected => [Connected]
      case Failed(reason) => [ErrorEvent(ReconnectFailed(reason))]
      case _ => [];
  }

  /** Events from `i` on that may reconnect: the gate does not refuse them when their turn comes. */
  function Granted(initial: seq<Event>, answers: nat -> Answer, i: nat): nat
    requires i <= |initial|
    decreases |initial| - i
  {
    if i == |initial| then 0
    else
      (if Reconnectable(initial[i]) && answers(i).refusedUntil.None? then 1 else 0) + Granted(initial, answers, i + 1)
  }

  lemma HandledConnects(e: Event, maxTries: nat, answer: Answer)
    ensures var connects := Handled(e, maxTries, answer).1;
      if Reconnectable(e) && answer.refusedUntil.None? then (maxTries > 0 ==> 1 <= connects) && connects <= maxTries
      else connects == 0
  {
    HandledBounded(e, maxTries, answer);
    if Reconnectable(e) {
      HandledExactly(e, maxTries, answer);
    }
  }

  /** Reconnectable events weigh two, all others one. */
  function Weight(queue: seq<Event>): nat {
    if queue == [] then 0 else (if Reconnectable(queue[0]) then 2 else 1) + Weight(queue[1..])
  }

  function Reconnectables(queue: seq<Event>): nat {
    if queue == [] then 0 else (if Reconnectable(queue[0]) then 1 else 0) + Reconnectables(queue[1..])
  }

  lemma {:induction false} WeightConcat(a: seq<Event>, b: seq<Event>)
    ensures Weight(a + b) == Weight(a) + Weight(b) && Reconnectables(a + b) == Reconnectables(a) + Reconnectables(b)
  {
    if a == [] {
      assert a + b == b;
    } else {
      assert (a + b)[1..] == a[1..] + b;
      WeightConcat(a[1..], b);
    }
  }

  lemma HandledWeight(e: Event, maxTries: nat, answer: Answer)
    ensures var events := Handled(e, maxTries, answer).0;
      Weight(events) < (if Reconnectable(e) then 2 else 1) && Reconnectables(events) == 0
  {
    HandledBounded(e, maxTries, answer);
    var events := Handled(e, maxTries, answer).0;
    if events != [] {
      assert events[1..] == [];
    }
  }

  /** Handling the oldest event makes the queue lighter, whatever it adds at the end. */
  lemma QueueGetsLighter(queue: seq<Event>, maxTries: nat, answer: Answer)
    requires queue != []
    ensures var next := queue[1..] + Handled(queue[0], maxTries, answer).0;
      && Weight(next) < Weight(queue)
      && Reconnectables(next) == Reconnectables(queue[1..])
  {
    WeightConcat(queue[1..], Handled(queue[0], maxTries, answer).0);
    HandledWeight(queue[0], maxTries, answer);
  }

  /** The queue after some rounds: what is left of the events it began with, and what handling them added. */
  ghost predicate Drains(initial: seq<Event>, rounds: nat, queue: seq<Event>, added: seq<Event>) {
    && queue == initial[Min(rounds, |initial|)..] + added
    && forall i :: 0 <= i < |added| ==> !Reconnectable(added[i])
  }

  lemma DrainsOn(initial: seq<Event>, rounds: nat, queue: seq<Event>, added: seq<Event>, events: seq<Event>)
    returns (after: seq<Event>)
    requires Drains(initial, rounds, queue, added) && queue != []
    requires forall i :: 0 <= i < |events| ==> !Reconnectable(events[i])
    ensures Drains(initial, rounds + 1, queue[1..] + events, after)
    ensures rounds < |initial| ==> queue[0] == initial[rounds]
    ensures rounds >= |initial| ==> !Reconnectable(queue[0])
  {
    if rounds < |initial| {
      after := added + events;
      assert queue[1..] == initial[rounds + 1..] + added;
      assert queue[1..] + events == initial[rounds + 1..] + after;
    } else {
      assert queue == added;
      after := added[1..] + events;
      assert initial[|initial|..] == [];
    }
  }

  /** Connects made so far against the granted events handled so far. */
  ghost predicate Tally(maxTries: nat, connects: nat, total: nat, left: nat) {
    left <= total && connects <= maxTries * (total - left) && (maxTries > 0 ==> total - left <= connects)
  }

  lemma TallyOn(maxTries: nat, connects: nat, total: nat, left: nat, made: nat, granted: bool)
    requires Tally(maxTries, connects, total, left) && (granted ==> left > 0)
    requires if granted then (maxTries > 0 ==> 1 <= made) && made <= maxTries else made == 0
    ensures Tally(maxTries, connects + made, total, if granted then left - 1 else left)
  {
    Multiply(maxTries, total - left);
  }

  /**
    The supervisor loop without new events from outside: it drains the queue, in at most its weight of
    rounds. Every reconnectable event that the gate grants makes at least one connect, if any are allowed,
    and at most `maxTries`; no other event makes any.
   */
  method Supervise(initial: seq<Event>, maxTries: nat, answers: nat -> Answer)
    returns (queue: seq<Event>, rounds: nat, connects: nat)
    ensures queue == [] && |initial| <= rounds <= Weight(initial)
    ensures connects <= maxTries * Reconnectables(initial)
    ensures connects <= maxTries * Granted(initial, answers, 0)
    ensures maxTries > 0 ==> Granted(initial, answers, 0) <= connects
  {
    queue, rounds, connects := initial, 0, 0;
    ghost var added: seq<Event> := [];
    assert initial[0..] + added == initial;
    while queue != []
      invariant rounds + Weight(queue) <= Weight(initial)
      invariant connects + maxTries * Reconnectables(queue) <= maxTries * Reconnectables(initial)
      invariant Drains(initial, rounds, queue, added)
      invariant Tally(maxTries, connects, Granted(initial, answers, 0),
                      Granted(initial, answers, Min(rounds, |initial|)))
      decreases Weight(queue)
    {
      var event, answer := queue[0], answers(rounds);
      ghost var before := Granted(initial, answers, Min(rounds, |initial|));
      QueueGetsLighter(queue, maxTries, answer);
      HandledBounded(event, maxTries, answer);
      HandledConnects(event, maxTries, answer);
      var events, made, _ := HandleEvent(event, maxTries, answer);
      OneFewer(maxTries, queue, made);
      added := DrainsOn(initial, rounds, queue, added, events);
      TallyOn(maxTries, connects, Granted(initial, answers, 0), before, made,
              Reconnectable(event) && answer.refusedUntil.None?);
      queue := queue[1..] + events;
      connects := connects + made;
      rounds := rounds + 1;
    }
  }

  lemma Multiply(m: nat, n: nat)
    ensures m * (1 + n) == m + m * n
  {
  }

  lemma OneFewer(maxTries: nat, queue: seq<Event>, made: nat)
    requires queue != [] && made <= if Reconnectable(queue[0]) then maxTries else 0
    ensures made + maxTries * Reconnectables(queue[1..]) <= maxTries * Reconnectables(queue)
  {
    var rest := Reconnectables(queue[1..]);
    Multiply(maxTries, rest);
    if Reconnectable(queue[0]) {
      assert Reconnectables(queue) == 1 + rest;
    } else {
      assert Reconnectables(queue) == rest;
    }
  }
}
