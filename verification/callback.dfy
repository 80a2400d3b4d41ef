// The CLI's login callback server: handlers and a timeout goroutine that share a
// channel with room for one result.
module CallbackServer {
  import opened Domain

  const PORT_RANGE_START: nat := 18000
  const PORT_RANGE_END: nat := 18099

  datatype Failure = MissingToken | TimedOut

  datatype Outcome = Outcome(token: string, refreshToken: string, expiresAt: string, role: string, err: Option<Failure>)

  // The query of a callback; a parameter that is absent reads as "".
  datatype Query = Query(token: string, refreshToken: string, expiresAt: string, role: string)

  function FromQuery(q: Query): Outcome {
    Outcome(q.token, q.refreshToken, q.expiresAt, q.role, if q.token == "" then Some(MissingToken) else None)
  }

  // The outcome says what the query says, field by field, and what is wrong with it.
  predicate Tells(o: Outcome, q: Query) {
    && o.token == q.token && o.refreshToken == q.refreshToken && o.expiresAt == q.expiresAt && o.role == q.role
    && (o.err == Some(MissingToken) <==> q.token == "")
    && (o.err == None <==> q.token != "")
  }

  lemma FromQueryTells(q: Query)
    ensures Tells(FromQuery(q), q)
  {
  }

  const TIMEOUT := Outcome("", "", "", "", Some(TimedOut))

  // The first port of the range, from a given one on, that can be bound.
  function FirstFree(busy: set<nat>, from: nat): Option<nat>
    decreases PORT_RANGE_END + 1 - from
  {
    if from > PORT_RANGE_END then None
    else if from !in busy then Some(from)
    else FirstFree(busy, from + 1)
  }

  lemma {:induction false} FirstFreeIsLeast(busy: set<nat>, from: nat)
    ensures match FirstFree(busy, from)
      case Some(p) => from <= p <= 18099 && p !in busy && forall q :: from <= q < p ==> q in busy
      case None => forall q :: from <= q <= 18099 ==> q in busy
    decreases PORT_RANGE_END + 1 - from
  {
    if from <= PORT_RANGE_END && from in busy {
      FirstFreeIsLeast(busy, from + 1);
    }
  }

  // A channel with one slot; a send to a full one is dropped, not waited for.
  class Channel {
    var slot: Option<Outcome>

    constructor ()
      ensures slot == None
    {
      slot := None;
    }

    method TrySend(o: Outcome) returns (kept: bool)
      modifies this
      ensures (slot, kept) == Offered(old(slot), o)
      ensures kept <==> old(slot).None?
      ensures slot == if kept then Some(o) else old(slot)
    {
      if slot.Some? {
        return false;
      }
      slot := Some(o);
      return true;
    }

    method TryReceive() returns (o: Option<Outcome>)
      modifies this
      ensures o == old(slot) && slot == None
    {
      o := slot;
      slot := None;
    }
  }

  function Offered(slot: Option<Outcome>, o: Outcome): (Option<Outcome>, bool) {
    if slot.Some? then (slot, false) else (Some(o), true)
  }

  class Server {
    const port: nat
    const result: Channel
    var closing: bool         // a shutdown has been asked for

    constructor (port: nat)
      ensures this.port == port && !closing && fresh(result) && result.slot == None
    {
      this.port := port;
      closing := false;
      result := new Channel();
    }

    // Binds the first free port of the range.
    static method New(busy: set<nat>) returns (s: Option<Server>)
      ensures s.Some? ==>
        && fresh(s.value) && !s.value.closing && fresh(s.value.result) && s.value.result.slot == None
        && 18000 <= s.value.port <= 18099 && s.value.port !in busy
        && forall p :: 18000 <= p < s.value.port ==> p in busy
      ensures s.None? ==> forall p :: 18000 <= p <= 18099 ==> p in busy
    {
      FirstFreeIsLeast(busy, PORT_RANGE_START);
      var port := PORT_RANGE_START;
      while port <= PORT_RANGE_END
        invariant PORT_RANGE_START <= port <= PORT_RANGE_END + 1
        invariant FirstFree(busy, port) == FirstFree(busy, PORT_RANGE_START)
      {
        if port !in busy {
          var server := new Server(port);
          return Some(server);
        }
        port := port + 1;
      }
      return None;
    }

    // Delivers before it responds; what the channel has no room for is dropped. Then
    // it asks for the shutdown, which happens on its own time.
    method HandleCallback(q: Query) returns (res: Outcome)
      modifies this, result
      ensures closing
      ensures Tells(res, q)
      ensures result.slot == if old(result.slot).Some? then old(result.slot) else Some(res)
    {
      res := Outcome(q.token, q.refreshToken, q.expiresAt, q.role, None);
      if res.token == "" {
        res := res.(err := Some(MissingToken));
      }
      var _ := result.TrySend(res);
      closing := true;
    }
  }

  // --- Handlers and the timeout goroutine, interleaved ---

  datatype HandlerPc = Arrived(q: Query) | Sent | Finished

  // The timeout goroutine: waits for the context, shuts the server down, which
  // waits for the handlers under way, offers its error, and ends.
  datatype TimerPc = Waiting | ShuttingDown | Offering | Ended

  datatype State = State(
    slot: Option<Outcome>,
    handlers: map<nat, HandlerPc>,
    asked: map<nat, Query>,       // what each handler was called with
    closing: bool,                // a handler has asked for the shutdown
    closed: bool,                 // no more connections are accepted
    cancelled: bool,              // the context is done
    timer: TimerPc,
    senders: seq<nat>,            // the handlers that have sent, in order
    offered: seq<Outcome>,        // every send so far, kept or not
    kept: seq<Outcome>,           // the sends the channel had room for
    received: seq<Outcome>)

  datatype Action =
    | Accept(id: nat, q: Query)
    | Send(id: nat)
    | Respond(id: nat)
    | Close
    | Cancel
    | Time
    | Receive

  const START := State(None, map[], map[], false, false, false, Waiting, [], [], [], [])

  function Offer(s: State, o: Outcome): State {
    var (slot, kept) := Offered(s.slot, o);
    s.(slot := slot, offered := s.offered + [o], kept := if kept then s.kept + [o] else s.kept)
  }

  predicate Quiet(s: State) {
    forall id :: id in s.handlers ==> s.handlers[id] == Finished
  }

  function Next(s: State, a: Action): State {
    match a
    case Accept(id, q) =>
      if s.closed || id in s.handlers then s
      else s.(handlers := s.handlers[id := Arrived(q)], asked := s.asked[id := q])
    case Send(id) =>
      if id in s.handlers && s.handlers[id].Arrived? then
        Offer(s, FromQuery(s.handlers[id].q)).(handlers := s.handlers[id := Sent], senders := s.senders + [id])
      else s
    case Respond(id) =>
      if id in s.handlers && s.handlers[id].Sent? then
        s.(handlers := s.handlers[id := Finished], closing := true)
      else s
    case Close => if s.closing then s.(closed := true) else s
    case Cancel => s.(cancelled := true)
    case Time =>
      (match s.timer
       case Waiting => if s.cancelled then s.(timer := ShuttingDown, closed := true) else s
       case ShuttingDown => if Quiet(s) then s.(timer := Offering) else s
       case Offering => Offer(s, TIMEOUT).(timer := Ended)
       case Ended => s)
    case Receive =>
      if s.slot.Some? then s.(slot := None, received := s.received + [s.slot.value]) else s
  }

  // A handler that nothing comes between does what HandleCallback does.
  lemma AloneIsHandleCallback(s: State, id: nat, q: Query)
    requires id !in s.handlers && !s.closed
    ensures var s' := Next(Next(Next(s, Accept(id, q)), Send(id)), Respond(id));
      && s'.handlers == s.handlers[id := Finished] && s'.closing
      && s'.slot.Some? && if s.slot.Some? then s'.slot == s.slot else Tells(s'.slot.value, q)
  {
  }

  // A receiver gets what is in the slot, and leaves it empty.
  lemma ReceiveTakes(s: State)
    requires s.slot.Some?
    ensures Next(s, Receive) == s.(slot := None, received := s.received + [s.slot.value])
  {
  }

  function Run(actions: seq<Action>): State {
    if actions == [] then START else Next(Run(actions[..|actions| - 1]), actions[|actions| - 1])
  }

  // --- What every run keeps ---

  function InSlot(slot: Option<Outcome>): seq<Outcome> {
    if slot.Some? then [slot.value] else []
  }

  // The channel holds what was kept and not received; the first value sent was kept.
  ghost predicate Orderly(slot: Option<Outcome>, offered: seq<Outcome>, kept: seq<Outcome>, received: seq<Outcome>) {
    && kept == received + InSlot(slot)
    && (offered == [] <==> kept == [])
    && (offered != [] ==> kept[0] == offered[0])
  }

  ghost predicate Delivering(s: State) {
    Orderly(s.slot, s.offered, s.kept, s.received)
  }

  // What a handler sent says what its query said; besides the handlers only the
  // timeout goroutine sends, once.
  ghost predicate Sourced(s: State) {
    && s.asked.Keys == s.handlers.Keys
    && (forall id :: id in s.handlers && s.handlers[id].Arrived? ==> s.handlers[id].q == s.asked[id])
    && |s.offered| == |s.senders| + (if s.timer == Ended then 1 else 0)
    && (forall i :: 0 <= i < |s.senders| ==> s.senders[i] in s.asked && Tells(s.offered[i], s.asked[s.senders[i]]))
  }

  // The timeout error is offered last, after every handler has made its offer.
  ghost predicate Closing(s: State) {
    && (s.timer != Waiting ==> s.closed)
    && (s.timer == Offering || s.timer == Ended ==> Quiet(s))
    && (s.timer == Ended ==> s.offered != [] && s.offered[|s.offered| - 1] == TIMEOUT)
    && (forall i :: 0 <= i < |s.offered| && (s.timer == Ended ==> i < |s.offered| - 1) ==> s.offered[i] != TIMEOUT)
    && (forall id :: id in s.handlers && !s.handlers[id].Arrived? ==> |s.offered| >= if s.timer == Ended then 2 else 1)
    && (s.handlers == map[] ==> |s.offered| == if s.timer == Ended then 1 else 0)
  }

  lemma SendSources(s: State, id: nat)
    requires Sourced(s) && s.timer != Ended
    ensures Sourced(Next(s, Send(id)))
  {
    hide Offered, Tells, FromQuery;
    if id in s.handlers && s.handlers[id].Arrived? {
      FromQueryTells(s.handlers[id].q);
      var s' := Next(s, Send(id));
      assert s'.offered == s.offered + [FromQuery(s.handlers[id].q)];
      assert s'.senders == s.senders + [id];
    }
  }

  lemma NextSources(s: State, a: Action)
    requires Sourced(s) && Closing(s)
    ensures Sourced(Next(s, a))
  {
    hide Offered, Tells, FromQuery;
    if a.Send? {
      if s.timer != Ended {
        SendSources(s, a.id);
      }
    }
  }

  lemma OfferDelivers(s: State, o: Outcome)
    requires Delivering(s)
    ensures Delivering(Offer(s, o))
  {
    if s.slot.None? {
      assert s.received + [] == s.received;
    }
  }

  lemma ReceiveDelivers(s: State)
    requires Delivering(s)
    ensures Delivering(Next(s, Receive))
  {
    if s.slot.Some? {
      assert s.received + [s.slot.value] == s.kept;
      assert s.kept + [] == s.kept;
    }
  }

  lemma NextDelivers(s: State, a: Action)
    requires Delivering(s)
    ensures Delivering(Next(s, a))
  {
    hide Offer, Orderly;
    match a
    case Send(id) =>
      if id in s.handlers && s.handlers[id].Arrived? {
        OfferDelivers(s, FromQuery(s.handlers[id].q));
      }
    case Time => OfferDelivers(s, TIMEOUT);
    case Receive => ReceiveDelivers(s);
    case _ =>
  }

  lemma SendCloses(s: State, id: nat)
    requires Closing(s)
    ensures Closing(Next(s, Send(id)))
  {
    hide Offered;
    if id in s.handlers && s.handlers[id].Arrived? {
      var s' := Next(s, Send(id));
      assert s'.offered == s.offered + [FromQuery(s.handlers[id].q)];
      assert s'.handlers[id] == Sent;
    }
  }

  lemma TimeCloses(s: State)
    requires Closing(s)
    ensures Closing(Next(s, Time))
  {
    hide Offered;
    if s.timer == Offering {
      assert Next(s, Time).offered == s.offered + [TIMEOUT];
    }
  }

  lemma HandlerCloses(s: State, a: Action)
    requires Closing(s) && (a.Accept? || a.Respond?)
    ensures Closing(Next(s, a))
  {
    hide Offered;
    var s' := Next(s, a);
    if s' != s {
      assert a.id in s'.handlers;
    }
  }

  lemma NextCloses(s: State, a: Action)
    requires Closing(s)
    ensures Closing(Next(s, a))
  {
    match a
    case Send(id) => SendCloses(s, id);
    case Time => TimeCloses(s);
    case Accept(_, _) => HandlerCloses(s, a);
    case Respond(_) => HandlerCloses(s, a);
    case _ =>
  }

  lemma StartIsGood()
    ensures Delivering(START) && Closing(START) && Sourced(START)
  {
  }

  lemma {:induction false} RunDelivers(actions: seq<Action>)
    ensures Delivering(Run(actions)) && Closing(Run(actions)) && Sourced(Run(actions))
  {
    hide Next, Delivering, Closing, Sourced;
    if actions == [] {
      StartIsGood();
    } else {
      RunDelivers(actions[..|actions| - 1]);
      NextDelivers(Run(actions[..|actions| - 1]), actions[|actions| - 1]);
      NextCloses(Run(actions[..|actions| - 1]), actions[|actions| - 1]);
      NextSources(Run(actions[..|actions| - 1]), actions[|actions| - 1]);
    }
  }

  lemma NextAsks(s: State, a: Action, id: nat)
    requires id in Next(s, a).asked
    ensures (id in s.asked && s.asked[id] == Next(s, a).asked[id]) || a == Accept(id, Next(s, a).asked[id])
  {
    hide Offered, FromQuery;
  }

  // Every query was asked by the callback that came under its number.
  lemma {:induction false} AskedWasAccepted(actions: seq<Action>, id: nat)
    requires id in Run(actions).asked
    ensures Accept(id, Run(actions).asked[id]) in actions
  {
    hide Next;
    assert actions != [];
    var n := |actions| - 1;
    NextAsks(Run(actions[..n]), actions[n], id);
    if actions[n] != Accept(id, Run(actions).asked[id]) {
      AskedWasAccepted(actions[..n], id);
    }
  }

  lemma AnswersAreNoTimeout(o: Outcome, q: Query)
    requires Tells(o, q)
    ensures o.err != Some(TimedOut)
  {
  }

  // For any number of callbacks and any interleaving: what has been received is, in
  // order, what was kept, starting with the very first value sent. When a handler
  // sent first, that value says what the query of its callback said; once the timeout
  // goroutine has ended a result has been delivered, which is the timeout error
  // exactly when no callback ever came.
  lemma {:induction false} FirstSentIsFirstReceived(actions: seq<Action>)
    ensures var s := Run(actions);
      && s.kept == s.received + InSlot(s.slot)
      && (s.received != [] ==> s.offered != [] && s.received[0] == s.offered[0])
      && (s.received != [] && s.senders != [] ==>
            exists q :: Accept(s.senders[0], q) in actions && Tells(s.received[0], q))
      && (s.received != [] && s.senders == [] ==> s.timer == Ended && s.handlers == map[])
      && (s.timer == Ended ==>
            && s.kept != [] && s.offered != [] && s.kept[0] == s.offered[0]
            && (s.kept[0].err == Some(TimedOut) <==> s.handlers == map[])
            && (s.handlers == map[] ==> s.kept[0] == Outcome("", "", "", "", Some(TimedOut)))
            && (s.handlers != map[] ==> s.senders != []))
  {
    hide Run, Next, Tells;
    RunDelivers(actions);
    var s := Run(actions);
    if s.senders != [] {
      var id := s.senders[0];
      AskedWasAccepted(actions, id);
      assert Tells(s.offered[0], s.asked[id]);
      AnswersAreNoTimeout(s.offered[0], s.asked[id]);
    }
    if s.handlers != map[] {
      var id :| id in s.handlers;
      assert s.timer == Ended ==> s.handlers[id] == Finished;
    }
  }

  // How far the timeout goroutine has come.
  function Stage(timer: TimerPc): nat {
    match timer
    case Waiting => 0
    case ShuttingDown => 1
    case Offering => 2
    case Ended => 3
  }

  lemma TimeSteps(s: State)
    requires Quiet(s) && s.cancelled
    ensures var s' := Next(s, Time);
      Quiet(s') && s'.cancelled && Stage(s'.timer) == if s.timer == Ended then 3 else Stage(s.timer) + 1
  {
    hide Offered;
  }

  lemma TimeoutSteps(s: State)
    requires Quiet(s)
    ensures Next(Next(Next(Next(s, Cancel), Time), Time), Time).timer == Ended
  {
    var s1 := Next(s, Cancel);
    assert s1.cancelled && Quiet(s1);
    hide Next, Quiet;
    TimeSteps(s1);
    TimeSteps(Next(s1, Time));
    TimeSteps(Next(Next(s1, Time), Time));
  }

  // Once no handler is under way, the timeout goroutine ends after its context does,
  // without waiting for a receiver.
  lemma {:induction false} TimeoutEnds(actions: seq<Action>)
    requires Quiet(Run(actions))
    ensures Run(actions + [Cancel, Time, Time, Time]).timer == Ended
  {
    hide Run, Next, Quiet;
    TimeoutSteps(Run(actions));
    assert actions + [] == actions && [] + [Cancel] == [Cancel] && [Cancel] + [Time] == [Cancel, Time];
    assert [Cancel, Time] + [Time] == [Cancel, Time, Time];
    assert [Cancel, Time, Time] + [Time] == [Cancel, Time, Time, Time];
    RunMore(actions, [], Cancel);
    RunMore(actions, [Cancel], Time);
    RunMore(actions, [Cancel, Time], Time);
    RunMore(actions, [Cancel, Time, Time], Time);
  }

  lemma RunMore(actions: seq<Action>, more: seq<Action>, a: Action)
    ensures Run(actions + (more + [a])) == Next(Run(actions + more), a)
  {
    hide Next;
    var all := actions + (more + [a]);
    assert all[..|all| - 1] == actions + more;
  }

  // After the shutdown that a handler asked for, no callback is accepted any more.
  lemma {:induction false} NoneAfterClosing(actions: seq<Action>, more: seq<Action>)
    requires Run(actions).closing
    ensures var s' := Run(actions + ([Close] + more)); s'.closed && s'.handlers.Keys == Run(actions).handlers.Keys
  {
    hide Run, Offer;
    if more == [] {
      assert [Close] + [] == [] + [Close] && actions + [] == actions;
      RunMore(actions, [], Close);
    } else {
      var n := |more| - 1;
      NoneAfterClosing(actions, more[..n]);
      assert [Close] + more == ([Close] + more[..n]) + [more[n]];
      RunMore(actions, [Close] + more[..n], more[n]);
      OffersOnly(Run(actions + ([Close] + more[..n])), more[n]);
    }
  }

  lemma OffersOnly(s: State, a: Action)
    requires s.closed
    ensures Next(s, a).closed && Next(s, a).handlers.Keys == s.handlers.Keys
  {
    hide Offered;
  }

  lemma OfferKeeps(s: State, o: Outcome)
    ensures s.kept <= Offer(s, o).kept
  {
  }

  lemma NextKeeps(s: State, a: Action)
    ensures s.kept <= Next(s, a).kept
  {
    hide Offer, FromQuery;
    match a
    case Send(id) =>
      if id in s.handlers && s.handlers[id].Arrived? {
        OfferKeeps(s, FromQuery(s.handlers[id].q));
      }
    case Time => OfferKeeps(s, TIMEOUT);
    case _ =>
  }

  // No sender waits for a receiver: a handler with a result, and the timeout
  // goroutine, can always go on. What was kept is never replaced: at every later
  // moment the n-th kept result is the n-th received, or still waits in the slot.
  lemma {:induction false} KeptResultsStay(actions: seq<Action>, more: seq<Action>)
    ensures var s, s' := Run(actions), Run(actions + more);
      && (forall id :: id in s.handlers && s.handlers[id].Arrived? ==> Next(s, Send(id)).handlers[id] == Sent)
      && (s.timer == Offering ==> Next(s, Time).timer == Ended)
      && (forall n :: 0 <= n < |s.kept| ==>
            if n < |s'.received| then s'.received[n] == s.kept[n]
            else n == |s'.received| && s'.slot == Some(s.kept[n]))
  {
    hide Run, Sourced, Closing, FromQuery;
    var s, s' := Run(actions), Run(actions + more);
    KeptGrows(actions, more);
    RunDelivers(actions + more);
    forall n | 0 <= n < |s.kept|
      ensures if n < |s'.received| then s'.received[n] == s.kept[n]
              else n == |s'.received| && s'.slot == Some(s.kept[n])
    {
      assert s'.kept[n] == s.kept[n];
    }
  }

  lemma {:induction false} KeptGrows(actions: seq<Action>, more: seq<Action>)
    ensures Run(actions).kept <= Run(actions + more).kept
  {
    hide Next;
    if more == [] {
      assert actions + [] == actions;
    } else {
      var n := |more| - 1;
      KeptGrows(actions, more[..n]);
      assert (actions + more)[..|actions + more| - 1] == actions + more[..n];
      NextKeeps(Run(actions + more[..n]), more[n]);
    }
  }
}
