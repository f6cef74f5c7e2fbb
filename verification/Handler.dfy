/**
 * The receiving side: the inbox worker and its request handler, as steps between awaits, on top of the
 * ledger. Deliveries repeat, requests and answers get lost, and the process may crash at any await.
 */
module Handler {
  import opened Messages
  import opened Statements
  import opened Pulling
  import opened Runs
  import opened Safety
  import opened Upkeep

  datatype Message = Message(id: Id, kind: Kind)

  /** The await a message's handling is suspended at. */
  datatype Await =
    | ReplaySend(id: Id)       // replaying a receipt: the reply is on its way
    | ReplayAck(id: Id)
    | EarlyAck(id: Id)         // redelivered while the first delivery is in flight
    | Turn(id: Id)             // the relay turn runs
    | Answer(id: Id)           // its reply is on its way
    | DoneAck(id: Id)
    | RetryAck(id: Id)         // the handler's own catch
    | FailAck(id: Id)          // the worker's catch
    | OtherAck(id: Id)         // replies are only acknowledged

  /** One invocation of the worker's tick: waiting for its pull, or working off a batch. */
  datatype Tick = Polling | Working(rest: seq<Message>, at: Await)

  /**
   * `busy`, `ticks` and `inFlight` live in memory, `receipts` on disk. Three history variables:
   * `keyed` are the messages whose reply key the store has held a message of this agent under, `answered`
   * the requests it has held an answer to under that key, and `completed` those whose handling the broker
   * has accepted as completed.
   */
  datatype World = World(
    ledger: Ledger, busy: bool, ticks: map<nat, Tick>, inFlight: set<Id>, receipts: map<Id, string>,
    keyed: set<Id>, answered: set<Id>, completed: set<Id>)

  /** How an await ends: `ok` as the client sees it, `executed` at the broker; a lost answer is not ok. */
  datatype Result = Result(ok: bool, executed: bool, at: Time, replyId: Id, reply: Envelope, text: string, stop: bool)

  datatype Action =
    | TickBegins(tick: nat)
    | PullAnswered(tick: nat, at: Time, opts: PullOptions, stop: bool)
    | PullFailed(tick: nat, executed: bool, at: Time, opts: PullOptions)
    | Resumes(tick: nat, result: Result)
    | Crash(kept: set<Id>)
    | Elsewhere(event: Event)

  datatype Setup = Setup(me: Agent, limits: Limits)

  // -- the worker --------------------------------------------------------

  /** Takes up the next message of a batch, up to its first await, or ends the tick. */
  function Begin(w: World, tick: nat, rest: seq<Message>, stop: bool): World {
    if rest == [] || stop then
      w.(ticks := w.ticks - {tick}, busy := false)
    else
      var m := rest[0];
      if m.kind == Kind.Reply then w.(ticks := w.ticks[tick := Working(rest[1..], OtherAck(m.id))])
      else if m.id in w.receipts && w.receipts[m.id] != "" then
        w.(ticks := w.ticks[tick := Working(rest[1..], ReplaySend(m.id))])
      else if m.id in w.inFlight then w.(ticks := w.ticks[tick := Working(rest[1..], EarlyAck(m.id))])
      else w.(inFlight := w.inFlight + {m.id}, ticks := w.ticks[tick := Working(rest[1..], Turn(m.id))])
  }

  function Suspend(w: World, tick: nat, at: Await): World
    requires tick in w.ticks && w.ticks[tick].Working?
  {
    w.(ticks := w.ticks[tick := Working(w.ticks[tick].rest, at)])
  }

  /** Ends the handling of the current message; the in-flight mark goes in `finally`. */
  function Finish(w: World, tick: nat, stop: bool): World
    requires tick in w.ticks && w.ticks[tick].Working?
  {
    Begin(w.(inFlight := w.inFlight - {w.ticks[tick].at.id}), tick, w.ticks[tick].rest, stop)
  }

  ghost function Batch(l: Ledger, me: Agent, at: Time, opts: PullOptions, c: Limits): seq<Message> {
    var swept := Sweep(l.rows, at, c.max);
    var ids := Chosen(swept, me, at, opts, c.max);
    seq(|ids|, i requires 0 <= i < |ids| => Message(ids[i], swept[ids[i]].env.kind))
  }

  // -- requests to the broker --------------------------------------------

  ghost function AckStep(w: World, s: Setup, id: Id, outcome: Outcome, r: Result): World {
    if !r.executed then w else
      var accepted := AckError(w.ledger.rows, id, s.me, outcome, r.at, None).None?;
      w.(ledger := Step(w.ledger, Settle(id, s.me, outcome, "", r.at, None), s.limits),
         completed := if accepted && outcome == Done then w.completed + {id} else w.completed)
  }

  ghost function ReplyStep(w: World, s: Setup, r: Result): World {
    if r.executed then w.(ledger := Step(w.ledger, Send(r.replyId, r.reply), s.limits)) else w
  }

  /** A message answers the request `id`: it is a reply to it, mirrors it, and has the key derived from it. */
  predicate AnswerTo(env: Envelope, id: Id, request: Envelope) {
    env.kind == Kind.Reply && env.parent == Some(id) && Answers(env, request) && env.key == ReplyTo(id)
  }

  /** The reply says what the receipt holds; the broker takes it when its parent is stored and it mirrors that. */
  predicate ReplyTaken(w: World, s: Setup, id: Id, r: Result) {
    && id in w.ledger.rows && w.ledger.rows[id].env.target == s.me
    && AnswerTo(r.reply, id, w.ledger.rows[id].env) && r.replyId !in w.ledger.hist
    && id in w.receipts && r.reply.body == w.receipts[id]
  }

  // -- one step ----------------------------------------------------------

  predicate Allowed(w: World, s: Setup, a: Action) {
    match a
    case TickBegins(tick) => tick !in w.ticks
    case PullAnswered(tick, _, _, _) => tick in w.ticks && w.ticks[tick].Polling?
    case PullFailed(tick, _, _, _) => tick in w.ticks && w.ticks[tick].Polling?
    case Resumes(tick, r) =>
      && tick in w.ticks && w.ticks[tick].Working? && (r.ok ==> r.executed)
      && (match w.ticks[tick].at
          case ReplaySend(id) => r.executed ==> ReplyTaken(w, s, id, r)
          case Answer(id) => r.executed ==> ReplyTaken(w, s, id, r)
          case Turn(_) => r.ok ==> r.text != ""
          case RetryAck(_) => true
          case FailAck(_) => true
          case at => r.ok ==> AckError(w.ledger.rows, at.id, s.me, Done, r.at, None).None?)
    case Crash(kept) => kept <= w.receipts.Keys
    case Elsewhere(e) => Admissible(w.ledger, e) && (e.Send? ==> Routed(w.ledger.rows, e.env))
  }

  ghost function Act(w: World, s: Setup, a: Action): World
    requires Allowed(w, s, a)
  {
    var next := Move(w, s, a);
    next.(keyed := w.keyed + Stored(next.ledger, s.me), answered := w.answered + Answered(next.ledger.rows, s.me))
  }

  /** The messages under whose reply key the store holds a message of the agent, of whatever kind. */
  ghost function Stored(l: Ledger, me: Agent): set<Id> {
    set id | id in l.hist && Known(l.rows, me, ReplyTo(id))
  }

  /** The stored requests to the agent that a stored message answers. */
  ghost function Answered(rows: Rows, me: Agent): set<Id> {
    set id | id in rows && rows[id].env.target == me && AnswerStored(rows, id, rows[id].env)
  }

  ghost predicate AnswerStored(rows: Rows, id: Id, request: Envelope) {
    exists n :: n in rows && AnswerTo(rows[n].env, id, request)
  }

  ghost function Move(w: World, s: Setup, a: Action): World
    requires Allowed(w, s, a)
  {
    match a
    case TickBegins(tick) =>
      if w.busy then w else w.(busy := true, ticks := w.ticks[tick := Polling])
    case PullAnswered(tick, at, opts, stop) =>
      Begin(w.(ledger := Step(w.ledger, Poll(s.me, at, opts), s.limits)), tick,
            Batch(w.ledger, s.me, at, opts, s.limits), stop)
    case PullFailed(tick, executed, at, opts) =>
      Begin(if executed then w.(ledger := Step(w.ledger, Poll(s.me, at, opts), s.limits)) else w, tick, [], true)
    case Resumes(tick, r) => Resume(w, s, tick, w.ticks[tick].at, r)
    case Crash(kept) =>
      w.(busy := false, ticks := map[], inFlight := {}, receipts := map id | id in kept :: w.receipts[id])
    case Elsewhere(e) => w.(ledger := Step(w.ledger, e, s.limits))
  }

  ghost function Resume(w: World, s: Setup, tick: nat, at: Await, r: Result): World
    requires tick in w.ticks && w.ticks[tick].Working? && w.ticks[tick].at == at
  {
    match at
    case ReplaySend(id) => Suspend(ReplyStep(w, s, r), tick, if r.ok then ReplayAck(id) else FailAck(id))
    case ReplayAck(id) =>
      var next := AckStep(w, s, id, Done, r);
      if r.ok then Begin(next, tick, w.ticks[tick].rest, r.stop) else Suspend(next, tick, FailAck(id))
    case EarlyAck(id) =>
      var next := AckStep(w, s, id, Done, r);
      if r.ok then Begin(next, tick, w.ticks[tick].rest, r.stop) else Suspend(next, tick, FailAck(id))
    case Turn(id) =>
      if r.ok then Suspend(w.(receipts := w.receipts[id := r.text]), tick, Answer(id))
        else Suspend(w, tick, RetryAck(id))
    case Answer(id) => Suspend(ReplyStep(w, s, r), tick, if r.ok then DoneAck(id) else RetryAck(id))
    case DoneAck(id) =>
      var next := AckStep(w, s, id, Done, r);
      if r.ok then Finish(next, tick, r.stop) else Suspend(next, tick, RetryAck(id))
    case RetryAck(id) => Finish(AckStep(w, s, id, Retry, r), tick, r.stop)
    case FailAck(id) => Begin(AckStep(w, s, id, Retry, r), tick, w.ticks[tick].rest, r.stop)
    case OtherAck(id) =>
      var next := AckReply(w, s, id, r);
      if r.ok then Begin(next, tick, w.ticks[tick].rest, r.stop) else Suspend(next, tick, FailAck(id))
  }

  /** Acknowledging a reply completes no request. */
  ghost function AckReply(w: World, s: Setup, id: Id, r: Result): World {
    AckStep(w, s, id, Done, r).(completed := w.completed)
  }

  // -- invariant ---------------------------------------------------------

  /** Awaits between adding and deleting the in-flight mark. */
  predicate InTry(at: Await) {
    at.Turn? || at.Answer? || at.DoneAck? || at.RetryAck?
  }

  /**
   * The serial loop never suspends at the early acknowledgement, and acknowledges completion only once the
   * key of the reply has been taken.
   */
  predicate TickOk(t: Tick, inFlight: set<Id>, keyed: set<Id>, known: set<Id>) {
    match t
    case Polling => inFlight == {}
    case Working(rest, at) =>
      && !at.EarlyAck?
      && inFlight == (if InTry(at) then {at.id} else {})
      && (at.ReplayAck? || at.DoneAck? ==> at.id in keyed)
      && at.id in known && forall m :: m in rest ==> m.id in known
  }

  /** At most one tick is under way, and `busy` says whether there is one. */
  ghost predicate Serial(w: World, keyed: set<Id>) {
    && (forall t :: t in w.ticks ==> w.ticks == map[t := w.ticks[t]])
    && (w.busy <==> w.ticks != map[])
    && (forall t :: t in w.ticks ==> TickOk(w.ticks[t], w.inFlight, keyed, w.ledger.hist.Keys))
    && (w.ticks == map[] ==> w.inFlight == {})
    && w.completed <= keyed
  }

  ghost predicate HandlerInv(w: World, s: Setup) {
    Inv(w.ledger, s.limits) && Serial(w, w.keyed) && Stored(w.ledger, s.me) <= w.keyed
  }

  // -- every step keeps it -----------------------------------------------

  /** What the ledger part of the invariant needs of a broker event. */
  ghost predicate Moved(w: World, next: World, s: Setup) {
    && Inv(next.ledger, s.limits) && w.ledger.hist.Keys <= next.ledger.hist.Keys
  }

  lemma EventMoves(w: World, e: Event, s: Setup)
    requires Inv(w.ledger, s.limits) && Admissible(w.ledger, e)
    ensures Moved(w, w.(ledger := Step(w.ledger, e, s.limits)), s)
  {
    StepKeeps(w.ledger, e, s.limits);
    LedgerGrows(w.ledger, e, s.limits);
  }

  /** Taking up the next message of the only tick, or ending it. */
  lemma BeginIsSerial(w: World, tick: nat, rest: seq<Message>, stop: bool, keyed: set<Id>)
    requires w.busy && w.inFlight == {} && w.completed <= keyed
    requires forall t :: t in w.ticks ==> t == tick
    requires forall m :: m in rest ==> m.id in w.ledger.hist
    ensures Serial(Begin(w, tick, rest, stop), keyed)
  {
    var next := Begin(w, tick, rest, stop);
    if rest == [] || stop {
      assert next.ticks == map[];
    } else {
      assert next.ticks == map[tick := next.ticks[tick]];
    }
  }

  /** Suspending the only tick at another await of the same message. */
  lemma SuspendIsSerial(w: World, tick: nat, at: Await, keyed: set<Id>)
    requires w.busy && tick in w.ticks && w.ticks[tick].Working? && w.completed <= keyed
    requires forall t :: t in w.ticks ==> t == tick
    requires TickOk(Working(w.ticks[tick].rest, at), w.inFlight, keyed, w.ledger.hist.Keys)
    ensures Serial(Suspend(w, tick, at), keyed)
  {
    var next := Suspend(w, tick, at);
    assert next.ticks == map[tick := next.ticks[tick]];
  }

  lemma AckMoves(w: World, s: Setup, id: Id, outcome: Outcome, r: Result)
    requires Inv(w.ledger, s.limits)
    ensures Moved(w, AckStep(w, s, id, outcome, r), s)
    ensures var next := AckStep(w, s, id, outcome, r);
            && next.busy == w.busy && next.ticks == w.ticks && next.inFlight == w.inFlight
            && next.completed <= w.completed + if outcome == Done then {id} else {}
  {
    if r.executed { EventMoves(w, Settle(id, s.me, outcome, "", r.at, None), s); }
  }

  /** Once the broker has taken the reply, the store holds a message of this agent under its key. */
  lemma ReplyMoves(w: World, s: Setup, id: Id, r: Result)
    requires Inv(w.ledger, s.limits) && (r.executed ==> ReplyTaken(w, s, id, r))
    ensures Moved(w, ReplyStep(w, s, r), s)
    ensures r.executed ==> id in Stored(ReplyStep(w, s, r).ledger, s.me)
  {
    if r.executed {
      EventMoves(w, Send(r.replyId, r.reply), s);
      var next := Step(w.ledger, Send(r.replyId, r.reply), s.limits);
      if !Known(w.ledger.rows, s.me, ReplyTo(id)) {
        assert Holds(next.rows, r.replyId, s.me, ReplyTo(id));
      }
    }
  }

  lemma SerialFacts(w: World, tick: nat)
    requires Serial(w, w.keyed) && tick in w.ticks
    ensures w.busy && w.completed <= w.keyed && (forall t :: t in w.ticks ==> t == tick)
    ensures TickOk(w.ticks[tick], w.inFlight, w.keyed, w.ledger.hist.Keys)
  {
    assert w.ticks == map[tick := w.ticks[tick]];
  }

  /** After a step that leaves the ledger consistent and the loop serial, the invariant holds again. */
  ghost predicate Kept(w: World, next: World, s: Setup) {
    Moved(w, next, s) && Serial(next, w.keyed + Stored(next.ledger, s.me))
  }

  lemma AckResumes(w: World, s: Setup, tick: nat, r: Result)
    requires HandlerInv(w, s) && Allowed(w, s, Resumes(tick, r))
    requires w.ticks[tick].at.ReplayAck? || w.ticks[tick].at.DoneAck? || w.ticks[tick].at.OtherAck?
    ensures Kept(w, Resume(w, s, tick, w.ticks[tick].at, r), s)
  {
    hide Inv, Serial, Stored, Step, AckError, ReplyTaken, Begin, AckStep;
    var at, rest := w.ticks[tick].at, w.ticks[tick].rest;
    var acked := AckStep(w, s, at.id, Done, r);
    var keyed := w.keyed + Stored(acked.ledger, s.me);
    AckMoves(w, s, at.id, Done, r);
    SerialFacts(w, tick);
    var moved := if at.OtherAck? then AckReply(w, s, at.id, r) else acked;
    if r.ok {
      BeginIsSerial(moved.(inFlight := moved.inFlight - {at.id}), tick, rest, r.stop, keyed);
      BeginKeepsLedger(moved.(inFlight := moved.inFlight - {at.id}), tick, rest, r.stop);
      assert !at.DoneAck? ==> moved.(inFlight := moved.inFlight - {at.id}) == moved;
    } else {
      SuspendIsSerial(moved, tick, if at.DoneAck? then RetryAck(at.id) else FailAck(at.id), keyed);
    }
  }

  lemma RetryResumes(w: World, s: Setup, tick: nat, r: Result)
    requires HandlerInv(w, s) && Allowed(w, s, Resumes(tick, r))
    requires w.ticks[tick].at.RetryAck? || w.ticks[tick].at.FailAck?
    ensures Kept(w, Resume(w, s, tick, w.ticks[tick].at, r), s)
  {
    hide Inv, Serial, Stored, Step, AckError, ReplyTaken, Begin, AckStep;
    var at, rest := w.ticks[tick].at, w.ticks[tick].rest;
    var acked := AckStep(w, s, at.id, Retry, r);
    AckMoves(w, s, at.id, Retry, r);
    SerialFacts(w, tick);
    BeginIsSerial(acked.(inFlight := acked.inFlight - {at.id}), tick, rest, r.stop,
                  w.keyed + Stored(acked.ledger, s.me));
    BeginKeepsLedger(acked.(inFlight := acked.inFlight - {at.id}), tick, rest, r.stop);
    assert at.FailAck? ==> acked.(inFlight := acked.inFlight - {at.id}) == acked;
  }

  lemma SendResumes(w: World, s: Setup, tick: nat, r: Result)
    requires HandlerInv(w, s) && Allowed(w, s, Resumes(tick, r))
    requires w.ticks[tick].at.ReplaySend? || w.ticks[tick].at.Answer?
    ensures Kept(w, Resume(w, s, tick, w.ticks[tick].at, r), s)
  {
    hide Inv, Serial, Stored, Step, ReplyTaken;
    var at := w.ticks[tick].at;
    var sent := ReplyStep(w, s, r);
    ReplyMoves(w, s, at.id, r);
    SerialFacts(w, tick);
    SuspendIsSerial(sent, tick,
                    if at.ReplaySend? then (if r.ok then ReplayAck(at.id) else FailAck(at.id))
                    else if r.ok then DoneAck(at.id) else RetryAck(at.id),
                    w.keyed + Stored(sent.ledger, s.me));
  }

  lemma TurnResumes(w: World, s: Setup, tick: nat, r: Result)
    requires HandlerInv(w, s) && Allowed(w, s, Resumes(tick, r)) && w.ticks[tick].at.Turn?
    ensures Kept(w, Resume(w, s, tick, w.ticks[tick].at, r), s)
  {
    var id := w.ticks[tick].at.id;
    SerialFacts(w, tick);
    SuspendIsSerial(if r.ok then w.(receipts := w.receipts[id := r.text]) else w, tick,
                    if r.ok then Answer(id) else RetryAck(id), w.keyed + Stored(w.ledger, s.me));
  }

  lemma BatchIsKnown(l: Ledger, me: Agent, at: Time, opts: PullOptions, c: Limits)
    requires Inv(l, c)
    ensures forall m :: m in Batch(l, me, at, opts, c) ==> m.id in l.hist
  {
  }

  lemma PullAnswers(w: World, s: Setup, a: Action)
    requires HandlerInv(w, s) && Allowed(w, s, a) && a.PullAnswered?
    ensures Kept(w, Move(w, s, a), s)
  {
    hide Inv, Serial, Stored, Step, Begin, Batch;
    var polled := w.(ledger := Step(w.ledger, Poll(s.me, a.at, a.opts), s.limits));
    EventMoves(w, Poll(s.me, a.at, a.opts), s);
    BatchIsKnown(w.ledger, s.me, a.at, a.opts, s.limits);
    SerialFacts(w, a.tick);
    var batch := Batch(w.ledger, s.me, a.at, a.opts, s.limits);
    assert forall m :: m in batch ==> m.id in polled.ledger.hist;
    BeginIsSerial(polled, a.tick, batch, a.stop, w.keyed + Stored(polled.ledger, s.me));
    BeginKeepsLedger(polled, a.tick, batch, a.stop);
  }

  lemma PullFails(w: World, s: Setup, a: Action)
    requires HandlerInv(w, s) && Allowed(w, s, a) && a.PullFailed?
    ensures Kept(w, Move(w, s, a), s)
  {
    hide Inv, Serial, Stored, Step, Begin;
    var polled := w.(ledger := Step(w.ledger, Poll(s.me, a.at, a.opts), s.limits));
    var moved := if a.executed then polled else w;
    EventMoves(w, Poll(s.me, a.at, a.opts), s);
    assert Moved(w, moved, s);
    SerialFacts(w, a.tick);
    BeginIsSerial(moved, a.tick, [], true, w.keyed + Stored(moved.ledger, s.me));
    BeginKeepsLedger(moved, a.tick, [], true);
  }

  lemma BeginKeepsLedger(w: World, tick: nat, rest: seq<Message>, stop: bool)
    ensures Begin(w, tick, rest, stop).ledger == w.ledger
  {
  }

  lemma OthersMove(w: World, s: Setup, a: Action)
    requires HandlerInv(w, s) && Allowed(w, s, a) && (a.TickBegins? || a.Crash? || a.Elsewhere?)
    ensures Kept(w, Move(w, s, a), s)
  {
    hide Inv, Stored, Step;
    if a.Elsewhere? {
      EventMoves(w, a.event, s);
    }
  }

  lemma ActKeeps(w: World, s: Setup, a: Action)
    requires HandlerInv(w, s) && Allowed(w, s, a)
    ensures HandlerInv(Act(w, s, a), s)
  {
    hide Inv, Serial, Stored, Step, AckError, ReplyTaken, Begin, Resume;
    if a.PullAnswered? {
      PullAnswers(w, s, a);
    } else if a.PullFailed? {
      PullFails(w, s, a);
    } else if !a.Resumes? {
      OthersMove(w, s, a);
    } else {
      ResumeKeeps(w, s, a.tick, a.result);
    }
    var next := Move(w, s, a);
    WithHistory(next, w.keyed + Stored(next.ledger, s.me), w.answered + Answered(next.ledger.rows, s.me));
  }

  lemma ResumeKeeps(w: World, s: Setup, tick: nat, r: Result)
    requires HandlerInv(w, s) && Allowed(w, s, Resumes(tick, r))
    ensures Kept(w, Resume(w, s, tick, w.ticks[tick].at, r), s)
  {
    SerialFacts(w, tick);
    hide Inv, Serial, Stored, Step, AckError, ReplyTaken, Begin, Resume, Kept;
    var at := w.ticks[tick].at;
    if at.ReplayAck? || at.DoneAck? || at.OtherAck? {
      AckResumes(w, s, tick, r);
    } else if at.RetryAck? || at.FailAck? {
      RetryResumes(w, s, tick, r);
    } else if at.Turn? {
      TurnResumes(w, s, tick, r);
    } else {
      SendResumes(w, s, tick, r);
    }
  }

  lemma WithHistory(w: World, keyed: set<Id>, answered: set<Id>)
    requires Serial(w, keyed)
    ensures Serial(w.(keyed := keyed, answered := answered), keyed)
  {
  }

  // -- whole runs --------------------------------------------------------

  ghost function Play(w: World, s: Setup, actions: seq<Action>): World
    requires Feasible(w, s, actions)
    decreases |actions|, 1
  {
    if actions == [] then w else Play(Act(w, s, actions[0]), s, actions[1..])
  }

  ghost predicate Feasible(w: World, s: Setup, actions: seq<Action>)
    decreases |actions|, 0
  {
    actions != [] ==> Allowed(w, s, actions[0]) && Feasible(Act(w, s, actions[0]), s, actions[1..])
  }

  const Start := World(Empty, false, map[], {}, map[], {}, {}, {})

  lemma {:induction false} RunKeepsHandler(w: World, s: Setup, actions: seq<Action>)
    requires HandlerInv(w, s) && Feasible(w, s, actions)
    ensures HandlerInv(Play(w, s, actions), s)
    decreases |actions|
  {
    if actions != [] {
      ActKeeps(w, s, actions[0]);
      RunKeepsHandler(Act(w, s, actions[0]), s, actions[1..]);
    }
  }

  /**
   * In every run, whatever is redelivered, lost or crashed in between, the store holds at most one message
   * of this agent under the reply key of a request; the early acknowledgement is never reached; and a request
   * is accepted as completed only after its reply has met that message in the store. Whether the message is
   * the answer depends on what else the agent sends: see `Answering`.
   */
  lemma ExactlyOneAnswer(s: Setup, actions: seq<Action>, w: World)
    requires s.limits.max >= 1 && Feasible(Start, s, actions) && w == Play(Start, s, actions)
    ensures forall id, a, b ::
        Holds(w.ledger.rows, a, s.me, ReplyTo(id)) && Holds(w.ledger.rows, b, s.me, ReplyTo(id)) ==> a == b
    ensures forall t :: t in w.ticks && w.ticks[t].Working? ==> !w.ticks[t].at.EarlyAck?
    ensures forall t :: t in w.ticks && w.ticks[t].Working? && (w.ticks[t].at.DoneAck? || w.ticks[t].at.ReplayAck?) ==>
              w.ticks[t].at.id in w.keyed
    ensures w.completed <= w.keyed
  {
    assert HandlerInv(Start, s);
    RunKeepsHandler(Start, s, actions);
  }
}
