/**
 * What the receiving side gets done: every message of a batch has its turn, a request is worked on once for
 * each receipt, and with nothing in the way it is answered and completed.
 */
module Handling {
  import opened Messages
  import opened Statements
  import opened Pulling
  import opened Runs
  import opened Safety
  import opened Upkeep
  import opened Handler

  // -- receipts ----------------------------------------------------------

  predicate HasReceipt(w: World, id: Id) {
    id in w.receipts && w.receipts[id] != ""
  }

  /** No turn runs for a request that has a receipt, and what is being answered has one. */
  predicate Recorded(w: World) {
    forall t :: t in w.ticks && w.ticks[t].Working? ==>
      && (w.ticks[t].at.Turn? ==> !HasReceipt(w, w.ticks[t].at.id))
      && (w.ticks[t].at.Answer? || w.ticks[t].at.DoneAck? || w.ticks[t].at.ReplaySend? || w.ticks[t].at.ReplayAck? ==>
            HasReceipt(w, w.ticks[t].at.id))
  }

  lemma BeginRecords(w: World, tick: nat, rest: seq<Message>, stop: bool)
    requires forall t :: t in w.ticks ==> t == tick
    ensures Recorded(Begin(w, tick, rest, stop))
  {
  }

  /** No step starts a turn for a request that has a receipt, or answers one that has none. */
  lemma ActKeepsRecorded(w: World, s: Setup, a: Action)
    requires HandlerInv(w, s) && Allowed(w, s, a) && Recorded(w)
    ensures Recorded(Act(w, s, a))
  {
    hide Step, Inv, Stored, Answered, AckError, ReplyTaken, Begin, Batch, Resume, Recorded, Serial;
    match a
    case Resumes(tick, r) =>
      SerialFacts(w, tick);
      ResumeKeepsRecorded(w, s, tick, r);
      Untouched(Resume(w, s, tick, w.ticks[tick].at, r), Act(w, s, a));
    case PullAnswered(tick, at, opts, stop) =>
      SerialFacts(w, tick);
      BeginRecords(w.(ledger := Step(w.ledger, Poll(s.me, at, opts), s.limits)), tick,
                   Batch(w.ledger, s.me, at, opts, s.limits), stop);
      Untouched(Move(w, s, a), Act(w, s, a));
    case PullFailed(tick, executed, at, opts) =>
      SerialFacts(w, tick);
      BeginRecords(if executed then w.(ledger := Step(w.ledger, Poll(s.me, at, opts), s.limits)) else w,
                   tick, [], true);
      Untouched(Move(w, s, a), Act(w, s, a));
    case TickBegins(tick) => PollingRecords(w, tick);
      Untouched(Move(w, s, a), Act(w, s, a));
    case Crash(_) => IdleRecords(Move(w, s, a));
      Untouched(Move(w, s, a), Act(w, s, a));
    case Elsewhere(_) => Untouched(w, Act(w, s, a));
  }

  lemma Untouched(w: World, next: World)
    requires Recorded(w) && next.ticks == w.ticks && next.receipts == w.receipts
    ensures Recorded(next)
  {
  }

  lemma IdleRecords(w: World)
    requires w.ticks == map[]
    ensures Recorded(w)
  {
  }

  lemma PollingRecords(w: World, tick: nat)
    requires Recorded(w)
    ensures Recorded(if w.busy then w else w.(busy := true, ticks := w.ticks[tick := Polling]))
  {
  }

  lemma ResumeKeepsRecorded(w: World, s: Setup, tick: nat, r: Result)
    requires Allowed(w, s, Resumes(tick, r)) && Recorded(w)
    requires forall t :: t in w.ticks ==> t == tick
    ensures Recorded(Resume(w, s, tick, w.ticks[tick].at, r))
  {
    hide Step, AckError, ReplyTaken, Begin, AckStep;
    var at, rest := w.ticks[tick].at, w.ticks[tick].rest;
    AckTouchesNothing(w, s, at.id, Done, r);
    AckTouchesNothing(w, s, at.id, Retry, r);
    var done, retry := AckStep(w, s, at.id, Done, r), AckStep(w, s, at.id, Retry, r);
    BeginRecords(done, tick, rest, r.stop);
    BeginRecords(retry, tick, rest, r.stop);
    BeginRecords(AckReply(w, s, at.id, r), tick, rest, r.stop);
    BeginRecords(done.(inFlight := done.inFlight - {at.id}), tick, rest, r.stop);
    BeginRecords(retry.(inFlight := retry.inFlight - {at.id}), tick, rest, r.stop);
  }

  lemma AckTouchesNothing(w: World, s: Setup, id: Id, outcome: Outcome, r: Result)
    ensures var next := AckStep(w, s, id, outcome, r);
            next.ticks == w.ticks && next.receipts == w.receipts && next.inFlight == w.inFlight && next.busy == w.busy
  {
    hide Step, AckError;
  }

  /**
   * In every run, whatever is redelivered, lost or crashed in between: while the receipt of a request is
   * kept no turn runs for it again, and a reply is only ever sent for a request that has one.
   */
  lemma {:induction false} OneTurnPerReceipt(w: World, s: Setup, actions: seq<Action>)
    requires HandlerInv(w, s) && Recorded(w) && Feasible(w, s, actions)
    ensures Recorded(Play(w, s, actions)) && HandlerInv(Play(w, s, actions), s)
    decreases |actions|
  {
    hide HandlerInv, Recorded, Act, Allowed;
    if actions != [] {
      ActKeeps(w, s, actions[0]);
      ActKeepsRecorded(w, s, actions[0]);
      OneTurnPerReceipt(Act(w, s, actions[0]), s, actions[1..]);
    }
  }

  // -- one message after the other ---------------------------------------

  /** The await ends the handling of its message. */
  predicate Ends(at: Await, r: Result) {
    at.RetryAck? || at.FailAck? || (r.ok && (at.ReplayAck? || at.EarlyAck? || at.DoneAck? || at.OtherAck?))
  }

  /** The first await of a message: a reply is acknowledged, a request answered from its receipt or worked on. */
  predicate StartsWith(w: World, m: Message, at: Await) {
    at.id == m.id
    && (m.kind == Kind.Reply ==> at.OtherAck?)
    && (m.kind == Kind.Request && HasReceipt(w, m.id) ==> at.ReplaySend?)
    && (m.kind == Kind.Request && !HasReceipt(w, m.id) ==> at.Turn? || at.EarlyAck?)
  }

  /** The tick goes on with the first of the given messages, or is over if there is none or the worker stops. */
  predicate TakesUp(w: World, next: World, tick: nat, rest: seq<Message>, stop: bool) {
    if rest == [] || stop then next.ticks == w.ticks - {tick} && !next.busy
    else
      && tick in next.ticks && next.ticks == w.ticks[tick := next.ticks[tick]] && next.busy == w.busy
      && next.ticks[tick].Working? && next.ticks[tick].rest == rest[1..]
      && StartsWith(w, rest[0], next.ticks[tick].at)
  }

  lemma BeginTakesUp(w: World, tick: nat, rest: seq<Message>, stop: bool)
    ensures TakesUp(w, Begin(w, tick, rest, stop), tick, rest, stop)
  {
  }

  /** A batch is what the pull hands out, message by message. */
  lemma BatchIsHandedOut(l: Ledger, me: Agent, at: Time, opts: PullOptions, c: Limits)
    ensures var ids := Chosen(Sweep(l.rows, at, c.max), me, at, opts, c.max);
            var after := Pulled(l.rows, me, at, opts, c.max, c.lease, l.draw);
            && (forall i :: 0 <= i < |ids| ==> ids[i] in after)
            && |Batch(l, me, at, opts, c)| == |Records(after, ids)|
            && forall i :: 0 <= i < |ids| ==>
                 Batch(l, me, at, opts, c)[i] == Message(Records(after, ids)[i].id, Records(after, ids)[i].row.env.kind)
  {
    hide Sweep, Chosen, Claim;
    var swept := Sweep(l.rows, at, c.max);
    ClaimEffect(swept, Chosen(swept, me, at, opts, c.max), PullUntil(at, opts, c.lease), l.draw);
  }

  /** A batch that has arrived is worked off from its first message on. */
  lemma BatchIsTakenUp(w: World, s: Setup, tick: nat, at: Time, opts: PullOptions, stop: bool)
    requires Allowed(w, s, PullAnswered(tick, at, opts, stop))
    ensures TakesUp(w, Move(w, s, PullAnswered(tick, at, opts, stop)), tick,
                    Batch(w.ledger, s.me, at, opts, s.limits), stop)
  {
    hide Step, Batch, Begin;
    BeginTakesUp(w.(ledger := Step(w.ledger, Poll(s.me, at, opts), s.limits)), tick,
                 Batch(w.ledger, s.me, at, opts, s.limits), stop);
  }

  /**
   * Handling goes on: an await that does not end its message leads to the next await of the same message,
   * and one that does leads to the next message of the batch; none is left out.
   */
  lemma HandlingGoesOn(w: World, s: Setup, tick: nat, r: Result)
    requires Allowed(w, s, Resumes(tick, r))
    ensures var next, at, rest := Resume(w, s, tick, w.ticks[tick].at, r), w.ticks[tick].at, w.ticks[tick].rest;
            if Ends(at, r) then TakesUp(w, next, tick, rest, r.stop)
            else
              && tick in next.ticks && next.ticks == w.ticks[tick := next.ticks[tick]] && next.busy == w.busy
              && next.ticks[tick].Working? && next.ticks[tick].rest == rest && next.ticks[tick].at.id == at.id
  {
    hide Step, AckError, ReplyTaken, Begin, AckStep, StartsWith, TakesUp;
    var at, rest := w.ticks[tick].at, w.ticks[tick].rest;
    if Ends(at, r) {
      MessageEnds(w, s, tick, r);
    } else {
      AckTouchesNothing(w, s, at.id, Done, r);
    }
  }

  lemma MessageEnds(w: World, s: Setup, tick: nat, r: Result)
    requires Allowed(w, s, Resumes(tick, r)) && Ends(w.ticks[tick].at, r)
    ensures TakesUp(w, Resume(w, s, tick, w.ticks[tick].at, r), tick, w.ticks[tick].rest, r.stop)
  {
    hide Step, AckError, ReplyTaken, Begin, AckStep, StartsWith, TakesUp;
    var at, rest := w.ticks[tick].at, w.ticks[tick].rest;
    var outcome := if at.RetryAck? || at.FailAck? then Retry else Done;
    AckTouchesNothing(w, s, at.id, outcome, r);
    var acked := AckStep(w, s, at.id, outcome, r);
    var next := if at.OtherAck? then AckReply(w, s, at.id, r)
      else if at.RetryAck? || at.DoneAck? then acked.(inFlight := acked.inFlight - {at.id}) else acked;
    assert Resume(w, s, tick, at, r) == Begin(next, tick, rest, r.stop);
    BeginTakesUp(next, tick, rest, r.stop);
    SameTakesUp(w, next, Begin(next, tick, rest, r.stop), tick, rest, r.stop);
  }

  lemma SameTakesUp(w: World, same: World, next: World, tick: nat, rest: seq<Message>, stop: bool)
    requires TakesUp(same, next, tick, rest, stop)
    requires same.ticks == w.ticks && same.busy == w.busy && same.receipts == w.receipts
    ensures TakesUp(w, next, tick, rest, stop)
  {
  }

  // -- one request -------------------------------------------------------

  /** A tick that is not under way starts with a pull. */
  lemma TickStarts(w: World, s: Setup, tick: nat)
    requires Allowed(w, s, TickBegins(tick)) && !w.busy
    ensures var next := Move(w, s, TickBegins(tick));
            next.busy && next.ticks == w.ticks[tick := Polling]
  {
  }

  /**
   * With nothing in the way a request is done: once its turn has ended well, its reply has been taken and
   * the acknowledgement accepted, it is completed in the store, its receipt holds the text, and the text has
   * been stored as an answer under the reply's key unless that was taken.
   */
  lemma RequestSucceeds(w: World, s: Setup, tick: nat, turn: Result, answer: Result, done: Result)
    requires HandlerInv(w, s) && Allowed(w, s, Resumes(tick, turn)) && w.ticks[tick].at.Turn?
    requires turn.ok && answer.ok && done.ok
    requires var afterTurn := Move(w, s, Resumes(tick, turn));
             && Allowed(afterTurn, s, Resumes(tick, answer))
             && Allowed(Move(afterTurn, s, Resumes(tick, answer)), s, Resumes(tick, done))
    ensures var id := w.ticks[tick].at.id;
            var replied := Move(Move(w, s, Resumes(tick, turn)), s, Resumes(tick, answer));
            var end := Move(replied, s, Resumes(tick, done));
            && id in end.receipts && end.receipts[id] == turn.text && id in end.completed
            && id in end.ledger.rows && end.ledger.rows[id].status == Completed
            && (!Known(w.ledger.rows, s.me, ReplyTo(id)) ==>
                  answer.replyId in replied.ledger.rows && id in replied.ledger.rows
                  && AnswerTo(replied.ledger.rows[answer.replyId].env, id, replied.ledger.rows[id].env)
                  && replied.ledger.rows[answer.replyId].env.body == turn.text)
  {
    hide Inv, Serial, Stored, Answered, Step, AckError, Begin, Known;
    AllAreKnown(w.ledger, s.limits);
    var id := w.ticks[tick].at.id;
    var afterTurn := Move(w, s, Resumes(tick, turn));
    assert afterTurn.ticks[tick].at == Answer(id) && afterTurn.ledger == w.ledger;
    var replied := Move(afterTurn, s, Resumes(tick, answer));
    assert replied.ticks[tick].at == DoneAck(id);
    ReplyIsStored(w.ledger, answer, id, s);
    var acked := AckStep(replied, s, id, Done, done);
    AckCompletes(replied.ledger, id, s, done);
    BeginKeepsOutcome(acked.(inFlight := acked.inFlight - {id}), tick, replied.ticks[tick].rest, done.stop);
  }

  /** A crash ends whatever was under way; the receipts it has kept say what they said. */
  lemma CrashKeepsReceipts(w: World, s: Setup, kept: set<Id>)
    requires Allowed(w, s, Crash(kept))
    ensures var next := Move(w, s, Crash(kept));
            && next.ticks == map[] && !next.busy && next.inFlight == {} && next.ledger == w.ledger
            && (forall id :: HasReceipt(next, id) <==> id in kept && HasReceipt(w, id))
            && (forall id :: id in kept ==> next.receipts[id] == w.receipts[id])
  {
  }

  /**
   * A request that has a receipt is done without another turn: once the text of the receipt has been taken
   * as its reply and the acknowledgement accepted, it is completed.
   */
  lemma ReplaySucceeds(w: World, s: Setup, tick: nat, answer: Result, done: Result)
    requires HandlerInv(w, s) && Allowed(w, s, Resumes(tick, answer)) && w.ticks[tick].at.ReplaySend?
    requires answer.ok && done.ok && Allowed(Move(w, s, Resumes(tick, answer)), s, Resumes(tick, done))
    ensures var id := w.ticks[tick].at.id;
            var replied := Move(w, s, Resumes(tick, answer));
            var end := Move(replied, s, Resumes(tick, done));
            && end.receipts == w.receipts && id in end.receipts && id in end.completed
            && id in end.ledger.rows && end.ledger.rows[id].status == Completed
            && (!Known(w.ledger.rows, s.me, ReplyTo(id)) ==>
                  answer.replyId in replied.ledger.rows && id in replied.ledger.rows
                  && AnswerTo(replied.ledger.rows[answer.replyId].env, id, replied.ledger.rows[id].env)
                  && replied.ledger.rows[answer.replyId].env.body == w.receipts[id])
  {
    hide Inv, Serial, Stored, Answered, Step, AckError, Begin, Known;
    AllAreKnown(w.ledger, s.limits);
    var id := w.ticks[tick].at.id;
    var replied := Move(w, s, Resumes(tick, answer));
    assert replied.ticks[tick].at == ReplayAck(id);
    ReplyIsStored(w.ledger, answer, id, s);
    AckCompletes(replied.ledger, id, s, done);
    BeginKeepsOutcome(AckStep(replied, s, id, Done, done), tick, replied.ticks[tick].rest, done.stop);
  }

  lemma ReplyIsStored(l: Ledger, r: Result, id: Id, s: Setup)
    requires id in l.rows && r.replyId !in l.hist && l.rows.Keys <= l.hist.Keys && r.reply.origin == s.me
    requires r.reply.key == ReplyTo(id)
    ensures !Known(l.rows, s.me, ReplyTo(id)) ==>
              var next := Step(l, Send(r.replyId, r.reply), s.limits);
              && r.replyId in next.rows && next.rows[r.replyId].env == r.reply
              && id in next.rows && next.rows[id].env == l.rows[id].env
  {
    if !Known(l.rows, s.me, ReplyTo(id)) {
      SendIs(l, r.replyId, r.reply, s.limits);
    }
  }

  lemma AckCompletes(l: Ledger, id: Id, s: Setup, r: Result)
    requires AckError(l.rows, id, s.me, Done, r.at, None).None?
    ensures var next := Step(l, Settle(id, s.me, Done, "", r.at, None), s.limits);
            id in next.rows && next.rows[id].status == Completed
  {
  }

  lemma BeginKeepsOutcome(w: World, tick: nat, rest: seq<Message>, stop: bool)
    ensures var next := Begin(w, tick, rest, stop);
            next.ledger == w.ledger && next.completed == w.completed && next.receipts == w.receipts
  {
  }

  /** A turn that fails gives the request back: to the queue, or to the failed ones if it was the last attempt. */
  lemma FailedTurnGoesBack(w: World, s: Setup, tick: nat, turn: Result, retry: Result)
    requires Allowed(w, s, Resumes(tick, turn)) && w.ticks[tick].at.Turn? && !turn.ok
    requires var failed := Move(w, s, Resumes(tick, turn));
             Allowed(failed, s, Resumes(tick, retry)) && retry.executed
    requires var id := w.ticks[tick].at.id;
             id in w.ledger.rows && w.ledger.rows[id].env.target == s.me && w.ledger.rows[id].status == Leased
    ensures var id := w.ticks[tick].at.id;
            var end := Move(Move(w, s, Resumes(tick, turn)), s, Resumes(tick, retry));
            && end.receipts == w.receipts && end.completed == w.completed && id in end.ledger.rows
            && end.ledger.rows[id].status == if w.ledger.rows[id].attempts < s.limits.max then Queued else Failed
  {
    hide Begin, Step, AckError, ReplyTaken;
    var id := w.ticks[tick].at.id;
    var failed := Move(w, s, Resumes(tick, turn));
    assert failed.ticks[tick].at == RetryAck(id) && failed.ledger == w.ledger;
    RetryGivesBack(w.ledger, id, s, retry);
    var acked := AckStep(failed, s, id, Retry, retry);
    BeginKeepsOutcome(acked.(inFlight := acked.inFlight - {id}), tick, failed.ticks[tick].rest, retry.stop);
  }

  lemma RetryGivesBack(l: Ledger, id: Id, s: Setup, r: Result)
    requires id in l.rows && l.rows[id].env.target == s.me && l.rows[id].status == Leased
    ensures var next := Step(l, Settle(id, s.me, Retry, "", r.at, None), s.limits);
            && id in next.rows
            && next.rows[id].status == if l.rows[id].attempts < s.limits.max then Queued else Failed
  {
  }
}
