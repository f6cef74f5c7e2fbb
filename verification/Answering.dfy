/**
 * Whether a request that is accepted as completed has been answered. The broker takes any idempotency key from
 * the agent it authenticates, and a reply whose key is taken is dropped without the sender being told.
 */
module Answering {
  import opened Messages
  import opened Statements
  import opened Pulling
  import opened Runs
  import opened Safety
  import opened Upkeep
  import opened Handler

  // -- one reply ---------------------------------------------------------

  /**
   * A reply that reaches the broker leaves an answer in the store exactly if its key was free, or what
   * stands under it is an answer already. If the key is taken, nothing is stored.
   */
  lemma AnswerStoredIff(w: World, s: Setup, id: Id, r: Result)
    requires Inv(w.ledger, s.limits) && r.executed && ReplyTaken(w, s, id, r)
    ensures var l, next, request := w.ledger, ReplyStep(w, s, r).ledger, w.ledger.rows[id].env;
            && (AnswerStored(next.rows, id, request) <==>
                  !Known(l.rows, s.me, ReplyTo(id)) || AnswerStored(l.rows, id, request))
            && (if Known(l.rows, s.me, ReplyTo(id)) then next == l
                else next.rows == l.rows[r.replyId := Fresh(r.reply)])
  {
    if !Known(w.ledger.rows, s.me, ReplyTo(id)) {
      assert AnswerTo(ReplyStep(w, s, r).ledger.rows[r.replyId].env, id, w.ledger.rows[id].env);
    }
  }

  // -- whole runs --------------------------------------------------------

  /** Outside the handler, this agent sends something else than a reply to `id` under that reply's key. */
  predicate Plants(s: Setup, a: Action, id: Id) {
    && a.Elsewhere? && a.event.Send? && a.event.env.origin == s.me && a.event.env.key == ReplyTo(id)
    && !(a.event.env.kind == Kind.Reply && a.event.env.parent == Some(id))
  }

  /** What an action has the broker do. */
  function Demand(w: World, s: Setup, a: Action): Option<Event>
    requires Allowed(w, s, a)
  {
    match a
    case TickBegins(_) => None
    case Crash(_) => None
    case Elsewhere(e) => Some(e)
    case PullAnswered(_, at, opts, _) => Some(Poll(s.me, at, opts))
    case PullFailed(_, executed, at, opts) => if executed then Some(Poll(s.me, at, opts)) else None
    case Resumes(tick, r) =>
      var at := w.ticks[tick].at;
      if !r.executed || at.Turn? then None
      else if at.ReplaySend? || at.Answer? then Some(Send(r.replyId, r.reply))
      else Some(Settle(at.id, s.me, if at.RetryAck? || at.FailAck? then Retry else Done, "", r.at, None))
  }

  /** A world with the same two records, in which the broker has done what was demanded. */
  ghost predicate Demanded(w: World, s: Setup, demand: Option<Event>, next: World) {
    && next.ledger == (if demand.None? then w.ledger else Step(w.ledger, demand.value, s.limits))
    && next.keyed == w.keyed && next.answered == w.answered
  }

  lemma AckDemands(w: World, s: Setup, id: Id, outcome: Outcome, r: Result)
    ensures Demanded(w, s, if r.executed then Some(Settle(id, s.me, outcome, "", r.at, None)) else None,
                     AckStep(w, s, id, outcome, r))
    ensures AckStep(w, s, id, outcome, r).ticks == w.ticks
  {
    hide Step, AckError;
  }

  lemma BeginFrame(w: World, tick: nat, rest: seq<Message>, stop: bool)
    ensures Begin(w, tick, rest, stop).ledger == w.ledger
    ensures Begin(w, tick, rest, stop).keyed == w.keyed && Begin(w, tick, rest, stop).answered == w.answered
  {
  }

  lemma ResumeDemands(w: World, s: Setup, tick: nat, r: Result)
    requires Allowed(w, s, Resumes(tick, r))
    ensures Demanded(w, s, Demand(w, s, Resumes(tick, r)), Resume(w, s, tick, w.ticks[tick].at, r))
  {
    hide Step, AckError, ReplyTaken, Begin, AckStep;
    var at, rest := w.ticks[tick].at, w.ticks[tick].rest;
    AckDemands(w, s, at.id, Done, r);
    AckDemands(w, s, at.id, Retry, r);
    var done, retry := AckStep(w, s, at.id, Done, r), AckStep(w, s, at.id, Retry, r);
    BeginFrame(done, tick, rest, r.stop);
    BeginFrame(retry, tick, rest, r.stop);
    BeginFrame(AckReply(w, s, at.id, r), tick, rest, r.stop);
    BeginFrame(done.(inFlight := done.inFlight - {at.id}), tick, rest, r.stop);
    BeginFrame(retry.(inFlight := retry.inFlight - {at.id}), tick, rest, r.stop);
  }

  lemma MoveIsDemand(w: World, s: Setup, a: Action)
    requires Allowed(w, s, a)
    ensures Demanded(w, s, Demand(w, s, a), Move(w, s, a))
  {
    hide Step, Batch, Resume, AckError, ReplyTaken, Begin, Routed;
    match a {
      case Resumes(tick, r) => ResumeDemands(w, s, tick, r);
      case PullAnswered(tick, at, opts, stop) =>
        var polled := w.(ledger := Step(w.ledger, Poll(s.me, at, opts), s.limits));
        BeginFrame(polled, tick, Batch(w.ledger, s.me, at, opts, s.limits), stop);
      case PullFailed(tick, executed, at, opts) =>
        BeginFrame(w.(ledger := Step(w.ledger, Poll(s.me, at, opts), s.limits)), tick, [], true);
        BeginFrame(w, tick, [], true);
      case _ =>
    }
  }

  /** Whatever stands under the key of the reply to `id`, the request has been answered. */
  ghost predicate Genuine(w: World, s: Setup, id: Id) {
    && (forall n :: Holds(w.ledger.rows, n, s.me, ReplyTo(id)) ==> id in w.answered)
    && (id in w.keyed ==> id in w.answered)
  }

  /** A reply to `id` that is sent under its key answers it. */
  lemma SentIsAnswer(l: Ledger, e: Event, c: Limits, me: Agent, id: Id)
    requires e.Send? && e.id !in l.hist && l.rows.Keys <= l.hist.Keys && Routed(l.rows, e.env)
    requires e.env.origin == me && e.env.key == ReplyTo(id) && e.env.kind == Kind.Reply && e.env.parent == Some(id)
    requires Step(l, e, c).rows == l.rows[e.id := Fresh(e.env)]
    ensures id in Answered(Step(l, e, c).rows, me)
  {
    hide Step;
    var next := Step(l, e, c).rows;
    assert AnswerTo(next[e.id].env, id, next[id].env);
  }

  lemma DemandIsRouted(w: World, s: Setup, a: Action, id: Id)
    requires Allowed(w, s, a) && !Plants(s, a, id) && Demand(w, s, a).Some? && Demand(w, s, a).value.Send?
    ensures var e := Demand(w, s, a).value;
            && e.id !in w.ledger.hist && Routed(w.ledger.rows, e.env)
            && (e.env.origin == s.me && e.env.key == ReplyTo(id) ==>
                  e.env.kind == Kind.Reply && e.env.parent == Some(id))
  {
  }

  /** Unless it plants a message there, a step keeps what stands under the reply's key genuine. */
  lemma ActKeepsGenuine(w: World, s: Setup, a: Action, id: Id)
    requires HandlerInv(w, s) && Allowed(w, s, a) && !Plants(s, a, id) && Genuine(w, s, id)
    ensures Genuine(Act(w, s, a), s, id)
  {
    hide Step, Serial, Inv, Move, Routed, Answered, Demand, Plants, Allowed;
    MoveIsDemand(w, s, a);
    AllAreKnown(w.ledger, s.limits);
    var next := Act(w, s, a);
    forall n | Holds(next.ledger.rows, n, s.me, ReplyTo(id)) ensures id in next.answered {
      if Demand(w, s, a).None? {
        assert Holds(w.ledger.rows, n, s.me, ReplyTo(id));
      } else {
        var e := Demand(w, s, a).value;
        StepStores(w.ledger, e, s.limits, n);
        if n in w.ledger.rows && next.ledger.rows[n].env == w.ledger.rows[n].env {
          assert Holds(w.ledger.rows, n, s.me, ReplyTo(id));
        } else {
          DemandIsRouted(w, s, a, id);
          SentIsAnswer(w.ledger, e, s.limits, s.me, id);
        }
      }
    }
  }

  lemma {:induction false} RunKeepsGenuine(w: World, s: Setup, actions: seq<Action>, id: Id)
    requires HandlerInv(w, s) && Genuine(w, s, id) && Feasible(w, s, actions)
    requires forall i :: 0 <= i < |actions| ==> !Plants(s, actions[i], id)
    ensures HandlerInv(Play(w, s, actions), s) && Genuine(Play(w, s, actions), s, id)
    decreases |actions|
  {
    if actions != [] {
      hide HandlerInv, Genuine, Act, Plants;
      ActKeeps(w, s, actions[0]);
      ActKeepsGenuine(w, s, actions[0], id);
      RunKeepsGenuine(Act(w, s, actions[0]), s, actions[1..], id);
    }
  }

  /** A request is recorded as answered only when the run has led to a table that holds it and its answer. */
  lemma {:induction false} AnsweredOnTheWay(w: World, s: Setup, actions: seq<Action>, id: Id) returns (k: nat)
    requires Feasible(w, s, actions) && id in Play(w, s, actions).answered && id !in w.answered
    ensures k <= |actions| && Feasible(w, s, actions[..k])
    ensures id in Answered(Play(w, s, actions[..k]).ledger.rows, s.me)
    decreases |actions|
  {
    hide Allowed, Answered, Move;
    var next := Act(w, s, actions[0]);
    if id in next.answered {
      k := 1;
      MoveIsDemand(w, s, actions[0]);
      assert actions[..1] == [actions[0]];
      assert actions[..1][1..] == [];
    } else {
      k := AnsweredOnTheWay(next, s, actions[1..], id);
      k := k + 1;
      assert actions[..k][1..] == actions[1..][..k - 1];
    }
  }

  /**
   * Completed means answered: if this agent sends nothing but replies to a request under the key of the
   * reply to it, then whatever is redelivered, lost or crashed in between, the request is accepted as
   * completed only after a reply to it that mirrors it was in the table together with it.
   */
  lemma CompletedIsAnswered(s: Setup, actions: seq<Action>, w: World, id: Id) returns (k: nat)
    requires s.limits.max >= 1 && Feasible(Start, s, actions) && w == Play(Start, s, actions)
    requires forall i :: 0 <= i < |actions| ==> !Plants(s, actions[i], id)
    requires id in w.completed
    ensures id in w.answered
    ensures k <= |actions| && Feasible(Start, s, actions[..k])
    ensures id in Answered(Play(Start, s, actions[..k]).ledger.rows, s.me)
  {
    hide Feasible, Play, Plants, Answered;
    assert HandlerInv(Start, s) && Genuine(Start, s, id);
    RunKeepsGenuine(Start, s, actions, id);
    k := AnsweredOnTheWay(Start, s, actions, id);
  }
}
