/** The long-poll registry as data: agent -> held pulls in the order they were parked. */
module Registry {
  import opened Messages
  import opened Pulling
  import opened Runs
  import opened Upkeep

  const MAX_WAITERS_PER_AGENT := 16

  /** A held pull request; `answers` lists every time its promise was resolved. */
  datatype Waiter = Waiter(agent: Agent, opts: PullOptions, done: bool, timer: bool, answers: seq<seq<Delivery>>)

  type Waiters = map<Agent, seq<nat>>
  type Entries = map<nat, Waiter>

  function Remove(s: seq<nat>, w: nat): (r: seq<nat>)
    ensures forall x :: x in r <==> x in s && x != w
    ensures |r| <= |s|
  {
    if s == [] then [] else if s[0] == w then Remove(s[1..], w) else [s[0]] + Remove(s[1..], w)
  }

  predicate Distinct(s: seq<nat>) {
    forall i, j :: 0 <= i < j < |s| ==> s[i] != s[j]
  }

  lemma {:induction false} RemoveDistinct(s: seq<nat>, w: nat)
    requires Distinct(s)
    ensures Distinct(Remove(s, w))
    ensures s != [] && s[0] == w ==> Remove(s, w) == s[1..]
  {
    if s != [] {
      RemoveDistinct(s[1..], w);
      if s[0] == w {
        RemoveAbsent(s[1..], w);
      } else {
        var rest := Remove(s[1..], w);
        assert forall j :: 0 <= j < |rest| ==> rest[j] in s[1..];
      }
    }
  }

  lemma {:induction false} RemoveAbsent(s: seq<nat>, w: nat)
    requires w !in s
    ensures Remove(s, w) == s
  {
    if s != [] {
      RemoveAbsent(s[1..], w);
    }
  }

  /** Deregister a held pull; an agent with no held pull left has no set at all. */
  function Without(waiters: Waiters, agent: Agent, w: nat): Waiters {
    if agent !in waiters then waiters
    else if Remove(waiters[agent], w) == [] then waiters - {agent}
    else waiters[agent := Remove(waiters[agent], w)]
  }

  function With(waiters: Waiters, agent: Agent, w: nat): Waiters {
    waiters[agent := (if agent in waiters then waiters[agent] else []) + [w]]
  }

  /**
   * The registry holds exactly the unresolved pulls: no empty sets, at most sixteen per agent, each
   * with its deadline armed, and a pull leaves it when it is resolved, which happens once.
   */
  ghost predicate Registered(waiters: Waiters, entries: Entries) {
    && (forall a :: a in waiters ==> 0 < |waiters[a]| <= MAX_WAITERS_PER_AGENT && Distinct(waiters[a]))
    && (forall a, w :: a in waiters && w in waiters[a] ==> w in entries && !entries[w].done && entries[w].agent == a)
    && (forall w :: w in entries && !entries[w].done ==> entries[w].agent in waiters && w in waiters[entries[w].agent])
    && (forall w :: w in entries ==> entries[w].timer == !entries[w].done)
    && (forall w :: w in entries ==> |entries[w].answers| == if entries[w].done then 1 else 0)
  }

  function Resolve(e: Waiter, messages: seq<Delivery>): Waiter {
    e.(done := true, timer := false, answers := e.answers + [messages])
  }

  lemma SettleKeepsRegistered(waiters: Waiters, entries: Entries, w: nat, messages: seq<Delivery>)
    requires Registered(waiters, entries) && w in entries && !entries[w].done
    ensures Registered(Without(waiters, entries[w].agent, w), entries[w := Resolve(entries[w], messages)])
  {
    RemoveDistinct(waiters[entries[w].agent], w);
  }

  lemma ParkKeepsRegistered(waiters: Waiters, entries: Entries, w: nat, agent: Agent, opts: PullOptions)
    requires Registered(waiters, entries) && w !in entries
    requires agent in waiters ==> |waiters[agent]| < MAX_WAITERS_PER_AGENT
    ensures Registered(With(waiters, agent, w), entries[w := Waiter(agent, opts, false, true, [])])
  {
    var list := if agent in waiters then waiters[agent] else [];
    assert w !in list && Distinct(list);
    assert Distinct(list + [w]);
    hide Distinct;
  }

  /** The registry with the given pulls held for one agent. */
  function WithList(waiters: Waiters, agent: Agent, list: seq<nat>): Waiters {
    if list == [] then waiters - {agent} else waiters[agent := list]
  }

  lemma WithoutHead(waiters: Waiters, agent: Agent)
    requires agent in waiters && waiters[agent] != [] && Distinct(waiters[agent])
    ensures Without(waiters, agent, waiters[agent][0]) == WithList(waiters, agent, waiters[agent][1..])
  {
    RemoveDistinct(waiters[agent], waiters[agent][0]);
  }

  lemma AdvanceList(base: Waiters, agent: Agent, list: seq<nat>, i: nat)
    requires i < |list|
    ensures var cur := WithList(base, agent, list[i..]);
            agent in cur && cur[agent] != [] && cur[agent][0] == list[i]
            && WithList(cur, agent, cur[agent][1..]) == WithList(base, agent, list[i + 1..])
  {
    assert list[i..][1..] == list[i + 1..];
  }

  /** Pulls are only added, a resolved pull never changes again, and an unresolved one has not changed. */
  ghost predicate Progressed(before: Entries, after: Entries) {
    before.Keys <= after.Keys
    && forall w :: w in before ==>
         && (before[w].done || !after[w].done ==> after[w] == before[w])
         && after[w].agent == before[w].agent && after[w].opts == before[w].opts
  }

  lemma ProgressedTrans(a: Entries, b: Entries, c: Entries)
    requires Progressed(a, b) && Progressed(b, c)
    ensures Progressed(a, c)
  {
  }

  lemma ProgressedRefl(entries: Entries)
    ensures Progressed(entries, entries)
  {
  }

  lemma ParkProgresses(before: Entries, now: Entries, w: nat, agent: Agent, opts: PullOptions)
    requires Progressed(before, now) && w !in now
    ensures Progressed(before, now[w := Waiter(agent, opts, false, true, [])])
  {
  }

  lemma RegisteredList(waiters: Waiters, entries: Entries, agent: Agent)
    requires Registered(waiters, entries) && agent in waiters
    ensures waiters[agent] != [] && Distinct(waiters[agent])
  {
  }

  /** The moment a pull was parked: the how-many-th it was, and the ledger of that moment. */
  datatype Moment = Moment(number: nat, ledger: Ledger)

  /** The moment of parking of every pull that was ever held. */
  type ParkedAt = map<nat, Moment>

  // -- turns -------------------------------------------------------------

  predicate Ascending(list: seq<nat>, parkedAt: ParkedAt) {
    forall i, j :: 0 <= i < j < |list| ==>
      list[i] in parkedAt && list[j] in parkedAt && parkedAt[list[i]].number < parkedAt[list[j]].number
  }

  /** Every agent's pulls stand in the order in which they were parked. */
  ghost predicate InTurn(waiters: Waiters, parkedAt: ParkedAt) {
    && (forall w :: w in parkedAt ==> parkedAt[w].number < |parkedAt|)
    && (forall a :: a in waiters ==> Ascending(waiters[a], parkedAt))
  }

  lemma TailAscends(s: seq<nat>, parkedAt: ParkedAt)
    requires s != [] && Ascending(s, parkedAt)
    ensures Ascending(s[1..], parkedAt)
    ensures forall x :: x in s[1..] ==>
              s[0] in parkedAt && x in parkedAt && parkedAt[s[0]].number < parkedAt[x].number
  {
    var tail := s[1..];
    forall i, j | 0 <= i < j < |tail|
      ensures tail[i] in parkedAt && tail[j] in parkedAt && parkedAt[tail[i]].number < parkedAt[tail[j]].number
    {
      assert tail[i] == s[i + 1] && tail[j] == s[j + 1];
    }
    forall x | x in tail
      ensures s[0] in parkedAt && x in parkedAt && parkedAt[s[0]].number < parkedAt[x].number
    {
      var i :| 0 <= i < |tail| && tail[i] == x;
      assert x == s[i + 1];
    }
  }

  lemma {:induction false} RemoveAscends(s: seq<nat>, w: nat, parkedAt: ParkedAt)
    requires Ascending(s, parkedAt)
    ensures Ascending(Remove(s, w), parkedAt)
  {
    if s != [] {
      TailAscends(s, parkedAt);
      RemoveAscends(s[1..], w, parkedAt);
      var rest := Remove(s[1..], w);
      forall j | 0 <= j < |rest|
        ensures s[0] in parkedAt && rest[j] in parkedAt && parkedAt[s[0]].number < parkedAt[rest[j]].number
      {
        assert rest[j] in rest;
      }
    }
  }

  lemma WithoutKeepsTurns(waiters: Waiters, agent: Agent, w: nat, parkedAt: ParkedAt)
    requires InTurn(waiters, parkedAt)
    ensures InTurn(Without(waiters, agent, w), parkedAt)
  {
    hide Ascending;
    if agent in waiters {
      RemoveAscends(waiters[agent], w, parkedAt);
    }
  }

  /** A pull that is parked now comes after all others. */
  lemma ParkKeepsTurns(waiters: Waiters, entries: Entries, parkedAt: ParkedAt, agent: Agent, w: nat, l: Ledger)
    requires InTurn(waiters, parkedAt) && Registered(waiters, entries) && parkedAt.Keys == entries.Keys
    requires w !in entries
    ensures InTurn(With(waiters, agent, w), parkedAt[w := Moment(|parkedAt|, l)])
    ensures forall x :: x in parkedAt ==> parkedAt[x].number < |parkedAt|
  {
    hide Registered, Ascending;
    var next := parkedAt[w := Moment(|parkedAt|, l)];
    assert |next| == |parkedAt| + 1;
    forall a | a in waiters ensures Ascending(waiters[a], next) && Ascending(waiters[a] + [w], next) {
      ParkAscends(waiters, entries, parkedAt, a, w, l);
    }
    OneAscends(w, next);
    assert [] + [w] == [w];
  }

  lemma OneAscends(w: nat, parkedAt: ParkedAt)
    ensures Ascending([w], parkedAt)
  {
  }

  lemma ParkAscends(waiters: Waiters, entries: Entries, parkedAt: ParkedAt, a: Agent, w: nat, l: Ledger)
    requires InTurn(waiters, parkedAt) && Registered(waiters, entries) && parkedAt.Keys == entries.Keys
    requires w !in entries && a in waiters
    ensures var next := parkedAt[w := Moment(|parkedAt|, l)];
            Ascending(waiters[a], next) && Ascending(waiters[a] + [w], next)
  {
    hide Registered, Ascending;
    assert forall x :: x in waiters[a] ==> x in entries by { ListIsKnown(waiters, entries, a); }
    AppendAscends(waiters[a], parkedAt, w, l);
  }

  lemma ListIsKnown(waiters: Waiters, entries: Entries, a: Agent)
    requires Registered(waiters, entries) && a in waiters
    ensures forall x :: x in waiters[a] ==> x in entries
  {
  }

  lemma AppendAscends(list: seq<nat>, parkedAt: ParkedAt, w: nat, l: Ledger)
    requires Ascending(list, parkedAt) && w !in parkedAt
    requires forall x :: x in list ==> x in parkedAt && parkedAt[x].number < |parkedAt|
    ensures var next := parkedAt[w := Moment(|parkedAt|, l)];
            Ascending(list, next) && Ascending(list + [w], next)
  {
    assert forall i :: 0 <= i < |list| ==> list[i] in list;
  }

  lemma DroppedKeepsTurns(waiters: Waiters, agent: Agent, parkedAt: ParkedAt)
    requires InTurn(waiters, parkedAt)
    ensures InTurn(waiters - {agent}, parkedAt)
  {
    hide Ascending;
  }

  /** The pull of an agent that was parked before its other unresolved ones stands first. */
  lemma OldestStandsFirst(waiters: Waiters, entries: Entries, parkedAt: ParkedAt, agent: Agent, w: nat)
    requires Registered(waiters, entries) && InTurn(waiters, parkedAt)
    requires IsOldest(entries, parkedAt, agent, w)
    ensures agent in waiters && waiters[agent] != [] && waiters[agent][0] == w
  {
    var list := waiters[agent];
    var i :| 0 <= i < |list| && list[i] == w;
    assert list[0] in list;
    assert Ascending(list, parkedAt);
  }

  /** The unresolved pull of the agent that was parked before all its other ones. */
  ghost predicate IsOldest(entries: Entries, parkedAt: ParkedAt, agent: Agent, w: nat) {
    && w in entries && w in parkedAt && !entries[w].done && entries[w].agent == agent
    && forall other :: other in entries && other in parkedAt && !entries[other].done
                       && entries[other].agent == agent ==>
         parkedAt[w].number <= parkedAt[other].number
  }

  // -- arrivals ----------------------------------------------------------

  /** The message is for the agent, and has been created or requeued between the two moments. */
  predicate ArrivedSince(parked: Ledger, l: Ledger, agent: Agent, id: Id) {
    && id in l.rows && l.rows[id].env.target == agent && id in l.hist
    && (id in parked.hist ==> Requeues(parked.hist[id]) < Requeues(l.hist[id]))
  }

  ghost predicate NothingArrived(parked: Ledger, l: Ledger, agent: Agent) {
    forall id :: !ArrivedSince(parked, l, agent, id)
  }

  /** No held pull, except perhaps those of one agent, has missed a message that arrived since it was parked. */
  ghost predicate CaughtUp(entries: Entries, parkedAt: ParkedAt, l: Ledger, exempt: Option<Agent>) {
    parkedAt.Keys == entries.Keys
    && forall w :: w in entries && !entries[w].done && exempt != Some(entries[w].agent) ==>
         NothingArrived(parkedAt[w].ledger, l, entries[w].agent)
  }

  /** Sending a message, or requeueing one, keeps everybody but the pulls of its target caught up. */
  lemma ArrivalIsExempt(entries: Entries, parkedAt: ParkedAt, l: Ledger, e: Event, c: Limits, agent: Agent)
    requires CaughtUp(entries, parkedAt, l, None) && l.rows.Keys <= l.hist.Keys
    requires (e.Send? && e.id !in l.hist && e.env.target == agent)
             || (e.Revive? && e.id in l.rows && l.rows[e.id].env.target == agent)
    ensures CaughtUp(entries, parkedAt, Step(l, e, c), Some(agent))
  {
    hide Step, CaughtUp;
    forall parked, other | other != agent && NothingArrived(parked, l, other)
      ensures NothingArrived(parked, Step(l, e, c), other)
    {
      ArrivesForTarget(parked, l, e, c, agent, other);
    }
    NothingNew(entries, parkedAt, l, Step(l, e, c), None, Some(agent));
  }

  lemma ArrivesForTarget(parked: Ledger, l: Ledger, e: Event, c: Limits, agent: Agent, other: Agent)
    requires NothingArrived(parked, l, other) && other != agent && l.rows.Keys <= l.hist.Keys
    requires (e.Send? && e.id !in l.hist && e.env.target == agent)
             || (e.Revive? && e.id in l.rows && l.rows[e.id].env.target == agent)
    ensures NothingArrived(parked, Step(l, e, c), other)
  {
    hide Step, Requeues;
    var next := Step(l, e, c);
    forall id ensures !ArrivedSince(parked, next, other, id) {
      assert !ArrivedSince(parked, l, other, id);
      if e.Send? {
        if Known(l.rows, e.env.origin, e.env.key) {
          SendAgain(l, e.id, e.env, c);
        } else {
          SendIs(l, e.id, e.env, c);
        }
      } else if id in next.rows {
        SingleRequeues(l, e, c, id);
      }
    }
  }

  /** A step after which whatever had not arrived for an agent has not arrived still. */
  lemma NothingNew(entries: Entries, parkedAt: ParkedAt, l: Ledger, next: Ledger, was: Option<Agent>,
                   exempt: Option<Agent>)
    requires CaughtUp(entries, parkedAt, l, was) && (was == exempt || was.None?)
    requires forall parked, agent :: exempt != Some(agent) && NothingArrived(parked, l, agent) ==>
               NothingArrived(parked, next, agent)
    ensures CaughtUp(entries, parkedAt, next, exempt)
  {
    hide NothingArrived;
  }

  /** Acknowledging, renewing, cancelling and marking bring no message to anybody. */
  lemma QuietKeepsCaughtUp(entries: Entries, parkedAt: ParkedAt, l: Ledger, e: Event, c: Limits)
    requires CaughtUp(entries, parkedAt, l, None) && l.rows.Keys <= l.hist.Keys
    requires e.Settle? || e.Extend? || e.Withdraw? || e.Flag?
    ensures CaughtUp(entries, parkedAt, Step(l, e, c), None)
  {
    hide Step, CaughtUp, Requeues;
    var next := Step(l, e, c);
    forall parked, agent | NothingArrived(parked, l, agent) ensures NothingArrived(parked, next, agent) {
      forall id ensures !ArrivedSince(parked, next, agent, id) {
        assert !ArrivedSince(parked, l, agent, id);
        if id in next.rows {
          SingleRequeues(l, e, c, id);
        }
      }
    }
    NothingNew(entries, parkedAt, l, next, None, None);
  }

  /** Nor do pulls and sweeps. */
  lemma HousekeptKeepsCaughtUp(entries: Entries, parkedAt: ParkedAt, l: Ledger, next: Ledger, from: Time, to: Time,
                               exempt: Option<Agent>)
    requires CaughtUp(entries, parkedAt, l, exempt) && Housekept(l, next, from, to)
    ensures CaughtUp(entries, parkedAt, next, exempt)
  {
    hide CaughtUp, Requeues;
    forall parked, agent | NothingArrived(parked, l, agent) ensures NothingArrived(parked, next, agent) {
      forall id ensures !ArrivedSince(parked, next, agent, id) {
        assert !ArrivedSince(parked, l, agent, id);
      }
    }
    NothingNew(entries, parkedAt, l, next, exempt, exempt);
  }

  lemma ParkKeepsCaughtUp(entries: Entries, parkedAt: ParkedAt, l: Ledger, w: nat, agent: Agent, opts: PullOptions)
    requires CaughtUp(entries, parkedAt, l, None) && w !in entries
    ensures parkedAt.Keys == entries.Keys
    ensures CaughtUp(entries[w := Waiter(agent, opts, false, true, [])], parkedAt[w := Moment(|parkedAt|, l)], l, None)
  {
    assert NothingArrived(l, l, agent);
    hide NothingArrived;
  }

  lemma ResolveProgresses(entries: Entries, w: nat, messages: seq<Delivery>)
    requires w in entries && !entries[w].done
    ensures Progressed(entries, entries[w := Resolve(entries[w], messages)])
  {
  }

  lemma ResolveKeepsCaughtUp(entries: Entries, parkedAt: ParkedAt, l: Ledger, w: nat, messages: seq<Delivery>)
    requires w in entries && CaughtUp(entries, parkedAt, l, None)
    ensures CaughtUp(entries[w := Resolve(entries[w], messages)], parkedAt, l, None)
  {
    hide NothingArrived;
  }

  /** Once nobody is parked for the agent any more, everybody is caught up. */
  lemma WokenIsCaughtUp(waiters: Waiters, before: Entries, after: Entries, parkedAt: ParkedAt, l: Ledger, agent: Agent)
    requires CaughtUp(before, parkedAt, l, Some(agent)) && Progressed(before, after) && before.Keys == after.Keys
    requires Registered(waiters, after) && agent !in waiters
    ensures CaughtUp(after, parkedAt, l, None)
  {
    hide NothingArrived;
  }

  // -- shutting down -----------------------------------------------------

  /** Some of the pulls that were held have been answered with nothing, and nothing else has happened. */
  ghost predicate Emptied(before: Entries, after: Entries) {
    before.Keys == after.Keys
    && forall w :: w in before ==> after[w] == before[w] || (!before[w].done && after[w] == Resolve(before[w], []))
  }

  lemma EmptiedOneMore(before: Entries, now: Entries, w: nat)
    requires Emptied(before, now) && w in now && !now[w].done
    ensures Emptied(before, now[w := Resolve(now[w], [])])
  {
  }

  lemma RegisteredHead(waiters: Waiters, entries: Entries, agent: Agent)
    requires Registered(waiters, entries) && agent in waiters
    ensures waiters[agent] != [] && Distinct(waiters[agent])
    ensures waiters[agent][0] in entries && !entries[waiters[agent][0]].done &&
        entries[waiters[agent][0]].agent == agent
  {
    assert waiters[agent][0] in waiters[agent];
  }

  /** With nobody registered, every pull has been answered. */
  lemma AllReleased(waiters: Waiters, before: Entries, after: Entries)
    requires Registered(waiters, after) && Emptied(before, after) && waiters.Keys == {}
    ensures waiters == map[]
    ensures forall w :: w in before ==> after[w] == if before[w].done then before[w] else Resolve(before[w], [])
  {
  }
}
