/** What a pull delivers, and why nobody else's housekeeping or pulling can change it. */
module Inbox {
  import opened Messages
  import opened Statements
  import opened Pulling

  // -- the claim loop against its specification --------------------------

  /**
   * A pull returns the first min(limit, n) of the n ready messages: no ready message it leaves
   * behind comes before one it takes, none is taken twice, and it stops early only for lack of more.
   */
  lemma PullTakesTheOldest(swept: Rows, target: Agent, now: Time, opts: PullOptions, max: nat)
    ensures var ids := Chosen(swept, target, now, opts, max);
            var ready := ReadyIds(swept, target, now, max, WantedRoot(opts.matchRoot));
            && |ids| == (if |ready| <= Wanted(opts.limit) then |ready| else Wanted(opts.limit))
            && Ordered(swept, ids)
            && (forall id :: id in ids ==> id in ready)
            && (forall i, id :: 0 <= i < |ids| && id in ready && id !in ids ==> Before(swept, ids[i], id))
  {
    var order := PlanClaims(swept, target, now, opts, max);
    var ids := Chosen(swept, target, now, opts, max);
    var ready := ReadyIds(swept, target, now, max, WantedRoot(opts.matchRoot));
    DeliveryOrderLists(swept, ready);
    OrderIsUnique(swept, ready, order);
    forall i, id | 0 <= i < |ids| && id in ready && id !in ids ensures Before(swept, ids[i], id) {
      var j :| 0 <= j < |order| && order[j] == id;
      assert forall k :: 0 <= k < |ids| ==> ids[k] == order[k] && ids[k] in ids;
    }
  }

  // -- a pull in terms of the columns ------------------------------------

  /** Queued for the agent, and in the conversation asked for, if one is. */
  predicate WaitsFor(r: Row, target: Agent, matchRoot: string) {
    r.status == Queued && r.env.target == target && (matchRoot == "" || r.env.root == matchRoot)
  }

  predicate Earlier(rows: Rows, a: Id, b: Id)
    requires a in rows && b in rows
  {
    var x, y := rows[a].env.created, rows[b].env.created;
    if x == y then a < b else x < y
  }

  predicate Hands(out: seq<Delivery>, id: Id) {
    exists i :: 0 <= i < |out| && out[i].id == id
  }

  /**
   * The messages handed out are the oldest that wait for the agent, in order: of all that wait in the
   * swept table, each is handed out, or `n` messages are and all of them are older.
   */
  ghost predicate TakesOldest(swept: Rows, out: seq<Delivery>, target: Agent, matchRoot: string, n: nat) {
    && |out| <= n
    && (forall i :: 0 <= i < |out| ==> out[i].id in swept && WaitsFor(swept[out[i].id], target, matchRoot))
    && (forall i, j :: 0 <= i < j < |out| ==> Earlier(swept, out[i].id, out[j].id))
    && (forall id :: id in swept && WaitsFor(swept[id], target, matchRoot) && !Hands(out, id) ==>
          |out| == n && forall i :: 0 <= i < |out| ==> Earlier(swept, out[i].id, id))
  }

  /**
   * Each message handed out is leased until the given time under a token of its own, with one attempt
   * more, and handed out as it is stored then; the rest of the swept table is as it was.
   */
  ghost predicate LeasesOut(swept: Rows, after: Rows, out: seq<Delivery>, until: Time, draw: Token) {
    && after.Keys == swept.Keys
    && (forall i :: 0 <= i < |out| ==>
          && out[i].id in swept && out[i].row == after[out[i].id]
          && out[i].row == swept[out[i].id].(status := Leased, attempts := swept[out[i].id].attempts + 1,
                                             leaseUntil := Some(until), token := Some(draw + i)))
    && (forall id :: id in swept && !Hands(out, id) ==> after[id] == swept[id])
  }

  /** What a sweep leaves queued has neither expired nor used up its attempts. */
  lemma QueuedIsReady(rows: Rows, now: Time, max: nat, id: Id)
    requires id in Sweep(rows, now, max) && Sweep(rows, now, max)[id].status == Queued
    ensures Sweep(rows, now, max)[id].env.expires >= now && Sweep(rows, now, max)[id].attempts < max
  {
  }

  lemma WaitingIsReady(rows: Rows, target: Agent, now: Time, matchRoot: string, max: nat, id: Id)
    requires id in Sweep(rows, now, max)
    ensures var r := Sweep(rows, now, max)[id];
            Ready(r, target, now, max, WantedRoot(matchRoot)) <==> WaitsFor(r, target, matchRoot)
  {
    hide Sweep;
    if Sweep(rows, now, max)[id].status == Queued {
      QueuedIsReady(rows, now, max, id);
    }
  }

  /** A pull hands out the oldest messages that wait for it. */
  lemma PullMissesNothing(rows: Rows, target: Agent, now: Time, opts: PullOptions, max: nat, lease: real, draw: Token)
    ensures var swept, after := Sweep(rows, now, max), Pulled(rows, target, now, opts, max, lease, draw);
            var ids := Chosen(swept, target, now, opts, max);
            && (forall i :: 0 <= i < |ids| ==> ids[i] in after)
            && TakesOldest(swept, Records(after, ids), target, opts.matchRoot,
                           if opts.limit == 0 then 8 else if opts.limit < 1 then 1 else opts.limit)
            && LeasesOut(swept, after, Records(after, ids),
                         now + (if opts.leaseSeconds.Some? then opts.leaseSeconds.value else lease), draw)
  {
    hide Sweep, Ready, Chosen, Pulled, WaitsFor;
    var swept, after := Sweep(rows, now, max), Pulled(rows, target, now, opts, max, lease, draw);
    var ids := Chosen(swept, target, now, opts, max);
    PullTakesTheOldest(swept, target, now, opts, max);
    PullChangesOnlyItsClaims(rows, target, now, opts, max, lease, draw);
    var out, ready := Records(after, ids), ReadyIds(swept, target, now, max, WantedRoot(opts.matchRoot));
    RecordsHand(after, ids);
    forall id | id in swept ensures id in ready <==> WaitsFor(swept[id], target, opts.matchRoot) {
      WaitingIsReady(rows, target, now, opts.matchRoot, max, id);
    }
    ShorterMeansAll(swept, ids, ready);
    OldestAreTaken(swept, after, ids, ready, target, opts.matchRoot, Wanted(opts.limit));
  }

  lemma RecordsHand(after: Rows, ids: seq<Id>)
    requires forall i :: 0 <= i < |ids| ==> ids[i] in after
    ensures var out := Records(after, ids);
            |out| == |ids| && (forall i :: 0 <= i < |ids| ==> out[i].id == ids[i] && out[i].row == after[ids[i]])
            && forall id :: Hands(out, id) <==> id in ids
  {
    var out := Records(after, ids);
    forall id | id in ids ensures Hands(out, id) {
      var i :| 0 <= i < |ids| && ids[i] == id;
      assert out[i].id == id;
    }
  }

  lemma OldestAreTaken(swept: Rows, after: Rows, ids: seq<Id>, ready: set<Id>, target: Agent, matchRoot: string, n: nat)
    requires forall i :: 0 <= i < |ids| ==> ids[i] in after
    requires forall id :: id in ready <==> id in swept && WaitsFor(swept[id], target, matchRoot)
    requires Ordered(swept, ids) && (forall id :: id in ids ==> id in ready)
    requires |ids| <= n && (|ids| < n ==> forall id :: id in ready ==> id in ids)
    requires forall i, id :: 0 <= i < |ids| && id in ready && id !in ids ==> Before(swept, ids[i], id)
    ensures TakesOldest(swept, Records(after, ids), target, matchRoot, n)
  {
    hide WaitsFor;
    RecordsHand(after, ids);
    assert forall i :: 0 <= i < |ids| ==> ids[i] in ids;
  }

  /** A list without repeats of as many members as a set has leaves none of them out. */
  lemma {:induction false} ShorterMeansAll(rows: Rows, ids: seq<Id>, ready: set<Id>)
    requires Ordered(rows, ids) && ready <= rows.Keys && forall id :: id in ids ==> id in ready
    ensures |ids| <= |ready| && (|ids| == |ready| ==> forall id :: id in ready ==> id in ids)
    decreases |ids|
  {
    if ids != [] {
      var last := |ids| - 1;
      assert ids == ids[..last] + [ids[last]];
      forall id | id in ids[..last] ensures id in ready - {ids[last]} {
        var i :| 0 <= i < last && ids[i] == id;
        assert Before(rows, ids[i], ids[last]);
      }
      ShorterMeansAll(rows, ids[..last], ready - {ids[last]});
    } else if |ready| == 0 {
      assert ready == {};
    }
  }

  /** Apart from sweeping, a pull changes the rows it returns and no others, each with its own token. */
  lemma PullChangesOnlyItsClaims(rows: Rows, target: Agent, now: Time, opts: PullOptions, max: nat, lease: real,
                                 draw: Token)
    ensures var swept := Sweep(rows, now, max);
            var ids := Chosen(swept, target, now, opts, max);
            var pulled := Pulled(rows, target, now, opts, max, lease, draw);
            && pulled.Keys == swept.Keys
            && (forall i :: 0 <= i < |ids| ==>
                  pulled[ids[i]] == ClaimRow(swept[ids[i]], PullUntil(now, opts, lease), draw + i))
            && (forall id :: id in swept && id !in ids ==> pulled[id] == swept[id])
  {
    var swept := Sweep(rows, now, max);
    PullTakesTheOldest(swept, target, now, opts, max);
    ClaimAt(swept, Chosen(swept, target, now, opts, max), PullUntil(now, opts, lease), draw);
  }

  /** A targeted pull leaves every message of other conversations exactly as the sweep left it. */
  lemma TargetedPullSparesTheRest(rows: Rows, target: Agent, now: Time, opts: PullOptions, max: nat, lease: real,
                                  draw: Token, id: Id)
    requires opts.matchRoot != ""
    requires id in Sweep(rows, now, max) && Sweep(rows, now, max)[id].env.root != opts.matchRoot
    ensures Pulled(rows, target, now, opts, max, lease, draw)[id] == Sweep(rows, now, max)[id]
  {
    PullTakesTheOldest(Sweep(rows, now, max), target, now, opts, max);
    PullChangesOnlyItsClaims(rows, target, now, opts, max, lease, draw);
  }

  // -- isolation between inboxes -----------------------------------------

  /** Sweeping early does not change which rows a later sweep leaves queued, nor how it leaves them. */
  lemma TidyEarlier(r: Row, earlier: Time, now: Time, max: nat)
    requires earlier <= now
    ensures var between := Tidy(r, earlier, max);
            && (Tidy(between, now, max).status == Queued <==> Tidy(r, now, max).status == Queued)
            && (Tidy(r, now, max).status == Queued ==> Live(between) && Tidy(between, now, max) == Tidy(r, now, max))
  {
  }

  lemma SweepTwiceIsOnce(rows: Rows, now: Time, max: nat)
    ensures Sweep(Sweep(rows, now, max), now, max) == Sweep(rows, now, max)
  {
    forall id | id in rows ensures Tidy(Tidy(rows[id], now, max), now, max) == Tidy(rows[id], now, max) {
    }
  }

  /** Two tables offer an agent the same messages at a time: the swept queued rows agree. */
  ghost predicate SameOffer(a: Rows, b: Rows, agent: Agent, now: Time, max: nat) {
    forall id ::
      (Offered(a, id, agent, now, max) <==> Offered(b, id, agent, now, max))
      && (Offered(a, id, agent, now, max) ==> Tidy(a[id], now, max) == Tidy(b[id], now, max))
  }

  predicate Offered(rows: Rows, id: Id, agent: Agent, now: Time, max: nat) {
    id in rows && rows[id].env.target == agent && Tidy(rows[id], now, max).status == Queued
  }

  /** A table offers exactly the rows that are queued for the agent once it is swept. */
  lemma OfferedWhenSwept(rows: Rows, agent: Agent, now: Time, max: nat)
    ensures var swept := Sweep(rows, now, max);
            forall id :: Offered(rows, id, agent, now, max) <==>
                         id in swept && swept[id].env.target == agent && swept[id].status == Queued
  {
  }

  lemma SameOfferSameClaims(a: Rows, b: Rows, agent: Agent, now: Time, opts: PullOptions, max: nat)
    requires SameOffer(a, b, agent, now, max)
    ensures var sa, sb := Sweep(a, now, max), Sweep(b, now, max);
            && Chosen(sa, agent, now, opts, max) == Chosen(sb, agent, now, opts, max)
            && (forall id :: id in Chosen(sa, agent, now, opts, max) ==> sa[id] == sb[id])
  {
    var sa, sb := Sweep(a, now, max), Sweep(b, now, max);
    var root := WantedRoot(opts.matchRoot);
    var ready := ReadyIds(sa, agent, now, max, root);
    SameOfferSameReady(a, b, agent, now, root, max);
    hide Sweep, ReadyIds, SameOffer;
    OrderFrame(sa, sb, ready);
    PullTakesTheOldest(sa, agent, now, opts, max);
  }

  lemma SameOfferSameReady(a: Rows, b: Rows, agent: Agent, now: Time, root: Option<string>, max: nat)
    requires SameOffer(a, b, agent, now, max)
    ensures var sa, sb := Sweep(a, now, max), Sweep(b, now, max);
            && ReadyIds(sa, agent, now, max, root) == ReadyIds(sb, agent, now, max, root)
            && (forall id :: id in ReadyIds(sa, agent, now, max, root) ==> id in sa && id in sb && sa[id] == sb[id])
  {
    OfferedWhenSwept(a, agent, now, max);
    OfferedWhenSwept(b, agent, now, max);
    hide Tidy, Purgeable;
  }

  /** Somebody else's step: a cleanup, or a pull of another inbox. */
  datatype Bystander = Cleanup(now: Time) | OtherPull(target: Agent, now: Time, opts: PullOptions, draw: Token)

  ghost function Pass(rows: Rows, step: Bystander, max: nat, lease: real): Rows {
    match step
    case Cleanup(now) => Sweep(rows, now, max)
    case OtherPull(target, now, opts, draw) => Pulled(rows, target, now, opts, max, lease, draw)
  }

  ghost function PassAll(rows: Rows, steps: seq<Bystander>, max: nat, lease: real): Rows {
    if steps == [] then rows else PassAll(Pass(rows, steps[0], max, lease), steps[1..], max, lease)
  }

  /** To the rows of any other inbox, a bystander's step is a sweep. */
  lemma PassIsASweepElsewhere(rows: Rows, step: Bystander, max: nat, lease: real)
    ensures var after, swept := Pass(rows, step, max, lease), Sweep(rows, step.now, max);
            && after.Keys == swept.Keys
            && forall id :: id in after ==>
                 after[id].env == rows[id].env
                 && (step.Cleanup? || rows[id].env.target != step.target ==> after[id] == swept[id])
  {
    if step.OtherPull? {
      PullTouchesOneInbox(rows, step.target, step.now, step.opts, max, lease, step.draw);
    }
  }

  lemma PullTouchesOneInbox(rows: Rows, target: Agent, now: Time, opts: PullOptions, max: nat, lease: real, draw: Token)
    ensures var swept, pulled := Sweep(rows, now, max), Pulled(rows, target, now, opts, max, lease, draw);
            && pulled.Keys == swept.Keys
            && forall id :: id in swept ==>
                 pulled[id].env == swept[id].env && (swept[id].env.target != target ==> pulled[id] == swept[id])
  {
    var swept := Sweep(rows, now, max);
    ChosenAreReady(swept, target, now, opts, max);
    ClaimEffect(swept, Chosen(swept, target, now, opts, max), PullUntil(now, opts, lease), draw);
  }

  lemma PassKeepsOffer(rows: Rows, step: Bystander, agent: Agent, now: Time, max: nat, lease: real)
    requires step.now <= now && (step.OtherPull? ==> step.target != agent)
    ensures SameOffer(rows, Pass(rows, step, max, lease), agent, now, max)
  {
    PassIsASweepElsewhere(rows, step, max, lease);
    forall id | id in rows
      ensures var between := Tidy(rows[id], step.now, max);
              && (Tidy(between, now, max).status == Queued <==> Tidy(rows[id], now, max).status == Queued)
              && (Tidy(rows[id], now, max).status == Queued ==>
                Live(between) && Tidy(between, now, max) == Tidy(rows[id], now, max))
    {
      TidyEarlier(rows[id], step.now, now, max);
    }
  }

  lemma {:induction false} PassAllKeepsOffer(rows: Rows, steps: seq<Bystander>, agent: Agent, now: Time, max: nat,
                                             lease: real)
    requires forall i :: 0 <= i < |steps| ==> steps[i].now <= now && (steps[i].OtherPull? ==> steps[i].target != agent)
    ensures SameOffer(rows, PassAll(rows, steps, max, lease), agent, now, max)
  {
    if steps != [] {
      PassKeepsOffer(rows, steps[0], agent, now, max, lease);
      PassAllKeepsOffer(Pass(rows, steps[0], max, lease), steps[1..], agent, now, max, lease);
    }
  }

  /**
   * Inbox isolation: whatever cleanups and pulls of other inboxes happen up to `now`, a pull at
   * `now` finds the same messages, in the same order and with the same contents.
   */
  lemma InboxIsolation(rows: Rows, steps: seq<Bystander>, agent: Agent, now: Time, opts: PullOptions, max: nat,
                       lease: real)
    requires forall i :: 0 <= i < |steps| ==> steps[i].now <= now && (steps[i].OtherPull? ==> steps[i].target != agent)
    ensures var undisturbed, disturbed := Sweep(rows, now, max), Sweep(PassAll(rows, steps, max, lease), now, max);
            && Chosen(disturbed, agent, now, opts, max) == Chosen(undisturbed, agent, now, opts, max)
            && (forall id :: id in Chosen(disturbed, agent, now, opts, max) ==> disturbed[id] == undisturbed[id])
  {
    PassAllKeepsOffer(rows, steps, agent, now, max, lease);
    SameOfferSameClaims(rows, PassAll(rows, steps, max, lease), agent, now, opts, max);
  }
}
