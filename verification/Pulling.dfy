/** What a pull does to the table, and the claim loop that does it. */
module Pulling {
  import opened Messages
  import opened Statements

  datatype Delivery = Delivery(id: Id, row: Row)

  datatype PullOptions = PullOptions(limit: int, leaseSeconds: Option<real>, matchRoot: string)

  /** A limit of zero stands for an absent or unusable number and means the default of eight. */
  function Wanted(limit: int): nat {
    if limit == 0 then 8 else if limit < 1 then 1 else limit
  }

  function WantedRoot(matchRoot: string): Option<string> {
    if matchRoot == "" then None else Some(matchRoot)
  }

  // -- what a pull means -------------------------------------------------

  /** The ready rows of a swept table, in delivery order, cut off at the limit. */
  ghost function Chosen(swept: Rows, target: Agent, now: Time, opts: PullOptions, max: nat): (ids: seq<Id>)
    ensures forall i :: 0 <= i < |ids| ==> ids[i] in swept
  {
    var ready := ReadyIds(swept, target, now, max, WantedRoot(opts.matchRoot));
    DeliveryOrderLists(swept, ready);
    var order := DeliveryOrder(swept, ready);
    assert forall i :: 0 <= i < |order| ==> order[i] in ready;
    if |order| <= Wanted(opts.limit) then order else order[..Wanted(opts.limit)]
  }

  lemma ChosenAreReady(swept: Rows, target: Agent, now: Time, opts: PullOptions, max: nat)
    ensures var ids := Chosen(swept, target, now, opts, max);
            && (forall i :: 0 <= i < |ids| ==> Ready(swept[ids[i]], target, now, max, WantedRoot(opts.matchRoot)))
            && (forall i, j :: 0 <= i < j < |ids| ==> ids[i] != ids[j])
  {
    var ready := ReadyIds(swept, target, now, max, WantedRoot(opts.matchRoot));
    DeliveryOrderLists(swept, ready);
    var order := DeliveryOrder(swept, ready);
    assert forall i :: 0 <= i < |order| ==> order[i] in ready;
  }

  function PullUntil(now: Time, opts: PullOptions, leaseSeconds: real): Time {
    now + Coalesce(opts.leaseSeconds, leaseSeconds)
  }

  ghost function Pulled(rows: Rows, target: Agent, now: Time, opts: PullOptions, max: nat, leaseSeconds: real,
                        draw: Token): Rows {
    var swept := Sweep(rows, now, max);
    Claim(swept, Chosen(swept, target, now, opts, max), PullUntil(now, opts, leaseSeconds), draw)
  }

  /** The claim that finds nothing has drawn a token as well. */
  function Drawn(draw: Token, claimed: nat, limit: int): Token {
    draw + claimed + if claimed < Wanted(limit) then 1 else 0
  }

  /** The public records of claimed messages, read from the table they were claimed in. */
  function Records(rows: Rows, ids: seq<Id>): seq<Delivery>
    requires forall i :: 0 <= i < |ids| ==> ids[i] in rows
  {
    seq(|ids|, i requires 0 <= i < |ids| => Delivery(ids[i], rows[ids[i]]))
  }

  /** `order` lists the ready rows in delivery order. */
  ghost predicate ListsReady(rows: Rows, order: seq<Id>, target: Agent, now: Time, max: nat, root: Option<string>) {
    Ordered(rows, order) && forall id :: id in order <==> id in ReadyIds(rows, target, now, max, root)
  }

  lemma PlanClaims(rows: Rows, target: Agent, now: Time, opts: PullOptions, max: nat) returns (order: seq<Id>)
    ensures ListsReady(rows, order, target, now, max, WantedRoot(opts.matchRoot))
    ensures Chosen(rows, target, now, opts, max)
         == if |order| <= Wanted(opts.limit) then order[..|order|] else order[..Wanted(opts.limit)]
  {
    DeliveryOrderLists(rows, ReadyIds(rows, target, now, max, WantedRoot(opts.matchRoot)));
    order := DeliveryOrder(rows, ReadyIds(rows, target, now, max, WantedRoot(opts.matchRoot)));
    assert order[..|order|] == order;
  }

  /** After claiming the first n messages of the order, exactly the rest of the order is ready. */
  lemma ReadyAfterClaims(rows: Rows, order: seq<Id>, target: Agent, now: Time, max: nat, root: Option<string>, n: nat,
                         until: Time, draw: Token)
    requires ListsReady(rows, order, target, now, max, root) && n <= |order|
    ensures forall id :: id in ReadyIds(Claim(rows, order[..n], until, draw), target, now, max, root) <==>
        id in order[n..]
    ensures n < |order| ==> order[n] in ReadyIds(Claim(rows, order[..n], until, draw), target, now, max, root)
  {
    var left := ReadyIds(Claim(rows, order[..n], until, draw), target, now, max, root);
    forall id ensures id in left <==> id in order && id !in order[..n] {
      ReadyUnlessClaimed(rows, order, target, now, max, root, n, until, draw, id);
    }
    SplitOrder(rows, order, n);
  }

  /** A claim takes exactly the claimed rows out of the ready ones. */
  lemma ReadyUnlessClaimed(rows: Rows, order: seq<Id>, target: Agent, now: Time, max: nat, root: Option<string>, n: nat,
                           until: Time, draw: Token, id: Id)
    requires ListsReady(rows, order, target, now, max, root) && n <= |order|
    ensures id in ReadyIds(Claim(rows, order[..n], until, draw), target, now, max, root) <==>
        id in order && id !in order[..n]
  {
    hide Claim;
    ClaimEffect(rows, order[..n], until, draw);
    assert id in order <==> id in ReadyIds(rows, target, now, max, root);
  }

  /** Without repeats, what is listed but not among the first n is in the rest. */
  lemma SplitOrder(rows: Rows, order: seq<Id>, n: nat)
    requires Ordered(rows, order) && n <= |order|
    ensures forall id :: id in order[n..] <==> id in order && id !in order[..n]
    ensures n < |order| ==> order[n] in order[n..]
  {
    assert order == order[..n] + order[n..];
    assert forall i :: n <= i < |order| ==> order[i] !in order[..n];
  }

  /** The claim statement therefore picks the next message of the order. */
  lemma NextClaim(rows: Rows, order: seq<Id>, target: Agent, now: Time, max: nat, root: Option<string>, n: nat,
                  until: Time, draw: Token, next: Id)
    requires ListsReady(rows, order, target, now, max, root) && n <= |order|
    requires var claimed := Claim(rows, order[..n], until, draw);
             IsFirst(claimed, ReadyIds(claimed, target, now, max, root), next)
    ensures n < |order| && next == order[n]
  {
    ReadyAfterClaims(rows, order, target, now, max, root, n, until, draw);
    ClaimEffect(rows, order[..n], until, draw);
    var i :| n <= i < |order| && order[i] == next;
    assert order[n] in order[n..];
  }

  lemma ClaimOneMore(rows: Rows, order: seq<Id>, n: nat, until: Time, draw: Token)
    requires Ordered(rows, order) && n < |order|
    ensures var claimed := Claim(rows, order[..n], until, draw);
            Claim(rows, order[..n + 1], until, draw) ==
              claimed[order[n] := ClaimRow(claimed[order[n]], until, draw + n)]
  {
    assert order[..n + 1][..n] == order[..n];
  }

  /** Claiming one more row does not disturb the records already taken. */
  lemma KeepRecords(rows: Rows, order: seq<Id>, n: nat, until: Time, draw: Token)
    requires Ordered(rows, order) && n < |order|
    ensures Records(Claim(rows, order[..n + 1], until, draw), order[..n + 1])
         == Records(Claim(rows, order[..n], until, draw), order[..n])
            + [Delivery(order[n], Claim(rows, order[..n + 1], until, draw)[order[n]])]
  {
    assert order[..n + 1][..n] == order[..n];
  }
}
