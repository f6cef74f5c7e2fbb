/** Per-agent queue counts, and that they count every stored message once. */
module QueueStats {
  import opened Messages

  /** One row of the grouping query: a target, a status, how many messages, and the oldest creation time. */
  datatype Group = Group(target: Agent, status: Status, n: nat, oldest: Time)

  datatype Stats = Stats(queued: nat, leased: nat, completed: nat, failed: nat, expired: nat,
    oldestQueued: Option<Time>)

  const NOTHING := Stats(0, 0, 0, 0, 0, None)

  function Get(q: Stats, status: Status): nat {
    match status
    case Queued => q.queued
    case Leased => q.leased
    case Completed => q.completed
    case Failed => q.failed
    case Expired => q.expired
  }

  function Add(q: Stats, status: Status, n: nat): Stats {
    match status
    case Queued => q.(queued := q.queued + n)
    case Leased => q.(leased := q.leased + n)
    case Completed => q.(completed := q.completed + n)
    case Failed => q.(failed := q.failed + n)
    case Expired => q.(expired := q.expired + n)
  }

  function With(rows: Rows, target: Agent, status: Status): set<Id> {
    set id | id in rows && rows[id].env.target == target && rows[id].status == status
  }

  predicate IsOldest(rows: Rows, ids: set<Id>, t: Time)
    requires ids <= rows.Keys
  {
    (forall id :: id in ids ==> rows[id].env.created >= t) && exists id :: id in ids && rows[id].env.created == t
  }

  predicate Describes(rows: Rows, g: Group) {
    var ids := With(rows, g.target, g.status);
    g.n == |ids| > 0 && IsOldest(rows, ids, g.oldest)
  }

  predicate SameGroup(g: Group, target: Agent, status: Status) {
    g.target == target && g.status == status
  }

  predicate Covered(groups: seq<Group>, target: Agent, status: Status) {
    exists i :: 0 <= i < |groups| && SameGroup(groups[i], target, status)
  }

  /** The answer to the grouping query: one group for every target and status that occur together. */
  predicate Grouping(rows: Rows, groups: seq<Group>) {
    && (forall i :: 0 <= i < |groups| ==> Describes(rows, groups[i]))
    && (forall i, j :: 0 <= i < j < |groups| ==> !SameGroup(groups[i], groups[j].target, groups[j].status))
    && (forall id :: id in rows ==> Covered(groups, rows[id].env.target, rows[id].status))
  }

  /** What the first `k` groups say about a target and a status. */
  function Found(groups: seq<Group>, k: nat, target: Agent, status: Status): Option<Group>
    requires k <= |groups|
  {
    if k == 0 then None
    else if SameGroup(groups[k - 1], target, status) then Some(groups[k - 1]) else Found(groups, k - 1, target, status)
  }

  predicate Reads(q: Stats, groups: seq<Group>, k: nat, name: Agent)
    requires k <= |groups|
  {
    && (forall status :: Get(q, status) == match Found(groups, k, name, status) case None => 0 case Some(g) => g.n)
    && q.oldestQueued == match Found(groups, k, name, Queued) case None => None case Some(g) => Some(g.oldest)
  }

  lemma {:induction false} FoundNothingBefore(rows: Rows, groups: seq<Group>, k: nat, j: nat)
    requires Grouping(rows, groups) && k <= j < |groups|
    ensures Found(groups, k, groups[j].target, groups[j].status).None?
  {
    hide Describes, Covered;
    if k > 0 {
      FoundNothingBefore(rows, groups, k - 1, j);
    }
  }

  lemma {:induction false} FoundIs(rows: Rows, groups: seq<Group>, k: nat, target: Agent, status: Status)
    requires Grouping(rows, groups) && k <= |groups|
    ensures var g := Found(groups, k, target, status);
            if g.Some? then SameGroup(g.value, target, status) && Describes(rows, g.value)
            else forall i :: 0 <= i < k ==> !SameGroup(groups[i], target, status)
  {
    hide Describes, Covered;
    if k > 0 {
      FoundIs(rows, groups, k - 1, target, status);
    }
  }

  lemma NotFoundNotStored(rows: Rows, groups: seq<Group>, target: Agent, status: Status)
    requires Grouping(rows, groups) && Found(groups, |groups|, target, status).None?
    ensures With(rows, target, status) == {}
  {
    hide Describes, Found;
    FoundIs(rows, groups, |groups|, target, status);
    assert !Covered(groups, target, status);
  }

  /** Counts are exact, and the oldest queued message is the oldest. */
  ghost predicate Exact(rows: Rows, name: Agent, q: Stats) {
    && (forall status :: Get(q, status) == |With(rows, name, status)|)
    && (match q.oldestQueued
        case None => With(rows, name, Queued) == {}
        case Some(t) => IsOldest(rows, With(rows, name, Queued), t))
  }

  lemma ReadsIsExact(rows: Rows, groups: seq<Group>, name: Agent, q: Stats)
    requires Grouping(rows, groups) && Reads(q, groups, |groups|, name)
    ensures Exact(rows, name, q)
  {
    hide Found, Grouping, IsOldest;
    forall status ensures Get(q, status) == |With(rows, name, status)| {
      FoundIs(rows, groups, |groups|, name, status);
      if Found(groups, |groups|, name, status).None? {
        NotFoundNotStored(rows, groups, name, status);
      }
    }
    FoundIs(rows, groups, |groups|, name, Queued);
    if Found(groups, |groups|, name, Queued).None? {
      NotFoundNotStored(rows, groups, name, Queued);
    }
  }

  lemma ReadOneMore(rows: Rows, groups: seq<Group>, k: nat, q: Stats, next: Stats)
    requires Grouping(rows, groups) && k < |groups| && Reads(q, groups, k, groups[k].target)
    requires var g := groups[k];
             next == Add(q, g.status, g.n).(oldestQueued := if g.status == Queued then Some(g.oldest)
               else q.oldestQueued)
    ensures Reads(next, groups, k + 1, groups[k].target)
    ensures groups[k].status == Queued ==> q.oldestQueued.None?
  {
    hide Grouping;
    FoundNothingBefore(rows, groups, k, k);
    forall status
      ensures Get(next, status) ==
          match Found(groups, k + 1, groups[k].target, status) case None => 0 case Some(g) => g.n
    {
      assert Get(q, status) == match Found(groups, k, groups[k].target, status) case None => 0 case Some(g) => g.n;
    }
  }

  lemma ReadOther(groups: seq<Group>, k: nat, q: Stats, name: Agent)
    requires k < |groups| && Reads(q, groups, k, name) && groups[k].target != name
    ensures Reads(q, groups, k + 1, name)
  {
  }

  /** The counts of the named agents, or of every agent that has messages. */
  method Count(ghost rows: Rows, groups: seq<Group>, names: Option<set<Agent>>) returns (out: map<Agent, Stats>)
    requires Grouping(rows, groups)
    ensures forall name :: name in out <==> if names.Some? then name in names.value else HasMessages(rows, name)
    ensures forall name :: name in out ==> Exact(rows, name, out[name])
  {
    hide Grouping, Reads, Exact, Add;
    var wanted := if names.Some? then names.value else set g | g in groups :: g.target;
    out := map name | name in wanted :: NOTHING;
    NothingReads(groups);
    for i := 0 to |groups|
      invariant out.Keys == wanted && forall name :: name in out ==> Reads(out[name], groups, i, name)
    {
      var g := groups[i];
      ghost var before := out;
      if g.target in out {
        var q := out[g.target];
        var next := Add(q, g.status, g.n);
        if g.status == Queued && (q.oldestQueued.None? || g.oldest < q.oldestQueued.value) {
          next := next.(oldestQueued := Some(g.oldest));
        }
        AddKeepsOldest(q, g.status, g.n);
        ReadOneMore(rows, groups, i, q,
          Add(q, g.status, g.n).(oldestQueued := if g.status == Queued then Some(g.oldest) else q.oldestQueued));
        out := out[g.target := next];
      }
      forall name | name in out ensures Reads(out[name], groups, i + 1, name) {
        if name != g.target {
          ReadOther(groups, i, before[name], name);
        }
      }
    }
    forall name | name in out ensures Exact(rows, name, out[name]) {
      ReadsIsExact(rows, groups, name, out[name]);
    }
    TargetsAreGrouped(rows, groups);
  }

  lemma AddKeepsOldest(q: Stats, status: Status, n: nat)
    ensures Add(q, status, n).oldestQueued == q.oldestQueued
  {
  }

  lemma NothingReads(groups: seq<Group>)
    ensures forall name :: Reads(NOTHING, groups, 0, name)
  {
  }

  predicate HasMessages(rows: Rows, name: Agent) {
    exists id :: id in rows && rows[id].env.target == name
  }

  lemma TargetsAreGrouped(rows: Rows, groups: seq<Group>)
    requires Grouping(rows, groups)
    ensures forall name :: HasMessages(rows, name) <==> name in (set g | g in groups :: g.target)
  {
    hide Describes, Covered;
    forall g | g in groups ensures HasMessages(rows, g.target) {
      var i :| 0 <= i < |groups| && groups[i] == g;
      DescribedHasMessages(rows, g);
    }
    forall name | HasMessages(rows, name) ensures exists g :: g in groups && g.target == name {
      var id :| id in rows && rows[id].env.target == name;
      CoveredHasGroup(groups, name, rows[id].status);
    }
  }

  lemma DescribedHasMessages(rows: Rows, g: Group)
    requires Describes(rows, g)
    ensures HasMessages(rows, g.target)
  {
    var id :| id in With(rows, g.target, g.status);
  }

  lemma CoveredHasGroup(groups: seq<Group>, target: Agent, status: Status)
    requires Covered(groups, target, status)
    ensures exists g :: g in groups && g.target == target
  {
    var i :| 0 <= i < |groups| && SameGroup(groups[i], target, status);
    assert groups[i] in groups;
  }

  // -- every message is counted once -------------------------------------

  function To(rows: Rows, names: set<Agent>): set<Id> {
    set id | id in rows && rows[id].env.target in names
  }

  function Sum(q: Stats): nat {
    q.queued + q.leased + q.completed + q.failed + q.expired
  }

  ghost function Total(out: map<Agent, Stats>, names: set<Agent>): nat
    requires names <= out.Keys
  {
    if names == {} then 0 else
      var name :| name in names;
      Sum(out[name]) + Total(out, names - {name})
  }

  lemma SumIsAll(rows: Rows, name: Agent, q: Stats)
    requires Exact(rows, name, q)
    ensures Sum(q) == |To(rows, {name})|
  {
    hide With, To, Exact;
    SumOfExact(rows, name, q);
    EveryStatus(rows, name);
    StatusesDiffer(rows, name);
    Disjoint5(With(rows, name, Queued), With(rows, name, Leased), With(rows, name, Completed), With(rows, name, Failed),
              With(rows, name, Expired));
  }

  lemma SumOfExact(rows: Rows, name: Agent, q: Stats)
    requires Exact(rows, name, q)
    ensures Sum(q) == |With(rows, name, Queued)| + |With(rows, name, Leased)| + |With(rows, name, Completed)|
                      + |With(rows, name, Failed)| + |With(rows, name, Expired)|
  {
    hide With;
    assert Get(q, Queued) == q.queued && Get(q, Leased) == q.leased && Get(q, Completed) == q.completed;
    assert Get(q, Failed) == q.failed && Get(q, Expired) == q.expired;
  }

  lemma EveryStatus(rows: Rows, name: Agent)
    ensures To(rows, {name}) == With(rows, name, Queued) + With(rows, name, Leased) + With(rows, name, Completed)
                                + With(rows, name, Failed) + With(rows, name, Expired)
  {
  }

  lemma StatusesDiffer(rows: Rows, name: Agent)
    ensures forall a, b :: a != b ==> With(rows, name, a) !! With(rows, name, b)
  {
  }

  lemma Disjoint5(a: set<Id>, b: set<Id>, c: set<Id>, d: set<Id>, e: set<Id>)
    requires a !! b && a + b !! c && a + b + c !! d && a + b + c + d !! e
    ensures |a + b + c + d + e| == |a| + |b| + |c| + |d| + |e|
  {
  }

  lemma {:induction false} TotalIsAll(rows: Rows, out: map<Agent, Stats>, names: set<Agent>)
    requires names <= out.Keys && forall name :: name in names ==> Exact(rows, name, out[name])
    ensures Total(out, names) == |To(rows, names)|
    decreases names
  {
    hide Exact, Sum;
    if names == {} {
      assert To(rows, names) == {};
    } else {
      var name :| name in names && Total(out, names) == Sum(out[name]) + Total(out, names - {name});
      SumIsAll(rows, name, out[name]);
      TotalIsAll(rows, out, names - {name});
      assert To(rows, names) == To(rows, {name}) + To(rows, names - {name});
      assert |To(rows, {name}) + To(rows, names - {name})| == |To(rows, {name})| + |To(rows, names - {name})|;
    }
  }

  /** Exact counts of all targets add up to the number of stored messages. */
  lemma CountsPartitionTheTable(rows: Rows, out: map<Agent, Stats>)
    requires forall name :: name in out ==> Exact(rows, name, out[name])
    requires forall id :: id in rows ==> rows[id].env.target in out
    ensures Total(out, out.Keys) == |rows|
  {
    hide Exact, Total;
    TotalIsAll(rows, out, out.Keys);
    assert To(rows, out.Keys) == rows.Keys;
  }
}
