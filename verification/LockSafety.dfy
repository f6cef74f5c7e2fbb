/** The workspace lock keeps one holder: while everybody lives, or while whole calls are atomic. */
module LockSafety {
  import opened Messages
  import opened WorkspaceLock

  predicate Acquiring(c: Call) {
    c.Create? || c.Fill?
  }

  // -- common to both settings -------------------------------------------

  /** Each lease belongs to a living process that was given it, and the lock file names it. */
  predicate LeasesOk(w: World) {
    && (w.path.Some? ==> w.path.value in w.inodes)
    && (forall i :: i in w.inodes ==> w.inodes[i].mtime <= w.clock)
    && w.handles.Keys <= w.used
    && forall o :: o in w.leases ==>
         && w.leases[o] in w.alive && o in w.handles && w.handles[o] == w.leases[o]
         && ReadPayload(w) == Some(Payload(o, w.leases[o]))
  }

  // -- while everybody lives ---------------------------------------------

  predicate LiveCall(w: World, p: Pid)
    requires p in w.calls
  {
    var c := w.calls[p];
    && p in w.alive && c.begun <= w.clock <= c.begun + STALE_SECONDS
    && match c
       case Create(o, _) => o in w.used && o !in w.handles
       case Fill(o, i, begun) =>
         && o in w.used && o !in w.handles && w.path == Some(i) && i in w.inodes
         && w.inodes[i].payload.None? && w.inodes[i].mtime >= begun
       case ReadOwner(_) => true
       case CheckAge(seen, begun) =>
         if seen.Some? then seen.value.pid in w.alive
         else Linked(w) ==> ReadPayload(w).None? || w.inodes[w.path.value].mtime >= begun
       case Judge(seen, age, _) => if seen.Some? then seen.value.pid in w.alive else age <= STALE_SECONDS
       case Break(_) => false
       case ReadToRelease(o, _) => o in w.handles && w.handles[o] == p
       case Remove(o, _) => o in w.handles && w.handles[o] == p && ReadPayload(w) == Some(Payload(o, p))
       case _ => true
  }

  /** Calls that acquire use different owner ids, and at most one of them has created the file. */
  predicate Apart(w: World) {
    forall p, q :: p in w.calls && q in w.calls && p != q && Acquiring(w.calls[p]) && Acquiring(w.calls[q]) ==>
      w.calls[p].owner != w.calls[q].owner && !(w.calls[p].Fill? && w.calls[q].Fill?)
  }

  /** The lock file is being filled, or a lease is held on it. */
  ghost predicate Accounted(w: World) {
    Linked(w) ==>
      var seen := ReadPayload(w);
      if seen.None? then exists p :: p in w.calls && w.calls[p].Fill?
      else seen.value.owner in w.leases && w.leases[seen.value.owner] == seen.value.pid
  }

  ghost predicate LiveInv(w: World) {
    && LeasesOk(w) && Apart(w) && Accounted(w)
    && forall p :: p in w.calls ==> LiveCall(w, p)
  }

  /** The rest of the world is as the call of `pid` found it, but for later modification times. */
  ghost predicate SameFiles(w: World, next: World, pid: Pid) {
    && next.clock == w.clock && next.alive == w.alive && next.path == w.path
    && next.handles == w.handles && next.leases == w.leases && next.used == w.used
    && next.inodes.Keys == w.inodes.Keys
    && (forall i :: i in w.inodes ==>
          next.inodes[i].payload == w.inodes[i].payload && next.inodes[i].mtime >= w.inodes[i].mtime)
    && (pid in next.calls ==> pid in w.calls)
    && (forall p :: p != pid ==> (p in w.calls <==> p in next.calls) && (p in w.calls ==> next.calls[p] == w.calls[p]))
  }

  lemma OthersUndisturbed(w: World, next: World, pid: Pid, p: Pid)
    requires SameFiles(w, next, pid) && p in w.calls && p != pid && LiveCall(w, p)
    requires forall i :: i in w.inodes ==> next.inodes[i].mtime <= w.clock || next.inodes[i] == w.inodes[i]
    ensures p in next.calls && LiveCall(next, p)
  {
  }

  /** A step that changes no file content keeps the invariant if the call itself stays in order. */
  lemma SameFilesKeep(w: World, next: World, pid: Pid)
    requires LiveInv(w) && SameFiles(w, next, pid) && pid in w.calls && !w.calls[pid].Fill?
    requires forall i :: i in w.inodes ==> next.inodes[i].mtime <= w.clock || next.inodes[i] == w.inodes[i]
    requires pid in next.calls ==> LiveCall(next, pid)
    requires pid in next.calls && Acquiring(next.calls[pid]) ==> next.calls[pid] == w.calls[pid]
    ensures LiveInv(next)
  {
    forall p | p in next.calls ensures LiveCall(next, p) {
      if p != pid {
        OthersUndisturbed(w, next, pid, p);
      }
    }
    hide LiveCall;
    StillFilled(w, next, pid);
  }

  /** An acquiring call creates the file, or finds it there. */
  lemma CreateKeeps(w: World, a: Action)
    requires LiveInv(w) && Allowed(w, a) && a.Go? && w.calls[a.pid].Create?
    ensures LiveInv(Act(w, a))
  {
    if Linked(w) {
      assert LiveCall(w, a.pid);
      SameFilesKeep(w, Act(w, a), a.pid);
    } else {
      NewFileKeeps(w, a);
    }
  }

  lemma NewFileKeeps(w: World, a: Action)
    requires LiveInv(w) && Allowed(w, a) && a.Go? && w.calls[a.pid].Create? && !Linked(w)
    ensures LiveInv(Act(w, a))
  {
    var next := Act(w, a);
    assert LiveCall(w, a.pid);
    forall p | p in w.calls && p != a.pid ensures LiveCall(next, p) {
      NewFileHarmless(w, next, a, p);
    }
    assert LiveCall(next, a.pid);
    NothingFilled(w);
    hide LiveCall;
    assert next.calls[a.pid].Fill?;
  }

  lemma NothingFilled(w: World)
    requires LiveInv(w) && !Linked(w)
    ensures forall p :: p in w.calls ==> !w.calls[p].Fill?
  {
    assert forall p :: p in w.calls ==> LiveCall(w, p);
  }

  lemma NewFileHarmless(w: World, next: World, a: Action, p: Pid)
    requires Allowed(w, a) && a.Go? && w.calls[a.pid].Create? && !Linked(w) && next == Act(w, a)
    requires p in w.calls && p != a.pid && LiveCall(w, p)
    ensures p in next.calls && LiveCall(next, p)
  {
  }

  lemma StillFilled(w: World, next: World, pid: Pid)
    requires Accounted(w) && pid in w.calls && !w.calls[pid].Fill? && next.leases == w.leases
    requires Linked(next) ==> Linked(w) && ReadPayload(next) == ReadPayload(w)
    requires forall p :: p in w.calls && p != pid ==> p in next.calls && next.calls[p] == w.calls[p]
    ensures Accounted(next)
  {
    if Linked(next) && ReadPayload(next).None? {
      var p :| p in w.calls && w.calls[p].Fill?;
      assert next.calls[p].Fill?;
    }
  }

  lemma FillKeeps(w: World, a: Action)
    requires LiveInv(w) && Allowed(w, a) && a.Go? && w.calls[a.pid].Fill?
    ensures LiveInv(Act(w, a))
  {
    assert w.leases == map[];
  }

  /** An empty file is young: whoever created it is still at it. */
  lemma JudgedYoung(w: World, p: Pid)
    requires LiveInv(w) && p in w.calls && w.calls[p].CheckAge? && w.calls[p].seen.None? && Linked(w)
    ensures w.clock - w.inodes[w.path.value].mtime <= STALE_SECONDS
  {
    assert LiveCall(w, p);
    if ReadPayload(w).None? {
      var q :| q in w.calls && w.calls[q].Fill?;
      assert LiveCall(w, q);
    }
  }

  lemma LookKeeps(w: World, a: Action)
    requires LiveInv(w) && Allowed(w, a) && a.Go?
    requires w.calls[a.pid].ReadOwner? || w.calls[a.pid].CheckAge? || w.calls[a.pid].Judge?
    ensures LiveInv(Act(w, a))
  {
    assert LiveCall(w, a.pid);
    if w.calls[a.pid].CheckAge? && w.calls[a.pid].seen.None? && Linked(w) {
      JudgedYoung(w, a.pid);
    }
    LookStaysInOrder(w, a);
    SameFilesKeep(w, Act(w, a), a.pid);
  }

  lemma LookStaysInOrder(w: World, a: Action)
    requires LeasesOk(w) && Accounted(w) && Allowed(w, a) && a.Go? && LiveCall(w, a.pid)
    requires w.calls[a.pid].ReadOwner? || w.calls[a.pid].CheckAge? || w.calls[a.pid].Judge?
    requires w.calls[a.pid].CheckAge? && w.calls[a.pid].seen.None? && Linked(w) ==>
               w.clock - w.inodes[w.path.value].mtime <= STALE_SECONDS
    ensures var next := Act(w, a);
            && SameFiles(w, next, a.pid)
            && (a.pid in next.calls ==> LiveCall(next, a.pid) && !Acquiring(next.calls[a.pid]))
  {
  }

  lemma OwnKeeps(w: World, a: Action)
    requires LiveInv(w) && Allowed(w, a) && a.Go?
    requires w.calls[a.pid].ReadToRelease? || w.calls[a.pid].ReadToBeat? || w.calls[a.pid].Touch?
    ensures LiveInv(Act(w, a))
  {
    assert LiveCall(w, a.pid);
    OwnStaysInOrder(w, a);
    SameFilesKeep(w, Act(w, a), a.pid);
  }

  lemma OwnStaysInOrder(w: World, a: Action)
    requires LeasesOk(w) && Accounted(w) && Allowed(w, a) && a.Go? && LiveCall(w, a.pid)
    requires w.calls[a.pid].ReadToRelease? || w.calls[a.pid].ReadToBeat? || w.calls[a.pid].Touch?
    requires Linked(w) ==> w.inodes[w.path.value].mtime <= w.clock
    ensures var next := Act(w, a);
            && SameFiles(w, next, a.pid)
            && (forall i :: i in w.inodes ==> next.inodes[i].mtime <= w.clock || next.inodes[i] == w.inodes[i])
            && (a.pid in next.calls ==> LiveCall(next, a.pid) && !Acquiring(next.calls[a.pid]))
  {
    var next := Act(w, a);
    if w.calls[a.pid].ReadToRelease? && !Mine(w, w.calls[a.pid].owner) {
      assert next.leases == w.leases;
    }
  }

  lemma RemoveKeeps(w: World, a: Action)
    requires LiveInv(w) && Allowed(w, a) && a.Go? && w.calls[a.pid].Remove?
    ensures LiveInv(Act(w, a))
  {
    var next := Act(w, a);
    assert LiveCall(w, a.pid);
    forall p | p in w.calls && p != a.pid ensures LiveCall(next, p) && !w.calls[p].Fill? {
      GoneHarmless(w, next, a, p);
    }
    hide LiveCall;
  }

  lemma GoneHarmless(w: World, next: World, a: Action, p: Pid)
    requires Allowed(w, a) && a.Go? && w.calls[a.pid].Remove? && LiveCall(w, a.pid) && next == Act(w, a)
    requires p in w.calls && p != a.pid && LiveCall(w, p)
    ensures p in next.calls && LiveCall(next, p) && !w.calls[p].Fill?
  {
  }

  lemma OtherKeeps(w: World, a: Action)
    requires LiveInv(w) && Allowed(w, a) && Lively(w, a) && !a.Go?
    ensures LiveInv(Act(w, a))
  {
    var next := Act(w, a);
    forall p | p in w.calls ensures LiveCall(next, p) {
      CallsGoOn(w, next, a, p);
    }
    if !a.Tick? && !a.Start? {
      assert LiveCall(next, a.pid);
    }
    hide LiveCall;
    if Linked(next) && ReadPayload(next).None? {
      var p :| p in w.calls && w.calls[p].Fill?;
      assert next.calls[p].Fill?;
    }
    NewOwnersApart(w, next, a);
  }

  lemma CallsGoOn(w: World, next: World, a: Action, p: Pid)
    requires Allowed(w, a) && Lively(w, a) && !a.Go? && next == Act(w, a)
    requires p in w.calls && LiveCall(w, p)
    ensures p in next.calls && next.calls[p] == w.calls[p] && LiveCall(next, p)
  {
  }

  lemma NewOwnersApart(w: World, next: World, a: Action)
    requires LiveInv(w) && Allowed(w, a) && Lively(w, a) && !a.Go? && next == Act(w, a)
    ensures Apart(next)
  {
    assert forall p :: p in w.calls ==> LiveCall(w, p);
  }

  lemma LiveKeeps(w: World, a: Action)
    requires LiveInv(w) && Allowed(w, a) && Lively(w, a)
    ensures LiveInv(Act(w, a))
  {
    hide Act;
    if !a.Go? {
      OtherKeeps(w, a);
    } else {
      assert LiveCall(w, a.pid);
      match w.calls[a.pid]
      case Create(_, _) => CreateKeeps(w, a);
      case Fill(_, _, _) => FillKeeps(w, a);
      case ReadOwner(_) => LookKeeps(w, a);
      case CheckAge(_, _) => LookKeeps(w, a);
      case Judge(_, _, _) => LookKeeps(w, a);
      case Remove(_, _) => RemoveKeeps(w, a);
      case _ => OwnKeeps(w, a);
    }
  }

  lemma {:induction false} LiveRunKeeps(w: World, actions: seq<Action>)
    requires LiveInv(w) && Feasible(w, actions) && Lasting(w, actions, false)
    ensures LiveInv(Play(w, actions))
    decreases |actions|
  {
    if actions != [] {
      LiveKeeps(w, actions[0]);
      LiveRunKeeps(Act(w, actions[0]), actions[1..]);
    }
  }

  /**
   * However the file operations of living processes interleave, if no call outlasts the stale time, then
   * at most one lease is held, a release removes no file but its own, and no lock is ever broken.
   */
  lemma ExclusiveWhileAlive(actions: seq<Action>)
    requires Feasible(EMPTY, actions) && Lasting(EMPTY, actions, false)
    ensures var w := Play(EMPTY, actions);
            && OneHolder(w) && RemovesItsOwn(w)
            && (forall p :: p in w.calls ==> !w.calls[p].Break?)
            && (forall o :: o in w.leases ==> ReadPayload(w) == Some(Payload(o, w.leases[o])))
  {
    LiveRunKeeps(EMPTY, actions);
    var w := Play(EMPTY, actions);
    assert forall p :: p in w.calls ==> LiveCall(w, p);
  }

  // -- while whole calls are atomic --------------------------------------

  predicate LoneCall(w: World, p: Pid)
    requires p in w.calls
  {
    && p in w.alive
    && match w.calls[p]
       case Create(o, _) => o in w.used && o !in w.handles
       case Fill(o, i, _) => o in w.used && o !in w.handles && w.path == Some(i) && i in w.inodes &&
         w.inodes[i].payload.None?
       case ReadOwner(_) => ReadPayload(w).Some?
       case CheckAge(seen, _) => seen.Some? && ReadPayload(w) == seen
       case Judge(seen, _, _) => seen.Some? && ReadPayload(w) == seen
       case Break(_) => ReadPayload(w).Some? && ReadPayload(w).value.pid !in w.alive
       case ReadToRelease(o, _) => o in w.handles && w.handles[o] == p
       case Remove(o, _) => o in w.handles && w.handles[o] == p && ReadPayload(w) == Some(Payload(o, p))
       case _ => true
  }

  /** Between calls the lock file is complete, and an owner it names has the handle if anybody has. */
  predicate LoneInv(w: World) {
    && LeasesOk(w)
    && (forall p :: p in w.calls ==> LoneCall(w, p))
    && (forall p, q :: p in w.calls && q in w.calls ==> p == q)
    && (Linked(w) && ReadPayload(w).None? ==> exists p :: p in w.calls && w.calls[p].Fill?)
    && (ReadPayload(w).Some? ==>
          var seen := ReadPayload(w).value;
          seen.owner in w.used && (seen.owner in w.handles ==> w.handles[seen.owner] == seen.pid))
  }

  lemma LoneAcquires(w: World, a: Action)
    requires LoneInv(w) && Allowed(w, a) && a.Go? && (w.calls[a.pid].Create? || w.calls[a.pid].Fill?)
    ensures LoneInv(Act(w, a))
  {
    var next := Act(w, a);
    assert LoneCall(w, a.pid);
    assert forall p :: p in w.calls ==> p == a.pid;
    if w.calls[a.pid].Create? && !Linked(w) {
      assert next.calls[a.pid].Fill?;
    }
    if w.calls[a.pid].Fill? {
      assert w.leases == map[];
    }
  }

  lemma LoneLooks(w: World, a: Action)
    requires LoneInv(w) && Allowed(w, a) && a.Go?
    requires w.calls[a.pid].ReadOwner? || w.calls[a.pid].CheckAge? || w.calls[a.pid].Judge? || w.calls[a.pid].Break?
    ensures LoneInv(Act(w, a))
  {
    assert LoneCall(w, a.pid);
    assert forall p :: p in w.calls ==> p == a.pid;
    if w.calls[a.pid].Break? {
      assert w.leases == map[];
    }
  }

  lemma LoneReleases(w: World, a: Action)
    requires LoneInv(w) && Allowed(w, a) && a.Go? && (w.calls[a.pid].ReadToRelease? || w.calls[a.pid].Remove?)
    ensures LoneInv(Act(w, a))
  {
    assert LoneCall(w, a.pid);
    assert forall p :: p in w.calls ==> p == a.pid;
  }

  lemma LoneBeats(w: World, a: Action)
    requires LoneInv(w) && Allowed(w, a) && a.Go? && (w.calls[a.pid].ReadToBeat? || w.calls[a.pid].Touch?)
    ensures LoneInv(Act(w, a))
  {
    assert LoneCall(w, a.pid);
    assert forall p :: p in w.calls ==> p == a.pid;
  }

  lemma LoneGoKeeps(w: World, a: Action)
    requires LoneInv(w) && Allowed(w, a) && a.Go?
    ensures LoneInv(Act(w, a))
  {
    hide LoneInv, Act;
    match w.calls[a.pid]
    case Create(_, _) => LoneAcquires(w, a);
    case Fill(_, _, _) => LoneAcquires(w, a);
    case ReadOwner(_) => LoneLooks(w, a);
    case CheckAge(_, _) => LoneLooks(w, a);
    case Judge(_, _, _) => LoneLooks(w, a);
    case Break(_) => LoneLooks(w, a);
    case ReadToRelease(_, _) => LoneReleases(w, a);
    case Remove(_, _) => LoneReleases(w, a);
    case _ => LoneBeats(w, a);
  }

  lemma LoneKeeps(w: World, a: Action)
    requires LoneInv(w) && Allowed(w, a) && Atomic(w, a)
    ensures LoneInv(Act(w, a))
  {
    if a.Go? {
      LoneGoKeeps(w, a);
    } else {
      assert w.calls == map[];
    }
  }

  lemma {:induction false} LoneRunKeeps(w: World, actions: seq<Action>)
    requires LoneInv(w) && Feasible(w, actions) && Lasting(w, actions, true)
    ensures LoneInv(Play(w, actions))
    decreases |actions|
  {
    if actions != [] {
      LoneKeeps(w, actions[0]);
      LoneRunKeeps(Act(w, actions[0]), actions[1..]);
    }
  }

  /**
   * With whole calls atomic, at most one living process holds the lease, even when processes die and
   * their numbers are used again, and a release removes no file but its own.
   */
  lemma ExclusiveWhileAtomic(actions: seq<Action>)
    requires Feasible(EMPTY, actions) && Lasting(EMPTY, actions, true)
    ensures var w := Play(EMPTY, actions);
            && OneHolder(w) && RemovesItsOwn(w)
            && (forall o :: o in w.leases ==> w.leases[o] in w.alive && ReadPayload(w) == Some(Payload(o, w.leases[o])))
  {
    LoneRunKeeps(EMPTY, actions);
    var w := Play(EMPTY, actions);
    assert forall p :: p in w.calls ==> LoneCall(w, p);
  }

  // -- when a process dies in the middle of it ---------------------------

  lemma {:induction false} PlaySplits(w: World, a: seq<Action>, b: seq<Action>)
    requires Feasible(w, a) && Feasible(Play(w, a), b)
    ensures Feasible(w, a + b) && Play(w, a + b) == Play(Play(w, a), b)
    decreases |a|
  {
    hide Act, Allowed;
    if a == [] {
      assert a + b == b;
    } else {
      assert (a + b)[1..] == a[1..] + b;
      PlaySplits(Act(w, a[0]), a[1..], b);
    }
  }

  predicate FourSteps(w: World, a: Action, b: Action, c: Action, d: Action, end: World) {
    && Allowed(w, a) && Allowed(Act(w, a), b) && Allowed(Act(Act(w, a), b), c)
    && Allowed(Act(Act(Act(w, a), b), c), d) && Act(Act(Act(Act(w, a), b), c), d) == end
  }

  lemma FourStepsPlay(w: World, a: Action, b: Action, c: Action, d: Action, end: World)
    requires FourSteps(w, a, b, c, d, end)
    ensures Feasible(w, [a, b, c, d]) && Play(w, [a, b, c, d]) == end
  {
    hide Act, Allowed;
    assert [a, b, c, d][1..] == [b, c, d] && [b, c, d][1..] == [c, d] && [c, d][1..] == [d] && [d][1..] == [];
    assert Feasible(Act(Act(Act(w, a), b), c), [d]) && Play(Act(Act(Act(w, a), b), c), [d]) == end;
    assert Feasible(Act(Act(w, a), b), [c, d]) && Play(Act(Act(w, a), b), [c, d]) == end;
    assert Feasible(Act(w, a), [b, c, d]) && Play(Act(w, a), [b, c, d]) == end;
  }

  const ORPHAN := File(Some(Payload(1, 1)), 0.0)

  /** Process 1 has taken the lock; processes 2 and 3 are looking for it. */
  const TAKEN := World(0.0, Some(1), map[1 := ORPHAN], {1}, map[], map[1 := 1], map[1 := 1], {1})
  const ORPHANED := World(0.0, Some(1), map[1 := ORPHAN], {2, 3}, map[2 := Create(2, 0.0)], map[], map[], {1, 2})
  const JUDGED := World(0.0, Some(1), map[1 := ORPHAN], {2, 3}, map[2 := Break(0.0)], map[], map[], {1, 2})
  const FOUND := ORPHANED.(calls := map[2 := Break(0.0), 3 := CheckAge(Some(Payload(1, 1)), 0.0)], used := {1, 2, 3})
  const RETAKEN :=
    World(0.0, Some(2), map[1 := ORPHAN, 2 := File(None, 0.0)], {2, 3}, map[2 := Fill(4, 2, 0.0), 3 := Break(0.0)],
          map[], map[], {1, 2, 3, 4})
  const SHARED :=
    World(0.0, Some(3), map[1 := ORPHAN, 2 := File(Some(Payload(4, 2)), 0.0), 3 := File(Some(Payload(5, 3)), 0.0)],
          {2, 3}, map[], map[4 := 2, 5 := 3], map[4 := 2, 5 := 3], {1, 2, 3, 4, 5})

  lemma TakenByOne()
    ensures FourSteps(EMPTY, Start(1), Acquire(1, 1), Go(1, 1, 9), Go(1, 9, 9), TAKEN)
  {
  }

  lemma OrphanedByDeath()
    ensures FourSteps(TAKEN, Die(1), Start(2), Start(3), Acquire(2, 2), ORPHANED)
  {
  }

  lemma JudgedByTwo()
    ensures FourSteps(ORPHANED, Go(2, 9, 9), Go(2, 9, 9), Go(2, 9, 9), Go(2, 9, 9), JUDGED)
    ensures FourSteps(JUDGED, Acquire(3, 3), Go(3, 9, 9), Go(3, 9, 9), Tick(0.0), FOUND)
  {
  }

  lemma TakenByTwo()
    ensures FourSteps(FOUND, Go(3, 9, 9), Go(3, 9, 9), Go(2, 9, 4), Go(2, 2, 9), RETAKEN)
  {
  }

  lemma TakenByThree()
    ensures FourSteps(RETAKEN, Go(2, 9, 9), Go(3, 9, 5), Go(3, 3, 9), Go(3, 9, 9), SHARED)
  {
  }

  /** A run from the start in which no time passes. */
  predicate InstantRun(actions: seq<Action>, end: World) {
    Feasible(EMPTY, actions) && Play(EMPTY, actions) == end
    && forall i :: 0 <= i < |actions| && actions[i].Tick? ==> actions[i].to == 0.0
  }

  predicate Still(a: Action) {
    a.Tick? ==> a.to == 0.0
  }

  lemma ThenInstantly(actions: seq<Action>, w: World, a: Action, b: Action, c: Action, d: Action, end: World)
    returns (more: seq<Action>)
    requires InstantRun(actions, w) && FourSteps(w, a, b, c, d, end) && Still(a) && Still(b) && Still(c) && Still(d)
    ensures InstantRun(more, end)
  {
    FourStepsPlay(w, a, b, c, d, end);
    hide Feasible, Play, FourSteps;
    PlaySplits(EMPTY, actions, [a, b, c, d]);
    more := actions + [a, b, c, d];
  }

  lemma FoundByTwo() returns (actions: seq<Action>)
    ensures InstantRun(actions, FOUND)
  {
    TakenByOne();
    OrphanedByDeath();
    JudgedByTwo();
    NothingPlays();
    hide InstantRun, FourSteps;
    actions := ThenInstantly([], EMPTY, Start(1), Acquire(1, 1), Go(1, 1, 9), Go(1, 9, 9), TAKEN);
    actions := ThenInstantly(actions, TAKEN, Die(1), Start(2), Start(3), Acquire(2, 2), ORPHANED);
    actions := ThenInstantly(actions, ORPHANED, Go(2, 9, 9), Go(2, 9, 9), Go(2, 9, 9), Go(2, 9, 9), JUDGED);
    actions := ThenInstantly(actions, JUDGED, Acquire(3, 3), Go(3, 9, 9), Go(3, 9, 9), Tick(0.0), FOUND);
  }

  /**
   * When a holder has died, two processes can both find its lock broken, and the second then breaks the
   * lock the first has just taken: two leases are held, although no call took any time at all.
   */
  lemma DeathLetsTwoIn() returns (actions: seq<Action>)
    ensures InstantRun(actions, SHARED) && !OneHolder(SHARED)
  {
    actions := FoundByTwo();
    TakenByTwo();
    TakenByThree();
    assert 4 in SHARED.leases && 5 in SHARED.leases;
    hide InstantRun, FourSteps;
    actions := ThenInstantly(actions, FOUND, Go(3, 9, 9), Go(3, 9, 9), Go(2, 9, 4), Go(2, 2, 9), RETAKEN);
    actions := ThenInstantly(actions, RETAKEN, Go(2, 9, 9), Go(3, 9, 5), Go(3, 3, 9), Go(3, 9, 9), SHARED);
  }

  // -- when a call takes too long ----------------------------------------

  const NEWBORN := File(None, 0.0)

  /** Process 1 has created the lock file and pauses before it writes to it. */
  const PAUSED := World(0.0, Some(1), map[1 := NEWBORN], {1, 2}, map[1 := Fill(1, 1, 0.0)], map[], map[], {1})
  const LATE := World(901.0, Some(1), map[1 := NEWBORN], {1, 2},
                      map[1 := Fill(1, 1, 0.0), 2 := CheckAge(None, 901.0)], map[], map[], {1, 2})
  const REPLACED := World(901.0, Some(2), map[1 := NEWBORN, 2 := File(None, 901.0)], {1, 2},
                          map[1 := Fill(1, 1, 0.0), 2 := Fill(4, 2, 901.0)], map[], map[], {1, 2, 4})
  const DOUBLED :=
    World(901.0, Some(2), map[1 := File(Some(Payload(1, 1)), 901.0), 2 := File(Some(Payload(4, 2)), 901.0)],
                         {1, 2}, map[], map[4 := 2, 1 := 1], map[4 := 2, 1 := 1], {1, 2, 4})

  lemma PausesBeforeWriting()
    ensures FourSteps(EMPTY, Start(1), Start(2), Acquire(1, 1), Go(1, 1, 9), PAUSED)
    ensures FourSteps(PAUSED, Tick(901.0), Acquire(2, 2), Go(2, 9, 9), Go(2, 9, 9), LATE)
  {
  }

  lemma FoundAbandoned()
    ensures FourSteps(LATE, Go(2, 9, 9), Go(2, 9, 9), Go(2, 9, 4), Go(2, 2, 9), REPLACED)
  {
  }

  lemma BothWrite()
    ensures FourSteps(REPLACED, Go(2, 9, 9), Go(1, 9, 9), Tick(901.0), Tick(901.0), DOUBLED)
  {
  }

  /** A run from the start in which nobody dies. */
  predicate LivingRun(actions: seq<Action>, end: World) {
    Feasible(EMPTY, actions) && Play(EMPTY, actions) == end && forall i :: 0 <= i < |actions| ==> !actions[i].Die?
  }

  lemma ThenAlive(actions: seq<Action>, w: World, a: Action, b: Action, c: Action, d: Action, end: World)
    returns (more: seq<Action>)
    requires LivingRun(actions, w) && FourSteps(w, a, b, c, d, end) && !a.Die? && !b.Die? && !c.Die? && !d.Die?
    ensures LivingRun(more, end)
  {
    FourStepsPlay(w, a, b, c, d, end);
    hide Feasible, Play, FourSteps;
    PlaySplits(EMPTY, actions, [a, b, c, d]);
    more := actions + [a, b, c, d];
  }

  lemma NothingPlays()
    ensures InstantRun([], EMPTY) && LivingRun([], EMPTY)
  {
  }

  /**
   * When a process takes longer than the stale time between creating the lock file and writing to it,
   * another one takes the empty file for abandoned: two leases are held, although nobody has died.
   */
  lemma SlowWriterLetsTwoIn() returns (actions: seq<Action>)
    ensures LivingRun(actions, DOUBLED) && !OneHolder(DOUBLED)
  {
    PausesBeforeWriting();
    FoundAbandoned();
    BothWrite();
    NothingPlays();
    assert 1 in DOUBLED.leases && 4 in DOUBLED.leases;
    hide LivingRun, FourSteps;
    actions := ThenAlive([], EMPTY, Start(1), Start(2), Acquire(1, 1), Go(1, 1, 9), PAUSED);
    actions := ThenAlive(actions, PAUSED, Tick(901.0), Acquire(2, 2), Go(2, 9, 9), Go(2, 9, 9), LATE);
    actions := ThenAlive(actions, LATE, Go(2, 9, 9), Go(2, 9, 9), Go(2, 9, 4), Go(2, 2, 9), REPLACED);
    actions := ThenAlive(actions, REPLACED, Go(2, 9, 9), Go(1, 9, 9), Tick(901.0), Tick(901.0), DOUBLED);
  }
}
