/** What a call of the workspace lock does when nothing happens in between. */
module LockCalls {
  import opened Messages
  import opened WorkspaceLock

  /** The file operations of the process's call, one after the other. */
  function RunCall(w: World, pid: Pid, inode: Inode, owner: Owner, steps: nat): World
    decreases steps
  {
    if steps == 0 || pid !in w.calls then w else RunCall(Operate(w, pid, inode, owner), pid, inode, owner, steps - 1)
  }

  /** There is no lock file, or its owner is dead, or it has been empty for more than fifteen minutes. */
  predicate Takeable(w: World) {
    w.path.None? ||
    (w.path.value in w.inodes &&
     var file := w.inodes[w.path.value];
     if file.payload.Some? then file.payload.value.pid !in w.alive else w.clock - file.mtime > 900.0)
  }

  /** The process holds the lease of the given file. */
  predicate Holds(w: World, pid: Pid, owner: Owner, inode: Inode) {
    && owner in w.leases && w.leases[owner] == pid && owner in w.handles && w.handles[owner] == pid
    && w.path == Some(inode) && inode in w.inodes && w.inodes[inode] == File(Some(Payload(owner, pid)), w.clock)
  }

  /**
   * An acquisition that nothing interrupts takes the lock exactly if it can be taken: the lock file is new,
   * complete and its own. Otherwise nothing has changed.
   */
  lemma AcquireTakesIff(w: World, pid: Pid, owner: Owner, inode: Inode, again: Owner)
    requires Allowed(w, Acquire(pid, owner)) && inode !in w.inodes && again !in w.used && again != owner
    requires w.path.Some? ==> w.path.value in w.inodes
    ensures var end := RunCall(Act(w, Acquire(pid, owner)), pid, inode, again, 7);
            && end.calls == w.calls
            && (if Takeable(w) then Holds(end, pid, if w.path.None? then owner else again, inode)
                else end.path == w.path && end.inodes == w.inodes && end.leases == w.leases && end.handles == w.handles)
  {
    hide Operate;
    var start := Act(w, Acquire(pid, owner));
    if w.path.None? {
      CreatesAndFills(start, pid, inode, again, 7);
    } else {
      LooksAtOwner(start, pid, inode, again);
      if Takeable(w) {
        var broken := RunCall(start, pid, inode, again, 5);
        CreatesAndFills(broken, pid, inode, again, 2);
        RunSplits(start, pid, inode, again, 5, 2);
      } else {
        RunSplits(start, pid, inode, again, 4, 3);
      }
    }
  }

  lemma {:induction false} RunSplits(w: World, pid: Pid, inode: Inode, owner: Owner, n: nat, m: nat)
    ensures RunCall(w, pid, inode, owner, n + m) == RunCall(RunCall(w, pid, inode, owner, n), pid, inode, owner, m)
    decreases n
  {
    hide Operate;
    if n > 0 && pid in w.calls {
      RunSplits(Operate(w, pid, inode, owner), pid, inode, owner, n - 1, m);
    }
  }

  lemma CreatesAndFills(w: World, pid: Pid, inode: Inode, again: Owner, steps: nat)
    requires pid in w.calls && w.calls[pid].Create? && w.path.None? && steps >= 2
    ensures var end := RunCall(w, pid, inode, again, steps);
            end.calls == w.calls - {pid} && end.clock == w.clock && Holds(end, pid, w.calls[pid].owner, inode)
  {
    var made := Operate(w, pid, inode, again);
    var filled := Operate(made, pid, inode, again);
    assert RunCall(filled, pid, inode, again, steps - 2) == filled;
  }

  /** With a lock file there, four operations come to the verdict; a fifth one removes it if it is to be broken. */
  lemma LooksAtOwner(w: World, pid: Pid, inode: Inode, again: Owner)
    requires pid in w.calls && w.calls[pid].Create? && w.path.Some? && w.path.value in w.inodes
    ensures var seen, broken := RunCall(w, pid, inode, again, 4), RunCall(w, pid, inode, again, 5);
            if Takeable(w) then
              && broken.path.None? && broken.inodes == w.inodes && broken.clock == w.clock
              && pid in broken.calls && broken.calls == w.calls[pid := broken.calls[pid]]
              && broken.calls[pid].Create? && broken.calls[pid].owner == again
            else seen == w.(calls := w.calls - {pid})
  {
    var a := Operate(w, pid, inode, again);
    var b := Operate(a, pid, inode, again);
    var c := Operate(b, pid, inode, again);
    var d := Operate(c, pid, inode, again);
    RunSplits(w, pid, inode, again, 1, 3);
    RunSplits(a, pid, inode, again, 1, 2);
    RunSplits(b, pid, inode, again, 1, 1);
    RunSplits(w, pid, inode, again, 4, 1);
    assert RunCall(w, pid, inode, again, 4) == d;
  }

  /** A release that nothing interrupts removes the lock file exactly if it is the lease's own, and ends the lease. */
  lemma ReleaseRemovesIff(w: World, pid: Pid, owner: Owner)
    requires Allowed(w, Release(pid, owner))
    ensures var end := RunCall(Act(w, Release(pid, owner)), pid, 0, 0, 2);
            && end.calls == w.calls && end.leases == w.leases - {owner} && end.inodes == w.inodes
            && end.path == if Mine(w, owner) then None else w.path
  {
    var read := Operate(Act(w, Release(pid, owner)), pid, 0, 0);
    assert RunCall(Act(w, Release(pid, owner)), pid, 0, 0, 2) == RunCall(read, pid, 0, 0, 1);
    if Mine(w, owner) {
      assert RunCall(read, pid, 0, 0, 1) == Operate(read, pid, 0, 0);
    }
  }

  /** A heartbeat makes its own lock file young again, and touches no other. */
  lemma BeatRefreshesIff(w: World, pid: Pid, owner: Owner)
    requires Allowed(w, Beat(pid, owner))
    ensures var end := RunCall(Act(w, Beat(pid, owner)), pid, 0, 0, 2);
            && end.calls == w.calls && end.path == w.path && end.leases == w.leases
            && (Mine(w, owner) ==>
                  end.inodes == w.inodes[w.path.value := w.inodes[w.path.value].(mtime := w.clock)])
            && (!Mine(w, owner) ==> end.inodes == w.inodes)
  {
    var read := Operate(Act(w, Beat(pid, owner)), pid, 0, 0);
    assert RunCall(Act(w, Beat(pid, owner)), pid, 0, 0, 2) == RunCall(read, pid, 0, 0, 1);
    if Mine(w, owner) {
      assert RunCall(read, pid, 0, 0, 1) == Operate(read, pid, 0, 0);
    }
  }
}
