/**
 * The lock file of one workspace, shared by processes whose calls interleave file operation by file
 * operation. Within a process calls run one after the other.
 */
module WorkspaceLock {
  import opened Messages

  type Pid = nat
  /** Owner ids are random and never repeat. */
  type Owner = nat
  type Inode = nat

  const STALE_SECONDS: real := 900.0

  datatype Payload = Payload(owner: Owner, pid: Pid)

  /** A lock file is empty from its creation until its owner has written to it. */
  datatype File = File(payload: Option<Payload>, mtime: Time)

  /** The file operation a call has got to; `begun` is the time of the call. */
  datatype Call =
    | Create(owner: Owner, begun: Time)                      // open for exclusive creation
    | Fill(owner: Owner, inode: Inode, begun: Time)          // write to the file just created
    | ReadOwner(begun: Time)                                 // the file exists: read it
    | CheckAge(seen: Option<Payload>, begun: Time)           // stat it
    | Judge(seen: Option<Payload>, age: Time, begun: Time)   // ask whether its owner is alive
    | Break(begun: Time)                                     // unlink it and start again
    | ReadToRelease(owner: Owner, begun: Time)
    | Remove(owner: Owner, begun: Time)                      // unlink our own file
    | ReadToBeat(owner: Owner, begun: Time)
    | Touch(owner: Owner, begun: Time)

  /**
   * `leases` are the leases held: from the write that completes a lock file to the end of its release.
   * `handles` are the lease objects processes have been given.
   */
  datatype World = World(
    clock: Time, path: Option<Inode>, inodes: map<Inode, File>, alive: set<Pid>, calls: map<Pid, Call>,
    handles: map<Owner, Pid>, leases: map<Owner, Pid>, used: set<Owner>)

  datatype Action =
    | Acquire(pid: Pid, owner: Owner)
    | Release(pid: Pid, owner: Owner)
    | Beat(pid: Pid, owner: Owner)
    | Go(pid: Pid, inode: Inode, owner: Owner)   // next file operation; a new inode or owner id if it needs one
    | Tick(to: Time)
    | Start(pid: Pid)
    | Die(pid: Pid)

  predicate Linked(w: World) {
    w.path.Some? && w.path.value in w.inodes
  }

  /** What reading the lock file gives: nothing if it is missing or still empty. */
  function ReadPayload(w: World): Option<Payload> {
    if Linked(w) then w.inodes[w.path.value].payload else None
  }

  predicate Mine(w: World, owner: Owner) {
    ReadPayload(w).Some? && ReadPayload(w).value.owner == owner
  }

  predicate Idle(w: World, pid: Pid) {
    pid in w.alive && pid !in w.calls
  }

  predicate Allowed(w: World, a: Action) {
    match a
    case Acquire(pid, owner) => Idle(w, pid) && owner !in w.used
    case Release(pid, owner) => Idle(w, pid) && owner in w.handles && w.handles[owner] == pid
    case Beat(pid, owner) => Idle(w, pid) && owner in w.handles && w.handles[owner] == pid
    case Go(pid, inode, owner) => pid in w.alive && pid in w.calls && inode !in w.inodes && owner !in w.used
    case Tick(to) => to >= w.clock
    case Start(pid) => pid !in w.alive
    case Die(pid) => pid in w.alive
  }

  function At(w: World, pid: Pid, call: Call): World {
    w.(calls := w.calls[pid := call])
  }

  function Return(w: World, pid: Pid): World {
    w.(calls := w.calls - {pid})
  }

  /** One file operation of the process's current call. */
  function Operate(w: World, pid: Pid, inode: Inode, owner: Owner): World
    requires pid in w.calls
  {
    match w.calls[pid]
    case Create(mine, begun) =>
      if Linked(w) then At(w, pid, ReadOwner(begun))
      else At(w.(path := Some(inode), inodes := w.inodes[inode := File(None, w.clock)]), pid, Fill(mine, inode, begun))
    case Fill(mine, file, begun) =>
      Return(w.(inodes := w.inodes[file := File(Some(Payload(mine, pid)), w.clock)],
                handles := w.handles[mine := pid], leases := w.leases[mine := pid]), pid)
    case ReadOwner(begun) => At(w, pid, CheckAge(ReadPayload(w), begun))
    case CheckAge(seen, begun) =>
      At(w, pid, Judge(seen, if Linked(w) then w.clock - w.inodes[w.path.value].mtime else 0.0, begun))
    case Judge(seen, age, begun) =>
      if (seen.Some? && seen.value.pid !in w.alive) || (seen.None? && age > STALE_SECONDS) then At(w, pid, Break(begun))
      else Return(w, pid)
    case Break(begun) =>
      if Linked(w) then At(w.(path := None, used := w.used + {owner}), pid, Create(owner, begun)) else Return(w, pid)
    case ReadToRelease(mine, begun) =>
      if Mine(w, mine) then At(w, pid, Remove(mine, begun)) else Return(w.(leases := w.leases - {mine}), pid)
    case Remove(mine, begun) => Return(w.(path := None, leases := w.leases - {mine}), pid)
    case ReadToBeat(mine, begun) => if Mine(w, mine) then At(w, pid, Touch(mine, begun)) else Return(w, pid)
    case Touch(mine, begun) =>
      Return(if Linked(w) then w.(inodes := w.inodes[w.path.value := w.inodes[w.path.value].(mtime := w.clock)])
        else w, pid)
  }

  function Act(w: World, a: Action): World
    requires Allowed(w, a)
  {
    match a
    case Acquire(pid, owner) => At(w.(used := w.used + {owner}), pid, Create(owner, w.clock))
    case Release(pid, owner) => At(w, pid, ReadToRelease(owner, w.clock))
    case Beat(pid, owner) => At(w, pid, ReadToBeat(owner, w.clock))
    case Go(pid, inode, owner) => Operate(w, pid, inode, owner)
    case Tick(to) => w.(clock := to)
    case Start(pid) => w.(alive := w.alive + {pid})
    case Die(pid) =>
      w.(alive := w.alive - {pid}, calls := w.calls - {pid},
         handles := map o | o in w.handles && w.handles[o] != pid :: w.handles[o],
         leases := map o | o in w.leases && w.leases[o] != pid :: w.leases[o])
  }

  // -- runs --------------------------------------------------------------

  const EMPTY := World(0.0, None, map[], {}, map[], map[], map[], {})

  predicate Feasible(w: World, actions: seq<Action>)
    decreases |actions|
  {
    actions != [] ==> Allowed(w, actions[0]) && Feasible(Act(w, actions[0]), actions[1..])
  }

  function Play(w: World, actions: seq<Action>): World
    requires Feasible(w, actions)
    decreases |actions|
  {
    if actions == [] then w else Play(Act(w, actions[0]), actions[1..])
  }

  /** Nobody dies, and no call lasts longer than the time after which an empty file counts as abandoned. */
  predicate Lively(w: World, a: Action) {
    !a.Die? && (a.Tick? ==> forall p :: p in w.calls ==> a.to <= w.calls[p].begun + STALE_SECONDS)
  }

  /** Whole calls are atomic: nothing else happens while a process is inside one. */
  predicate Atomic(w: World, a: Action) {
    forall p :: p in w.calls ==> a.Go? && a.pid == p
  }

  predicate Lasting(w: World, actions: seq<Action>, atomic: bool)
    requires Feasible(w, actions)
    decreases |actions|
  {
    actions != [] ==>
      && (if atomic then Atomic(w, actions[0]) else Lively(w, actions[0]))
      && Lasting(Act(w, actions[0]), actions[1..], atomic)
  }

  /** At most one lease is held. */
  predicate OneHolder(w: World) {
    forall a, b :: a in w.leases && b in w.leases ==> a == b
  }

  /** A process that is about to remove the lock file on release holds it: the file is its own. */
  predicate RemovesItsOwn(w: World) {
    forall p :: p in w.calls && w.calls[p].Remove? ==> ReadPayload(w) == Some(Payload(w.calls[p].owner, p))
  }
}
