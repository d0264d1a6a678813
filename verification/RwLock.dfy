/** The reader-writer lock as an interleaving machine: one byte and four waiter lists. */
module RwLock {
  import opened Basics

  const UNLOCKED: nat := 0

  /** Bit 7 of the byte marks a writer; the low bits count readers. */
  const LOCKED_WRITE: nat := 0x80

  datatype Mode = Read | Write

  /** The lists in the order a write release drains them; a read release starts with the third. */
  datatype Stage = ReadThreads | ReadTasks | WriteThreads | WriteTasks

  datatype RwPc =
    | Away
    | Reading
    | Writing
    | TryOnce(m: Mode)                 // try_lock_read, try_lock_write
    | Spin(m: Mode)                    // lock_spin_*
    | Enter(m: Mode)                   // lock_block_*: the attempt under the list's spinlock
    | Park(m: Mode)
    | EnterTask(m: Mode)               // lock_async_*
    | Await(m: Mode, id: Sig)
    | DropRead                         // ReadGuard::drop, WriteGuard::drop: the change of the byte
    | DropWrite
    | Take(at: Stage)                  // did_unlock_read, did_unlock_write
    | Wake(ws: seq<Tid>, at: Stage)
    | Send(gs: seq<Sig>, at: Stage)
    | Panicked                         // "Too many readers"
    | Failed                           // an assertion of a guard's drop failed

  datatype Rw<T> = Rw(
    value: T, word: nat,
    readThreads: seq<Tid>, readTasks: seq<Sig>, writeThreads: seq<Tid>, writeTasks: seq<Sig>,
    token: seq<bool>, fired: set<Sig>, next: Sig,
    pc: seq<RwPc>)

  datatype RwStep<T> =
    | Try(t: Tid, m: Mode)
    | Lock(t: Tid, m: Mode, how: How)
    | Store(t: Tid, v: T)
    | Unlock(t: Tid)
    | Go(t: Tid)
    | Spurious(t: Tid)
    | Stray(t: Tid)

  predicate WriterBit(word: nat) { (word / LOCKED_WRITE) % 2 == 1 }

  datatype Attempt = Acquired(word: nat) | Refused | TooMany

  /** One attempt on the byte. */
  function TryWord(m: Mode, word: nat): Attempt {
    match m
    case Read =>
      if WriterBit(word) then Refused
      else if word == LOCKED_WRITE - 1 then TooMany
      else Acquired((word + 1) % 256)
    case Write => if word == UNLOCKED then Acquired(LOCKED_WRITE) else Refused
  }

  predicate Wf<T>(s: Rw<T>) {
    && |s.token| == |s.pc|
    && Below(s.readThreads, |s.pc|) && Below(s.writeThreads, |s.pc|)
    && (forall t :: 0 <= t < |s.pc| ==> Below(Unparks(s.pc[t]), |s.pc|))
  }

  function Unparks(p: RwPc): seq<Tid> { if p.Wake? then p.ws else [] }

  function Sends(p: RwPc): seq<Sig> { if p.Send? then p.gs else [] }

  function Init<T>(n: nat, value: T): (s: Rw<T>)
    ensures Wf(s)
  {
    Rw(value, UNLOCKED, [], [], [], [], seq(n, i => false), {}, 0, seq(n, i => Away))
  }

  function At<T>(s: Rw<T>, t: Tid, p: RwPc): Rw<T>
    requires t < |s.pc|
  {
    s.(pc := s.pc[t := p])
  }

  function Owning(m: Mode): RwPc { if m.Read? then Reading else Writing }

  /** The attempt of thread `t` when it succeeds or panics; `refused` is what it does otherwise. */
  function Attempted<T>(s: Rw<T>, t: Tid, m: Mode, refused: Rw<T>): Rw<T>
    requires t < |s.pc|
  {
    match TryWord(m, s.word)
    case Acquired(word) => At(s, t, Owning(m)).(word := word)
    case TooMany => At(s, t, Panicked)
    case Refused => refused
  }

  predicate CanGo<T>(s: Rw<T>, t: Tid)
    requires Wf(s) && t < |s.pc|
  {
    match s.pc[t]
    case Away => false
    case Reading => false
    case Writing => false
    case Panicked => false
    case Failed => false
    case Spin(m) => !TryWord(m, s.word).Refused?
    case Park(_) => s.token[t]
    case Await(_, id) => id in s.fired
    case _ => true
  }

  function PushThread<T>(s: Rw<T>, t: Tid, m: Mode): Rw<T>
    requires t < |s.pc|
  {
    if m.Read? then At(s, t, Park(m)).(readThreads := s.readThreads + [t])
    else At(s, t, Park(m)).(writeThreads := s.writeThreads + [t])
  }

  function PushTask<T>(s: Rw<T>, t: Tid, m: Mode): Rw<T>
    requires t < |s.pc|
  {
    if m.Read? then At(s, t, Await(m, s.next)).(readTasks := s.readTasks + [s.next], next := s.next + 1)
    else At(s, t, Await(m, s.next)).(writeTasks := s.writeTasks + [s.next], next := s.next + 1)
  }

  predicate Acquires(p: RwPc) { p.TryOnce? || p.Spin? || p.Enter? || p.Park? || p.EnterTask? || p.Await? }

  function GoAcquire<T>(s: Rw<T>, t: Tid): Rw<T>
    requires Wf(s) && t < |s.pc| && CanGo(s, t) && Acquires(s.pc[t])
  {
    match s.pc[t]
    case TryOnce(m) => Attempted(s, t, m, At(s, t, Away))
    case Spin(m) => Attempted(s, t, m, s)
    case Enter(m) => Attempted(s, t, m, PushThread(s, t, m))
    case Park(m) => At(s, t, Enter(m)).(token := s.token[t := false])
    case EnterTask(m) => Attempted(s, t, m, PushTask(s, t, m))
    case Await(m, _) => At(s, t, EnterTask(m))
  }

  /** The guards' drops: the byte first, then list after list. */
  function GoRelease<T>(s: Rw<T>, t: Tid): Rw<T>
    requires Wf(s) && t < |s.pc| && CanGo(s, t) && !Acquires(s.pc[t])
  {
    match s.pc[t]
    case DropRead => At(s, t, if s.word > 0 then Take(WriteThreads) else Failed).(word := (s.word + 255) % 256)
    case DropWrite => At(s, t, if s.word == LOCKED_WRITE then Take(ReadThreads) else Failed).(word := UNLOCKED)
    case Take(ReadThreads) => At(s, t, Wake(s.readThreads, ReadThreads)).(readThreads := [])
    case Take(ReadTasks) => At(s, t, Send(s.readTasks, ReadTasks)).(readTasks := [])
    case Take(WriteThreads) => At(s, t, Wake(s.writeThreads, WriteThreads)).(writeThreads := [])
    case Take(WriteTasks) => At(s, t, Send(s.writeTasks, WriteTasks)).(writeTasks := [])
    case Wake(ws, at) =>
      if ws == [] then At(s, t, if at.ReadThreads? then Take(ReadTasks) else Take(WriteTasks))
      else At(s, t, Wake(ws[1..], at)).(token := s.token[ws[0] := true])
    case Send(gs, at) =>
      if gs == [] then At(s, t, if at.ReadTasks? then Take(WriteThreads) else Away)
      else At(s, t, Send(gs[1..], at)).(fired := s.fired + {gs[0]})
  }

  predicate Enabled<T>(s: Rw<T>, e: RwStep<T>)
    requires Wf(s)
  {
    && e.t < |s.pc|
    && match e
       case Try(t, _) => s.pc[t].Away?
       case Lock(t, _, _) => s.pc[t].Away?
       case Store(t, _) => s.pc[t].Writing?
       case Unlock(t) => s.pc[t].Reading? || s.pc[t].Writing?
       case Go(t) => CanGo(s, t)
       case Spurious(t) => s.pc[t].Park?
       case Stray(_) => true
  }

  function Apply<T>(s: Rw<T>, e: RwStep<T>): Rw<T>
    requires Wf(s) && Enabled(s, e)
  {
    match e
    case Try(t, m) => At(s, t, TryOnce(m))
    case Lock(t, m, how) =>
      At(s, t, match how case Spinning => Spin(m) case Blocking => Enter(m) case Tasking => EnterTask(m))
    case Store(t, v) => s.(value := v)
    case Unlock(t) => At(s, t, if s.pc[t].Reading? then DropRead else DropWrite)
    case Go(t) => if Acquires(s.pc[t]) then GoAcquire(s, t) else GoRelease(s, t)
    case Spurious(t) => At(s, t, Enter(s.pc[t].m))
    case Stray(t) => s.(token := s.token[t := true])
  }
}
