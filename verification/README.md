# Verification of the lock, wake-up and channel protocols

This project models the synchronisation core of `wasm_safe_thread` and proves it correct for every
interleaving of any number of threads and tasks: parking, the spinlock, `Mutex`, `RwLock`, `Condvar` and the
mpsc channel.

## How it is built

The protocols are **machines**: a state holds the shared variables and one program counter a thread; one step is
one atomic action of one thread. An action is an atomic operation, one closure run by `with_mut` on a list, one
unpark, one flag store, or one return from a park. A park may return without a token, unparks may come from
outside, and each thread has one token for every primitive it uses. A spinning thread that cannot succeed is a
disabled thread. Atomics are sequentially consistent.

| layer | machine | what is proved about it |
|---|---|---|
| shared argument | `Handoff` | "enqueue if busy, clear then drain", once for all locks |
| parking on wasm | `Parking` | same file |
| `Spinlock::with_mut` | `Spinlock` | same file, for closures of the data alone |
| `Mutex` and `Condvar` | `Monitor` | `MonitorSteps`, `MonitorSafety`, `MonitorRuns`, `MonitorEntries`, `MonitorTimed`, `MonitorExact`, `MonitorNotify`, `MonitorNotifyOne`, `MonitorTasks`, `MonitorAlone`, `MonitorLimits`, `Serial`, `LockProgress` |
| the same, sections taken apart | `MonitorSections` | same file, `SectionsProgress` |
| `RwLock` | `RwLock` | `RwLockSafety`, `RwProgress` |
| the same, sections taken apart | `RwLockSections` | same file, `RwSectionsProgress` |
| mpsc channel | `Channel`, on top of `Monitor` | `ChannelFit`, `ChannelSafety`, `ChannelRuns`, `ChannelLimits`, `ChannelTurns`, `ChannelSends`, `ChannelDelivery`, `ChannelProgress`, `ChannelKinds`, `ChannelStale`, `ChannelLive`, `ChannelClosing` |

In `Monitor` and `RwLock` a closure run by `with_mut` on a waiter list is one action. The closures of the blocking and
asynchronous acquisitions also attempt the lock itself, which no spinlock guards: between a failed attempt and the
push the holder may let go, and the push lands on a free lock. `MonitorSections` and `RwLockSections` have that state.
They take each section apart into the swap of the spinlock, the attempt, the push and the store that clears the
spinlock, and prove that every run of theirs is a run of the machine with whole sections, so its theorems hold of them.

`MonitorOwn` and `ChannelOwn` say what one thread's own actions come to when nobody else moves. The results that
something can go wrong are built of them: they hold from every state of the kind described, not in one example.
`ChannelScenes` shows that there are such states.

The **code** is modelled in its own form as well: classes with the source's fields and methods with the source's
loops, in `Threads`, `MutexCode`, `CondvarCode`, `RwLockCode`, `ChannelCode`, `Spinlock` and `Parking`. A method
runs as one thread. Between any two of its actions the other threads take the steps of a schedule, which is an
arbitrary input. Each class has a `View`, the machine state its fields stand for, and `Valid` says that a run of
the machine reaches that state (for the spinlock, that it satisfies the machine's invariant). A method's contract says
that all it did are steps of the machine, which calls those were (`Ran`, `Went`), and what its result means. So each
theorem about runs is a theorem about the objects. A schedule may end inside a call. The thread then goes on alone,
since its own actions need nobody's leave, and the call answers that it is pending only when it is held up: it spins on
a held lock or an unset flag, is parked without its token, or polls a continuation that is not sent, and its deadline,
if it has one, is still ahead. `MonitorAlone.EndsAlone` proves that a thread alone always comes to the end of its call or
to such a place. A park that ends at its limit is an action of the thread, which it can take once the clock has come so
far; a spurious return is one that the schedule has in it.

`Basics` and `Sums` hold the small facts about sequences and counts.

## Where the code and its documentation differ

- `Drop` for `Sender` says "Last sender dropped, notify receiver" (`src/mpsc.rs:61`). The decrement and the
  notification happen outside the queue's lock, so a receiver that has loaded the count and not yet registered is
  not woken. A receive without a limit may sleep on: `ChannelClosing.LastDropMayStrand` proves, from every state in
  that window, that it can if and only if it does not park or nothing is left over that would end its park, neither a
  token from elsewhere nor an entry of its thread in the queue's lock. With something left over it never sleeps
  unsignalled again (`ChannelClosing.LeftoverWakes`). A receive with a limit reports a timeout when its deadline comes,
  not the disconnection (`ChannelClosing.LastDropMayTimeOut`). `ChannelClosing.LastDropWakes` proves that the window is
  the only one.
- `notify_one` wakes "one" of the waiting threads (`src/condvar/notify.rs:6-9`). An entry that `wait_block` left
  behind at a spurious return counts as a waiter. A `wait_block_timeout` of the same thread takes it for its own, so it
  may report a timeout although it was notified. `MonitorExact.MisreportsIffListed` has the exact condition: the thread
  is listed when it registers. What other threads wait with does not matter.
- Nothing in the documentation of the receive variants (`src/mpsc.rs:284-470`) keeps a program from mixing them. After
  a `recv_block` whose park returned spuriously, a timed blocking or an asynchronous receive can sleep while a message
  is queued and nobody is about to wake it. `ChannelStale.LosesIffHindered` has the exact condition.

## Model

| member | source | states |
|---|---|---|
| `Handoff.CoveredKept` | src/mutex.rs:428-441 | One step of any lock whose threads fail an attempt only while it is busy, push only after such a failure, clear before they drain, and drain everything, keeps this: a nonempty list, or a thread that has failed and is about to push, implies a busy lock or a releaser that still owes the list a drain. The lock may be cleared between the failure and the push |
| `Handoff.DeliveredKept` | src/mutex.rs:428-441 | One step keeps a waiter signalled, listed, or in the hands of a thread about to signal it |
| `MonitorSections.StepRefines` | src/mutex/block.rs:17-31 | The machine in which a list's section is what the source does (swap the spinlock, attempt, push if it failed, clear the spinlock), `data_lock` being outside the spinlock: every step is one step of `Monitor` or none |
| `MonitorSections.FineReachable` | src/spinlock.rs:125-142 | So every state it reaches stands for a reachable state of `Monitor`, which has the pushes that are still due already made, and satisfies its invariant |
| `MonitorSections.FineCoveredKept` | src/mutex/block.rs:18-30 | Every such step keeps, for both mutex lists: a nonempty list, or a thread that has failed its attempt and is about to push, implies a holder or a releaser that owes the list a drain |
| `MonitorSections.FineNoLostWakeup` | src/mutex/block.rs:15-68 | In every state reached so, a thread that is parked without a token, or has failed and is about to push, has another thread that holds the guard, owes the drain, or is about to unpark it |
| `MonitorSections.FineNoLostTaskWakeup` | src/mutex/async_impl.rs:18-130 | The same for a task, from the moment its attempt has failed |
| `MonitorSections.PushOnFreeLock` | src/mutex/block.rs:18-30 | The race is real: a state is reached in which a thread is about to push to the list of a free lock |
| `MonitorSections.SpinlocksAreLeft` | src/spinlock.rs:125-142 | Wherever `Monitor` lets a thread go on, some thread can act with the spinlocks too |
| `MonitorSafety.InvStep` | src/mutex.rs:107-112 | Every step of every thread, for every client of one mutex and one condition variable, keeps the joint invariant: exclusion, covered lists, reachable waiters, spin-flag bookkeeping |
| `MonitorRuns.MutualExclusion` | src/mutex.rs:169-185 | In every reachable state `data_lock` is set exactly when a guard exists, and at most one does, across `try_lock`, spinning, blocking and asynchronous acquisition, their timed forms and the waits |
| `MonitorRuns.GuardedValue` | src/guard.rs:41-57 | While a thread owns the guard no step of another thread changes the protected value |
| `MonitorRuns.NoLostWakeup` | src/mutex/block.rs:15-68 | With a list's section as one action: a thread parked in `lock_block` or `lock_block_timeout` without a token has another thread that holds the guard, owes the list a drain, or is about to unpark it; abandoned entries, spurious returns, stray tokens and spinning acquirers included. `MonitorSections.FineNoLostWakeup` is the same with the section taken apart |
| `MonitorRuns.NoLostTaskWakeup` | src/mutex/async_impl.rs:18-130 | The same for a task that awaits its continuation in `lock_async` or `lock_async_timeout` |
| `MonitorRuns.SpinConservation` | src/condvar/notify.rs:37-43 | The flags notifiers took are, as sets and in number, the waits that returned as notified plus those taken whose wait has not returned; none was withdrawn at a timeout |
| `MonitorRuns.SpinReply` | src/condvar/wait_spin.rs:171-216 | A spinning wait settles as timed out exactly when it removed its own flag from the list, and otherwise a notifier had taken that flag and stored it |
| `MonitorRuns.TakenIsStored` | src/condvar/notify.rs:97-102 | A taken flag is stored, or the notifier that took it still owes the store |
| `MonitorTimed.TimedStep` | src/condvar/wait_block.rs:198-258 | Every step other than a registration by `wait_block` keeps: one entry a thread, exactly while it waits unnotified, and the count of taken entries |
| `MonitorTimed.TimedConservation` | src/condvar/wait_block.rs:198-258 | In every run without `wait_block`, a thread is listed once exactly while it waits unnotified, and entries taken by notifiers are the timed waits that returned as notified plus those that still will |
| `MonitorTimed.TimedReply` | src/condvar/wait_block.rs:213-257 | In such a run, the step on which a timed blocking wait settles reports "not timed out" exactly when a notifier took its entry |
| `MonitorExact.ExactStep` | src/condvar/wait_block.rs:198-258 | Every step in which thread t begins no call, `wait_block` of any other thread included, keeps: t is in its timed wait with one entry or that entry has been taken; or the wait is over, no entry is left, and it reports a timeout exactly if none was taken |
| `MonitorExact.TimedExact` | src/condvar/wait_block.rs:198-258 | A `wait_block_timeout` begun by a thread that is not listed returns with no entry left and reports a timeout exactly if no notifier took its entry, whatever waits other threads mix in |
| `MonitorExact.MisreportsIffListed` | src/condvar/wait_block.rs:218-227 | Exactly: from every state with the caller owning the guard and another thread outside, some continuation reports a timeout although a notifier took the entry of that wait, if and only if the caller is listed when it registers |
| `MonitorExact.SpuriousLeavesEntry` | src/condvar/wait_block.rs:56-72 | How a caller comes to be listed: from every state in which it owns the guard, a `wait_block` whose park returns spuriously ends with the guard and the entry still there |
| `MonitorExact.SpinExactRun` | src/condvar/wait_spin.rs:171-216 | In every run a spinning wait that is back reports a timeout exactly if it withdrew its flag, and otherwise a notifier took and stored it, with no condition on other waits |
| `MonitorExact.TaskTimeoutIgnores` | src/condvar/wait_async.rs:261-282 | `wait_async_timeout` at its deadline reports a timeout whether or not it was notified; in every reachable state at that point a notifier has taken its continuation, and the answer is wrong, exactly when the continuation is no longer listed |
| `MonitorNotify.NotifyAllSpins` | src/condvar/notify.rs:97-102 | When `notify_all` returns, no spin flag listed at its start is listed; each was stored, withdrawn by its own waiter, or is another notifier's to store |
| `MonitorNotify.NotifyAllThreads` | src/condvar/notify.rs:104-108 | When `notify_all` returns, a thread has at most as many entries as it made registrations since the call: no entry from before is left, though the thread may have returned and waited again meanwhile. One still in its old wait has its token or another thread about to unpark it |
| `MonitorNotify.NotifyAllTasks` | src/condvar/notify.rs:110-114 | No continuation listed at its start is listed; each was sent or is another notifier's to send |
| `MonitorNotifyOne.NotifyOneTakesOne` | src/condvar/notify.rs:37-58 | A whole `notify_one`, among any steps of others: either it saw spin flags, threads and tasks each empty and took nobody; or it took exactly one waiter, the one registered last in its list, having seen each list before that one empty, and signalled it |
| `MonitorNotifyOne.ReturnsWithin` | src/condvar/notify.rs:37-115 | Any run in which a thread inside a notification comes back from it begins with one whole call, to which the theorems on `notify_one` and `notify_all` apply |
| `MonitorTasks.TaskStep` | src/condvar/wait_async.rs:54-90 | Every step keeps: a listed continuation of an asynchronous wait is unsent, in no other list, and has its one waiter |
| `MonitorAlone.EndsAlone` | src/mutex/block.rs:15-68 | Every call of a thread that nobody disturbs ends or comes to be held up, by its own actions alone, however far it is and whatever it finds: no loop of an acquisition, a wait, a release or a notification goes round for ever |
| `MonitorAlone.WaitCostsWakeup` | src/condvar/wait_block.rs:56-72 | A wait that is back as notified, with nobody else having moved and no spurious return, has used up a token or an entry of its thread that was there before, so a predicate wait cannot go on for ever alone |
| `MonitorLimits.StaysInTime` | src/condvar/wait_block.rs:198-258 | Every step, other than a new call of the thread itself, keeps: its timed acquisition has given up, or its timed wait is on its way to report a timeout, only if the deadline has passed |
| `Serial.SectionsChain` | src/mutex.rs:169-185 | The critical sections of every run, recorded as they acquire the lock, form a chain: the first found the initial value, each next one what its predecessor left, the lock's value is what the last left, and the guard's owner is in the last one |
| `Serial.SerialInLockOrder` | src/mutex/with.rs:9-12 | From a new mutex, if each section left a function of what it found, the value is those functions applied to the initial value in acquisition order |
| `Serial.Stands` | src/guard.rs:41-57 | A section whose thread writes no more keeps its place in that order and its values in every later state |
| `LockProgress.NoDeadlock` | src/mutex/block.rs:15-36 | With any number of threads, each with finitely many critical sections, every reachable unfinished state has an action some thread can take, without spurious wake-ups |
| `LockProgress.EveryRunFinishes` | src/mutex/block.rs:15-36 | Every such run has at most a number of actions fixed beforehand, and one that cannot be extended has every section done and the list drained once a section |
| `LockProgress.WakeupCost` | src/mutex/block.rs:17-34 | A thread at its park has exactly one of list entry, pending unpark and token, every other thread none; failed acquisition attempts never exceed (threads - 1) * (drains + 1) |
| `SectionsProgress.EveryFineRunFinishes` | src/spinlock.rs:125-142 | The same with the sections taken apart: a run of swaps, attempts, pushes and stores has at most a number fixed beforehand, and one that cannot be extended has finished every critical section and left every spinlock clear |
| `SectionsProgress.FineWakeupCost` | src/mutex/block.rs:17-34 | Failed attempts are paid for by drains there too |
| `Threads.Position` | src/condvar/wait_block.rs:221-221 | The loop behind `iter().position(..)` finds the first occurrence, or that there is none |
| `Threads.Condvar.RemoveThread` | src/condvar/wait_block.rs:218-227 | The closure at the deadline: "notified" exactly when the thread is not listed, and otherwise its first entry, and nothing else, is removed |
| `Threads.Condvar.RemoveSpin` | src/condvar/wait_spin.rs:192-200 | The same for a spin flag |
| `Threads.Mutex.TryLockOrPush` | src/mutex/block.rs:18-30 | The closure under the list's spinlock: acquire, or push the current thread, never both |
| `Threads.Thread.Park` | src/mutex/block.rs:33-33 | A park returns with the token consumed, spuriously, or because its time is up, and otherwise stays only without a token, with time left and until the schedule ends; nothing else of the thread changes |
| `MutexCode.TryLock` | src/mutex.rs:169-185 | Succeeds exactly by owning the lock alone, and fails only if another thread held the lock at its attempt; the call is all the thread did |
| `MutexCode.LockSpin` | src/mutex/spin.rs:11-19 | Returns owning the lock alone, or is still spinning on a held lock when the schedule ends |
| `MutexCode.LockSpinTimeout` | src/mutex/spin.rs:21-32 | The same, and gives up only once the deadline has passed, after a swap that another thread's guard refused; pending, it is before its deadline |
| `MutexCode.LockBlock` | src/mutex/block.rs:15-36 | The loop run against any schedule of the other threads is a run of the machine; it returns owning the lock alone, or is parked without a token while another thread is bound to rescue it |
| `MutexCode.LockBlockTimeout` | src/mutex/block.rs:38-68 | The same with the last attempt at the deadline; a timeout is reported only once the deadline has passed, and after an attempt that another thread's guard refused |
| `MutexCode.LockAsync` | src/mutex/async_impl.rs:18-130 | The same for `lock_async` and `lock_async_timeout`: owning the lock alone; timed out only once the deadline has passed, after an attempt that another thread's guard refused; or pending, before its deadline, on an unsent continuation while another thread is bound to send it, to take its list or to free the lock |
| `MutexCode.DidUnlock` | src/mutex.rs:428-441 | Takes and wakes the list of threads, then that of continuations, by machine steps only, and always ends |
| `MutexCode.DropGuard` | src/guard.rs:59-68 | Releases and drains; the thread ends outside, and has made just that call |
| `MutexCode.WithMutSync` | src/mutex/with.rs:9-12 | The call is one section of the acquisition order: it found the value the closure was applied to and left the one the closure returned, though others ran in between; its result is returned |
| `CondvarCode.WaitBlock` | src/condvar/wait_block.rs:56-72 | Returns owning the lock alone, never as timed out, and only by a token that its park took, unless the schedule had a spurious return for it; all the thread did is the registration, the release, the park and the re-acquisition; pending, it is parked without a token or cannot have the lock back |
| `CondvarCode.WaitBlockTimeout` | src/condvar/wait_block.rs:198-258 | Returns owning the lock alone, and reports a timeout only once the deadline has passed; if the thread was not listed when it called, exactly if no notifier took its entry; pending, it is parked without a token and with time left or cannot have the lock back |
| `CondvarCode.WaitBlockWhile` | src/condvar/wait_block.rs:127-139 | The condition is asked of the very value the lock holds at the call and after each wait, and what it leaves is stored; it held each time but the last; the call returns if and only if it did not hold the last time, owning the lock on what that left; pending, it is held up in a wait begun after the condition held |
| `CondvarCode.WaitBlockTimeoutWhile` | src/condvar/wait_block.rs:319-336 | The same, but that a wait which itself reports a timeout ends the call with one, the condition having held just before it; so no timeout is reported without an evaluation, or when the last one was false, whatever the clock says |
| `CondvarCode.WaitSpin` | src/condvar/wait_spin.rs:51-66 | As `wait_block`, on one fresh flag: it returns only once a notifier has taken and stored that flag; pending, that flag is not stored or it cannot have the lock back |
| `CondvarCode.WaitSpinTimeout` | src/condvar/wait_spin.rs:171-216 | Returns owning the lock alone; on its one fresh flag, it reports a timeout exactly if no notifier took the flag, and then only once the deadline has passed; otherwise the flag was taken and stored; pending, the flag is not stored or it cannot have the lock back |
| `CondvarCode.WaitSpinWhile` | src/condvar/wait_spin.rs:116-128 | As `wait_block_while`: each evaluation is of the value the lock held just before it, and the call returns if and only if the last was false |
| `CondvarCode.WaitSpinTimeoutWhile` | src/condvar/wait_spin.rs:272-289 | As `wait_block_timeout_while`: a timeout only from the last wait, the condition having held just before it |
| `CondvarCode.NotifyOne` | src/condvar/notify.rs:37-58 | All that happened is one whole `notify_one` of the machine, as `MonitorNotifyOne.NotifyOneTakesOne` has it, among steps of other threads; it always ends, with the caller where it was |
| `CondvarCode.NotifyAll` | src/condvar/notify.rs:97-115 | All that happened is one whole `notify_all` of the machine, as the three coverage theorems have it, among steps of other threads; it always ends, with the caller where it was |
| `Spinlock.Atomic` | src/spinlock.rs:125-142 | For closures of the data alone, whatever the interleaving of swaps, loads, writes and stores: results and data are those of the closures run whole, one after the other, in the order of their acquisitions; at most one thread is inside. Closures that also touch `data_lock` are the subject of `MonitorSections` and `RwLockSections` |
| `Spinlock.ResultAt` | src/spinlock.rs:125-142 | The call at place k of that order returned what its closure returns on the data its predecessors left |
| `Spinlock.Lock.WithMut` | src/spinlock.rs:125-142 | The loop and the section on the lock's own fields: a call that returns took effect once, at one place of the order, after every call that had returned before it began; one that does not is spinning on a held lock and has had no effect |
| `Spinlock.Lock.Run` | src/spinlock.rs:134-134 | Between its load and its write no other thread changes the data |
| `RwLockSafety.RwStepInv` | src/rwlock/inner.rs:106-113 | Every step keeps the encoding of the byte, the four covered lists and the reachable waiters |
| `RwLockSafety.RwExclusion` | src/rwlock.rs:143-144 | In every reachable state the byte is 128 with one write guard and no read guard, or the number of read guards, at most 127; no assertion of a guard's drop fails |
| `RwLockSafety.BitSeven` | src/rwlock/read.rs:49-63 | A successful read attempt adds one below 128; only a write attempt, on 0, sets bit 7 |
| `RwLockSafety.GuardedValue` | src/guard.rs:130-157 | While a thread holds a guard of either kind no other thread changes the value |
| `RwLockSafety.NoLostWakeup` | src/rwlock/inner.rs:155-188 | With a list's section as one action: a reader or writer waiting unsignalled on any of the four lists has another thread that holds a guard it waits for, has yet to take that very list, or is about to signal it |
| `RwLockSections.StepRefines` | src/rwlock/write.rs:135-152 | The machine in which the sections of the four lists are taken apart, the byte being outside the spinlocks: every step is one step of `RwLock` or none |
| `RwLockSections.FineListsCovered` | src/rwlock/read.rs:133-154 | In every state it reaches, for each list: an entry, or a thread that has been refused and is about to push, implies a guard in the way or a releaser that owes the list a drain |
| `RwLockSections.FineNoLostWakeup` | src/rwlock/inner.rs:155-188 | And a reader or writer that waits unsignalled, or has been refused and is about to push, has another thread that holds a guard it waits for, has yet to take that very list, or is about to signal it |
| `RwLockSafety.Quiescent` | src/rwlock/read.rs:133-154 | With no release under way, a waiter that is unsignalled would be refused by the byte |
| `RwLockSafety.NoDeadlock` | src/rwlock/inner.rs:155-188 | While any thread is in a call or has a guard, some thread can take its next action, without spurious wake-ups or new calls |
| `RwProgress.EveryRunFinishes` | src/rwlock/write.rs:135-152 | With finitely many critical sections a thread, acquired for reading or writing, spinning or blocking: every run has at most a number of actions fixed beforehand; one that cannot be extended has finished every section, but for a thread that panicked as the 128th reader; with fewer than 128 threads none does |
| `RwProgress.WakeupCost` | src/rwlock/inner.rs:155-188 | A thread at its park has exactly one of an entry in either list, a pending unpark and its token, every other thread none; refused attempts never exceed (threads - 1) * (drains + 1), and drains never twice the critical sections |
| `RwSectionsProgress.EveryFineRunFinishes` | src/rwlock/read.rs:133-154 | The same with the sections taken apart: the swaps, attempts, pushes and stores of a run are bounded beforehand, and one that cannot be extended has finished every section and left every spinlock clear, unless a reader panicked inside its section, which takes 128 threads |
| `RwSectionsProgress.FineWakeupCost` | src/rwlock/inner.rs:155-188 | Refused attempts are paid for by drains there too |
| `RwLockCode.Lock.FetchUpdate` | src/rwlock/read.rs:50-58 | The update closure on the byte: refused with bit 7 set, the panic at 127, one more reader otherwise |
| `RwLockCode.TryLock` | src/rwlock/write.rs:53-61 | `try_lock_read` and `try_lock_write`: a guard that the byte counts; or refused, only if at the attempt another thread had a guard in the way; or the panic, only if 127 had read guards |
| `RwLockCode.LockSpin` | src/rwlock/read.rs:88-101 | `lock_spin_read` and `lock_spin_write`: a guard; the panic, only if 127 had read guards at the attempt; or still refused when the schedule ends |
| `RwLockCode.LockBlock` | src/rwlock/write.rs:135-152 | `lock_block_read` and `lock_block_write` against any schedule: a guard; the panic, only if 127 had read guards at the attempt; or parked unsignalled while another thread has a guard in its way, has yet to take the list it is in, or is about to signal it |
| `RwLockCode.LockAsync` | src/rwlock/read.rs:181-202 | The same for `lock_async_read` and `lock_async_write`, pending on an unsent continuation in the list of continuations |
| `RwLockCode.DropReadGuard` | src/guard.rs:213-222 | The assertion holds, and all it did is one read release of the machine, which drains the writers' lists; it always ends, with the thread outside |
| `RwLockCode.DropWriteGuard` | src/guard.rs:224-233 | The same for a write release, which drains all four lists |
| `RwLockCode.NamedStep` | src/rwlock/read.rs:188-190 | Every step keeps: a continuation that is listed, about to be sent or sent has been made, so a new one is unsent |
| `Parking.InvStep` | src/wasm/wasm_utils.rs:85-130 | Every action keeps: an owner asleep on a set word implies an unparker between its store and its notify; a store stays in the word until the owner returns from a park |
| `Parking.NoLostUnpark` | src/wasm/wasm_utils.rs:125-130 | Once an unpark has stored, the word is set or the owner has returned from a park since; an owner asleep with no unparker in between has returned since every unpark |
| `Parking.WordRefinesToken` | src/wasm/wasm_utils.rs:85-130 | Every action on the word is one action on an abstract token, or none; the notify is none |
| `Parking.TokenEndsPark` | src/wasm/wasm_utils.rs:85-122 | With the token set and no unparker between its actions, a park ends by at most two actions of its own |
| `Parking.ParkingPlace.ParkWaitAtAddr` | src/wasm/wasm_utils.rs:85-101 | Which actions the owner took for which answer: "ok" only by the token or a notify, "not-equal" only on a set word, and in each case the word is left clear; a token present at the call is consumed without sleeping; the owner sleeps on a set word only while an unparker has yet to notify |
| `Parking.ParkingPlace.ParkWaitTimeoutAtAddr` | src/wasm/wasm_utils.rs:104-122 | The same for the timed form, which leaves the token in place when it reports "not-equal"; "timed-out" only after its time was up while it slept, and it sleeps on only if its time has not been up since |
| `Parking.ParkingPlace.ParkNotifyAtAddr` | src/wasm/wasm_utils.rs:125-130 | Exactly one store and then one notify; when it returns, the token is set or the owner has returned from a park since the store, and the owner is not asleep |
| `ChannelSafety.ChanStep` | src/mpsc.rs:42-47 | Every step keeps the channel invariant: conservation, counts, and each operation in step with its monitor call |
| `ChannelRuns.Conservation` | src/mpsc.rs:206-282 | In every reachable state the pushes so far are the receives so far followed by the queue, for any mix of variants |
| `ChannelRuns.RealTimeOrder` | src/mpsc.rs:233-245 | A send that begins after another has completed has its message later in the push log, and receives follow that log |
| `ChannelRuns.DisconnectedIsFinal` | src/mpsc.rs:286-301 | Once a receive has found the channel disconnected, in every later state no `Sender` is alive, no thread is in a send, and all ever pushed has been received |
| `ChannelRuns.DisconnectedIsRecorded` | src/mpsc.rs:349-360 | A receive that answers "disconnected" sets the record the theorem above starts from |
| `ChannelRuns.IteratorYieldsRest` | src/mpsc.rs:480-485 | An iteration that ends yielded exactly the suffix of the push log not received before it |
| `ChannelRuns.SenderCount` | src/mpsc.rs:57-74 | `sender_count` is the number of live `Sender`s; exactly one drop finds itself the last; the count never rises again |
| `ChannelSends.HandedBackIsNotQueued` | src/mpsc.rs:206-282 | Values of sends begun are, with multiplicity, the values received, queued, handed back in `SendError` and still with their sends; one sent once and handed back is nowhere else |
| `ChannelDelivery.DeliveryStep` | src/mpsc.rs:349-360 | Every step keeps, whichever thread owns the receiver: while it waits and the queue is not empty, its wake-up is on its way or a sender has its `notify_one` still to perform. The one condition is on registrations: a timed blocking receive begins to wait while its thread is not listed, an asynchronous one while no thread is |
| `ChannelProgress.NoLostMessage` | src/mpsc.rs:349-360 | End to end, for every run that meets that condition: whenever a thread waits unsignalled in a receive while the queue holds a message, some thread has the notification or the wake-up still to perform, though mutex and condition variable share the receiver's one token, old entries may be listed and the receiver may move |
| `ChannelStale.LosesIffHindered` | src/mpsc.rs:373-392 | The condition is exact: from every reachable state in which a receive is about to wait and the other threads are between operations, some continuation leaves a message queued, the receiver asleep and nobody about to wake it, if and only if an old entry is in the way as above |
| `ChannelStale.OldEntryIsReached` | src/mpsc.rs:349-360 | How that comes about: from every reachable state in which `recv_block` is about to wait, a spurious return leads to one in which the next timed blocking or asynchronous receive has an old entry in its way |
| `ChannelKinds.KindsAreOrderly` | src/mpsc.rs:304-470 | Two conditions on the program that imply it: no `recv_block`; or no timed blocking and no asynchronous receive. Moves of the receiver are allowed in both |
| `ChannelProgress.SpinReceiver` | src/mpsc.rs:304-336 | While a thread spins in a receive the spin list holds at most its flag, and while that is unset and the queue is not empty a sender owes its pop or a thread the store |
| `ChannelLive.NeverStuck` | src/mpsc.rs:206-470 | In every state such a run reaches, while any thread is in an operation, other than a receive waiting for an empty queue, some thread can take its next action, without spurious wake-ups or new operations and whatever the others are doing |
| `ChannelLive.RestIsDelivered` | src/mpsc.rs:349-360 | So if no thread can act and some thread is in a receive, all ever pushed has been received, and no other operation is in progress |
| `ChannelProgress.ReceiverGoesOn` | src/mpsc.rs:349-360 | With a message queued and every other thread between operations, the receive in progress itself can take its next action, without spurious wake-ups |
| `ChannelProgress.OldestIsDelivered` | src/mpsc.rs:349-360 | And its own actions alone, at most a number known beforehand, return the oldest message |
| `ChannelClosing.LastDropWakes` | src/mpsc.rs:57-65 | The last drop wakes a waiting receiver, by whatever receive it waits, unless the receiver is between its load of the count and its registration when `notify_all` takes its list |
| `ChannelClosing.LastDropMayStrand` | src/mpsc.rs:57-65 | In that window it need not, exactly: from every reachable state with no sender, the other threads between operations and a receive without a limit about to wait, the receiver's own actions can end with it asleep and nobody but the platform able to act, if and only if the receive does not park, or no token and no entry in the queue's lock is left over for it |
| `ChannelClosing.LeftoverWakes` | src/mpsc.rs:349-360 | With a token or such an entry left over, `recv_block` is in no state of any run from there at a park without its token |
| `ChannelClosing.LastDropMayTimeOut` | src/mpsc.rs:373-392 | A receive with a limit, of any of the three kinds, can come to report a timeout there, not the disconnection |
| `ChannelClosing.DropOpensWindow` | src/mpsc.rs:57-65 | From every reachable state in which a receive is about to wait and another thread has the last sender, the whole drop leads into that window |
| `ChannelLimits.TimeoutIsLate` | src/mpsc.rs:373-392 | In every reachable state a receive with a deadline whose acquisition or wait has timed out is past that deadline |
| `ChannelTurns.ReceiveAnswers` | src/mpsc.rs:286-411 | In every run from a new channel, whatever else happens in it, the answer of a receive that has returned is what its own actions found: disconnected if and only if one found the queue empty and no sender, empty only with a failed `try_lock` or a sender left, a timeout only past the deadline, a message only if it was the first |
| `ChannelScenes.StrandIsReached` | src/mpsc.rs:57-65 | Two threads come to the window with nothing left over, where a receive without a limit, of any of the three kinds, strands |
| `ChannelScenes.LossIsReached` | src/mpsc.rs:373-392 | They come to a state in which a timed blocking or an asynchronous receive is about to wait with an old entry in its way, and a message is lost |
| `ChannelScenes.WakefulIsReached` | src/mpsc.rs:57-65 | Outside the window: they come to a receiver that is waiting when the last sender's `notify_all` comes to its list |
| `ChannelScenes.UnsignalledIsReached` | src/mpsc.rs:233-245 | They come to a queued message with the receiver not yet signalled |
| `ChannelCode.SendBy` | src/mpsc.rs:208-245 | `Ok` only with the value pushed, at a place after everything pushed before the send began; `SendError` hands back that value, only with the receiver gone, and always if it was gone at the call; pending, it is held up in its acquisition of the queue, so nothing is pushed; the operation is all the thread did |
| `ChannelCode.ReceiveBy` | src/mpsc.rs:286-411 | The answer is what the receive's own actions found: disconnected if and only if one of them found the queue empty and no sender; empty only if it found the queue empty with a sender left, or another thread held the lock at its `try_lock`; a timeout only past the deadline, from an acquisition or a wait that timed out; a message only if it was the first in the queue, and it alone is added to what was received. `try_recv` always answers; any other is pending only while held up in its acquisition or its wait |
| `ChannelCode.Iterate` | src/mpsc.rs:480-485 | The loop over `IntoIter::next`, each a receive: one that ends has yielded, in order, exactly what had not been received, up to the last message ever pushed, and ends with the channel disconnected; pending, it is held up in a receive, and all received since is what it yielded |
| `ChannelCode.DropSender` | src/mpsc.rs:57-65 | The one whose decrement finds 1 makes a call of `notify_all`, any other does nothing more; the drop always ends, whatever the others do, with the thread idle |
| `ChannelCode.DropReceiver` | src/mpsc.rs:88-94 | The flag is clear from then on, and `notify_all` is called; the drop always ends, with the thread idle |

## Left out

- Delivery when a timed blocking receive begins to wait with its thread listed, or an asynchronous one with any thread
  listed: it does not hold (`ChannelStale.LosesIffHindered`), and `ChannelDelivery.Permitted` excludes just that.
- Runs of the channel are not bounded beforehand: a receive in a loop may be woken for nothing any number of times.
  `ChannelLive.NeverStuck` and `ChannelLive.RestIsDelivered` say what holds when a run cannot go on.
- Conservation of notifications for `wait_async_timeout`: it does not hold, since it reports a timeout without looking
  whether a notifier had taken its entry (`MonitorExact.TaskTimeoutIgnores`).
- The code form of the asynchronous condition-variable waits (`src/condvar/wait_async.rs`); their steps are in
  `Monitor`.
- Predicates of `wait_*_while` that carry state of their own: a condition is a function of the guarded value, which it
  may change.
- What becomes of messages that are queued when the receiver is dropped.
- The panic of the 128th reader is a state the thread stays in, in `RwLockSections` with the list's spinlock still set;
  what unwinding does beyond that is not modelled.
- Fairness: nothing orders contenders, so only deadlock freedom and bounded runs are proved, the latter for the
  blocking acquisitions of both locks and the spinning ones of the reader-writer lock, not for asynchronous ones.
- Two threads that send through one shared `&Sender` (`Sender` is `Sync`, `src/mpsc.rs:512`): a send needs a handle that
  its own thread has. A handle moves between threads and is cloned.
- A thread that asks for a second guard of a lock while it has one.
- Weak memory orderings; overflow of `sender_count` and of the clock.
- The `continue` crate and executors: a continuation is a one-shot flag, and a task polls it when it is scheduled. A
  dropped future of `lock_async` or a receive is a task that is never scheduled again.
- `lock_sync` and `wait_sync` are a choice between the blocking and the spinning form, given as a parameter.
- In `ChannelCode` the mutex and condition-variable calls run on the machine `Monitor`, not on the classes of
  `Threads`.
- `park_wait_at_addr` where `Atomics` is missing ("unsupported"), worker start-up and the rest of the JavaScript glue.
- `src/hooks.rs`, `src/stdlib.rs`, thread-local wrappers, task counters and formatting: thin.
