# Process-management system calls of a teaching kernel

This project models the process-management system-call layer of an rCore-style
teaching kernel for 64-bit RISC-V. That layer is the file
`os/src/syscall/process.rs`. It covers five handlers:

- `sys_yield` gives up the CPU and always returns 0.
- `sys_get_time` reads the microsecond clock and writes it as a
  `TimeVal { sec, usec }` into user memory.
- `sys_mmap` checks its length and permission mask (`port`: Read = 1,
  Write = 2, Execute = 4) before it hands the request to the current task's
  mapper.
- `sys_munmap` hands its request to the current task's unmapper.
- `sys_sbrk` turns the heap routine's `Option` answer into a signed result.

The code outside this file that the handlers call is represented by one class,
`Process.Kernel`. That code is the scheduler, the timer, the page-table
translator and the per-task mmap, munmap and brk routines. The class records
every request it has served in `served`. Each answer it gives is a fixed but
arbitrary function of that record. So the contracts of the handlers are stated
relative to those answers, and they claim nothing about what the hidden code
does. The user `TimeVal` that `translated_data_mut` resolves is a
`TimeValCell` object, and `sys_get_time` writes it in place.

Files:

- `machine.dfy` holds module `Machine`: `usize`, `isize`, `i32` (64-bit
  target), `Option`, and the wrapping cast `usize as isize`.
- `process.dfy` holds module `Process`: `TimeVal` and the microsecond split,
  the permission mask, the `sys_sbrk` encoding, the `Kernel` stand-in, and
  the five handlers.

## Model

| member | source | states |
|---|---|---|
| Machine.AsIsize | os/src/syscall/process.rs:97 | the cast keeps the 64-bit pattern: the result is congruent to the input modulo 2^64; it is non-negative exactly when the input is at most `isize::MAX`, and then it equals the input |
| Process.SplitMicros | os/src/syscall/process.rs:55-56 | the `TimeVal` built from a clock reading `us` has `usec < 1_000_000` and `sec * 1_000_000 + usec == us` |
| Process.SplitTotal | os/src/syscall/process.rs:55-56 | inverse law: a normal `TimeVal` (`usec < 1_000_000`) that fits in `usize` is exactly the split of the time it denotes |
| Process.SplitMonotone | os/src/syscall/process.rs:53-57 | `a <= b` exactly when the split of `a` is lexicographically not later than the split of `b`, so readings from a clock that never goes back give `TimeVal`s that never go back |
| Process.PortRejected | os/src/syscall/process.rs:79 | the bit test (`port & !0x7 != 0` or `port & 0x7 == 0`) rejects a port exactly when it is outside `1..=7`, and this includes `port == 0` |
| Process.PortOf | os/src/syscall/process.rs:79 | the mask of a set of permissions is at most 7, and it is 0 exactly when the set is empty |
| Process.PortAcceptedIffPermissions | os/src/syscall/process.rs:79 | a port is accepted exactly when its low three bits grant a non-empty set of permissions and it is exactly the mask of that set |
| Process.PortOfRoundTrip | os/src/syscall/process.rs:79 | the mask of every non-empty permission set is accepted, and it decodes back to the same set |
| Process.SbrkResult | os/src/syscall/process.rs:96-100 | `None` gives -1; `Some(old_brk)` gives a value congruent to `old_brk` modulo 2^64, and it gives `old_brk` itself when `old_brk <= isize::MAX` |
| Process.SbrkRoundTrip | os/src/syscall/process.rs:96-100 | reading the result back recovers the heap routine's answer exactly, unless that answer is `Some(usize::MAX)`, which reads back as failure |
| Process.Kernel.CurrentUserToken | os/src/syscall/process.rs:52 | stand-in for the unseen `current_user_token()`: the oracle `tokenAfter` applied to the requests served; no property claimed |
| Process.Kernel.TranslatedDataMut | os/src/syscall/process.rs:52 | stand-in for the unseen `translated_data_mut`: the slot the oracle `timeValsAfter` gives, for the requests served, at (token, address); requires the address to be mapped |
| Process.Kernel.SuspendCurrentAndRunNext | os/src/syscall/process.rs:42 | a suspend request is recorded |
| Process.Kernel.GetTimeUs | os/src/syscall/process.rs:53 | returns the clock's answer for the requests served so far and records a clock read |
| Process.Kernel.SelectCurTaskToMmap | os/src/syscall/process.rs:82 | returns the mapper's answer for `(start, len, port)` and records the request |
| Process.Kernel.SelectCurTaskToMunmap | os/src/syscall/process.rs:90 | returns the unmapper's answer for `(start, len)` and records the request |
| Process.Kernel.ChangeProgramBrk | os/src/syscall/process.rs:96 | returns the heap routine's answer for `size` and records the request |
| Process.SysYield | os/src/syscall/process.rs:40-44 | always returns 0 after exactly one suspend request |
| Process.SysGetTime | os/src/syscall/process.rs:50-60 | returns 0 and reads the clock once; the only memory it writes is the translated user `TimeVal`, which receives `SplitMicros` of that reading (normal, and totalling the reading, by `SplitMicros`'s contract) |
| Process.SysMmap | os/src/syscall/process.rs:74-83 | `len == 0` returns 0 and `len > 0` with `port` outside `1..=7` returns -1, both without asking the mapper; otherwise it asks the mapper once with `(start, len, port)` and returns its answer unchanged |
| Process.SysMunmap | os/src/syscall/process.rs:88-92 | asks the unmapper once with `(start, len)` and returns its answer unchanged |
| Process.SysSbrk | os/src/syscall/process.rs:94-101 | asks the heap routine once with `size` and returns `SbrkResult` of its answer: -1 on `None`, otherwise the previous break cast to `isize` |

## Left out

- `sys_exit` is not modelled. It only hands control to the scheduler and never returns; the `panic!` after that call marks code that cannot be reached.
- `sys_task_info` and the `TaskInfo` record are not modelled. The handler only forwards to `get_task_info`, which is not part of this model.
- Page-table translation is represented only by a map from (token, user address) to a `TimeValCell`, an arbitrary function of the requests served, standing for `translated_data_mut` and `current_user_token`. A `TimeVal` that straddles two pages is not modelled: the model assumes `translated_data_mut` yields a single slot holding the whole `TimeVal`. A user address that the map does not hold would fault inside the translator. `SysGetTime` therefore requires the address to be in the map.
- What the mmap, munmap and brk routines do is not modelled: alignment, overlap checks, frame allocation, rollback and the heap floor and ceiling. Their answers are arbitrary functions of the requests served so far.
- Reading the hardware clock and the `trace!` logging are I/O and are not modelled. The clock is one more arbitrary function of the requests served.
- User memory is written only by the handlers modelled here: `SysYield` changes no user `TimeVal` slot, although other tasks run, and may make their own system calls, while the caller is suspended at os/src/syscall/process.rs:42.
- The `_tz` argument of `sys_get_time` is accepted and ignored, as in the source.
- Process.SbrkRoundTrip: the result encoding loses one case. A previous break of `usize::MAX` casts to -1, the same value as failure. Whether the heap routine can return `usize::MAX` is not modelled.
- `sys_mmap` (os/src/syscall/process.rs:74-83) does not check that `start` is page-aligned, does not check for overlap and allocates no frames; any such work is done by `select_cur_task_to_mmap`, which is not modelled. A zero `len` succeeds whatever `port` is. `sys_sbrk` takes an `i32`.
