/**
 * The process-management system calls of the teaching kernel
 * (`os/src/syscall/process.rs`): `sys_yield`, `sys_get_time`, `sys_mmap`,
 * `sys_munmap` and `sys_sbrk`, together with the value types they use.
 *
 * The collaborators these handlers call (the scheduler, the timer, the
 * page-table translator and the per-task mapping and heap routines) are not
 * modelled; `Kernel` stands in for all of them. Its answers are arbitrary
 * functions, fixed when the object is built, of the list of requests it has
 * served so far, so nothing is claimed about what the collaborators do.
 * User memory itself is written only by the handlers modelled here.
 */
module Process {
  import opened Machine

  // ---------------------------------------------------------------------
  // TimeVal and the microsecond split of sys_get_time
  // ---------------------------------------------------------------------

  const MICROS_PER_SEC: int := 1_000_000

  /** Seconds and the microseconds left over, as written to user memory. */
  datatype TimeVal = TimeVal(sec: usize, usec: usize)

  /** The number of microseconds a TimeVal denotes. */
  function TotalMicros(tv: TimeVal): int {
    tv.sec * MICROS_PER_SEC + tv.usec
  }

  /** A TimeVal in normal form: the microsecond part is below one second. */
  predicate Normal(tv: TimeVal) {
    tv.usec < MICROS_PER_SEC
  }

  /** Lexicographic order on (sec, usec): `a` is not later than `b`. */
  predicate NotLater(a: TimeVal, b: TimeVal) {
    a.sec < b.sec || (a.sec == b.sec && a.usec <= b.usec)
  }

  /** The split sys_get_time applies to the clock reading `us`. */
  function SplitMicros(us: usize): (tv: TimeVal)
    ensures Normal(tv)
    ensures TotalMicros(tv) == us
  {
    TimeVal(us / MICROS_PER_SEC, us % MICROS_PER_SEC)
  }

  /**
   * The split is the inverse of TotalMicros on normal TimeVals: a normal
   * TimeVal is the one and only split of the time it denotes.
   */
  lemma SplitTotal(tv: TimeVal)
    requires Normal(tv) && TotalMicros(tv) <= USIZE_MAX
    ensures SplitMicros(TotalMicros(tv)) == tv
  {
  }

  /**
   * The split preserves and reflects the order of clock readings: a later
   * reading never yields an earlier TimeVal, and an earlier TimeVal always
   * comes from an earlier (or the same) reading.
   */
  lemma SplitMonotone(a: usize, b: usize)
    ensures a <= b <==> NotLater(SplitMicros(a), SplitMicros(b))
  {
  }

  // ---------------------------------------------------------------------
  // The permission mask of sys_mmap
  // ---------------------------------------------------------------------

  /** The access rights a mapping can carry; bit 0, 1 and 2 of `port`. */
  datatype Permission = Read | Write | Execute

  /** Whether `port` sets the bit of permission `p`. */
  predicate Grants(port: usize, p: Permission) {
    var bits := port as bv64;
    match p
    case Read => bits & 1 != 0
    case Write => bits & 2 != 0
    case Execute => bits & 4 != 0
  }

  /** For a mask of the low three bits only, the bits read as numbers. */
  lemma GrantsLowBits(port: usize)
    requires port <= 7
    ensures Grants(port, Read) <==> port % 2 == 1
    ensures Grants(port, Write) <==> (port / 2) % 2 == 1
    ensures Grants(port, Execute) <==> port >= 4
  {
  }

  /** The permissions the low three bits of `port` grant. */
  function PermissionsOf(port: usize): set<Permission> {
    (if Grants(port, Read) then {Read} else {}) +
    (if Grants(port, Write) then {Write} else {}) +
    (if Grants(port, Execute) then {Execute} else {})
  }

  /** The `port` mask that grants exactly the permissions `perms`: Read is
      bit 0 (1), Write bit 1 (2), Execute bit 2 (4). */
  function PortOf(perms: set<Permission>): (port: usize)
    ensures port <= 7
    ensures port == 0 <==> perms == {}
  {
    assert perms != {} ==> Read in perms || Write in perms || Execute in perms by {
      if perms != {} {
        var p :| p in perms;
        assert p == Read || p == Write || p == Execute;
      }
    }
    (if Read in perms then 1 else 0) +
    (if Write in perms then 2 else 0) +
    (if Execute in perms then 4 else 0)
  }

  /**
   * The test sys_mmap applies before forwarding: `port` is refused when a
   * bit outside the low three is set or none of the low three is.
   */
  predicate PortRejected(port: usize)
    ensures PortRejected(port) <==> !(1 <= port <= 7)
  {
    var p := port as bv64;
    p & !7 != 0 || p & 7 == 0
  }

  /**
   * A port passes the test exactly when it is the mask of a non-empty set of
   * permissions, and nothing else.
   */
  lemma PortAcceptedIffPermissions(port: usize)
    ensures !PortRejected(port) <==> PermissionsOf(port) != {} && PortOf(PermissionsOf(port)) == port
  {
  }

  /**
   * Every non-empty set of permissions has a mask that passes the test and
   * decodes back to the same set.
   */
  lemma PortOfRoundTrip(perms: set<Permission>)
    requires perms != {}
    ensures !PortRejected(PortOf(perms))
    ensures PermissionsOf(PortOf(perms)) == perms
  {
    var port := PortOf(perms);
    GrantsLowBits(port);
    assert Grants(port, Read) <==> Read in perms;
    assert Grants(port, Write) <==> Write in perms;
    assert Grants(port, Execute) <==> Execute in perms;
    forall p: Permission
      ensures p in PermissionsOf(port) <==> p in perms
    {
      match p
      case Read =>
      case Write =>
      case Execute =>
    }
  }

  // ---------------------------------------------------------------------
  // The result encoding of sys_sbrk
  // ---------------------------------------------------------------------

  /** sys_sbrk's result for what the heap routine answered. */
  function SbrkResult(brk: Option<usize>): (r: isize)
    ensures brk.None? ==> r == -1
    ensures brk.Some? ==> r % WORD_MODULUS == brk.value
    ensures brk.Some? && brk.value <= ISIZE_MAX ==> r == brk.value
  {
    match brk
    case Some(oldBrk) => AsIsize(oldBrk)
    case None => -1
  }

  /** How a user program reads a sys_sbrk result back. */
  function DecodeSbrk(r: isize): Option<usize> {
    if r == -1 then None else Some(r % WORD_MODULUS)
  }

  /**
   * The encoding loses nothing, except that a previous break of
   * `usize::MAX` reads back as a failure.
   */
  lemma SbrkRoundTrip(brk: Option<usize>)
    ensures DecodeSbrk(SbrkResult(brk)) == brk <==> brk != Some(USIZE_MAX)
  {
  }

  // ---------------------------------------------------------------------
  // The collaborators
  // ---------------------------------------------------------------------

  /** A request served by one of the collaborators. */
  datatype Request =
    | Suspend
    | ReadClock
    | Mmap(start: usize, len: usize, port: usize)
    | Munmap(start: usize, len: usize)
    | ChangeBrk(size: i32)

  /** A TimeVal-sized slot of user memory, reached through the page table. */
  class TimeValCell {
    var value: TimeVal

    constructor (v: TimeVal)
      ensures value == v
    {
      value := v;
    }
  }

  /**
   * The rest of the kernel as the system-call layer sees it. `served` is
   * the list of requests answered so far; every answer is a function of it.
   */
  class Kernel {
    var served: seq<Request>
    /** `current_user_token()`: the address space of the running task. */
    const tokenAfter: seq<Request> -> usize
    /** `translated_data_mut`: the user TimeVal slots, by (token, address). */
    const timeValsAfter: seq<Request> -> map<(usize, usize), TimeValCell>
    /** `get_time_us()`. */
    const clockAfter: seq<Request> -> usize
    /** `select_cur_task_to_mmap`. */
    const mmapAnswer: (seq<Request>, usize, usize, usize) -> isize
    /** `select_cur_task_to_munmap`. */
    const munmapAnswer: (seq<Request>, usize, usize) -> isize
    /** `change_program_brk`. */
    const brkAnswer: (seq<Request>, i32) -> Option<usize>

    constructor (
      tokenAfter: seq<Request> -> usize,
      timeValsAfter: seq<Request> -> map<(usize, usize), TimeValCell>,
      clockAfter: seq<Request> -> usize,
      mmapAnswer: (seq<Request>, usize, usize, usize) -> isize,
      munmapAnswer: (seq<Request>, usize, usize) -> isize,
      brkAnswer: (seq<Request>, i32) -> Option<usize>)
      ensures served == []
      ensures this.tokenAfter == tokenAfter && this.timeValsAfter == timeValsAfter
      ensures this.clockAfter == clockAfter && this.mmapAnswer == mmapAnswer
      ensures this.munmapAnswer == munmapAnswer && this.brkAnswer == brkAnswer
    {
      served := [];
      this.tokenAfter := tokenAfter;
      this.timeValsAfter := timeValsAfter;
      this.clockAfter := clockAfter;
      this.mmapAnswer := mmapAnswer;
      this.munmapAnswer := munmapAnswer;
      this.brkAnswer := brkAnswer;
    }

    /** The address-space token of the task running after `served`. */
    function CurrentUserToken(): usize
      reads this
    {
      tokenAfter(served)
    }

    /** The kernel's reference to the user TimeVal at `ptr`. */
    function TranslatedDataMut(token: usize, ptr: usize): TimeValCell
      reads this
      requires (token, ptr) in timeValsAfter(served)
    {
      timeValsAfter(served)[(token, ptr)]
    }

    method SuspendCurrentAndRunNext()
      modifies this
      ensures served == old(served) + [Suspend]
    {
      served := served + [Suspend];
    }

    method GetTimeUs() returns (us: usize)
      modifies this
      ensures us == clockAfter(old(served))
      ensures served == old(served) + [ReadClock]
    {
      us := clockAfter(served);
      served := served + [ReadClock];
    }

    method SelectCurTaskToMmap(start: usize, len: usize, port: usize) returns (r: isize)
      modifies this
      ensures r == mmapAnswer(old(served), start, len, port)
      ensures served == old(served) + [Mmap(start, len, port)]
    {
      r := mmapAnswer(served, start, len, port);
      served := served + [Mmap(start, len, port)];
    }

    method SelectCurTaskToMunmap(start: usize, len: usize) returns (r: isize)
      modifies this
      ensures r == munmapAnswer(old(served), start, len)
      ensures served == old(served) + [Munmap(start, len)]
    {
      r := munmapAnswer(served, start, len);
      served := served + [Munmap(start, len)];
    }

    method ChangeProgramBrk(size: i32) returns (brk: Option<usize>)
      modifies this
      ensures brk == brkAnswer(old(served), size)
      ensures served == old(served) + [ChangeBrk(size)]
    {
      brk := brkAnswer(served, size);
      served := served + [ChangeBrk(size)];
    }
  }

  // ---------------------------------------------------------------------
  // The system calls
  // ---------------------------------------------------------------------

  /** `sys_yield`: hands the CPU to the scheduler and always succeeds. */
  method SysYield(k: Kernel) returns (r: isize)
    modifies k
    ensures r == 0
    ensures k.served == old(k.served) + [Suspend]
  {
    k.SuspendCurrentAndRunNext();
    r := 0;
  }

  /**
   * `sys_get_time`: reads the clock once and stores the reading, split into
   * seconds and microseconds, in the caller's TimeVal. That store is the
   * only write to memory; the timezone argument is ignored.
   */
  method SysGetTime(k: Kernel, ts: usize, tz: usize) returns (r: isize)
    requires (k.CurrentUserToken(), ts) in k.timeValsAfter(k.served)
    modifies k, k.TranslatedDataMut(k.CurrentUserToken(), ts)
    ensures r == 0
    ensures k.served == old(k.served) + [ReadClock]
    ensures old(k.TranslatedDataMut(k.CurrentUserToken(), ts)).value
      == SplitMicros(k.clockAfter(old(k.served)))
  {
    var ptr := k.TranslatedDataMut(k.CurrentUserToken(), ts);
    var us := k.GetTimeUs();
    ptr.value := SplitMicros(us);
    r := 0;
  }

  /**
   * `sys_mmap`: a zero length succeeds at once; a port that grants no
   * permission or sets a bit outside the low three fails at once; only
   * then is the request forwarded to the current task's mapper, whose
   * answer is returned unchanged.
   */
  method SysMmap(k: Kernel, start: usize, len: usize, port: usize) returns (r: isize)
    modifies k
    ensures len == 0 ==> r == 0 && k.served == old(k.served)
    ensures len > 0 && !(1 <= port <= 7) ==> r == -1 && k.served == old(k.served)
    ensures len > 0 && 1 <= port <= 7 ==>
      r == k.mmapAnswer(old(k.served), start, len, port) &&
      k.served == old(k.served) + [Mmap(start, len, port)]
  {
    if len == 0 {
      return 0;
    }
    if PortRejected(port) {
      return -1;
    }
    r := k.SelectCurTaskToMmap(start, len, port);
  }

  /** `sys_munmap`: forwards to the current task's unmapper unchanged. */
  method SysMunmap(k: Kernel, start: usize, len: usize) returns (r: isize)
    modifies k
    ensures r == k.munmapAnswer(old(k.served), start, len)
    ensures k.served == old(k.served) + [Munmap(start, len)]
  {
    r := k.SelectCurTaskToMunmap(start, len);
  }

  /**
   * `sys_sbrk`: moves the heap break by `size` bytes and returns the
   * previous break, or -1 when the heap routine refuses.
   */
  method SysSbrk(k: Kernel, size: i32) returns (r: isize)
    modifies k
    ensures k.served == old(k.served) + [ChangeBrk(size)]
    ensures r == SbrkResult(k.brkAnswer(old(k.served), size))
  {
    var brk := k.ChangeProgramBrk(size);
    r := SbrkResult(brk);
  }
}
