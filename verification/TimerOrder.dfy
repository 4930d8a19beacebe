/**
 Deadlines and their ranking: LocTimerDelegate::ranks with its truncation to a
 32-bit int, and the deadline LocTimer::start computes.
 */
module TimerOrder {
  import opened HeapTree

  datatype Timespec = Timespec(sec: int, nsec: int) {
    predicate Normalized() {
      0 <= nsec < 1_000_000_000
    }

    function Nanos(): int {
      sec * 1_000_000_000 + nsec
    }
  }

  /** Conversion to a 32-bit signed int: the low 32 bits, read in two's complement. */
  function Truncate32(x: int): (r: int)
    ensures -0x8000_0000 <= r < 0x8000_0000
    ensures (x - r) % 0x1_0000_0000 == 0
  {
    (x + 0x8000_0000) % 0x1_0000_0000 - 0x8000_0000
  }

  /** Larger time ranks lower: positive when a is the sooner. */
  function Ranks(a: Timespec, b: Timespec): int {
    var rank := Truncate32(b.sec - a.sec);
    if rank == 0 then Truncate32(b.nsec - a.nsec) else rank
  }

  function Sign(x: int): int {
    if x > 0 then 1 else if x == 0 then 0 else -1
  }

  lemma TruncateExact(x: int)
    requires -0x8000_0000 <= x < 0x8000_0000
    ensures Truncate32(x) == x
  {
  }

  lemma NanosOrder(a: Timespec, b: Timespec)
    requires a.Normalized() && b.Normalized()
    ensures a.Nanos() < b.Nanos() <==> a.sec < b.sec || (a.sec == b.sec && a.nsec < b.nsec)
    ensures a.Nanos() == b.Nanos() <==> a == b
  {
  }

  /**
   ranks tells which of two normalized times comes first exactly when truncation does
   not change the sign of the difference in seconds; where the truncated difference
   vanishes although the seconds differ, the nanoseconds must happen to agree.
   */
  lemma RanksIsTimeOrderIff(a: Timespec, b: Timespec)
    requires a.Normalized() && b.Normalized()
    ensures Sign(Ranks(a, b)) == Sign(b.Nanos() - a.Nanos())
       <==> if Truncate32(b.sec - a.sec) == 0 && a.sec != b.sec
            then Sign(b.nsec - a.nsec) == Sign(b.sec - a.sec)
            else Sign(Truncate32(b.sec - a.sec)) == Sign(b.sec - a.sec)
  {
    NanosOrder(a, b);
    NanosOrder(b, a);
    TruncateExact(b.nsec - a.nsec);
  }

  /** Within 2^31 seconds of each other the condition always holds. */
  lemma RanksIsTimeOrder(a: Timespec, b: Timespec)
    requires a.Normalized() && b.Normalized() && -0x8000_0000 < b.sec - a.sec < 0x8000_0000
    ensures Sign(Ranks(a, b)) == Sign(b.Nanos() - a.Nanos())
  {
    TruncateExact(b.sec - a.sec);
    RanksIsTimeOrderIff(a, b);
  }

  /** Exactly 2^31 seconds apart, each of two times claims to rank lower than the other. */
  lemma RanksBreaksAt2To31(a: Timespec, b: Timespec)
    requires b.sec - a.sec == 0x8000_0000
    ensures Ranks(a, b) < 0 && Ranks(b, a) < 0
  {
    assert Truncate32(0x8000_0000) == -0x8000_0000;
    assert Truncate32(-0x8000_0000) == -0x8000_0000;
  }

  predicate InWindow(t: Timespec) {
    t.Normalized() && 0 <= t.sec < 0x8000_0000
  }

  /** The window in which ranks orders all times: 2^31 seconds from boot is 68 years. */
  type Deadline = t: Timespec | InWindow(t) witness Timespec(0, 0)

  /** A clock reading whose every start() deadline, at most 2^32-1 ms later, is in the window. */
  type BootTime = t: Timespec | t.Normalized() && 0 <= t.sec < 0x8000_0000 - 4_294_969 witness Timespec(0, 0)

  /** A delegate as the heap sees it: its address, and the deadline its ranks() compares. */
  datatype Entry = Entry(id: nat, time: Deadline)

  function EntryRanks(a: Entry, b: Entry): int {
    Ranks(a.time, b.time)
  }

  predicate Sooner(a: Entry, b: Entry) {
    a.time.Nanos() < b.time.Nanos()
  }

  lemma OutRanksIsSooner(a: Entry, b: Entry)
    ensures OutRanks(EntryRanks, a, b) <==> Sooner(a, b)
  {
    RanksIsTimeOrder(a.time, b.time);
  }

  /** Delegates keep the promise the heap relies on. */
  lemma EntriesAreRanked()
    ensures IsRanking(EntryRanks)
  {
    forall a: Entry, b: Entry
      ensures EntryRanks(a, b) > 0 <==> EntryRanks(b, a) < 0
    {
      RanksIsTimeOrder(a.time, b.time);
      RanksIsTimeOrder(b.time, a.time);
    }
    forall a: Entry, b: Entry, c: Entry | EntryRanks(a, b) >= 0 && EntryRanks(b, c) >= 0
      ensures EntryRanks(a, c) >= 0
    {
      RanksIsTimeOrder(a.time, b.time);
      RanksIsTimeOrder(b.time, c.time);
      RanksIsTimeOrder(a.time, c.time);
    }
  }

  /** The deadline timeOutInMs after now, computed in the fields of a timespec. */
  function FutureTime(now: Timespec, timeOutInMs: nat): Timespec {
    var sec := now.sec + timeOutInMs / 1000;
    var nsec := now.nsec + (timeOutInMs % 1000) * 1_000_000;
    if nsec >= 1_000_000_000 then
      Timespec(sec + nsec / 1_000_000_000, nsec % 1_000_000_000)
    else
      Timespec(sec, nsec)
  }

  /**
   start() asks for exactly timeOutInMs from now, as a normalized time, and no
   intermediate value leaves the type it is computed in.
   */
  lemma FutureTimeIsExact(now: Timespec, timeOutInMs: nat)
    requires now.Normalized()
    ensures FutureTime(now, timeOutInMs).Normalized()
    ensures FutureTime(now, timeOutInMs).Nanos() == now.Nanos() + timeOutInMs * 1_000_000
    ensures (timeOutInMs % 1000) * 1_000_000 < 0x1_0000_0000
    ensures now.nsec + (timeOutInMs % 1000) * 1_000_000 < 0x8000_0000
  {
  }

  lemma FutureTimeInWindow(now: BootTime, timeOutInMs: nat)
    requires timeOutInMs < 0x1_0000_0000
    ensures InWindow(FutureTime(now, timeOutInMs))
  {
    FutureTimeIsExact(now, timeOutInMs);
  }
}
