/** The sizer of the shared receive buffer, and the credit pool it steers. */
module Sizer {
  import opened Types
  import opened Credits

  /** What the low level is a fraction of; the source divides by it. */
  type Quotient = q: int | 0 < q < U32_BOUND witness 2

  const DEFAULT_QUOTIENT: Quotient := 2

  function Clamp(x: nat, lo: nat, hi: nat): nat
    requires lo <= hi
  {
    if x < lo then lo else if x > hi then hi else x
  }

  /** The peer's report on the credits it holds for sending. */
  datatype Report = Report(current: nat, min: nat, seqNo: u8)

  function InitialReport(credits: u32): Report {
    Report(credits, credits, 0)
  }

  function Consume(r: Report, n: nat): Report {
    var current := if r.current <= n then 0 else r.current - n;
    Report(current, Min(r.min, current), r.seqNo)
  }

  function ConsumeAll(r: Report, ns: seq<nat>): Report {
    if ns == [] then r else Consume(ConsumeAll(r, ns[..|ns| - 1]), ns[|ns| - 1])
  }

  /** Between two reports credits are only consumed, so the minimum seen is the current number. */
  lemma {:induction false} MinimumFollows(credits: u32, ns: seq<nat>)
    ensures var r := ConsumeAll(InitialReport(credits), ns); r.min == r.current <= credits && r.seqNo == 0
  {
    if ns != [] {
      MinimumFollows(credits, ns[..|ns| - 1]);
    }
  }

  function NewSize(size: nat): BufferSize {
    BufferSize(size, Clamp(size / 10, 1, 0x10_0000), false)
  }

  /** The multiplexer asserts that the threshold can be reached; only an empty buffer breaks this. */
  lemma ThresholdReachable(size: nat)
    ensures var b := NewSize(size); 0 < b.threshold <= b.size <==> size >= 1
  {
  }

  datatype Dynamic = Dynamic(min: nat, max: nat, levelQuot: Quotient, current: BufferSize, low: nat, high: nat)

  function NewDynamic(min: nat, max: nat): Dynamic {
    Dynamic(min, max, DEFAULT_QUOTIENT, NewSize(0), 0, 0)
  }

  function SetSize(d: Dynamic, size: nat): Dynamic
    requires d.min <= d.max
  {
    var n := Clamp(size, d.min, d.max);
    if d.current.size == n then d
    else
      var low := Clamp(n / d.levelQuot, 1024, 0x10_0000);
      d.(current := NewSize(n), low := low, high := 4 * low)
  }

  /** Adjusts once per reached size, and only on a report made after the last change. */
  function Adjust(d: Dynamic, total: nat, seqNo: u8, report: Report): Dynamic
    requires d.min <= d.max
  {
    if report.seqNo != seqNo || total != d.current.size then d
    else if report.min < d.low then SetSize(d, Min(4 * d.current.size, U32_BOUND - 1))
    else if report.min > d.high then
      var diff := Min((report.min - d.high) / 2, 65536);
      SetSize(d, if d.current.size <= diff then 0 else d.current.size - diff)
    else d
  }

  class DynamicBuffer {
    const min: nat
    const max: nat
    var levelQuot: Quotient
    var current: BufferSize
    var lowLevel: nat
    var highLevel: nat

    function Value(): Dynamic
      reads this
    {
      Dynamic(min, max, levelQuot, current, lowLevel, highLevel)
    }

    constructor (min: u32, max: u32)
      requires min <= max
      ensures Value() == NewDynamic(min, max)
    {
      this.min, this.max := min, max;
      levelQuot, current, lowLevel, highLevel := DEFAULT_QUOTIENT, NewSize(0), 0, 0;
    }

    method SetTo(size: nat)
      requires min <= max
      modifies this
      ensures Value() == SetSize(old(Value()), size)
    {
      var n := Clamp(size, min, max);
      if current.size == n {
        return;
      }
      current := NewSize(n);
      lowLevel := Clamp(n / levelQuot, 1024, 0x10_0000);
      highLevel := 4 * lowLevel;
    }

    method Initial() returns (b: BufferSize)
      requires min <= max
      modifies this
      ensures Value() == SetSize(old(Value()), min) && b == Value().current && b.size == min
    {
      SetTo(min);
      b := current;
    }

    method Size(total: nat, seqNo: u8, report: Report) returns (b: BufferSize)
      requires min <= max
      modifies this
      ensures Value() == Adjust(old(Value()), total, seqNo, report) && b == Value().current
    {
      if report.seqNo != seqNo || total != current.size {
        return current;
      }
      if report.min < lowLevel {
        SetTo(Min(current.size * 4, U32_BOUND - 1));
      } else if report.min > highLevel {
        var diff := Min((report.min - highLevel) / 2, 65536);
        SetTo(if current.size <= diff then 0 else current.size - diff);
      }
      b := current;
    }
  }

  // ---------------------------------------------------------------------------
  // Sizer and pool together, whatever the peer reports
  // ---------------------------------------------------------------------------

  /** The sizer, the pool it steers and the credits the peer holds or has under way. */
  datatype Loop = Loop(sizer: Dynamic, pool: Global, away: nat)

  datatype LoopStep = Use(n: nat) | Release(n: nat) | ReturnCredits(report: Report)

  function Start(min: u32, max: u32, quot: Quotient): Loop
    requires min <= max
  {
    var d := SetSize(NewDynamic(min, max).(levelQuot := quot), min);
    Loop(d, Global(d.current.size, 0, 0, d.current.threshold, 0), d.current.size)
  }

  /** A step that the pool refuses, or for which the peer has no credits, changes nothing. */
  function NextLoop(s: Loop, step: LoopStep): Loop
    requires s.sizer.min <= s.sizer.max
    ensures NextLoop(s, step).sizer.min == s.sizer.min && NextLoop(s, step).sizer.max == s.sizer.max
  {
    match step
    case Use(n) =>
      (match UseGlobal(s.pool, n)
       case Some(g) => if n <= s.away then s.(pool := g, away := s.away - n) else s
       case None => s)
    case Release(n) =>
      (match DropGlobal(s.pool, n)
       case Some(g) => s.(pool := g)
       case None => s)
    case ReturnCredits(report) =>
      var d := Adjust(s.sizer, s.pool.total, s.pool.seqNo, report);
      match ReturnToRemote(s.pool, d.current)
      case None => s.(sizer := d)
      case Some((g, sent)) => Loop(d, g, s.away + if sent.Some? then sent.value.credits else 0)
  }

  function RunLoop(min: u32, max: u32, quot: Quotient, steps: seq<LoopStep>): (s: Loop)
    requires min <= max
    ensures s.sizer.min == min && s.sizer.max == max
  {
    if steps == [] then Start(min, max, quot)
      else NextLoop(RunLoop(min, max, quot, steps[..|steps| - 1]), steps[|steps| - 1])
  }

  /** The size in force lies between the target and the maximum; every credit is somewhere. */
  predicate Steered(s: Loop) {
    && 1 <= s.sizer.min <= s.sizer.max < U32_BOUND
    && s.sizer.min <= s.sizer.current.size <= s.pool.total <= s.sizer.max
    && s.sizer.current == NewSize(s.sizer.current.size)
    && s.pool.total == s.pool.used + s.pool.toReturn + s.away
  }

  lemma SteeredKept(s: Loop, step: LoopStep)
    requires Steered(s)
    ensures Steered(NextLoop(s, step))
    ensures step.ReturnCredits? ==>
              ReturnToRemote(s.pool, Adjust(s.sizer, s.pool.total, s.pool.seqNo, step.report).current).Some?
  {
    if step.ReturnCredits? {
      AdjustBounded(s.sizer, s.pool.total, s.pool.seqNo, step.report);
      hide Adjust, NewSize;
    }
  }

  /** A new target is chosen only once the last one has been reached, at most four times larger or 64 KiB smaller. */
  lemma AdjustBounded(d: Dynamic, total: nat, seqNo: u8, report: Report)
    requires 1 <= d.min <= d.current.size <= d.max < U32_BOUND && d.current == NewSize(d.current.size)
    ensures var r := Adjust(d, total, seqNo, report);
            && r.min == d.min && r.max == d.max && d.min <= r.current.size <= d.max
            && d.current.size - 65536 <= r.current.size <= 4 * d.current.size
            && r.current == NewSize(r.current.size) && 0 < r.current.threshold <= r.current.size
            && (r.current.size != d.current.size ==> total == d.current.size && report.seqNo == seqNo)
  {
    ThresholdReachable(Adjust(d, total, seqNo, report).current.size);
  }

  /**
   In every run the target and the size in force stay within the configured limits, the
   assertion on the threshold holds at every query and no credit is created or lost.
   */
  lemma {:induction false} LoopSteered(min: u32, max: u32, quot: Quotient, steps: seq<LoopStep>)
    requires 1 <= min <= max
    ensures Steered(RunLoop(min, max, quot, steps))
  {
    if steps == [] {
      ThresholdReachable(min);
    } else {
      LoopSteered(min, max, quot, steps[..|steps| - 1]);
      SteeredKept(RunLoop(min, max, quot, steps[..|steps| - 1]), steps[|steps| - 1]);
    }
  }

  /**
   Growth takes effect at once. After a shrink the size in force only falls, never below the
   target, and the target stays put until it has been reached.
   */
  lemma ShrinksOnlyTowardsTarget(min: u32, max: u32, quot: Quotient, steps: seq<LoopStep>, step: LoopStep)
    requires 1 <= min <= max
    ensures var s, s' := RunLoop(min, max, quot, steps), NextLoop(RunLoop(min, max, quot, steps), step);
            && s'.pool.total >= s'.sizer.current.size
            && (s'.pool.total > s.pool.total ==>
                  && s.pool.total == s.sizer.current.size
                  && s'.pool.total == s'.sizer.current.size)
            && (s.pool.total > s.sizer.current.size ==> s'.sizer == s.sizer && s'.pool.total <= s.pool.total)
  {
    LoopSteered(min, max, quot, steps);
    var s := RunLoop(min, max, quot, steps);
    SteeredKept(s, step);
    if step.ReturnCredits? {
      AdjustBounded(s.sizer, s.pool.total, s.pool.seqNo, step.report);
    }
  }

  /** Once enough credits are at hand the next query completes a shrink. */
  lemma ShrinkCompletes(min: u32, max: u32, quot: Quotient, steps: seq<LoopStep>, report: Report)
    requires 1 <= min <= max
    requires var s := RunLoop(min, max, quot, steps);
             s.sizer.current.size < s.pool.total && s.pool.total - s.sizer.current.size <= s.pool.toReturn
    ensures var s, s' := RunLoop(min, max, quot, steps),
            NextLoop(RunLoop(min, max, quot, steps), ReturnCredits(report));
            s'.pool.total == s.sizer.current.size && s'.pool.toReturn == 0
  {
    LoopSteered(min, max, quot, steps);
    var s := RunLoop(min, max, quot, steps);
    SteeredKept(s, ReturnCredits(report));
  }

  /** A sizer whose minimum is zero starts with an empty buffer and trips the assertion at the first query. */
  lemma ZeroMinimumFails(max: u32, quot: Quotient, report: Report)
    ensures var s := Start(0, max, quot);
            ReturnToRemote(s.pool, Adjust(s.sizer, s.pool.total, s.pool.seqNo, report).current).None?
  {
  }

  // ---------------------------------------------------------------------------
  // What a report does
  // ---------------------------------------------------------------------------

  /** Low level, high level and return threshold as fractions of the size, within their bounds. */
  predicate Levelled(d: Dynamic) {
    && d.low == Max(1024, Min(0x10_0000, d.current.size / d.levelQuot))
    && d.high == 4 * d.low
    && d.current.threshold == Max(1, Min(0x10_0000, d.current.size / 10))
    && !d.current.force
  }

  lemma SetSizeLevels(d: Dynamic, size: nat)
    requires d.min <= d.max
    ensures d.current.size == Max(d.min, Min(d.max, size)) || Levelled(SetSize(d, size))
    ensures Levelled(d) ==> Levelled(SetSize(d, size))
    ensures SetSize(d, size).current.size == Max(d.min, Min(d.max, size))
  {
  }

  lemma AdjustLevels(d: Dynamic, total: nat, seqNo: u8, report: Report)
    requires d.min <= d.max && Levelled(d)
    ensures Levelled(Adjust(d, total, seqNo, report))
  {
    SetSizeLevels(d, Min(4 * d.current.size, U32_BOUND - 1));
    var diff := Min((report.min - d.high) / 2, 65536);
    SetSizeLevels(d, if d.current.size <= diff then 0 else d.current.size - diff);
    hide SetSize, Levelled;
  }

  /** A run starts with the minimum, for the target, for the pool and for the peer. */
  lemma StartsAtMinimum(min: u32, max: u32, quot: Quotient)
    requires min <= max
    ensures var s := Start(min, max, quot);
            && s.sizer.current.size == min && s.away == min
            && s.pool.total == min && s.pool.used == 0 && s.pool.toReturn == 0
  {
    SetSizeLevels(NewDynamic(min, max).(levelQuot := quot), min);
    hide NewSize;
  }

  /** In every run the levels and the threshold are the stated fractions of the target. */
  lemma {:induction false} LoopLevelled(min: u32, max: u32, quot: Quotient, steps: seq<LoopStep>)
    requires 1 <= min <= max
    ensures Levelled(RunLoop(min, max, quot, steps).sizer)
  {
    if steps == [] {
      SetSizeLevels(NewDynamic(min, max).(levelQuot := quot), min);
    } else {
      LoopLevelled(min, max, quot, steps[..|steps| - 1]);
      var s, step := RunLoop(min, max, quot, steps[..|steps| - 1]), steps[|steps| - 1];
      if step.ReturnCredits? {
        AdjustLevels(s.sizer, s.pool.total, s.pool.seqNo, step.report);
      }
      hide Adjust, Levelled, SetSize, ReturnToRemote;
    }
  }

  lemma AdjustSteers(d: Dynamic, total: nat, seqNo: u8, report: Report)
    requires 1 <= d.min <= d.current.size <= d.max < U32_BOUND && Levelled(d)
    ensures var size, next := d.current.size, Adjust(d, total, seqNo, report).current.size;
            if report.seqNo != seqNo || total != size then next == size
            else if report.min < d.low then next == Min(d.max, 4 * size)
            else if report.min <= d.high then next == size
            else next == Max(d.min, size - Min((report.min - d.high) / 2, 65536))
  {
    SetSizeLevels(d, Min(4 * d.current.size, U32_BOUND - 1));
    if report.min > d.high {
      var diff := Min((report.min - d.high) / 2, 65536);
      SetSizeLevels(d, if d.current.size <= diff then 0 else d.current.size - diff);
    }
    hide SetSize, Levelled;
  }

  lemma SizerAfter(s: Loop, report: Report)
    requires s.sizer.min <= s.sizer.max
    ensures NextLoop(s, ReturnCredits(report)).sizer == Adjust(s.sizer, s.pool.total, s.pool.seqNo, report)
  {
    hide Adjust, ReturnToRemote;
  }

  /**
   In every run a report changes the target only if it is current and the last target has been
   reached. Below the low level the target becomes four times the size, up to the maximum;
   above the high level it falls by half the excess, at most 64 KiB and not below the minimum;
   in between it stays.
   */
  lemma ReportSteers(min: u32, max: u32, quot: Quotient, steps: seq<LoopStep>, report: Report)
    requires 1 <= min <= max
    ensures var s := RunLoop(min, max, quot, steps);
            var size, next := s.sizer.current.size, NextLoop(s, ReturnCredits(report)).sizer.current.size;
            if report.seqNo != s.pool.seqNo || s.pool.total != size then next == size
            else if report.min < s.sizer.low then next == Min(max, 4 * size)
            else if report.min <= s.sizer.high then next == size
            else next == Max(min, size - Min((report.min - s.sizer.high) / 2, 65536))
  {
    LoopSteered(min, max, quot, steps);
    LoopLevelled(min, max, quot, steps);
    var s := RunLoop(min, max, quot, steps);
    AdjustSteers(s.sizer, s.pool.total, s.pool.seqNo, report);
    SizerAfter(s, report);
    hide Adjust, Levelled, RunLoop, NextLoop, NewSize;
  }
}
