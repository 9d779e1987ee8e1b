/** The health records of pkg/router/router.go against the history of successes and failures. */
module CircuitBreaker {
  import opened Float64

  /** One call of RecordSuccess or RecordFailure. */
  datatype Mark = Good(at: int, latency: real) | Bad(at: int, message: string)

  /** Length of the run of failures at the end. */
  function Run(marks: seq<Mark>): nat {
    if marks == [] || marks[|marks|-1].Good? then 0 else 1 + Run(marks[..|marks|-1])
  }

  predicate EverGood(marks: seq<Mark>) {
    exists i :: 0 <= i < |marks| && marks[i].Good?
  }

  /** Message of the last mark, if it is a failure. */
  function LastMessage(marks: seq<Mark>): string {
    if marks != [] && marks[|marks|-1].Bad? then marks[|marks|-1].message else ""
  }

  /** One step of the moving average, as float64 computes it. */
  function Blend(average: real, latency: real): real {
    Round(Round(average * Round(0.8)) + Round(latency * Round(0.2)))
  }

  /** The moving average of the latencies; one that has come to 0 starts anew. */
  function Smoothed(marks: seq<Mark>): real {
    if marks == [] then 0.0
    else
      var before, last := Smoothed(marks[..|marks|-1]), marks[|marks|-1];
      if last.Bad? then before
      else if before == 0.0 then last.latency
      else Blend(before, last.latency)
  }

  /** `isHealthy` as a function of the history.  `seeded`: the record was made by New, as healthy,
      and not by the first call that mentioned the server. */
  predicate Available(marks: seq<Mark>, seeded: bool, threshold: nat, recovery: int, now: int) {
    if marks != [] && Run(marks) >= threshold then now - marks[|marks|-1].at >= recovery
    else seeded || EverGood(marks)
  }

  lemma AfterGood(marks: seq<Mark>, good: Mark)
    requires good.Good?
    ensures var more := marks + [good];
            && Run(more) == 0 && EverGood(more) && LastMessage(more) == ""
            && Smoothed(more) == if Smoothed(marks) == 0.0 then good.latency else Blend(Smoothed(marks), good.latency)
  {
    var more := marks + [good];
    assert more[..|more|-1] == marks && more[|marks|].Good?;
  }

  lemma AfterBad(marks: seq<Mark>, bad: Mark)
    requires bad.Bad?
    ensures var more := marks + [bad];
            && Run(more) == Run(marks) + 1 && (EverGood(more) <==> EverGood(marks))
            && LastMessage(more) == bad.message && Smoothed(more) == Smoothed(marks)
  {
    var more := marks + [bad];
    assert more[..|more|-1] == marks;
    assert forall i :: 0 <= i < |marks| ==> more[i] == marks[i];
  }

  class Health {
    var healthy: bool
    var lastCheck: int
    var lastSuccess: int
    var lastError: int
    var errorMessage: string
    var consecFails: nat
    var avgLatencyMs: real
    ghost const seeded: bool
    ghost var marks: seq<Mark>

    /** What the fields say about the history. */
    ghost predicate Valid(threshold: nat)
      reads this
    {
      && threshold > 0
      && consecFails == Run(marks)
      && (healthy <==> Run(marks) < threshold && (seeded || EverGood(marks)))
      && (marks != [] && marks[|marks|-1].Bad? ==> lastError == marks[|marks|-1].at)
      && errorMessage == LastMessage(marks)
      && avgLatencyMs == Smoothed(marks)
    }

    constructor (healthy: bool)
      ensures this.healthy == healthy && seeded == healthy && marks == []
      ensures forall threshold :: threshold > 0 ==> Valid(threshold)
    {
      this.healthy, this.seeded := healthy, healthy;
      lastCheck, lastSuccess, lastError, errorMessage, consecFails, avgLatencyMs, marks := 0, 0, 0, "", 0, 0.0, [];
    }

    method Success(now: int, latency: real, ghost threshold: nat)
      requires Valid(threshold)
      modifies this
      ensures Valid(threshold) && marks == old(marks) + [Good(now, latency)]
    {
      hide Run, EverGood, LastMessage, Smoothed, Blend;
      AfterGood(marks, Good(now, latency));
      healthy := true;
      lastCheck := now;
      lastSuccess := now;
      consecFails := 0;
      errorMessage := "";
      avgLatencyMs := if avgLatencyMs == 0.0 then latency else Blend(avgLatencyMs, latency);
      marks := marks + [Good(now, latency)];
    }

    method Failure(now: int, message: string, threshold: nat)
      requires Valid(threshold)
      modifies this
      ensures Valid(threshold) && marks == old(marks) + [Bad(now, message)]
    {
      hide Run, EverGood, LastMessage, Smoothed, Blend;
      AfterBad(marks, Bad(now, message));
      lastCheck := now;
      lastError := now;
      consecFails := consecFails + 1;
      errorMessage := message;
      if consecFails >= threshold {
        healthy := false;
      }
      marks := marks + [Bad(now, message)];
    }

    /** `isHealthy` of a record that is there. */
    predicate IsHealthy(threshold: nat, recovery: int, now: int)
      requires Valid(threshold)
      reads this
      ensures IsHealthy(threshold, recovery, now) <==> Available(marks, seeded, threshold, recovery, now)
    {
      if consecFails >= threshold then !(now - lastError < recovery) else healthy
    }
  }

  // ----- what the breaker does over time -----

  lemma {:induction false} RunIsSuffix(marks: seq<Mark>)
    ensures Run(marks) <= |marks|
    ensures forall i :: |marks| - Run(marks) <= i < |marks| ==> marks[i].Bad?
    ensures Run(marks) < |marks| ==> marks[|marks| - Run(marks) - 1].Good?
  {
    if marks != [] && marks[|marks|-1].Bad? {
      RunIsSuffix(marks[..|marks|-1]);
    }
  }

  /** A server is refused exactly while the latest mark is the end of a run of at least `threshold`
      failures and younger than the recovery time, or while it has never been seen healthy. */
  lemma RefusedExactly(marks: seq<Mark>, seeded: bool, threshold: nat, recovery: int, now: int)
    requires threshold > 0
    ensures !Available(marks, seeded, threshold, recovery, now) <==>
            if |marks| >= threshold && (forall i :: |marks| - threshold <= i < |marks| ==> marks[i].Bad?)
            then now - marks[|marks|-1].at < recovery
            else !seeded && forall i :: 0 <= i < |marks| ==> marks[i].Bad?
  {
    RunIsSuffix(marks);
    if |marks| >= threshold && Run(marks) < threshold {
      assert marks[|marks| - Run(marks) - 1].Good?;
    }
  }

  /** A server known to New is never refused for good: from some time on a probe goes through. */
  lemma NeverRefusedForever(marks: seq<Mark>, threshold: nat, recovery: int) returns (t: int)
    requires threshold > 0
    ensures forall now :: now >= t ==> Available(marks, true, threshold, recovery, now)
  {
    t := if marks == [] then 0 else marks[|marks|-1].at + recovery;
  }

  /** The exception: a record made by fewer than `threshold` failures alone is refused at all times. */
  lemma LazyRecordRefused(marks: seq<Mark>, threshold: nat, recovery: int)
    requires threshold > 0
    ensures (forall now :: !Available(marks, false, threshold, recovery, now)) <==>
            |marks| < threshold && forall i :: 0 <= i < |marks| ==> marks[i].Bad?
  {
    RunIsSuffix(marks);
    if forall now :: !Available(marks, false, threshold, recovery, now) {
      var late := if marks == [] then 0 else marks[|marks|-1].at + recovery;
      assert !Available(marks, false, threshold, recovery, late);
    }
  }

  /** One success closes the breaker at once. */
  lemma SuccessCloses(marks: seq<Mark>, seeded: bool, threshold: nat, recovery: int, good: Mark, now: int)
    requires threshold > 0 && good.Good?
    ensures Available(marks + [good], seeded, threshold, recovery, now)
  {
    assert (marks + [good])[|marks|].Good?;
  }

  // ----- the moving average -----

  /** The two weights as float64 numbers. */
  lemma Weights()
    ensures Round(0.8) == 3602879701896397.0 / 4503599627370496.0
    ensures Round(0.2) == 7205759403792794.0 / 36028797018963968.0
  {
    hide Pow2, Round;
    MorePowers();
    var y := 0.8 / (1.0 / 9007199254740992.0);
    assert y == 7205759403792793.6 && y.Floor == 7205759403792793;
    RoundsTo(0.8, -1, 1.0 / 9007199254740992.0, 7205759403792794);
    var z := 0.2 / (1.0 / 36028797018963968.0);
    assert z == 7205759403792793.6 && z.Floor == 7205759403792793;
    RoundsTo(0.2, -3, 1.0 / 36028797018963968.0, 7205759403792794);
  }

  lemma MorePowers()
    ensures Pow2(-3) == 0.125 && Pow2(-2) == 0.25 && Pow2(-1) == 0.5
    ensures Pow2(0) == 1.0 && Pow2(1) == 2.0 && Pow2(2) == 4.0
    ensures Pow2(-51) == 1.0 / 2251799813685248.0 && Pow2(-53) == 1.0 / 9007199254740992.0
    ensures Pow2(-55) == 1.0 / 36028797018963968.0
  {
    Powers();
    assert Pow2(-1) == Pow2(0) / 2.0 && Pow2(-2) == Pow2(-1) / 2.0 && Pow2(-3) == Pow2(-2) / 2.0;
    assert Pow2(1) == 2.0 * Pow2(0) && Pow2(2) == 2.0 * Pow2(1);
    assert Pow2(-52) == Pow2(-51) / 2.0 && Pow2(-53) == Pow2(-52) / 2.0;
    assert Pow2(-54) == Pow2(-53) / 2.0 && Pow2(-55) == Pow2(-54) / 2.0;
  }

  /** Within a relative margin of 2^-49, that is sixteen times the relative error of one rounding. */
  predicate Near(average: real, lo: nat, hi: nat) {
    && lo as real - lo as real / 562949953421312.0 <= average
    && average <= hi as real + hi as real / 562949953421312.0
  }

  lemma BlendNear(average: real, latency: real, lo: nat, hi: nat)
    requires Near(average, lo, hi) && average > 0.0 && lo as real <= latency <= hi as real
    ensures Near(Blend(average, latency), lo, hi)
  {
    hide Round;
    Weights();
    var a := average * (3602879701896397.0 / 4503599627370496.0);
    var b := latency * (7205759403792794.0 / 36028797018963968.0);
    assert a == average * Round(0.8) && b == latency * Round(0.2);
    RoundError(a);
    RoundError(b);
    RoundNonNegative(a);
    RoundNonNegative(b);
    RoundError(Round(a) + Round(b));
    RoundNonNegative(Round(a) + Round(b));
  }

  /** For latencies in whole milliseconds the average lies, up to rounding, between the smallest and
      the largest ever recorded. */
  lemma {:induction false} AverageWithin(marks: seq<Mark>, lo: nat, hi: nat)
    requires EverGood(marks)
    requires forall i :: 0 <= i < |marks| && marks[i].Good? ==> lo as real <= marks[i].latency <= hi as real
    ensures Near(Smoothed(marks), lo, hi) && Smoothed(marks) >= 0.0
  {
    hide Blend, Round;
    var before := marks[..|marks|-1];
    assert forall i :: 0 <= i < |before| ==> before[i] == marks[i];
    if EverGood(before) {
      AverageWithin(before, lo, hi);
      if marks[|marks|-1].Good? && Smoothed(before) != 0.0 {
        BlendNear(Smoothed(before), marks[|marks|-1].latency, lo, hi);
        BlendNonNegative(Smoothed(before), marks[|marks|-1].latency);
      }
    } else {
      NoAverage(before);
    }
  }

  /** One step of the average is four fifths of the old one and a fifth of the new latency, up to a
      relative error of 2^-51, or 2^-104 next to zero. */
  lemma BlendClose(average: real, latency: real)
    requires average >= 0.0 && latency >= 0.0
    ensures var exact := 0.8 * average + 0.2 * latency;
            var error := exact / 2251799813685248.0 + 1.0 / 20282409603651670423947251286016.0;
            exact - error <= Blend(average, latency) <= exact + error
  {
    hide Round;
    Weights();
    var a := average * (3602879701896397.0 / 4503599627370496.0);
    var b := latency * (7205759403792794.0 / 36028797018963968.0);
    assert a == average * Round(0.8) && b == latency * Round(0.2);
    RoundError(a);
    RoundError(b);
    RoundNonNegative(a);
    RoundNonNegative(b);
    RoundError(Round(a) + Round(b));
  }

  lemma BlendNonNegative(average: real, latency: real)
    requires average >= 0.0 && latency >= 0.0
    ensures Blend(average, latency) >= 0.0
  {
    hide Round;
    Weights();
    RoundNonNegative(average * Round(0.8));
    RoundNonNegative(latency * Round(0.2));
    RoundNonNegative(Round(average * Round(0.8)) + Round(latency * Round(0.2)));
  }

  /** The margin is needed: after two latencies of 3 the average is the float64 above 3. */
  lemma AverageExceeds(at: int)
    ensures Smoothed([Good(at, 3.0), Good(at, 3.0)]) == 6755399441055745.0 / 2251799813685248.0 > 3.0
  {
    hide Pow2, Round;
    Weights();
    MorePowers();
    var one := [Good(at, 3.0)];
    assert one[..0] == [] && Smoothed(one) == 3.0;
    assert [Good(at, 3.0), Good(at, 3.0)][..1] == one;
    var a := 3.0 * (3602879701896397.0 / 4503599627370496.0);
    var y := a / (1.0 / 2251799813685248.0);
    assert y == 5404319552844595.5 && y.Floor == 5404319552844595;
    RoundsTo(a, 1, 1.0 / 2251799813685248.0, 5404319552844596);
    var b := 3.0 * (7205759403792794.0 / 36028797018963968.0);
    var z := b / (1.0 / 9007199254740992.0);
    assert z == 5404319552844595.5 && z.Floor == 5404319552844595;
    RoundsTo(b, -1, 1.0 / 9007199254740992.0, 5404319552844596);
    var c := 5404319552844596.0 / 2251799813685248.0 + 5404319552844596.0 / 9007199254740992.0;
    var w := c / (1.0 / 2251799813685248.0);
    assert w == 6755399441055745.0 && w.Floor == 6755399441055745;
    RoundsTo(c, 1, 1.0 / 2251799813685248.0, 6755399441055745);
  }

  lemma {:induction false} NoAverage(marks: seq<Mark>)
    requires !EverGood(marks)
    ensures Smoothed(marks) == 0.0
  {
    if marks != [] {
      assert forall i :: 0 <= i < |marks| - 1 ==> marks[..|marks|-1][i] == marks[i];
      NoAverage(marks[..|marks|-1]);
    }
  }
}
