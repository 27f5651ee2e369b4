/** The time budget of the playlist loop (roulette-script.js:162, 193-207),
    stated over the minutes each candidate entry would cost: the loop keeps
    appending while time remains, accepts the first entry whatever it costs,
    and stops at a later entry that would overrun the duration by more than
    OVERRUN_ALLOWANCE minutes. */
module Budget {

  /** How far past the chosen duration a later entry may run (line 195). */
  const OVERRUN_ALLOWANCE: int := 10

  /** The minutes taken by the first n candidates. */
  function Sum(costs: seq<int>, n: nat): int
    requires n <= |costs|
  {
    if n == 0 then 0 else Sum(costs, n - 1) + costs[n - 1]
  }

  /** Whether the loop, having appended candidates 0..i-1, appends candidate
      i: time remains (line 162) and, unless it is the first, it does not
      overrun the duration by more than OVERRUN_ALLOWANCE (line 195). */
  predicate Admits(costs: seq<int>, duration: int, i: nat)
    requires i < |costs|
  {
    && duration - Sum(costs, i) > 0
    && (i == 0 || duration - Sum(costs, i) - costs[i] >= -OVERRUN_ALLOWANCE)
  }

  /** The number of candidates the loop appends, counting from i; it stops
      at the first candidate it does not admit, or at the end of `costs`. */
  function Taken(costs: seq<int>, duration: int, i: nat): (n: nat)
    requires i <= |costs|
    ensures i <= n <= |costs|
    decreases |costs| - i
  {
    if i == |costs| || !Admits(costs, duration, i) then i
    else Taken(costs, duration, i + 1)
  }

  /** Every candidate the loop reaches costs at least a minute. */
  predicate AllPositive(costs: seq<int>)
  {
    forall i :: 0 <= i < |costs| ==> costs[i] >= 1
  }

  /** With positive costs, n candidates take at least n minutes. */
  lemma {:induction false} SumAtLeastCount(costs: seq<int>, n: nat)
    requires n <= |costs| && AllPositive(costs)
    ensures Sum(costs, n) >= n
  {
    if n > 0 {
      SumAtLeastCount(costs, n - 1);
    }
  }

  /** The sums of a prefix agree with the sums of the whole. */
  lemma {:induction false} SumOfPrefix(costs: seq<int>, m: nat, n: nat)
    requires n <= m <= |costs|
    ensures Sum(costs[..m], n) == Sum(costs, n)
  {
    if n > 0 {
      SumOfPrefix(costs, m, n - 1);
    }
  }

  /** Every candidate before the stopping point is admitted. */
  lemma {:induction false} AdmittedBeforeTaken(costs: seq<int>, duration: int, i: nat, j: nat)
    requires i <= |costs| && i <= j < Taken(costs, duration, i)
    ensures Admits(costs, duration, j)
    decreases j - i
  {
    if j > i {
      AdmittedBeforeTaken(costs, duration, i + 1, j);
    }
  }

  /** The loop stops at a candidate it refuses, or at the end of `costs`. */
  lemma {:induction false} RefusedAtTaken(costs: seq<int>, duration: int, i: nat)
    requires i <= |costs|
    ensures var n := Taken(costs, duration, i);
              n == |costs| || !Admits(costs, duration, n)
    decreases |costs| - i
  {
    if i < |costs| && Admits(costs, duration, i) {
      RefusedAtTaken(costs, duration, i + 1);
    }
  }

  /** The first refusal at or after the candidates already taken is where
      the loop stops; the loop in roulette.dfy reaches it one pass at a time. */
  lemma StopsAtFirstRefusal(costs: seq<int>, duration: int, n: nat)
    requires n <= Taken(costs, duration, 0)
    requires n == |costs| || !Admits(costs, duration, n)
    ensures n == Taken(costs, duration, 0)
  {
    if n < Taken(costs, duration, 0) {
      AdmittedBeforeTaken(costs, duration, 0, n);
    }
  }

  /** A candidate the loop admits is one it takes. */
  lemma TakesAdmitted(costs: seq<int>, duration: int, n: nat)
    requires n < |costs| && n <= Taken(costs, duration, 0) && Admits(costs, duration, n)
    ensures n < Taken(costs, duration, 0)
  {
    RefusedAtTaken(costs, duration, 0);
  }

  /** With positive costs and more candidates than minutes, the budget stops
      the loop before the candidates run out, after at most `duration` entries. */
  lemma TakenWithinHorizon(costs: seq<int>, duration: int)
    requires AllPositive(costs) && |costs| > (if duration > 0 then duration else 0)
    ensures Taken(costs, duration, 0) < |costs|
    ensures Taken(costs, duration, 0) <= if duration > 0 then duration else 0
  {
    var n := Taken(costs, duration, 0);
    if n > 0 {
      AdmittedBeforeTaken(costs, duration, 0, n - 1);
      SumAtLeastCount(costs, n - 1);
      assert n - 1 < duration;
    }
  }

  /** The first candidate is taken exactly when the duration is positive,
      however much it costs. */
  lemma FirstAlwaysTaken(costs: seq<int>, duration: int)
    requires |costs| > 0
    ensures Taken(costs, duration, 0) > 0 <==> duration > 0
  {
  }

  /** Time remained before every appended entry, and once two or more entries
      are taken they overrun the duration by at most OVERRUN_ALLOWANCE. */
  lemma WithinBudget(costs: seq<int>, duration: int)
    ensures forall k :: 0 <= k < Taken(costs, duration, 0) ==> Sum(costs, k) < duration
    ensures Taken(costs, duration, 0) >= 2 ==>
              Sum(costs, Taken(costs, duration, 0)) <= duration + OVERRUN_ALLOWANCE
  {
    var n := Taken(costs, duration, 0);
    forall k | 0 <= k < n ensures Sum(costs, k) < duration {
      AdmittedBeforeTaken(costs, duration, 0, k);
    }
    if n >= 2 {
      AdmittedBeforeTaken(costs, duration, 0, n - 1);
    }
  }

  /** The loop stops for a reason: the candidates ran out, no time remains,
      or the next candidate (not the first) would overrun by more than
      OVERRUN_ALLOWANCE. */
  lemma StopsForAReason(costs: seq<int>, duration: int)
    ensures var n := Taken(costs, duration, 0);
      || n == |costs|
      || Sum(costs, n) >= duration
      || (n > 0 && Sum(costs, n) + costs[n] > duration + OVERRUN_ALLOWANCE)
  {
    RefusedAtTaken(costs, duration, 0);
  }

  /** A longer duration never takes fewer candidates. */
  lemma {:induction false} TakenMonotone(costs: seq<int>, shorter: int, longer: int, i: nat)
    requires i <= |costs| && shorter <= longer
    ensures Taken(costs, shorter, i) <= Taken(costs, longer, i)
    decreases |costs| - i
  {
    if i < |costs| && Admits(costs, shorter, i) {
      TakenMonotone(costs, shorter, longer, i + 1);
    }
  }

  /** Extending the candidates past the stopping point changes nothing. */
  lemma {:induction false} TakenIgnoresLaterCosts(costs: seq<int>, more: seq<int>, duration: int, i: nat)
    requires i <= |costs| && Taken(costs, duration, i) < |costs| && costs <= more
    ensures Taken(more, duration, i) == Taken(costs, duration, i)
    decreases |costs| - i
  {
    SumOfPrefix(more, |costs|, i);
    assert more[..|costs|] == costs;
    if Admits(costs, duration, i) {
      TakenIgnoresLaterCosts(costs, more, duration, i + 1);
    }
  }
}
