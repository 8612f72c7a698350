/** Moving the highlighted row of the dropdown with the arrow keys.
    `n` is the number of rows shown (0 while a message is shown) and the
    active row is an index into them, or None when no row carries the
    active class. */
module Highlight {
  import opened Wrappers

  predicate InRange(active: Option<nat>, n: nat) {
    active.Some? ==> active.value < n
  }

  /** Down arrow: from no active row the first row, otherwise the next
      sibling, which is nothing after the last row. */
  function Next(active: Option<nat>, n: nat): (r: Option<nat>)
    ensures InRange(r, n)
  {
    match active
    case None => if n > 0 then Some(0) else None
    case Some(i) => if i + 1 < n then Some(i + 1) else None
  }

  /** Up arrow: from no active row the FIRST row as well, otherwise the
      previous sibling, which is nothing before the first row. */
  function Previous(active: Option<nat>, n: nat): (r: Option<nat>)
    ensures InRange(active, n) ==> InRange(r, n)
  {
    match active
    case None => if n > 0 then Some(0) else None
    case Some(i) => if i > 0 then Some(i - 1) else None
  }

  /** The active row after `k` presses of the down arrow. */
  function NextTimes(active: Option<nat>, n: nat, k: nat): (r: Option<nat>)
    ensures k > 0 ==> InRange(r, n)
    decreases k
  {
    if k == 0 then active else NextTimes(Next(active, n), n, k - 1)
  }

  /** The active row after `k` presses of the up arrow. */
  function PreviousTimes(active: Option<nat>, n: nat, k: nat): (r: Option<nat>)
    ensures InRange(active, n) ==> InRange(r, n)
    decreases k
  {
    if k == 0 then active else PreviousTimes(Previous(active, n), n, k - 1)
  }

  /** The single-step behaviour of the down arrow, every case. */
  lemma NextCases(active: Option<nat>, n: nat)
    requires InRange(active, n)
    ensures n == 0 ==> Next(active, n) == None
    ensures active == None && n > 0 ==> Next(active, n) == Some(0)
    ensures active.Some? && active.value + 1 < n ==> Next(active, n) == Some(active.value + 1)
    ensures active.Some? && active.value + 1 == n ==> Next(active, n) == None
  {
  }

  /** The single-step behaviour of the up arrow, every case. */
  lemma PreviousCases(active: Option<nat>, n: nat)
    requires InRange(active, n)
    ensures n == 0 ==> Previous(active, n) == None
    ensures active == None && n > 0 ==> Previous(active, n) == Some(0)
    ensures active.Some? && active.value > 0 ==> Previous(active, n) == Some(active.value - 1)
    ensures active == Some(0) ==> Previous(active, n) == None
  {
  }

  /** Walking down from no active row visits rows 0, 1, ..., n-1 in order
      and then falls off the end: no clamping at the last row, no wrap. */
  lemma {:induction false} NextWalk(n: nat, k: nat)
    requires k <= n + 1
    ensures 1 <= k <= n ==> NextTimes(None, n, k) == Some(k - 1)
    ensures k == 0 || k == n + 1 ==> NextTimes(None, n, k) == None
  {
    if k > 0 {
      NextWalkFrom(n, k);
    }
  }

  lemma {:induction false} NextWalkFrom(n: nat, k: nat)
    requires 1 <= k <= n + 1
    ensures NextTimes(None, n, k) == if k <= n then Some(k - 1) else None
  {
    if n == 0 {
      assert NextTimes(None, n, 1) == NextTimes(None, n, 0);
    } else if k == 1 {
      assert NextTimes(None, n, 1) == NextTimes(Some(0), n, 0);
    } else {
      NextWalkFrom(n, k - 1);
      NextTimesSplit(None, n, k - 1);
    }
  }

  /** One more press after `k` presses is one more step. */
  lemma {:induction false} NextTimesSplit(active: Option<nat>, n: nat, k: nat)
    decreases k
    ensures NextTimes(active, n, k + 1) == Next(NextTimes(active, n, k), n)
  {
    if k > 0 {
      NextTimesSplit(Next(active, n), n, k - 1);
    }
  }

  /** Walking up from row i visits i-1, ..., 0 and then leaves no row
      active; it never wraps round to the last row. */
  lemma {:induction false} PreviousWalk(i: nat, n: nat, k: nat)
    requires i < n && k <= i + 1
    ensures k <= i ==> PreviousTimes(Some(i), n, k) == Some(i - k)
    ensures k == i + 1 ==> PreviousTimes(Some(i), n, k) == None
  {
    if k > 0 {
      PreviousWalk(i, n, k - 1);
      PreviousTimesSplit(Some(i), n, k - 1);
    }
  }

  lemma {:induction false} PreviousTimesSplit(active: Option<nat>, n: nat, k: nat)
    decreases k
    ensures PreviousTimes(active, n, k + 1) == Previous(PreviousTimes(active, n, k), n)
  {
    if k > 0 {
      PreviousTimesSplit(Previous(active, n), n, k - 1);
    }
  }

  /** Down then up returns to the row one started from, except that it
      cannot come back from falling off the last row. */
  lemma NextThenPrevious(i: nat, n: nat)
    requires i + 1 < n
    ensures Previous(Next(Some(i), n), n) == Some(i)
  {
  }

  /** Up then down returns to the row one started from, for every row but
      the first. */
  lemma PreviousThenNext(i: nat, n: nat)
    requires 0 < i < n
    ensures Next(Previous(Some(i), n), n) == Some(i)
  {
  }

  /** From no active row both arrows start at the same, first, row. */
  lemma ArrowsAgreeFromNone(n: nat)
    ensures Next(None, n) == Previous(None, n)
    ensures n > 0 ==> Next(None, n) == Some(0)
  {
  }
}
