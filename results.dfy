/**
 * Closed outcome types standing in for the source's exceptions and `None`
 * values, and the oracle through which a sequence of fallible hardware calls
 * is modelled.
 */
module Results {

  datatype Option<+T> = None | Some(value: T)

  /** The outcome of one fallible foreign call that returns nothing useful:
      it completes, or it raises with the given message. */
  datatype Outcome = Ok | Fail(reason: string)

  /** The k-th fallible call of an operation, looked up in an oracle. Calls
      beyond the oracle's end succeed, so every oracle is a valid input. */
  function Attempt(outcomes: seq<Outcome>, k: nat): (o: Outcome)
    ensures k >= |outcomes| ==> o == Ok
    ensures k < |outcomes| ==> o == outcomes[k]
  {
    if k < |outcomes| then outcomes[k] else Ok
  }

  /** The index of the first failing call among calls lo .. hi-1, or hi when
      all of them succeed. */
  function FirstFault(outcomes: seq<Outcome>, lo: nat, hi: nat): (f: nat)
    requires lo <= hi
    ensures lo <= f <= hi
    ensures forall k :: lo <= k < f ==> Attempt(outcomes, k).Ok?
    ensures f < hi ==> Attempt(outcomes, f).Fail?
    decreases hi - lo
  {
    if lo == hi then hi
    else if Attempt(outcomes, lo).Fail? then lo
    else FirstFault(outcomes, lo + 1, hi)
  }

  /** The first fault of a run of calls that is split in two phases: a fault
      in the first phase ends the run, otherwise the second phase decides. */
  lemma {:induction false} FirstFaultSplit(outcomes: seq<Outcome>, lo: nat, mid: nat, hi: nat)
    requires lo <= mid <= hi
    ensures FirstFault(outcomes, lo, hi) ==
      if FirstFault(outcomes, lo, mid) < mid then FirstFault(outcomes, lo, mid)
      else FirstFault(outcomes, mid, hi)
    decreases mid - lo
  {
    if lo < mid && Attempt(outcomes, lo).Ok? {
      FirstFaultSplit(outcomes, lo + 1, mid, hi);
    }
  }

  /** The first fault is pinned down by the calls before it succeeding and
      the call itself failing. */
  lemma FirstFaultAt(outcomes: seq<Outcome>, lo: nat, hi: nat, k: nat)
    requires lo <= k < hi
    requires forall j :: lo <= j < k ==> Attempt(outcomes, j).Ok?
    requires Attempt(outcomes, k).Fail?
    ensures FirstFault(outcomes, lo, hi) == k
  {
  }

  /** When every call of a run succeeds, the run has no fault. */
  lemma AllCallsSucceed(outcomes: seq<Outcome>, lo: nat, hi: nat)
    requires lo <= hi
    requires forall j :: lo <= j < hi ==> Attempt(outcomes, j).Ok?
    ensures FirstFault(outcomes, lo, hi) == hi
  {
  }

  /** With no failing call in the oracle, every run of calls completes. */
  lemma {:induction false} FirstFaultOfNoFaults(outcomes: seq<Outcome>, lo: nat, hi: nat)
    requires lo <= hi
    requires forall k :: 0 <= k < |outcomes| ==> outcomes[k].Ok?
    ensures FirstFault(outcomes, lo, hi) == hi
    decreases hi - lo
  {
    if lo < hi {
      FirstFaultOfNoFaults(outcomes, lo + 1, hi);
    }
  }
}
