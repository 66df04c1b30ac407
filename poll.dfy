/** The readiness poll of copySSHKey as a specification: which status checks
    and sleeps it issues for a given sequence of status answers. */
module Poll {
  import opened Commands

  /** The loop bound of copySSHKey's attemptCnt. */
  const MaxAttempts: nat := 15

  /** The events of the poll from attempt number `attempt` on, when the
      first check of the poll reads status answer number `start`. */
  function PollEvents(status: nat -> string, start: nat, attempt: nat, kubeConfig: string, pod: string): seq<Event>
    decreases MaxAttempts - attempt
  {
    if attempt >= MaxAttempts then []
    else if status(start + attempt) == "Running" then [StatusCheck(kubeConfig, pod)]
    else [StatusCheck(kubeConfig, pod), Sleep] + PollEvents(status, start, attempt + 1, kubeConfig, pod)
  }

  /** The poll issues status checks of this pod and sleeps, and nothing else. */
  lemma {:induction false} PollOnlyChecksAndSleeps(status: nat -> string, start: nat, attempt: nat, kubeConfig: string, pod: string)
    ensures forall i :: 0 <= i < |PollEvents(status, start, attempt, kubeConfig, pod)| ==>
      PollEvents(status, start, attempt, kubeConfig, pod)[i] in {StatusCheck(kubeConfig, pod), Sleep}
    decreases MaxAttempts - attempt
  {
    if attempt < MaxAttempts && status(start + attempt) != "Running" {
      var rest := PollEvents(status, start, attempt + 1, kubeConfig, pod);
      var evs := [StatusCheck(kubeConfig, pod), Sleep] + rest;
      assert PollEvents(status, start, attempt, kubeConfig, pod) == evs;
      PollOnlyChecksAndSleeps(status, start, attempt + 1, kubeConfig, pod);
      forall i | 0 <= i < |evs|
        ensures evs[i] in {StatusCheck(kubeConfig, pod), Sleep}
      {
        if i >= 2 {
          assert evs[i] == rest[i - 2];
        }
      }
    }
  }

  /** n failed attempts: a check that did not read "Running", then a sleep. */
  function Failures(kubeConfig: string, pod: string, n: nat): seq<Event>
  {
    if n == 0 then [] else Failures(kubeConfig, pod, n - 1) + [StatusCheck(kubeConfig, pod), Sleep]
  }

  /** The first failed attempt can be split off the front as well. */
  lemma {:induction false} FailuresFront(kubeConfig: string, pod: string, n: nat)
    requires n > 0
    ensures Failures(kubeConfig, pod, n) == [StatusCheck(kubeConfig, pod), Sleep] + Failures(kubeConfig, pod, n - 1)
  {
    if n > 1 {
      FailuresFront(kubeConfig, pod, n - 1);
    }
  }

  /** n failed attempts are n checks and n sleeps, and nothing else. */
  lemma {:induction false} FailuresCounts(kubeConfig: string, pod: string, n: nat)
    ensures |Failures(kubeConfig, pod, n)| == 2 * n
    ensures multiset(Failures(kubeConfig, pod, n))[StatusCheck(kubeConfig, pod)] == n
    ensures multiset(Failures(kubeConfig, pod, n))[Sleep] == n
  {
    if n > 0 {
      FailuresCounts(kubeConfig, pod, n - 1);
    }
  }

  /** The poll makes at least one and at most 15 status checks. */
  lemma PollBounded(status: nat -> string, start: nat, kubeConfig: string, pod: string)
    ensures 1 <= multiset(PollEvents(status, start, 0, kubeConfig, pod))[StatusCheck(kubeConfig, pod)] <= MaxAttempts
  {
    PollSleepsEqualFailedChecks(status, start, kubeConfig, pod);
  }

  lemma {:induction false} StopsAtFirstRunningFrom(status: nat -> string, start: nat, attempt: nat, j: nat, kubeConfig: string, pod: string)
    requires attempt <= j < MaxAttempts
    requires status(start + j) == "Running"
    requires forall i :: start + attempt <= i < start + j ==> status(i) != "Running"
    ensures PollEvents(status, start, attempt, kubeConfig, pod) == Failures(kubeConfig, pod, j - attempt) + [StatusCheck(kubeConfig, pod)]
    decreases j - attempt
  {
    if attempt < j {
      assert status(start + attempt) != "Running";
      assert PollEvents(status, start, attempt, kubeConfig, pod)
        == [StatusCheck(kubeConfig, pod), Sleep] + PollEvents(status, start, attempt + 1, kubeConfig, pod);
      FailuresFront(kubeConfig, pod, j - attempt);
      StopsAtFirstRunningFrom(status, start, attempt + 1, j, kubeConfig, pod);
      assert [StatusCheck(kubeConfig, pod), Sleep] + (Failures(kubeConfig, pod, j - (attempt + 1)) + [StatusCheck(kubeConfig, pod)])
        == ([StatusCheck(kubeConfig, pod), Sleep] + Failures(kubeConfig, pod, j - (attempt + 1))) + [StatusCheck(kubeConfig, pod)];
    }
  }

  /** The poll stops at the first check that reads "Running": before it
      come only failed attempts, and no sleep follows it. */
  lemma PollStopsAtFirstRunning(status: nat -> string, start: nat, j: nat, kubeConfig: string, pod: string)
    requires j < MaxAttempts
    requires status(start + j) == "Running"
    requires forall i :: start <= i < start + j ==> status(i) != "Running"
    ensures PollEvents(status, start, 0, kubeConfig, pod) == Failures(kubeConfig, pod, j) + [StatusCheck(kubeConfig, pod)]
  {
    StopsAtFirstRunningFrom(status, start, 0, j, kubeConfig, pod);
  }

  /** What the poll has done when check number n reads "Running" after n
      failed attempts. */
  lemma PollEndsRunning(status: nat -> string, start: nat, n: nat, kubeConfig: string, pod: string)
    requires n < MaxAttempts
    requires status(start + n) == "Running"
    requires forall i :: start <= i < start + n ==> status(i) != "Running"
    ensures PollEvents(status, start, 0, kubeConfig, pod) == Failures(kubeConfig, pod, n) + [StatusCheck(kubeConfig, pod)]
    ensures ChecksMade(status, start) == n + 1
  {
    PollStopsAtFirstRunning(status, start, n, kubeConfig, pod);
    var f := FailedChecks(status, start, 0);
    PollShapeFrom(status, start, 0, kubeConfig, pod);
    FailuresCounts(kubeConfig, pod, n);
    FailuresCounts(kubeConfig, pod, f);
  }

  lemma {:induction false} NeverRunningFrom(status: nat -> string, start: nat, attempt: nat, kubeConfig: string, pod: string)
    requires attempt <= MaxAttempts
    requires forall i :: start + attempt <= i < start + MaxAttempts ==> status(i) != "Running"
    ensures PollEvents(status, start, attempt, kubeConfig, pod) == Failures(kubeConfig, pod, MaxAttempts - attempt)
    decreases MaxAttempts - attempt
  {
    if attempt < MaxAttempts {
      assert status(start + attempt) != "Running";
      assert PollEvents(status, start, attempt, kubeConfig, pod)
        == [StatusCheck(kubeConfig, pod), Sleep] + PollEvents(status, start, attempt + 1, kubeConfig, pod);
      FailuresFront(kubeConfig, pod, MaxAttempts - attempt);
      NeverRunningFrom(status, start, attempt + 1, kubeConfig, pod);
    }
  }

  /** When no check reads "Running", the poll gives up after exactly 15
      failed attempts, each followed by a sleep. */
  lemma PollExhausted(status: nat -> string, start: nat, kubeConfig: string, pod: string)
    requires forall i :: start <= i < start + MaxAttempts ==> status(i) != "Running"
    ensures PollEvents(status, start, 0, kubeConfig, pod) == Failures(kubeConfig, pod, MaxAttempts)
  {
    NeverRunningFrom(status, start, 0, kubeConfig, pod);
  }

  /** What the poll has done when all 15 attempts failed. */
  lemma PollEndsExhausted(status: nat -> string, start: nat, kubeConfig: string, pod: string)
    requires forall i :: start <= i < start + MaxAttempts ==> status(i) != "Running"
    ensures PollEvents(status, start, 0, kubeConfig, pod) == Failures(kubeConfig, pod, MaxAttempts)
    ensures ChecksMade(status, start) == MaxAttempts
  {
    PollExhausted(status, start, kubeConfig, pod);
    var f := FailedChecks(status, start, 0);
    PollShapeFrom(status, start, 0, kubeConfig, pod);
    FailuresCounts(kubeConfig, pod, MaxAttempts);
    FailuresCounts(kubeConfig, pod, f);
  }

  /** How many checks of the poll, from attempt `attempt` on, do not read
      "Running" before one does or the attempts run out. */
  function FailedChecks(status: nat -> string, start: nat, attempt: nat): (n: nat)
    decreases MaxAttempts - attempt
  {
    if attempt >= MaxAttempts then 0
    else if status(start + attempt) == "Running" then 0
    else 1 + FailedChecks(status, start, attempt + 1)
  }

  /** The number of status checks the poll makes: its failed checks, and
      the one that read "Running" if there was one. */
  function ChecksMade(status: nat -> string, start: nat): nat
  {
    var n := FailedChecks(status, start, 0);
    if n < MaxAttempts then n + 1 else n
  }

  lemma {:induction false} PollShapeFrom(status: nat -> string, start: nat, attempt: nat, kubeConfig: string, pod: string)
    requires attempt <= MaxAttempts
    ensures var n := FailedChecks(status, start, attempt);
      attempt + n <= MaxAttempts &&
      PollEvents(status, start, attempt, kubeConfig, pod)
        == Failures(kubeConfig, pod, n) + (if attempt + n < MaxAttempts then [StatusCheck(kubeConfig, pod)] else [])
    decreases MaxAttempts - attempt
  {
    if attempt < MaxAttempts && status(start + attempt) != "Running" {
      var n := FailedChecks(status, start, attempt);
      var tail := if attempt + n < MaxAttempts then [StatusCheck(kubeConfig, pod)] else [];
      PollShapeFrom(status, start, attempt + 1, kubeConfig, pod);
      FailuresFront(kubeConfig, pod, n);
      assert PollEvents(status, start, attempt, kubeConfig, pod)
        == [StatusCheck(kubeConfig, pod), Sleep] + (Failures(kubeConfig, pod, n - 1) + tail);
    }
  }

  /** The whole poll: some number n of failed attempts, each a check that
      did not read "Running" followed by one sleep, then one more check
      (which read "Running") unless all 15 attempts failed. */
  lemma PollSleepsEqualFailedChecks(status: nat -> string, start: nat, kubeConfig: string, pod: string)
    ensures var evs := PollEvents(status, start, 0, kubeConfig, pod);
      var n := FailedChecks(status, start, 0);
      n <= MaxAttempts &&
      multiset(evs)[Sleep] == n &&
      multiset(evs)[StatusCheck(kubeConfig, pod)] == ChecksMade(status, start)
  {
    var n := FailedChecks(status, start, 0);
    PollShapeFrom(status, start, 0, kubeConfig, pod);
    FailuresCounts(kubeConfig, pod, n);
  }

  lemma {:induction false} FailedChecksAreNotRunning(status: nat -> string, start: nat, attempt: nat)
    requires attempt <= MaxAttempts
    ensures var n := FailedChecks(status, start, attempt);
      (forall i :: start + attempt <= i < start + attempt + n ==> status(i) != "Running") &&
      (attempt + n < MaxAttempts ==> status(start + attempt + n) == "Running")
    decreases MaxAttempts - attempt
  {
    if attempt < MaxAttempts && status(start + attempt) != "Running" {
      FailedChecksAreNotRunning(status, start, attempt + 1);
    }
  }
}
