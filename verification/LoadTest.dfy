/**
 * The load test's own machinery: the bounded worker pool, the polling loop's accounting and the
 * percentile of its report.
 */
module LoadTest {
  import opened Arithmetic
  import opened Sorting
  import opened Wrappers

  // ---- The pool --------------------------------------------------------------------------------------

  /** A pool worker between two awaits: at the loop test, awaiting the task of one item, or done. */
  datatype Worker = Looping | Awaiting(item: nat) | Returned

  /** `finished` lists the items whose task has ended, in order. */
  datatype PoolState = PoolState(n: nat, cursor: nat, workers: seq<Worker>, finished: seq<nat>)

  /** Array.from({ length: Math.min(limit, n) }): a limit below one makes no worker. */
  function Opened(n: nat, limit: int): (s: PoolState)
    ensures |s.workers| <= n && (limit >= 0 ==> |s.workers| <= limit)
    ensures |s.workers| == 0 <==> limit <= 0 || n == 0
  {
    PoolState(n, 0, seq(if limit <= 0 then 0 else if limit < n then limit else n, _ => Looping), [])
  }

  /** Worker k runs to its next suspension point; its task, if it awaits one, ends here. */
  function Resumed(s: PoolState, k: nat): PoolState
    requires k < |s.workers| && !s.workers[k].Returned?
  {
    match s.workers[k]
    case Awaiting(i) => s.(workers := s.workers[k := Looping], finished := s.finished + [i])
    case _ =>
      if s.cursor < s.n then s.(workers := s.workers[k := Awaiting(s.cursor)], cursor := s.cursor + 1)
      else s.(workers := s.workers[k := Returned])
  }

  /** The closure the workers share. */
  class Pool {
    const n: nat
    var cursor: nat
    var workers: seq<Worker>
    var finished: seq<nat>

    ghost function State(): PoolState
      reads this
    {
      PoolState(n, cursor, workers, finished)
    }

    constructor (n: nat, limit: int)
      ensures State() == Opened(n, limit)
    {
      this.n := n;
      cursor := 0;
      workers := seq(if limit <= 0 then 0 else if limit < n then limit else n, _ => Looping);
      finished := [];
    }

    method Resume(k: nat)
      requires k < |workers| && !workers[k].Returned?
      modifies this
      ensures State() == Resumed(old(State()), k)
    {
      if workers[k].Awaiting? {
        finished := finished + [workers[k].item];
        workers := workers[k := Looping];
      } else if cursor < n {
        var i := cursor;
        cursor := cursor + 1;
        workers := workers[k := Awaiting(i)];
      } else {
        workers := workers[k := Returned];
      }
    }
  }

  /** How many workers await the task of item i. */
  function Holding(ws: seq<Worker>, i: nat): nat {
    if ws == [] then 0 else Holding(ws[1..], i) + if ws[0] == Awaiting(i) then 1 else 0
  }

  function InFlight(ws: seq<Worker>): (n: nat)
    ensures n <= |ws|
  {
    if ws == [] then 0 else InFlight(ws[1..]) + if ws[0].Awaiting? then 1 else 0
  }

  /** How often the task of item i has ended. */
  function Ended(finished: seq<nat>, i: nat): nat {
    if finished == [] then 0
    else Ended(finished[..|finished| - 1], i) + if finished[|finished| - 1] == i then 1 else 0
  }

  ghost predicate PoolOk(s: PoolState) {
    && s.cursor <= s.n
    && InFlight(s.workers) + |s.finished| == s.cursor
    && (forall i: nat :: Accounts(s, i))
    && (forall k :: 0 <= k < |s.workers| && s.workers[k].Returned? ==> s.cursor == s.n)
  }

  lemma {:induction false} HoldingUpdate(ws: seq<Worker>, k: nat, w: Worker, i: nat)
    requires k < |ws|
    ensures Holding(ws[k := w], i) ==
            Holding(ws, i) - (if ws[k] == Awaiting(i) then 1 else 0) + if w == Awaiting(i) then 1 else 0
  {
    if k == 0 {
      assert ws[0 := w][1..] == ws[1..];
    } else {
      HoldingUpdate(ws[1..], k - 1, w, i);
      assert ws[k := w][1..] == ws[1..][k - 1 := w];
    }
  }

  lemma {:induction false} InFlightUpdate(ws: seq<Worker>, k: nat, w: Worker)
    requires k < |ws|
    ensures InFlight(ws[k := w]) == InFlight(ws) - (if ws[k].Awaiting? then 1 else 0) + if w.Awaiting? then 1 else 0
  {
    if k == 0 {
      assert ws[0 := w][1..] == ws[1..];
    } else {
      InFlightUpdate(ws[1..], k - 1, w);
      assert ws[k := w][1..] == ws[1..][k - 1 := w];
    }
  }

  lemma {:induction false} NoneInFlight(ws: seq<Worker>, i: nat)
    requires forall k :: 0 <= k < |ws| ==> !ws[k].Awaiting?
    ensures InFlight(ws) == 0 && Holding(ws, i) == 0
  {
    if ws != [] { NoneInFlight(ws[1..], i); }
  }

  lemma OpenedOk(n: nat, limit: int)
    ensures PoolOk(Opened(n, limit))
  {
    forall i: nat ensures Accounts(Opened(n, limit), i) {
      NoneInFlight(Opened(n, limit).workers, i);
    }
    NoneInFlight(Opened(n, limit).workers, 0);
  }

  ghost predicate Accounts(s: PoolState, i: nat) {
    Holding(s.workers, i) + Ended(s.finished, i) == if i < s.cursor then 1 else 0
  }

  /** The item moves from the cursor to a worker, and from the worker to the list. */
  lemma {:induction false} ResumedAccounts(s: PoolState, k: nat, i: nat)
    requires k < |s.workers| && !s.workers[k].Returned? && s.cursor <= s.n && Accounts(s, i)
    ensures Accounts(Resumed(s, k), i)
  {
    HoldingUpdate(s.workers, k, Resumed(s, k).workers[k], i);
    if s.workers[k].Awaiting? { EndedSnoc(s.finished, s.workers[k].item, i); }
  }

  lemma {:induction false} EndedSnoc(finished: seq<nat>, last: nat, i: nat)
    ensures Ended(finished + [last], i) == Ended(finished, i) + if last == i then 1 else 0
  {
    assert (finished + [last])[..|finished|] == finished;
  }

  lemma {:induction false} ResumedOk(s: PoolState, k: nat)
    requires PoolOk(s) && k < |s.workers| && !s.workers[k].Returned?
    ensures PoolOk(Resumed(s, k))
  {
    InFlightUpdate(s.workers, k, Resumed(s, k).workers[k]);
    forall i: nat ensures Accounts(Resumed(s, k), i) {
      assert Accounts(s, i);
      ResumedAccounts(s, k, i);
    }
  }

  /** Any interleaving: `schedule` names the worker that runs at each step. */
  ghost predicate Runs(s: PoolState, schedule: seq<nat>, s': PoolState)
    decreases |schedule|
  {
    if schedule == [] then s' == s
    else
      && schedule[0] < |s.workers| && !s.workers[schedule[0]].Returned?
      && Runs(Resumed(s, schedule[0]), schedule[1..], s')
  }

  lemma {:induction false} RunsOk(s: PoolState, schedule: seq<nat>, s': PoolState)
    requires PoolOk(s) && Runs(s, schedule, s')
    ensures PoolOk(s') && s'.n == s.n && |s'.workers| == |s.workers|
    ensures Left(s) >= |schedule| + Left(s')
    decreases |schedule|
  {
    if schedule != [] {
      ResumedOk(s, schedule[0]);
      Shrinks(s, schedule[0]);
      RunsOk(Resumed(s, schedule[0]), schedule[1..], s');
    }
  }

  function Weight(w: Worker): nat {
    match w
    case Returned => 0
    case Looping => 1
    case Awaiting(_) => 2
  }

  function Weights(ws: seq<Worker>): nat {
    if ws == [] then 0 else Weight(ws[0]) + Weights(ws[1..])
  }

  /** Steps a pool can still make, at most. */
  function Left(s: PoolState): int {
    3 * (s.n - s.cursor) + Weights(s.workers)
  }

  lemma {:induction false} WeightsUpdate(ws: seq<Worker>, k: nat, w: Worker)
    requires k < |ws|
    ensures Weights(ws[k := w]) + Weight(ws[k]) == Weights(ws) + Weight(w)
  {
    if k == 0 {
      assert ws[0 := w][1..] == ws[1..];
    } else {
      WeightsUpdate(ws[1..], k - 1, w);
      assert ws[k := w][1..] == ws[1..][k - 1 := w];
    }
  }

  lemma Shrinks(s: PoolState, k: nat)
    requires k < |s.workers| && !s.workers[k].Returned?
    ensures Left(Resumed(s, k)) < Left(s)
  {
    WeightsUpdate(s.workers, k, Resumed(s, k).workers[k]);
  }

  lemma {:induction false} InitialWeight(ws: seq<Worker>)
    requires forall k :: 0 <= k < |ws| ==> ws[k].Looping?
    ensures Weights(ws) == |ws|
  {
    if ws != [] { InitialWeight(ws[1..]); }
  }

  /** The bounded pool, in every interleaving: each item below the cursor was claimed exactly once -- it
      is in flight or finished, never both, never twice -- and none above it; at most min(limit, n)
      tasks are in flight; the run stops within 3n + min(limit, n) steps. */
  lemma {:induction false} BoundedPool(n: nat, limit: int, schedule: seq<nat>, s: PoolState)
    requires Runs(Opened(n, limit), schedule, s)
    ensures forall i: nat :: Accounts(s, i)
    ensures s.cursor <= n && InFlight(s.workers) <= n && (limit >= 0 ==> InFlight(s.workers) <= limit)
    ensures |schedule| <= 3 * n + |s.workers|
  {
    OpenedOk(n, limit);
    RunsOk(Opened(n, limit), schedule, s);
    InitialWeight(Opened(n, limit).workers);
  }

  /** Each of the first m workers has been resumed once. */
  function FirstRound(m: nat): seq<nat> {
    if m == 0 then [] else FirstRound(m - 1) + [m - 1]
  }

  lemma {:induction false} RunsSnoc(s: PoolState, schedule: seq<nat>, s': PoolState, k: nat)
    requires Runs(s, schedule, s') && k < |s'.workers| && !s'.workers[k].Returned?
    ensures Runs(s, schedule + [k], Resumed(s', k))
    decreases |schedule|
  {
    if schedule == [] {
      assert [k][1..] == [];
    } else {
      RunsSnoc(Resumed(s, schedule[0]), schedule[1..], s', k);
      assert (schedule + [k])[1..] == schedule[1..] + [k];
    }
  }

  lemma {:induction false} AfterFirstRound(n: nat, limit: int, m: nat) returns (s: PoolState)
    requires m <= |Opened(n, limit).workers|
    ensures Runs(Opened(n, limit), FirstRound(m), s)
    ensures s.n == n && s.cursor == m && InFlight(s.workers) == m && |s.workers| == |Opened(n, limit).workers|
    ensures forall k :: m <= k < |s.workers| ==> s.workers[k].Looping?
  {
    if m == 0 {
      s := Opened(n, limit);
      NoneInFlight(s.workers, 0);
    } else {
      var before := AfterFirstRound(n, limit, m - 1);
      s := Resumed(before, m - 1);
      RunsSnoc(Opened(n, limit), FirstRound(m - 1), before, m - 1);
      InFlightUpdate(before.workers, m - 1, Awaiting(m - 1));
    }
  }

  /** The bound is used in full: there is a run with min(limit, n) tasks in flight. */
  lemma {:induction false} PoolFillsUp(n: nat, limit: nat) returns (schedule: seq<nat>, s: PoolState)
    ensures Runs(Opened(n, limit), schedule, s) && InFlight(s.workers) == if limit < n then limit else n
  {
    schedule := FirstRound(|Opened(n, limit).workers|);
    s := AfterFirstRound(n, limit, |Opened(n, limit).workers|);
  }

  ghost predicate AllDoneOnce(finished: seq<nat>, n: nat) {
    forall i: nat :: i < n ==> Ended(finished, i) == 1
  }

  /** When every worker has returned, all tasks are done -- exactly once each -- if and only if the
      pool had a worker to begin with, or nothing to do. */
  lemma {:induction false} PoolFinishes(n: nat, limit: int, schedule: seq<nat>, s: PoolState)
    requires Runs(Opened(n, limit), schedule, s) && Finished(s)
    ensures AllDoneOnce(s.finished, n) <==> limit >= 1 || n == 0
    ensures limit >= 1 ==> |s.finished| == n
  {
    OpenedOk(n, limit);
    RunsOk(Opened(n, limit), schedule, s);
    if limit <= 0 { NoWorkersNoSteps(Opened(n, limit), schedule, s); }
    FinishedPool(n, limit, s);
  }

  predicate Finished(s: PoolState) {
    forall k :: 0 <= k < |s.workers| ==> s.workers[k].Returned?
  }

  lemma {:induction false} FinishedPool(n: nat, limit: int, s: PoolState)
    requires PoolOk(s) && s.n == n && Finished(s) && |s.workers| == |Opened(n, limit).workers|
    requires limit <= 0 ==> s == Opened(n, limit)
    ensures AllDoneOnce(s.finished, n) <==> limit >= 1 || n == 0
    ensures limit >= 1 ==> |s.finished| == n
  {
    if limit >= 1 || n == 0 {
      if n >= 1 { assert s.workers[0].Returned?; }
      AllReturned(s);
    } else {
      NothingEnded(n);
    }
  }

  lemma {:induction false} AllReturned(s: PoolState)
    requires PoolOk(s) && s.cursor == s.n && Finished(s)
    ensures AllDoneOnce(s.finished, s.n) && |s.finished| == s.n
  {
    NoneInFlight(s.workers, 0);
    forall i: nat | i < s.n ensures Ended(s.finished, i) == 1 {
      NoneInFlight(s.workers, i);
      assert Accounts(s, i);
    }
  }

  lemma {:induction false} NothingEnded(n: nat)
    requires n >= 1
    ensures !AllDoneOnce([], n)
  {
    var first: nat := 0;
    assert Ended([], first) == 0;
  }

  lemma {:induction false} NoWorkersNoSteps(s: PoolState, schedule: seq<nat>, s': PoolState)
    requires s.workers == [] && Runs(s, schedule, s')
    ensures s' == s
  {
  }

  // ---- Polling -----------------------------------------------------------------------------------------

  predicate IsTerminal(status: string) {
    status == "COMPLETED" || status == "FAILED"
  }

  /** One polling round's answers; an id without an answer (a transient error) is asked again. */
  type Answers = map<nat, string>

  /** The first terminal status an id is seen with. */
  function FirstTerminal(rounds: seq<Answers>, id: nat): Option<string> {
    if rounds == [] then None
    else if id in rounds[0] && IsTerminal(rounds[0][id]) then Some(rounds[0][id])
    else FirstTerminal(rounds[1..], id)
  }

  lemma {:induction false} FirstTerminalSnoc(rounds: seq<Answers>, last: Answers, id: nat)
    ensures FirstTerminal(rounds + [last], id)
         == if FirstTerminal(rounds, id).Some? then FirstTerminal(rounds, id)
            else if id in last && IsTerminal(last[id]) then Some(last[id]) else None
  {
    if rounds == [] {
      assert ([] + [last])[1..] == [];
    } else {
      assert (rounds + [last])[1..] == rounds[1..] + [last];
      FirstTerminalSnoc(rounds[1..], last, id);
    }
  }

  /** What the bookkeeping must say after `rounds`: an id is settled with the first terminal status it
      was seen with, and pending exactly when it was never seen with one. */
  ghost predicate Books(ids: set<nat>, rounds: seq<Answers>, pending: set<nat>, settled: map<nat, string>) {
    && pending + settled.Keys == ids && pending * settled.Keys == {}
    && (forall id :: id in settled ==> FirstTerminal(rounds, id) == Some(settled[id]))
    && (forall id :: id in pending ==> FirstTerminal(rounds, id) == None)
  }

  /** Round r is the first to answer with a final status for the id, and it answers `status`. */
  predicate SettlesIn(rounds: seq<Answers>, r: nat, id: nat, status: string) {
    && r < |rounds| && id in rounds[r] && rounds[r][id] == status && (status == "COMPLETED" || status == "FAILED")
    && forall q :: 0 <= q < r && id in rounds[q] ==> rounds[q][id] != "COMPLETED" && rounds[q][id] != "FAILED"
  }

  predicate NeverSettles(rounds: seq<Answers>, id: nat) {
    forall q :: 0 <= q < |rounds| && id in rounds[q] ==> rounds[q][id] != "COMPLETED" && rounds[q][id] != "FAILED"
  }

  lemma {:induction false} FirstTerminalMeans(rounds: seq<Answers>, id: nat)
    ensures var first := FirstTerminal(rounds, id);
            if first.None? then NeverSettles(rounds, id) else exists r :: SettlesIn(rounds, r, id, first.value)
  {
    if rounds != [] {
      FirstTerminalMeans(rounds[1..], id);
      var first := FirstTerminal(rounds, id);
      if id in rounds[0] && IsTerminal(rounds[0][id]) {
        var r: nat := 0;
        assert SettlesIn(rounds, r, id, first.value);
      } else if first.Some? {
        var r: nat :| SettlesIn(rounds[1..], r, id, first.value);
        forall q | 0 <= q < r + 1 && id in rounds[q]
          ensures rounds[q][id] != "COMPLETED" && rounds[q][id] != "FAILED"
        {
          if q > 0 { assert rounds[q] == rounds[1..][q - 1]; }
        }
        assert SettlesIn(rounds, r + 1, id, first.value);
      } else {
        forall q | 0 <= q < |rounds| && id in rounds[q]
          ensures rounds[q][id] != "COMPLETED" && rounds[q][id] != "FAILED"
        {
          if q > 0 { assert rounds[q] == rounds[1..][q - 1]; }
        }
      }
    }
  }

  predicate Ends(answers: Answers, id: nat) {
    id in answers && IsTerminal(answers[id])
  }

  /** One round: every pending id is asked once, in any order. */
  method PollRound(answers: Answers, before: set<nat>, known: map<nat, string>)
    returns (pending: set<nat>, settled: map<nat, string>)
    requires before !! known.Keys
    ensures pending == set id | id in before && !Ends(answers, id)
    ensures settled.Keys == known.Keys + (before - pending)
    ensures forall id :: id in settled ==> settled[id] == if id in known then known[id] else answers[id]
  {
    pending, settled := before, known;
    var asked := before;
    while asked != {}
      invariant asked <= pending <= before
      invariant forall id :: id in before && id !in asked ==> (id in pending <==> !Ends(answers, id))
      invariant settled.Keys == known.Keys + (before - pending)
      invariant forall id :: id in before && id !in pending ==> Ends(answers, id)
      invariant forall id :: id in settled ==> settled[id] == if id in known then known[id] else answers[id]
      decreases asked
    {
      var id :| id in asked;
      asked := asked - {id};
      if id in answers && IsTerminal(answers[id]) {
        settled := settled[id := answers[id]];
        pending := pending - {id};
      }
    }
  }

  /** The polling loop.  It ends when nothing is pending or at the deadline, that is, after the rounds
      there was time for. */
  method Poll(ids: set<nat>, rounds: seq<Answers>) returns (settled: map<nat, string>, stuck: set<nat>)
    ensures Books(ids, rounds, stuck, settled)
    ensures stuck + settled.Keys == ids && stuck !! settled.Keys
    ensures forall id :: id in settled ==> exists r :: SettlesIn(rounds, r, id, settled[id])
    ensures forall id :: id in stuck ==> NeverSettles(rounds, id)
  {
    stuck := ids;
    settled := map[];
    var r := 0;
    BooksStart(ids, rounds);
    while r < |rounds| && stuck != {}
      invariant 0 <= r <= |rounds| && Books(ids, rounds[..r], stuck, settled)
    {
      ghost var before, known := stuck, settled;
      stuck, settled := PollRound(rounds[r], stuck, settled);
      BooksStep(ids, rounds, r, before, known, stuck, settled);
      r := r + 1;
    }
    if r < |rounds| {
      NothingPending(ids, rounds, r, stuck, settled);
    } else {
      assert rounds[..r] == rounds;
    }
    forall id | id in ids
      ensures id in settled ==> exists r :: SettlesIn(rounds, r, id, settled[id])
      ensures id in stuck ==> NeverSettles(rounds, id)
    {
      FirstTerminalMeans(rounds, id);
    }
  }

  lemma BooksStart(ids: set<nat>, rounds: seq<Answers>)
    ensures Books(ids, rounds[..0], ids, map[])
  {
  }

  lemma BooksStep(ids: set<nat>, rounds: seq<Answers>, r: nat, before: set<nat>, known: map<nat, string>,
                  pending: set<nat>, settled: map<nat, string>)
    requires r < |rounds| && Books(ids, rounds[..r], before, known)
    requires pending == set id | id in before && !Ends(rounds[r], id)
    requires settled.Keys == known.Keys + (before - pending)
    requires forall id :: id in settled ==> settled[id] == if id in known then known[id] else rounds[r][id]
    ensures Books(ids, rounds[..r + 1], pending, settled)
  {
    assert rounds[..r + 1] == rounds[..r] + [rounds[r]];
    forall id | id in settled ensures FirstTerminal(rounds[..r + 1], id) == Some(settled[id]) {
      FirstTerminalSnoc(rounds[..r], rounds[r], id);
    }
    forall id | id in pending ensures FirstTerminal(rounds[..r + 1], id) == None {
      FirstTerminalSnoc(rounds[..r], rounds[r], id);
    }
  }

  /** Later rounds do not change a settled id. */
  lemma {:induction false} FirstTerminalStays(rounds: seq<Answers>, r: nat, id: nat)
    requires r <= |rounds| && FirstTerminal(rounds[..r], id).Some?
    ensures FirstTerminal(rounds, id) == FirstTerminal(rounds[..r], id)
  {
    if r > 0 && !(id in rounds[0] && IsTerminal(rounds[0][id])) {
      assert rounds[..r][1..] == rounds[1..][..r - 1];
      FirstTerminalStays(rounds[1..], r - 1, id);
    }
  }

  lemma NothingPending(ids: set<nat>, rounds: seq<Answers>, r: nat, pending: set<nat>, settled: map<nat, string>)
    requires r <= |rounds| && Books(ids, rounds[..r], pending, settled) && pending == {}
    ensures Books(ids, rounds, pending, settled)
  {
    forall id | id in settled ensures FirstTerminal(rounds, id) == Some(settled[id]) {
      FirstTerminalStays(rounds, r, id);
    }
  }

  /** The report accounts for every submission: completed + failed + stuck == submitted. */
  lemma ReportAddsUp(ids: set<nat>, rounds: seq<Answers>, stuck: set<nat>, settled: map<nat, string>)
    requires Books(ids, rounds, stuck, settled)
    ensures var completed := set id | id in settled && settled[id] == "COMPLETED";
            var failed := set id | id in settled && settled[id] == "FAILED";
            |completed| + |failed| + |stuck| == |ids|
  {
    var completed := set id | id in settled && settled[id] == "COMPLETED";
    var failed := set id | id in settled && settled[id] == "FAILED";
    forall id | id in settled ensures id in completed + failed {
      TerminalIsTerminal(rounds, id);
    }
    assert completed * failed == {} && completed + failed == settled.Keys;
    assert |completed + failed| == |completed| + |failed|;
    assert |stuck + settled.Keys| == |stuck| + |settled.Keys|;
  }

  lemma {:induction false} TerminalIsTerminal(rounds: seq<Answers>, id: nat)
    ensures FirstTerminal(rounds, id).Some? ==> IsTerminal(FirstTerminal(rounds, id).value)
  {
    if rounds != [] { TerminalIsTerminal(rounds[1..], id); }
  }

  // ---- Percentiles ---------------------------------------------------------------------------------------

  /** p lies between 0 and 100; the report uses 50 and 95. */
  function Percentile(sorted: seq<int>, p: real): int
    requires 0.0 <= p <= 100.0
  {
    if sorted == [] then 0 else sorted[Rank(|sorted|, p / 100.0)]
  }

  function Rank(n: nat, share: real): (k: nat)
    requires n > 0 && 0.0 <= share <= 1.0
    ensures k < n
  {
    ProductMonotone(0.0, share, n as real);
    Clamped(n, share * n as real)
  }

  function Clamped(n: nat, position: real): (k: nat)
    requires n > 0 && position >= 0.0
    ensures k < n
  {
    if n - 1 <= position.Floor then n - 1 else position.Floor
  }

  lemma RankMonotone(n: nat, p: real, q: real)
    requires n > 0 && 0.0 <= p <= q <= 1.0
    ensures Rank(n, p) <= Rank(n, q)
  {
    var r := n as real;
    ProductMonotone(0.0, p, r);
    ProductMonotone(p, q, r);
    ClampedMonotone(n, p * r, q * r);
  }

  lemma ClampedMonotone(n: nat, a: real, b: real)
    requires n > 0 && 0.0 <= a <= b
    ensures Clamped(n, a) <= Clamped(n, b)
  {
    assert a.Floor <= b.Floor;
  }

  predicate Ascending(s: seq<int>) {
    forall i, j :: 0 <= i <= j < |s| ==> s[i] <= s[j]
  }

  /** Percentiles grow with p, from the minimum at 0 to the maximum at 100, where the plain rank would
      already be out of range. */
  lemma PercentilesAreOrdered(sorted: seq<int>, p: real, q: real)
    requires Ascending(sorted) && sorted != [] && 0.0 <= p <= q <= 100.0
    ensures Percentile(sorted, p) <= Percentile(sorted, q) <= sorted[|sorted| - 1]
    ensures Percentile(sorted, 100.0) == sorted[|sorted| - 1] && Percentile(sorted, 0.0) == sorted[0]
  {
    RankMonotone(|sorted|, p / 100.0, q / 100.0);
    RankEnds(|sorted|);
  }

  /** Below 100, the entries before the reported one are at most p percent of all, and with it they
      are more. */
  lemma PercentileCutsOff(n: nat, p: real)
    requires n > 0 && 0.0 <= p < 100.0
    ensures var k := Rank(n, p / 100.0);
            k as real * 100.0 <= p * n as real < (k + 1) as real * 100.0
  {
    var share, r := p / 100.0, n as real;
    ProductMonotone(0.0, share, r);
    BelowAll(share, r);
    assert p * r == 100.0 * (share * r) by { HundredTimes(p, share, r); }
    assert (share * r).Floor <= n - 1;
  }

  function Less(v: int): int -> bool {
    (x: int) => x < v
  }

  function UpTo(v: int): int -> bool {
    (x: int) => x <= v
  }

  /** Around the entry at position k. */
  lemma CountsAround(sorted: seq<int>, k: nat, limit: real)
    requires Ascending(sorted) && k < |sorted|
    requires k as real * 100.0 <= limit < (k + 1) as real * 100.0
    ensures Count(sorted, Less(sorted[k])) as real * 100.0 <= limit < Count(sorted, UpTo(sorted[k])) as real * 100.0
  {
    CountOfSplit(sorted, k, Less(sorted[k]));
    CountOfSplit(sorted, k + 1, UpTo(sorted[k]));
  }

  /** The reported entry itself: at most p percent of the entries are smaller, and more than p percent are not
      larger. */
  lemma PercentileIsCut(sorted: seq<int>, p: real)
    requires Ascending(sorted) && sorted != [] && 0.0 <= p < 100.0
    ensures var v := Percentile(sorted, p);
            && v in sorted
            && Count(sorted, Less(v)) as real * 100.0 <= p * |sorted| as real
            && p * |sorted| as real < Count(sorted, UpTo(v)) as real * 100.0
  {
    PercentileCutsOff(|sorted|, p);
    CountsAround(sorted, Rank(|sorted|, p / 100.0), p * |sorted| as real);
  }

  lemma BelowAll(share: real, n: real)
    requires share < 1.0 && n > 0.0
    ensures share * n < n
  {
    ProductPositive(1.0 - share, n, (1.0 - share) * n);
    DifferenceTimes(share, 1.0, n);
  }

  lemma HundredTimes(p: real, share: real, n: real)
    requires p == 100.0 * share
    ensures p * n == 100.0 * (share * n)
  {
  }

  lemma RankEnds(n: nat)
    requires n > 0
    ensures Rank(n, 1.0) == n - 1 && Rank(n, 0.0) == 0
  {
    assert 1.0 * n as real == n as real;
    assert 0.0 * n as real == 0.0;
  }
}
