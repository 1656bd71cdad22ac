/** The worker threads shared by the two parallel readers of KA2: each thread claims
    the next chunk index under the mutex, reads that chunk alone, and appends its rows
    under the mutex.  Any number of threads, any interleaving, a stop flag that may be
    raised at any time. */
module ChunkWorkers {
  import opened Sequences

  /** results[i] is what reading chunk i yields.  abandonOnStop: the flat reader leaves
      in the middle of a chunk when it sees the stop flag, dropping the rows read. */
  datatype Job<Row> = Job(results: seq<seq<Row>>, abandonOnStop: bool)

  datatype Pc<Row> =
    | Idle
    | Claimed(idx: nat)
    | Reading(idx: nat)
    | Fetched(idx: nat, rows: seq<Row>)
    | Exited

  /** saved is a history variable: the chunks whose rows were appended. */
  datatype State<Row> = State(stop: bool, next: nat, out: seq<Row>, pcs: seq<Pc<Row>>, saved: set<nat>)

  datatype Step = RaiseStop | Claim(w: nat) | CheckStop(w: nat) | Fetch(w: nat) | Abandon(w: nat) | Append(w: nat)

  ghost predicate Init<Row>(workers: nat, s: State<Row>) {
    && workers >= 1
    && s.next == 0 && s.out == [] && s.saved == {}
    && |s.pcs| == workers
    && forall w :: 0 <= w < workers ==> s.pcs[w] == Idle
  }

  ghost predicate NextStep<Row(!new)>(j: Job<Row>, s: State<Row>, t: State<Row>, step: Step) {
    match step
    case RaiseStop =>
      t == s.(stop := true)
    case Claim(w) =>
      && w < |s.pcs| && s.pcs[w].Idle?
      && t == if s.next >= |j.results| then s.(pcs := s.pcs[w := Exited])
              else s.(pcs := s.pcs[w := Claimed(s.next)], next := s.next + 1)
    case CheckStop(w) =>
      && w < |s.pcs| && s.pcs[w].Claimed?
      && t == s.(pcs := s.pcs[w := if s.stop then Exited else Reading(s.pcs[w].idx)])
    case Fetch(w) =>
      && w < |s.pcs| && s.pcs[w].Reading? && s.pcs[w].idx < |j.results|
      && t == s.(pcs := s.pcs[w := Fetched(s.pcs[w].idx, j.results[s.pcs[w].idx])])
    case Abandon(w) =>
      && w < |s.pcs| && s.pcs[w].Reading? && j.abandonOnStop && s.stop
      && t == s.(pcs := s.pcs[w := Exited])
    case Append(w) =>
      && w < |s.pcs| && s.pcs[w].Fetched?
      && t == s.(pcs := s.pcs[w := Idle], out := s.out + s.pcs[w].rows, saved := s.saved + {s.pcs[w].idx})
  }

  ghost predicate Next<Row(!new)>(j: Job<Row>, s: State<Row>, t: State<Row>) {
    exists step :: NextStep(j, s, t, step)
  }

  /** A finite execution, one element per state. */
  ghost predicate IsRun<Row(!new)>(j: Job<Row>, workers: nat, run: seq<State<Row>>) {
    && run != []
    && Init(workers, run[0])
    && forall i :: 0 <= i < |run| - 1 ==> Next(j, run[i], run[i + 1])
  }

  ghost predicate Finished<Row(!new)>(s: State<Row>) {
    forall w :: 0 <= w < |s.pcs| ==> s.pcs[w].Exited?
  }

  /** The thread has claimed a chunk it has not appended yet. */
  ghost predicate Busy<Row>(pc: Pc<Row>) {
    pc.Claimed? || pc.Reading? || pc.Fetched?
  }

  ghost predicate Held<Row>(pcs: seq<Pc<Row>>, i: nat) {
    exists w :: 0 <= w < |pcs| && Busy(pcs[w]) && pcs[w].idx == i
  }

  /** The rows of the saved chunks among the first k. */
  ghost function SavedRows<Row>(results: seq<seq<Row>>, saved: set<nat>, k: nat): multiset<Row>
    requires k <= |results|
  {
    if k == 0 then multiset{}
    else SavedRows(results, saved, k - 1) + if k - 1 in saved then multiset(results[k - 1]) else multiset{}
  }

  /** Every claimed chunk belongs to one thread or is saved. */
  ghost predicate Owned<Row(!new)>(pcs: seq<Pc<Row>>, next: nat, saved: set<nat>) {
    && (forall i :: i in saved ==> i < next)
    && (forall w :: 0 <= w < |pcs| && Busy(pcs[w]) ==> pcs[w].idx < next && pcs[w].idx !in saved)
    && (forall v, w :: 0 <= v < w < |pcs| && Busy(pcs[v]) && Busy(pcs[w]) ==> pcs[v].idx != pcs[w].idx)
  }

  /** The rows in hand are those of the chunk, and the output is the saved chunks. */
  ghost predicate Safe<Row(!new)>(j: Job<Row>, s: State<Row>) {
    && |s.pcs| >= 1
    && s.next <= |j.results|
    && Owned(s.pcs, s.next, s.saved)
    && (forall w :: 0 <= w < |s.pcs| && s.pcs[w].Fetched? ==>
          s.pcs[w].idx < |j.results| && s.pcs[w].rows == j.results[s.pcs[w].idx])
    && multiset(s.out) == SavedRows(j.results, s.saved, |j.results|)
  }

  /** Without a stop no claimed chunk is forgotten and no thread leaves early. */
  ghost predicate Covered<Row(!new)>(j: Job<Row>, s: State<Row>) {
    !s.stop ==>
      && (forall i: nat :: i < s.next && i !in s.saved ==> Held(s.pcs, i))
      && (forall w :: 0 <= w < |s.pcs| && s.pcs[w].Exited? ==> s.next == |j.results|)
  }

  ghost predicate Inv<Row(!new)>(j: Job<Row>, s: State<Row>) {
    Safe(j, s) && Covered(j, s)
  }

  lemma {:induction false} SavedRowsEmpty<Row>(results: seq<seq<Row>>, k: nat)
    requires k <= |results|
    ensures SavedRows(results, {}, k) == multiset{}
  {
    if k > 0 { SavedRowsEmpty(results, k - 1); }
  }

  lemma {:induction false} SavedRowsAdd<Row>(results: seq<seq<Row>>, saved: set<nat>, i: nat, k: nat)
    requires k <= |results| && i !in saved && i < |results|
    ensures SavedRows(results, saved + {i}, k)
         == SavedRows(results, saved, k) + if i < k then multiset(results[i]) else multiset{}
  {
    if k > 0 { SavedRowsAdd(results, saved, i, k - 1); }
  }

  lemma {:induction false} SavedRowsBound<Row>(results: seq<seq<Row>>, saved: set<nat>, k: nat)
    requires k <= |results|
    ensures SavedRows(results, saved, k) <= multiset(Flatten(results[..k]))
    ensures (forall i: nat :: i < k ==> i in saved) ==> SavedRows(results, saved, k) == multiset(Flatten(results[..k]))
  {
    if k > 0 {
      SavedRowsBound(results, saved, k - 1);
      assert results[..k] == results[..k - 1] + [results[k - 1]];
      FlattenConcat(results[..k - 1], [results[k - 1]]);
      assert Flatten([results[k - 1]]) == results[k - 1] + Flatten([]) == results[k - 1];
    }
  }

  lemma {:induction false} OwnedUpdate<Row(!new)>(pcs: seq<Pc<Row>>, next: nat, saved: set<nat>, w: nat, pc: Pc<Row>)
    requires w < |pcs| && Owned(pcs, next, saved)
    ensures !Busy(pc) ==> Owned(pcs[w := pc], next, saved)
    ensures Busy(pc) && Busy(pcs[w]) && pc.idx == pcs[w].idx ==> Owned(pcs[w := pc], next, saved)
    ensures Busy(pc) && pc.idx == next ==> Owned(pcs[w := pc], next + 1, saved)
    ensures !Busy(pc) && Busy(pcs[w]) ==> Owned(pcs[w := pc], next, saved + {pcs[w].idx})
  {
  }

  lemma {:induction false} NextPreservesSafe<Row(!new)>(j: Job<Row>, s: State<Row>, t: State<Row>, step: Step)
    requires Safe(j, s) && NextStep(j, s, t, step)
    ensures Safe(j, t)
  {
    if step != RaiseStop {
      var w := step.w;
      OwnedUpdate(s.pcs, s.next, s.saved, w, t.pcs[w]);
      if step.Append? {
        SavedRowsAdd(j.results, s.saved, s.pcs[w].idx, |j.results|);
        assert multiset(t.out) == multiset(s.out) + multiset(s.pcs[w].rows);
      }
    }
  }

  lemma {:induction false} NextPreservesCovered<Row(!new)>(j: Job<Row>, s: State<Row>, t: State<Row>, step: Step)
    requires Safe(j, s) && Covered(j, s) && NextStep(j, s, t, step)
    ensures Covered(j, t)
  {
    if !t.stop {
      forall i: nat | i < t.next && i !in t.saved ensures Held(t.pcs, i) {
        if step.Claim? && i == s.next {
          assert Busy(t.pcs[step.w]);
        } else {
          var w :| 0 <= w < |s.pcs| && Busy(s.pcs[w]) && s.pcs[w].idx == i;
          assert Busy(t.pcs[w]);
        }
      }
    }
  }

  lemma {:induction false} RunInv<Row(!new)>(j: Job<Row>, workers: nat, run: seq<State<Row>>, k: nat)
    requires IsRun(j, workers, run) && k < |run|
    ensures Inv(j, run[k])
  {
    if k == 0 {
      SavedRowsEmpty(j.results, |j.results|);
    } else {
      RunInv(j, workers, run, k - 1);
      assert Next(j, run[k - 1], run[k - 1 + 1]);
      var step :| NextStep(j, run[k - 1], run[k], step);
      NextPreservesSafe(j, run[k - 1], run[k], step);
      NextPreservesCovered(j, run[k - 1], run[k], step);
    }
  }

  /** Whatever the schedule and whenever the stop flag rises, no row is invented or
      appended twice. */
  lemma {:induction false} NothingInvented<Row(!new)>(j: Job<Row>, workers: nat, run: seq<State<Row>>)
    requires IsRun(j, workers, run)
    ensures multiset(run[|run| - 1].out) <= multiset(Flatten(j.results))
  {
    var s := run[|run| - 1];
    RunInv(j, workers, run, |run| - 1);
    SavedRowsBound(j.results, s.saved, |j.results|);
    assert j.results[..|j.results|] == j.results;
  }

  /** Every complete run without a stop appends every chunk exactly once. */
  lemma {:induction false} EveryChunkOnce<Row(!new)>(j: Job<Row>, workers: nat, run: seq<State<Row>>)
    requires IsRun(j, workers, run)
    requires Finished(run[|run| - 1]) && !run[|run| - 1].stop
    ensures multiset(run[|run| - 1].out) == multiset(Flatten(j.results))
  {
    var s := run[|run| - 1];
    RunInv(j, workers, run, |run| - 1);
    assert s.pcs[0].Exited?;
    SavedRowsBound(j.results, s.saved, |j.results|);
    assert j.results[..|j.results|] == j.results;
  }

  // ---- termination ----

  ghost function Weight<Row>(pc: Pc<Row>): int {
    match pc
    case Exited => 0
    case Idle => 1
    case Fetched(_, _) => 2
    case Reading(_) => 3
    case Claimed(_) => 4
  }

  /** Steps the threads can still take. */
  ghost function Work<Row>(j: Job<Row>, s: State<Row>): int {
    4 * (|j.results| - s.next) + SumInt(s.pcs, pc => Weight(pc))
  }

  lemma {:induction false} SumIntUpdate<T>(xs: seq<T>, i: nat, x: T, f: T -> int)
    requires i < |xs|
    ensures SumInt(xs[i := x], f) == SumInt(xs, f) - f(xs[i]) + f(x)
  {
    if i > 0 {
      SumIntUpdate(xs[1..], i - 1, x, f);
      assert xs[i := x][1..] == xs[1..][i - 1 := x];
    } else {
      assert xs[i := x][1..] == xs[1..];
    }
  }

  lemma {:induction false} WorkNonNegative<Row>(pcs: seq<Pc<Row>>)
    ensures SumInt(pcs, pc => Weight(pc)) >= 0
  {
    if pcs != [] { WorkNonNegative(pcs[1..]); }
  }

  lemma {:induction false} StepUsesWork<Row(!new)>(j: Job<Row>, s: State<Row>, t: State<Row>, step: Step)
    requires NextStep(j, s, t, step) && step != RaiseStop
    ensures Work(j, t) < Work(j, s)
  {
    SumIntUpdate(s.pcs, step.w, t.pcs[step.w], pc => Weight(pc));
    hide SumInt;
  }

  lemma {:induction false} SomeThreadSteps<Row(!new)>(j: Job<Row>, s: State<Row>, w: nat)
    requires Safe(j, s) && w < |s.pcs| && !s.pcs[w].Exited?
    ensures exists t, step :: step != RaiseStop && NextStep(j, s, t, step)
  {
    match s.pcs[w] {
      case Idle =>
        var t := if s.next >= |j.results| then s.(pcs := s.pcs[w := Exited])
                 else s.(pcs := s.pcs[w := Claimed(s.next)], next := s.next + 1);
        assert NextStep(j, s, t, Claim(w));
      case Claimed(i) =>
        assert NextStep(j, s, s.(pcs := s.pcs[w := if s.stop then Exited else Reading(i)]), CheckStop(w));
      case Reading(i) =>
        assert Busy(s.pcs[w]);
        assert NextStep(j, s, s.(pcs := s.pcs[w := Fetched(i, j.results[i])]), Fetch(w));
      case Fetched(i, rows) =>
        assert NextStep(j, s, s.(pcs := s.pcs[w := Idle], out := s.out + rows, saved := s.saved + {i}), Append(w));
    }
  }

  /** Every thread step uses up work, and while a thread has not returned some thread
      can step: the threads always finish. */
  lemma {:induction false} ThreadsFinish<Row(!new)>(j: Job<Row>, s: State<Row>)
    requires Inv(j, s)
    ensures Work(j, s) >= 0
    ensures forall t, step :: NextStep(j, s, t, step) && step != RaiseStop ==> Work(j, t) < Work(j, s)
    ensures !Finished(s) ==> exists t, step :: step != RaiseStop && NextStep(j, s, t, step)
  {
    WorkNonNegative(s.pcs);
    assert s.next <= |j.results|;
    hide NextStep, Safe, Covered, SumInt;
    forall t, step | NextStep(j, s, t, step) && step != RaiseStop ensures Work(j, t) < Work(j, s) {
      StepUsesWork(j, s, t, step);
    }
    if !Finished(s) {
      var w: nat :| w < |s.pcs| && !s.pcs[w].Exited?;
      SomeThreadSteps(j, s, w);
    }
  }
}
