/** InventoryCheckpointRepository and its callers: pull requests, worker threads, resets,
    crashes and restarts over one checkpoint table. */
module Checkpoints {
  import opened Sequences

  datatype Status = Running | Interrupted | Done | Failed

  datatype Row = Row(tenant: int, jobId: string, lastStage: string, status: Status, error: string, updatedAt: nat)

  predicate Open(r: Row) { r.status == Running || r.status == Interrupted }

  predicate OpenFor(r: Row, tenant: int) { r.tenant == tenant && Open(r) }

  // ---- the statements ----

  /** The handlers finish with done or failed only. */
  datatype Ending = EndDone | EndFailed(error: string)

  /** One transaction of the repository on the rows of a tenant. */
  datatype Statement =
    | Starting(jobId: string)
    | Updating(jobId: string, stage: string)
    | Finishing(jobId: string, ending: Ending)
    | Abandoning(reason: string)
    | Interrupting(reason: string)

  function FirstError(error: string, reason: string): string { if error == "" then reason else error }

  /** What the UPDATE of a statement makes of one row. */
  function Rewritten(r: Row, tenant: int, st: Statement, now: nat): Row {
    if r.tenant != tenant then r
    else match st
      case Starting(_) =>
        if Open(r) then r.(status := Failed, error := "superseded by new run", updatedAt := now) else r
      case Updating(jobId, stage) =>
        if r.jobId == jobId && r.status == Running then r.(lastStage := stage, updatedAt := now) else r
      case Finishing(jobId, e) =>
        if r.jobId != jobId then r
        else if e.EndDone? then r.(status := Done, error := "", updatedAt := now)
        else r.(status := Failed, error := e.error, updatedAt := now)
      case Abandoning(reason) =>
        if Open(r) then r.(status := Failed, error := FirstError(r.error, reason), updatedAt := now) else r
      case Interrupting(reason) =>
        if r.status == Running then r.(status := Interrupted, error := FirstError(r.error, reason), updatedAt := now) else r
  }

  function Rewrite(rows: seq<Row>, tenant: int, st: Statement, now: nat): seq<Row> {
    Map(rows, r => Rewritten(r, tenant, st, now))
  }

  function Execute(rows: seq<Row>, tenant: int, st: Statement, now: nat): (next: seq<Row>) {
    Rewrite(rows, tenant, st, now) + if st.Starting? then [Row(tenant, st.jobId, "start", Running, "", now)] else []
  }

  predicate Candidate(r: Row, tenant: int) { r.tenant == tenant && r.status == Interrupted }

  /** The unique index allows one running row; the service keeps more: one open row. */
  ghost predicate AtMostOneOpen(rows: seq<Row>, tenant: int) {
    forall i, j :: 0 <= i < j < |rows| ==> !(OpenFor(rows[i], tenant) && OpenFor(rows[j], tenant))
  }

  ghost predicate OnlyOpen(rows: seq<Row>, tenant: int, at: int) {
    0 <= at < |rows| && forall i :: 0 <= i < |rows| ==> (OpenFor(rows[i], tenant) <==> i == at)
  }

  class CheckpointTable {
    var rows: seq<Row>
    var now: nat

    constructor ()
      ensures rows == [] && now == 0
    {
      rows, now := [], 0;
    }

    method Start(jobId: string, tenant: int)
      modifies this
      ensures rows == Execute(old(rows), tenant, Starting(jobId), now)
      ensures OnlyOpen(rows, tenant, |rows| - 1) && now == old(now) + 1
      ensures |rows| == |old(rows)| + 1 && rows[|old(rows)|] == Row(tenant, jobId, "start", Running, "", now)
      ensures forall i :: 0 <= i < |old(rows)| ==> rows[i] == var r := old(rows)[i];
        if r.tenant == tenant && (r.status == Running || r.status == Interrupted)
        then Row(tenant, r.jobId, r.lastStage, Failed, "superseded by new run", now) else r
    {
      now := now + 1;
      rows := Rewrite(rows, tenant, Starting(jobId), now);
      rows := rows + [Row(tenant, jobId, "start", Running, "", now)];
    }

    method Update(jobId: string, stage: string, tenant: int)
      modifies this
      ensures rows == Execute(old(rows), tenant, Updating(jobId, stage), now)
      ensures |rows| == |old(rows)| && now == old(now) + 1
      ensures forall i :: 0 <= i < |rows| ==> rows[i] == var r := old(rows)[i];
        if r.tenant == tenant && r.jobId == jobId && r.status == Running
        then Row(tenant, jobId, stage, Running, r.error, now) else r
    {
      now := now + 1;
      rows := Rewrite(rows, tenant, Updating(jobId, stage), now);
    }

    method Finish(jobId: string, e: Ending, tenant: int)
      modifies this
      ensures rows == Execute(old(rows), tenant, Finishing(jobId, e), now)
      ensures |rows| == |old(rows)| && now == old(now) + 1
      ensures forall i :: 0 <= i < |rows| ==> rows[i] == var r := old(rows)[i];
        if r.tenant == tenant && r.jobId == jobId
        then Row(tenant, jobId, r.lastStage, if e == EndDone then Done else Failed, if e == EndDone then "" else e.error, now) else r
    {
      now := now + 1;
      rows := Rewrite(rows, tenant, Finishing(jobId, e), now);
    }

    method AbandonRunning(reason: string, tenant: int)
      modifies this
      ensures rows == Execute(old(rows), tenant, Abandoning(reason), now)
      ensures |rows| == |old(rows)| && now == old(now) + 1
      ensures forall i :: 0 <= i < |rows| ==> rows[i] == var r := old(rows)[i];
        if r.tenant == tenant && (r.status == Running || r.status == Interrupted)
        then Row(tenant, r.jobId, r.lastStage, Failed, if r.error == "" then reason else r.error, now) else r
    {
      now := now + 1;
      rows := Rewrite(rows, tenant, Abandoning(reason), now);
    }

    method MarkInterrupted(reason: string, tenant: int)
      modifies this
      ensures rows == Execute(old(rows), tenant, Interrupting(reason), now)
      ensures |rows| == |old(rows)| && now == old(now) + 1
      ensures forall i :: 0 <= i < |rows| ==> rows[i] == var r := old(rows)[i];
        if r.tenant == tenant && r.status == Running
        then Row(tenant, r.jobId, r.lastStage, Interrupted, if r.error == "" then reason else r.error, now) else r
      ensures forall i :: 0 <= i < |rows| ==> (Candidate(rows[i], tenant) <==> OpenFor(old(rows)[i], tenant))
    {
      now := now + 1;
      rows := Rewrite(rows, tenant, Interrupting(reason), now);
    }

    /** The interrupted row updated last. */
    method FindUnfinished(tenant: int) returns (found: Option<Row>)
      ensures found.None? <==> forall i :: 0 <= i < |rows| ==> !Candidate(rows[i], tenant)
      ensures found.Some? ==> found.value in rows && Candidate(found.value, tenant)
      ensures found.Some? ==> found.value.tenant == tenant && found.value.status == Interrupted
      ensures found.Some? ==> forall i :: 0 <= i < |rows| && Candidate(rows[i], tenant) ==> rows[i].updatedAt <= found.value.updatedAt
    {
      found := None;
      for i := 0 to |rows|
        invariant found.None? <==> forall j :: 0 <= j < i ==> !Candidate(rows[j], tenant)
        invariant found.Some? ==> found.value in rows && Candidate(found.value, tenant)
        invariant found.Some? ==> forall j :: 0 <= j < i && Candidate(rows[j], tenant) ==> rows[j].updatedAt <= found.value.updatedAt
      {
        if Candidate(rows[i], tenant) && (found.None? || found.value.updatedAt < rows[i].updatedAt) {
          found := Some(rows[i]);
        }
      }
    }
  }

  ghost predicate HasCandidate(rows: seq<Row>, tenant: int) {
    exists i :: 0 <= i < |rows| && Candidate(rows[i], tenant)
  }

  // ---- the service ----

  const TENANT := 1

  /** A POST handler after the generation was incremented. */
  datatype Request = Request(jobId: string, generation: nat, abandoned: bool)

  /** A pull thread; cleared means that it has passed the generation check before finish. */
  datatype Worker = Worker(jobId: string, generation: nat, cleared: bool)

  /** checkDue: the startup resume check is still to come; resumePosts: resume threads that
      have not sent their POST yet.  restarts and resumes are counted. */
  datatype System = System(rows: seq<Row>, now: nat, up: bool, generation: nat,
                           requests: multiset<Request>, workers: multiset<Worker>,
                           checkDue: bool, resumePosts: nat, restarts: nat, resumes: nat)

  /** ok is false when the transaction throws, which the callers only log: the data base is
      away, or the unique index refuses the insert of a start that overlaps another. */
  datatype Event =
    | Post(jobId: string, resume: bool)
    | PostAbandon(q: Request, ok: bool)
    | PostStart(q: Request, ok: bool)
    | WorkerUpdate(w: Worker, stage: string, ok: bool)
    | WorkerChecksGeneration(w: Worker)
    | WorkerFinish(w: Worker, e: Ending, ok: bool)
    | WorkerLeaves(w: Worker)
    | ResetAbandon(ok: bool)
    | ResetBump
    | Crash
    | Restart(ok: bool)
    | ResumeCheck(ok: bool)

  const Start := System([], 0, false, 0, multiset{}, multiset{}, false, 0, 0, 0)

  ghost predicate Enabled(s: System, e: Event) {
    match e
    case Post(_, resume) => s.up && (resume ==> s.resumePosts > 0)
    case PostAbandon(q, _) => q in s.requests && !q.abandoned
    case PostStart(q, _) => q in s.requests && q.abandoned
    case WorkerUpdate(w, _, _) => w in s.workers && !w.cleared
    case WorkerChecksGeneration(w) => w in s.workers && !w.cleared && w.generation == s.generation
    case WorkerFinish(w, _, _) => w in s.workers && w.cleared
    case WorkerLeaves(w) => w in s.workers
    case ResetAbandon(_) => s.up
    case ResetBump => s.up
    case Crash => s.up
    case Restart(_) => !s.up
    case ResumeCheck(_) => s.up && s.checkDue
  }

  function Attempt(s: System, st: Statement, ok: bool): seq<Row> {
    if ok then Execute(s.rows, TENANT, st, s.now + 1) else s.rows
  }

  ghost function Step(s: System, e: Event): System
    requires Enabled(s, e)
  {
    var now := s.now + 1;
    match e
    case Post(jobId, resume) =>
      s.(generation := s.generation + 1, requests := s.requests + multiset{Request(jobId, s.generation + 1, false)},
         resumePosts := if resume then s.resumePosts - 1 else s.resumePosts,
         resumes := if resume then s.resumes + 1 else s.resumes)
    case PostAbandon(q, ok) =>
      s.(requests := s.requests - multiset{q} + multiset{q.(abandoned := true)}, now := now,
         rows := Attempt(s, Abandoning("superseded by new run"), ok))
    case PostStart(q, ok) =>
      s.(requests := s.requests - multiset{q}, workers := s.workers + multiset{Worker(q.jobId, q.generation, false)}, now := now,
         rows := Attempt(s, Starting(q.jobId), ok))
    case WorkerUpdate(w, stage, ok) =>
      s.(now := now, rows := Attempt(s, Updating(w.jobId, stage), ok))
    case WorkerChecksGeneration(w) =>
      s.(workers := s.workers - multiset{w} + multiset{w.(cleared := true)})
    case WorkerFinish(w, end, ok) =>
      s.(workers := s.workers - multiset{w}, now := now,
         rows := Attempt(s, Finishing(w.jobId, end), ok))
    case WorkerLeaves(w) =>
      s.(workers := s.workers - multiset{w})
    case ResetAbandon(ok) =>
      s.(now := now, rows := Attempt(s, Abandoning("reset by user"), ok))
    case ResetBump =>
      s.(generation := s.generation + 1)
    case Crash =>
      s.(up := false, generation := 0, requests := multiset{}, workers := multiset{}, checkDue := false, resumePosts := 0)
    case Restart(ok) =>
      s.(up := true, checkDue := true, restarts := s.restarts + 1, now := now,
         rows := Attempt(s, Interrupting("service restarted"), ok))
    case ResumeCheck(ok) =>
      s.(checkDue := false, resumePosts := if ok && HasCandidate(s.rows, TENANT) then s.resumePosts + 1 else s.resumePosts)
  }

  // ---- what every state keeps ----

  /** Statements keep rows in place and never reopen a closed one. */
  ghost predicate NeverReopens(rows: seq<Row>, next: seq<Row>) {
    && |rows| <= |next|
    && forall i :: 0 <= i < |rows| ==>
         next[i].jobId == rows[i].jobId && next[i].tenant == rows[i].tenant && (!Open(rows[i]) ==> !Open(next[i]))
  }

  ghost predicate Inv(s: System) {
    && AtMostOneOpen(s.rows, TENANT)
    && s.resumes + s.resumePosts + (if s.checkDue then 1 else 0) <= s.restarts
  }

  /** Every statement keeps the single open row; a start closes whatever was open. */
  lemma {:induction false} ExecuteKeeps(rows: seq<Row>, st: Statement, now: nat)
    requires AtMostOneOpen(rows, TENANT)
    ensures AtMostOneOpen(Execute(rows, TENANT, st, now), TENANT)
    ensures NeverReopens(rows, Execute(rows, TENANT, st, now))
  {
    hide Map;
    var next := Execute(rows, TENANT, st, now);
    forall i | 0 <= i < |rows| ensures next[i] == Rewritten(rows[i], TENANT, st, now) {}
    hide Execute, Rewrite;
    forall i, j | 0 <= i < j < |next| ensures !(OpenFor(next[i], TENANT) && OpenFor(next[j], TENANT)) {
      if j < |rows| {
        assert !(OpenFor(rows[i], TENANT) && OpenFor(rows[j], TENANT));
      }
    }
  }

  lemma {:induction false} AttemptKeeps(s: System, st: Statement, ok: bool)
    requires AtMostOneOpen(s.rows, TENANT)
    ensures AtMostOneOpen(Attempt(s, st, ok), TENANT) && NeverReopens(s.rows, Attempt(s, st, ok))
  {
    hide Execute, AtMostOneOpen, NeverReopens;
    ExecuteKeeps(s.rows, st, s.now + 1);
    NothingReopened(s.rows);
  }

  lemma {:induction false} NothingReopened(rows: seq<Row>)
    ensures NeverReopens(rows, rows)
  {
  }

  lemma {:induction false} StepKeepsInv(s: System, e: Event)
    requires Inv(s) && Enabled(s, e)
    ensures Inv(Step(s, e)) && NeverReopens(s.rows, Step(s, e).rows)
  {
    hide Attempt, AtMostOneOpen, NeverReopens, HasCandidate;
    NothingReopened(s.rows);
    match e {
      case PostAbandon(q, ok) => AttemptKeeps(s, Abandoning("superseded by new run"), ok);
      case PostStart(q, ok) => AttemptKeeps(s, Starting(q.jobId), ok);
      case WorkerUpdate(w, stage, ok) => AttemptKeeps(s, Updating(w.jobId, stage), ok);
      case WorkerFinish(w, end, ok) => AttemptKeeps(s, Finishing(w.jobId, end), ok);
      case ResetAbandon(ok) => AttemptKeeps(s, Abandoning("reset by user"), ok);
      case Restart(ok) => AttemptKeeps(s, Interrupting("service restarted"), ok);
      case Post(jobId, resume) =>
      case WorkerChecksGeneration(w) =>
      case WorkerLeaves(w) =>
      case ResetBump =>
      case Crash =>
      case ResumeCheck(ok) =>
    }
  }

  ghost predicate Runs(s: System, events: seq<Event>, t: System)
    decreases |events|
  {
    if events == [] then s == t
    else Enabled(s, events[0]) && Runs(Step(s, events[0]), events[1..], t)
  }

  /** Over every interleaving of requests, workers, resets, failed statements, crashes and
      restarts: a closed row is never reopened. */
  lemma {:induction false} RunsKeepInv(s: System, events: seq<Event>, t: System)
    requires Inv(s) && Runs(s, events, t)
    ensures Inv(t) && NeverReopens(s.rows, t.rows)
    decreases |events|
  {
    hide Step, Enabled, Inv;
    if events != [] {
      StepKeepsInv(s, events[0]);
      RunsKeepInv(Step(s, events[0]), events[1..], t);
    }
  }

  /** A tenant never has two open checkpoints, and automatic resumes never outnumber
      restarts. */
  lemma {:induction false} OneOpenCheckpoint(events: seq<Event>, s: System)
    requires Runs(Start, events, s)
    ensures AtMostOneOpen(s.rows, TENANT)
    ensures s.resumes <= s.restarts
  {
    RunsKeepInv(Start, events, s);
  }

  /** The restart resumes exactly what was open: after mark_interrupted the check finds a
      row if and only if some row was open before, it is that row, and the pull it triggers
      leaves nothing to resume. */
  lemma {:induction false} ResumePrecisely(events: seq<Event>, s: System, jobId: string, now: nat)
    requires Runs(Start, events, s) && !s.up
    ensures var marked := Step(s, Restart(true)).rows;
      && |marked| == |s.rows|
      && (forall i :: 0 <= i < |marked| ==> (Candidate(marked[i], TENANT) <==> OpenFor(s.rows[i], TENANT)))
      && (forall i, j :: 0 <= i < j < |marked| ==> !(Candidate(marked[i], TENANT) && Candidate(marked[j], TENANT)))
      && !HasCandidate(Execute(marked, TENANT, Starting(jobId), now), TENANT)
  {
    RunsKeepInv(Start, events, s);
    var marked := Step(s, Restart(true)).rows;
    assert forall i :: 0 <= i < |marked| ==> (Candidate(marked[i], TENANT) <==> OpenFor(s.rows[i], TENANT));
  }
}
