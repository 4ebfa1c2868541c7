/**
`process_jobs` and `create_tasks`: for each handler in turn the allowlist is asked and then one
task is created for each of the handler's jobs.  The answers of the outside world are in the turns.
*/
module JobProcessing {
  import opened JobMatching
  import opened Options

  /** `create` is the answer of pre_check and the deployment; `feedback` are the times of the statuses set. */
  datatype Task = Task(job: Job, create: bool, feedback: seq<int>)

  /**
   What happens for one handler: `allowed` is the verdict of the allowlist, and `latest` the answer
   of the query for the latest pipeline, if the event has a database row.
   */
  datatype Turn = Turn(handler: Handler, allowed: bool, latest: Option<Option<int>>, tasks: seq<Task>)

  /** A task sent to Celery carries the event with the two times it had then. */
  datatype Signature = Signature(handler: Handler, job: Job, cutoff: Option<int>, accepted: Option<int>)

  datatype TaskResult = TaskResult(success: bool, job: Job)

  // ---- create_tasks ----

  function Accept(accepted: Option<int>, statuses: seq<int>): Option<int> {
    if accepted.None? && statuses != [] then Some(statuses[0]) else accepted
  }

  /** The event's time of acceptance, all statuses so far, and the signatures of one turn. */
  datatype Progress = Progress(accepted: Option<int>, statuses: seq<int>, signatures: seq<Signature>)

  function Create(p: Progress, handler: Handler, cutoff: Option<int>, task: Task): Progress {
    if !task.create then p else
      var statuses := p.statuses + task.feedback;
      var accepted := Accept(p.accepted, statuses);
      Progress(accepted, statuses, p.signatures + [Signature(handler, task.job, cutoff, accepted)])
  }

  function CreateAll(p: Progress, handler: Handler, cutoff: Option<int>, tasks: seq<Task>): Progress {
    if tasks == [] then p
    else Create(CreateAll(p, handler, cutoff, tasks[..|tasks| - 1]), handler, cutoff, tasks[|tasks| - 1])
  }

  function CutoffOf(turn: Turn, before: Option<int>): Option<int> {
    if turn.latest.Some? then turn.latest.value else before
  }

  function Succeeded(signatures: seq<Signature>): seq<TaskResult> {
    if signatures == [] then []
    else Succeeded(signatures[..|signatures| - 1]) + [TaskResult(true, signatures[|signatures| - 1].job)]
  }

  function Refused(tasks: seq<Task>): (results: seq<TaskResult>)
    ensures |results| == |tasks| && forall n | 0 <= n < |tasks| :: results[n] == TaskResult(false, tasks[n].job)
  {
    if tasks == [] then [] else Refused(tasks[..|tasks| - 1]) + [TaskResult(false, tasks[|tasks| - 1].job)]
  }

  // ---- process_jobs ----

  /** What has been done after some turns: the times of the event, and what was sent and recorded. */
  datatype Outcome = Outcome(
    cutoff: Option<int>, accepted: Option<int>, statuses: seq<int>, sent: seq<Signature>, results: seq<TaskResult>)

  function TakeTurn(o: Outcome, turn: Turn): Outcome {
    var cutoff := CutoffOf(turn, o.cutoff);
    var p := CreateAll(Progress(o.accepted, o.statuses, []), turn.handler, cutoff, turn.tasks);
    Outcome(cutoff, p.accepted, p.statuses, o.sent + p.signatures, o.results + Succeeded(p.signatures))
  }

  function TakeTurns(o: Outcome, turns: seq<Turn>): Outcome {
    if turns == [] then o else TakeTurn(TakeTurns(o, turns[..|turns| - 1]), turns[|turns| - 1])
  }

  /** How many handlers have their turn before the allowlist refuses one. */
  function AllowedTurns(turns: seq<Turn>): (n: nat)
    ensures n <= |turns| && (n < |turns| ==> !turns[n].allowed)
    ensures forall i | 0 <= i < n :: turns[i].allowed
  {
    if turns == [] || !turns[0].allowed then 0 else 1 + AllowedTurns(turns[1..])
  }

  class SteveJobs {
    var cancelCutoffTime: Option<int>
    var taskAcceptedTime: Option<int>
    /** statuses_check_feedback */
    var statuses: seq<int>
    /** What Celery has been given. */
    var sent: seq<Signature>

    method CreateTasks(turn: Turn) returns (processingResults: seq<TaskResult>)
      modifies this
      ensures var p := CreateAll(Progress(old(taskAcceptedTime), old(statuses), []), turn.handler, cancelCutoffTime, turn.tasks);
              && taskAcceptedTime == p.accepted && statuses == p.statuses
              && sent == old(sent) + p.signatures && processingResults == Succeeded(p.signatures)
      ensures cancelCutoffTime == CutoffOf(turn, old(cancelCutoffTime))
    {
      processingResults := [];
      var signatures := [];
      if turn.latest.Some? {
        cancelCutoffTime := turn.latest.value;
      }
      ghost var cutoff := cancelCutoffTime;
      ghost var start := Progress(old(taskAcceptedTime), old(statuses), []);
      for n := 0 to |turn.tasks|
        invariant cancelCutoffTime == cutoff && sent == old(sent)
        invariant CreateAll(start, turn.handler, cutoff, turn.tasks[..n]) == Progress(taskAcceptedTime, statuses, signatures)
        invariant processingResults == Succeeded(signatures)
      {
        assert turn.tasks[..n + 1][..n] == turn.tasks[..n];
        var task := turn.tasks[n];
        if task.create {
          statuses := statuses + task.feedback;
          if taskAcceptedTime.None? && statuses != [] {
            taskAcceptedTime := Some(statuses[0]);
          }
          signatures := signatures + [Signature(turn.handler, task.job, cancelCutoffTime, taskAcceptedTime)];
          processingResults := processingResults + [TaskResult(true, task.job)];
        }
      }
      assert turn.tasks[..|turn.tasks|] == turn.tasks;
      sent := sent + signatures;
    }

    method ProcessJobs(turns: seq<Turn>) returns (results: seq<TaskResult>)
      modifies this
      ensures var n := AllowedTurns(turns);
              var o := TakeTurns(Outcome(old(cancelCutoffTime), old(taskAcceptedTime), [], old(sent), []), turns[..n]);
              && cancelCutoffTime == o.cutoff && taskAcceptedTime == o.accepted && sent == o.sent
              && results == if n < |turns| then Refused(turns[n].tasks) else o.results
    {
      ghost var start := Outcome(cancelCutoffTime, taskAcceptedTime, [], sent, []);
      results := [];
      statuses := [];
      for n := 0 to |turns|
        invariant n <= AllowedTurns(turns)
        invariant TakeTurns(start, turns[..n]) == Outcome(cancelCutoffTime, taskAcceptedTime, statuses, sent, results)
      {
        assert turns[..n + 1][..n] == turns[..n];
        if !turns[n].allowed {
          assert n == AllowedTurns(turns);
          results := Refused(turns[n].tasks);
          return;
        }
        assert n < AllowedTurns(turns);
        var created := CreateTasks(turns[n]);
        results := results + created;
      }
      assert turns[..|turns|] == turns;
    }
  }

  // ---- What is sent and what is recorded ----

  function SentIn(turn: Turn): seq<Job> {
    Created(turn.tasks)
  }

  /** The jobs of the tasks that are created, in order. */
  function Created(tasks: seq<Task>): seq<Job> {
    if tasks == [] then []
    else Created(tasks[..|tasks| - 1]) + if tasks[|tasks| - 1].create then [tasks[|tasks| - 1].job] else []
  }

  function JobsOf(signatures: seq<Signature>): seq<Job> {
    if signatures == [] then [] else JobsOf(signatures[..|signatures| - 1]) + [signatures[|signatures| - 1].job]
  }

  function CreatedInAll(turns: seq<Turn>): seq<Job> {
    if turns == [] then [] else CreatedInAll(turns[..|turns| - 1]) + SentIn(turns[|turns| - 1])
  }

  lemma {:induction false} JobsOfConcat(a: seq<Signature>, b: seq<Signature>)
    ensures JobsOf(a + b) == JobsOf(a) + JobsOf(b)
  {
    if b == [] {
      assert a + b == a;
    } else {
      assert (a + b)[..|a + b| - 1] == a + b[..|b| - 1];
      JobsOfConcat(a, b[..|b| - 1]);
    }
  }

  lemma {:induction false} SucceededConcat(a: seq<Signature>, b: seq<Signature>)
    ensures Succeeded(a + b) == Succeeded(a) + Succeeded(b)
  {
    if b == [] {
      assert a + b == a;
    } else {
      assert (a + b)[..|a + b| - 1] == a + b[..|b| - 1];
      SucceededConcat(a, b[..|b| - 1]);
    }
  }

  lemma {:induction false} CreateAllSendsTheCreated(p: Progress, handler: Handler, cutoff: Option<int>, tasks: seq<Task>)
    ensures JobsOf(CreateAll(p, handler, cutoff, tasks).signatures) == JobsOf(p.signatures) + Created(tasks)
  {
    if tasks != [] {
      CreateAllSendsTheCreated(p, handler, cutoff, tasks[..|tasks| - 1]);
      var before := CreateAll(p, handler, cutoff, tasks[..|tasks| - 1]);
      var after := CreateAll(p, handler, cutoff, tasks);
      if tasks[|tasks| - 1].create {
        assert after.signatures[..|after.signatures| - 1] == before.signatures;
      }
    }
  }

  /** One turn more sends what its tasks create, and reports just that. */
  lemma {:induction false} TurnPairsWithTasks(before: Outcome, turn: Turn)
    requires before.results == Succeeded(before.sent)
    ensures var cutoff := CutoffOf(turn, before.cutoff);
            var p := CreateAll(Progress(before.accepted, before.statuses, []), turn.handler, cutoff, turn.tasks);
            && before.results + Succeeded(p.signatures) == Succeeded(before.sent + p.signatures)
            && JobsOf(before.sent + p.signatures) == JobsOf(before.sent) + SentIn(turn)
  {
    hide CreateAll, CutoffOf, Succeeded, Created;
    var start, cutoff := Progress(before.accepted, before.statuses, []), CutoffOf(turn, before.cutoff);
    var p := CreateAll(start, turn.handler, cutoff, turn.tasks);
    CreateAllSendsTheCreated(start, turn.handler, cutoff, turn.tasks);
    SucceededConcat(before.sent, p.signatures);
    JobsOfConcat(before.sent, p.signatures);
  }

  /** Results pair one to one with what is sent: the n-th says that a task for the n-th job was created. */
  lemma {:induction false} ResultsPairWithTasks(o: Outcome, turns: seq<Turn>)
    requires o.results == Succeeded(o.sent)
    ensures var after := TakeTurns(o, turns);
            after.results == Succeeded(after.sent) && JobsOf(after.sent) == JobsOf(o.sent) + CreatedInAll(turns)
  {
    hide CreateAll, CutoffOf, Succeeded, JobsOf, SentIn;
    if turns != [] {
      var rest, turn := turns[..|turns| - 1], turns[|turns| - 1];
      ResultsPairWithTasks(o, rest);
      TurnPairsWithTasks(TakeTurns(o, rest), turn);
      Regrouped(JobsOf(o.sent), CreatedInAll(rest), SentIn(turn));
    }
  }

  lemma Regrouped(a: seq<Job>, b: seq<Job>, c: seq<Job>)
    ensures a + b + c == a + (b + c)
  {
  }

  lemma {:induction false} SucceededAt(signatures: seq<Signature>)
    ensures |Succeeded(signatures)| == |signatures|
    ensures forall n | 0 <= n < |signatures| :: Succeeded(signatures)[n] == TaskResult(true, signatures[n].job)
  {
    if signatures != [] {
      SucceededAt(signatures[..|signatures| - 1]);
    }
  }

  /** The turns of `process_jobs`: all matching handlers in some order, each with the jobs it gets. */
  ghost predicate TurnsOf(
    turns: seq<Turn>, tables: Tables, jobs: seq<Job>, supported: set<Handler>, allowed: Option<set<Handler>>)
  {
    && (forall handler: Handler | IsMatching(tables, jobs, supported, allowed, handler) ::
          exists n :: 0 <= n < |turns| && turns[n].handler == handler)
    && (forall m, n | 0 <= m < n < |turns| :: turns[m].handler != turns[n].handler)
    && (forall n | 0 <= n < |turns| ::
          && IsMatching(tables, jobs, supported, allowed, turns[n].handler)
          && |turns[n].tasks| == |ConfigsFor(tables, jobs, turns[n].handler)|
          && forall k | 0 <= k < |turns[n].tasks| :: turns[n].tasks[k].job == ConfigsFor(tables, jobs, turns[n].handler)[k])
  }

  /** What `ProcessJobs` leaves and returns for an event that has just arrived. */
  function Processed(turns: seq<Turn>): (seq<Signature>, seq<TaskResult>) {
    var n := AllowedTurns(turns);
    var o := TakeTurns(Outcome(None, None, [], [], []), turns[..n]);
    (o.sent, if n < |turns| then Refused(turns[n].tasks) else o.results)
  }

  /** An event the allowlist refuses sends nothing, and is recorded as failing if any handler matches. */
  lemma {:induction false} RefusedEventSendsNothing(
    turns: seq<Turn>, tables: Tables, jobs: seq<Job>, supported: set<Handler>, allowed: Option<set<Handler>>)
    requires TurnsOf(turns, tables, jobs, supported, allowed)
    requires forall n | 0 <= n < |turns| :: !turns[n].allowed
    ensures var (sent, results) := Processed(turns);
            && sent == [] && (forall n | 0 <= n < |results| :: !results[n].success)
            && ((exists handler: Handler :: IsMatching(tables, jobs, supported, allowed, handler)) <==> results != [])
  {
  }

  /** An event that is allowed throughout: exactly the created tasks are sent, each with its result. */
  lemma {:induction false} AllowedEventPairsResults(turns: seq<Turn>)
    requires forall n | 0 <= n < |turns| :: turns[n].allowed
    ensures var (sent, results) := Processed(turns);
            && JobsOf(sent) == CreatedInAll(turns) && |results| == |sent|
            && forall n | 0 <= n < |sent| :: results[n] == TaskResult(true, sent[n].job)
  {
    assert turns[..|turns|] == turns;
    ResultsPairWithTasks(Outcome(None, None, [], [], []), turns);
    SucceededAt(Processed(turns).0);
  }

  /** When a later handler is refused, what was sent for the earlier ones stays sent but is not reported. */
  lemma {:induction false} LateRefusalHidesWhatWasSent(turns: seq<Turn>)
    requires AllowedTurns(turns) < |turns|
    ensures var (sent, results) := Processed(turns);
            && JobsOf(sent) == CreatedInAll(turns[..AllowedTurns(turns)])
            && |results| == |turns[AllowedTurns(turns)].tasks| && forall n | 0 <= n < |results| :: !results[n].success
  {
    ResultsPairWithTasks(Outcome(None, None, [], [], []), turns[..AllowedTurns(turns)]);
  }

  // ---- The two times ----

  /** All signatures that carry a time of acceptance carry the same, which is the event's from then on. */
  ghost predicate OneAcceptance(accepted: Option<int>, sent: seq<Signature>) {
    forall n | 0 <= n < |sent| && sent[n].accepted.Some? :: sent[n].accepted == accepted
  }

  lemma {:induction false} CreateAllKeepsOneAcceptance(p: Progress, handler: Handler, cutoff: Option<int>, tasks: seq<Task>)
    requires OneAcceptance(p.accepted, p.signatures)
    ensures var after := CreateAll(p, handler, cutoff, tasks);
            && OneAcceptance(after.accepted, after.signatures) && p.statuses <= after.statuses
            && (p.accepted.Some? ==> after.accepted == p.accepted)
            && (forall n | |p.signatures| <= n < |after.signatures| :: after.signatures[n].cutoff == cutoff)
            && p.signatures <= after.signatures
            && (p.accepted == Accept(None, p.statuses) ==> after.accepted == Accept(None, after.statuses))
  {
    if tasks != [] {
      CreateAllKeepsOneAcceptance(p, handler, cutoff, tasks[..|tasks| - 1]);
    }
  }

  /** The time of acceptance is that of the first status, and never changes once a task carries it. */
  lemma {:induction false} AcceptanceIsTheFirstStatus(turns: seq<Turn>)
    ensures var o := TakeTurns(Outcome(None, None, [], [], []), turns);
            OneAcceptance(o.accepted, o.sent) && o.accepted == if o.statuses == [] then None else Some(o.statuses[0])
  {
    if turns != [] {
      var rest, turn := turns[..|turns| - 1], turns[|turns| - 1];
      AcceptanceIsTheFirstStatus(rest);
      var before := TakeTurns(Outcome(None, None, [], [], []), rest);
      var start, cutoff := Progress(before.accepted, before.statuses, []), CutoffOf(turn, before.cutoff);
      CreateAllKeepsOneAcceptance(start, turn.handler, cutoff, turn.tasks);
    }
  }

  // ---- What each task carries ----

  /**
  The tasks of one turn: `created` are the positions of those that pass their checks.  Each is sent
  with the handler, its own job and the cutoff of the turn; with the event's time of acceptance, if
  it has one already, or else with the first status set until then, if there is one.
  */
  ghost predicate SentAsCreated(
    before: Progress, after: Progress, handler: Handler, cutoff: Option<int>, tasks: seq<Task>, created: seq<int>)
  {
    && Picks(tasks, created)
    && before.signatures <= after.signatures && |after.signatures| == |before.signatures| + |created|
    && (forall n | |before.signatures| <= n < |after.signatures| ::
          SentAs(before, after.statuses, handler, cutoff, tasks, created, n - |before.signatures|, after.signatures[n]))
    && after.accepted == (if created == [] then before.accepted else after.signatures[|after.signatures| - 1].accepted)
    && StatusesAre(before, after.statuses, tasks, created)
  }

  /** No status has been set by the event or by the tasks up to `m`. */
  predicate Quiet(before: Progress, tasks: seq<Task>, created: seq<int>, m: int)
    requires m < |created| && forall l | 0 <= l <= m :: 0 <= created[l] < |tasks|
  {
    before.statuses == [] && forall l | 0 <= l <= m :: tasks[created[l]].feedback == []
  }

  ghost predicate SentAs(
    before: Progress, statuses: seq<int>, handler: Handler, cutoff: Option<int>, tasks: seq<Task>, created: seq<int>, m: int,
    signature: Signature)
    requires Picks(tasks, created) && 0 <= m < |created|
  {
    && signature.handler == handler && signature.job == tasks[created[m]].job && signature.cutoff == cutoff
    && if before.accepted.Some? then signature.accepted == before.accepted
       else if Quiet(before, tasks, created, m) then signature.accepted == None
       else statuses != [] && signature.accepted == Some(statuses[0])
  }

  /** The statuses set are the old ones and then those of the tasks that were created. */
  ghost predicate StatusesAre(before: Progress, statuses: seq<int>, tasks: seq<Task>, created: seq<int>)
    requires Picks(tasks, created)
  {
    && before.statuses <= statuses && (created == [] ==> statuses == before.statuses)
    && (forall x :: x in statuses <==> x in before.statuses || FedBack(tasks, created, x))
  }

  ghost predicate FedBack(tasks: seq<Task>, created: seq<int>, x: int)
    requires Picks(tasks, created)
  {
    exists m | 0 <= m < |created| :: x in tasks[created[m]].feedback
  }

  /** The positions of the tasks that pass their checks, in order. */
  ghost predicate Picks(tasks: seq<Task>, created: seq<int>) {
    && (forall m | 0 <= m < |created| :: 0 <= created[m] < |tasks| && tasks[created[m]].create)
    && (forall k | 0 <= k < |tasks| && tasks[k].create :: k in created)
    && (forall m, n | 0 <= m < n < |created| :: created[m] < created[n])
  }

  lemma {:induction false} TasksAreSentAsCreated(p: Progress, handler: Handler, cutoff: Option<int>, tasks: seq<Task>)
    returns (created: seq<int>)
    ensures SentAsCreated(p, CreateAll(p, handler, cutoff, tasks), handler, cutoff, tasks, created)
  {
    if tasks == [] {
      created := [];
      NothingIsSent(p, handler, cutoff);
      hide SentAsCreated;
    } else {
      hide SentAsCreated, Create;
      var rest, task := tasks[..|tasks| - 1], tasks[|tasks| - 1];
      var before := TasksAreSentAsCreated(p, handler, cutoff, rest);
      OneMoreIsSent(p, CreateAll(p, handler, cutoff, rest), handler, cutoff, rest, before, task);
      assert rest + [task] == tasks;
      created := if task.create then before + [|rest|] else before;
    }
  }

  lemma NothingIsSent(p: Progress, handler: Handler, cutoff: Option<int>)
    ensures SentAsCreated(p, p, handler, cutoff, [], [])
  {
    assert Picks([], []);
  }

  lemma {:induction false} OneMoreIsSent(
    before: Progress, now: Progress, handler: Handler, cutoff: Option<int>, rest: seq<Task>, created: seq<int>, task: Task)
    requires SentAsCreated(before, now, handler, cutoff, rest, created)
    ensures SentAsCreated(before, Create(now, handler, cutoff, task), handler, cutoff, rest + [task],
                          if task.create then created + [|rest|] else created)
  {
    hide StatusesAre, SentAs, Picks, Accept;
    OneMoreIsPicked(rest, created, task);
    StatusesGrow(before, now.statuses, rest, created, task);
    OldOnesStay(before, now, handler, cutoff, rest, created, task);
    if task.create {
      TheNewOneIsSent(before, now, handler, cutoff, rest, created, task);
      OneSignatureMore(before, now, handler, cutoff, rest, created, task);
    }
  }

  lemma OldOnesStay(
    before: Progress, now: Progress, handler: Handler, cutoff: Option<int>, rest: seq<Task>, created: seq<int>, task: Task)
    requires SentAsCreated(before, now, handler, cutoff, rest, created)
    requires Picks(rest + [task], if task.create then created + [|rest|] else created)
    ensures forall n | |before.signatures| <= n < |now.signatures| ::
              SentAs(before, if task.create then now.statuses + task.feedback else now.statuses, handler, cutoff, rest + [task],
                     if task.create then created + [|rest|] else created, n - |before.signatures|, now.signatures[n])
  {
    hide StatusesAre, SentAs, Picks;
    forall n | |before.signatures| <= n < |now.signatures|
      ensures SentAs(before, if task.create then now.statuses + task.feedback else now.statuses, handler, cutoff, rest + [task],
                     if task.create then created + [|rest|] else created, n - |before.signatures|, now.signatures[n])
    {
      SentStays(before, now.statuses, handler, cutoff, rest, created, task, n - |before.signatures|, now.signatures[n]);
    }
  }

  lemma OneSignatureMore(
    before: Progress, now: Progress, handler: Handler, cutoff: Option<int>, rest: seq<Task>, created: seq<int>, task: Task)
    requires task.create && before.signatures <= now.signatures && |now.signatures| == |before.signatures| + |created|
    requires Picks(rest + [task], created + [|rest|])
    requires StatusesAre(before, now.statuses + task.feedback, rest + [task], created + [|rest|])
    requires forall n | |before.signatures| <= n < |now.signatures| ::
               SentAs(before, now.statuses + task.feedback, handler, cutoff, rest + [task], created + [|rest|],
                      n - |before.signatures|, now.signatures[n])
    requires var after := Create(now, handler, cutoff, task);
             SentAs(before, after.statuses, handler, cutoff, rest + [task], created + [|rest|], |created|,
                    after.signatures[|after.signatures| - 1])
    ensures SentAsCreated(before, Create(now, handler, cutoff, task), handler, cutoff, rest + [task], created + [|rest|])
  {
    hide StatusesAre, SentAs, Picks, Accept;
    var after := Create(now, handler, cutoff, task);
    assert forall n | 0 <= n < |now.signatures| :: after.signatures[n] == now.signatures[n];
  }

  lemma StatusesGrow(before: Progress, statuses: seq<int>, rest: seq<Task>, created: seq<int>, task: Task)
    requires Picks(rest, created) && StatusesAre(before, statuses, rest, created)
    ensures var more := if task.create then created + [|rest|] else created;
            && Picks(rest + [task], more)
            && StatusesAre(before, if task.create then statuses + task.feedback else statuses, rest + [task], more)
  {
    OneMoreIsPicked(rest, created, task);
    var tasks := rest + [task];
    var more := if task.create then created + [|rest|] else created;
    var after := if task.create then statuses + task.feedback else statuses;
    forall x ensures x in after <==> x in before.statuses || FedBack(tasks, more, x) {
      StatusGrows(rest, created, task, x);
      assert x in statuses <==> x in before.statuses || FedBack(rest, created, x);
      hide FedBack, Picks;
    }
    hide Picks, FedBack;
  }

  /** A status is fed back by the tasks created exactly when it was before, or the new one is created and sets it. */
  lemma StatusGrows(rest: seq<Task>, created: seq<int>, task: Task, x: int)
    requires Picks(rest, created)
    ensures var tasks, more := rest + [task], if task.create then created + [|rest|] else created;
            && Picks(tasks, more)
            && (FedBack(tasks, more, x) <==> FedBack(rest, created, x) || (task.create && x in task.feedback))
  {
    hide Picks;
    OneMoreIsPicked(rest, created, task);
    PicksAreInRange(rest, created);
    var tasks, more := rest + [task], if task.create then created + [|rest|] else created;
    PicksAreInRange(tasks, more);
    if m :| 0 <= m < |created| && x in rest[created[m]].feedback {
      assert more[m] == created[m] && tasks[more[m]] == rest[created[m]];
    }
    if task.create {
      assert more[|created|] == |rest| && tasks[|rest|] == task;
    }
    if m :| 0 <= m < |more| && x in tasks[more[m]].feedback {
      assert m < |created| ==> tasks[more[m]] == rest[created[m]];
    }
  }

  lemma PicksAreInRange(tasks: seq<Task>, created: seq<int>)
    requires Picks(tasks, created)
    ensures forall m | 0 <= m < |created| :: 0 <= created[m] < |tasks|
  {
  }

  lemma SentStays(
    before: Progress, statuses: seq<int>, handler: Handler, cutoff: Option<int>, rest: seq<Task>, created: seq<int>, task: Task,
    m: int, signature: Signature)
    requires Picks(rest, created) && 0 <= m < |created|
    requires SentAs(before, statuses, handler, cutoff, rest, created, m, signature)
    ensures var more := if task.create then created + [|rest|] else created;
            && Picks(rest + [task], more)
            && SentAs(before, if task.create then statuses + task.feedback else statuses, handler, cutoff, rest + [task], more, m, signature)
  {
    OneMoreIsPicked(rest, created, task);
    var tasks := rest + [task];
    var more := if task.create then created + [|rest|] else created;
    QuietStays(before, rest, created, tasks, more, m);
    hide Picks, Quiet;
  }

  lemma QuietStays(before: Progress, rest: seq<Task>, created: seq<int>, tasks: seq<Task>, more: seq<int>, m: int)
    requires 0 <= m < |created| && created <= more && rest <= tasks
    requires forall l | 0 <= l < |created| :: 0 <= created[l] < |rest|
    ensures tasks[more[m]] == rest[created[m]] && (Quiet(before, tasks, more, m) <==> Quiet(before, rest, created, m))
  {
    assert forall l | 0 <= l < |created| :: more[l] == created[l] && tasks[more[l]] == rest[created[l]];
  }

  lemma NoElements(xs: seq<int>)
    requires forall x :: x !in xs
    ensures xs == []
  {
    var x := if xs == [] then 0 else xs[0];
    assert xs == [] || x in xs;
  }

  /** The first status so far, seen before the task that comes next. */
  lemma AcceptedSoFar(
    before: Progress, now: Progress, handler: Handler, cutoff: Option<int>, rest: seq<Task>, created: seq<int>)
    requires SentAsCreated(before, now, handler, cutoff, rest, created) && before.accepted.None?
    ensures now.accepted.Some? ==> now.statuses != [] && now.accepted == Some(now.statuses[0])
    ensures now.accepted.None? && created != [] ==>
              now.statuses == [] && before.statuses == [] && forall l | 0 <= l < |created| :: rest[created[l]].feedback == []
    ensures now.accepted.Some? && created != [] ==>
              !(before.statuses == [] && forall l | 0 <= l < |created| :: rest[created[l]].feedback == [])
    ensures created == [] ==> now.accepted == None && now.statuses == before.statuses
  {
    if created != [] {
      var n := |now.signatures| - 1;
      assert SentAs(before, now.statuses, handler, cutoff, rest, created, n - |before.signatures|, now.signatures[n]);
      if now.accepted.None? {
        assert forall x :: x !in now.statuses;
        NoElements(now.statuses);
      }
    }
  }

  lemma QuietExtends(before: Progress, rest: seq<Task>, created: seq<int>, task: Task)
    requires forall l | 0 <= l < |created| :: 0 <= created[l] < |rest|
    ensures Quiet(before, rest + [task], created + [|rest|], |created|) <==>
            before.statuses == [] && task.feedback == [] && forall l | 0 <= l < |created| :: rest[created[l]].feedback == []
  {
    var tasks, more := rest + [task], created + [|rest|];
    assert more[|created|] == |rest| && tasks[|rest|] == task;
    assert forall l | 0 <= l < |created| :: more[l] == created[l] && tasks[more[l]] == rest[created[l]];
  }

  lemma TheNewOneIsSent(
    before: Progress, now: Progress, handler: Handler, cutoff: Option<int>, rest: seq<Task>, created: seq<int>, task: Task)
    requires SentAsCreated(before, now, handler, cutoff, rest, created) && task.create
    ensures var after, more := Create(now, handler, cutoff, task), created + [|rest|];
            && Picks(rest + [task], more)
            && SentAs(before, after.statuses, handler, cutoff, rest + [task], more, |created|, after.signatures[|after.signatures| - 1])
  {
    OneMoreIsPicked(rest, created, task);
    assert Picks(rest, created);
    QuietExtends(before, rest, created, task);
    if before.accepted.None? {
      AcceptedSoFar(before, now, handler, cutoff, rest, created);
    } else {
      AcceptedBefore(before, now, handler, cutoff, rest, created);
    }
    assert forall l | 0 <= l < |created| :: 0 <= created[l] < |rest|;
    var silent := forall l | 0 <= l < |created| :: rest[created[l]].feedback == [];
    hide SentAsCreated, StatusesAre, SentAs, Create, Quiet;
    NewSignature(before, now, handler, cutoff, rest, created, task, silent);
  }

  /** The signature that is added, given what is known of the ones before it. */
  lemma NewSignature(
    before: Progress, now: Progress, handler: Handler, cutoff: Option<int>, rest: seq<Task>, created: seq<int>, task: Task,
    silent: bool)
    requires task.create && Picks(rest + [task], created + [|rest|])
    requires Quiet(before, rest + [task], created + [|rest|], |created|) <==> before.statuses == [] && task.feedback == [] && silent
    requires before.accepted.Some? ==> now.accepted == before.accepted
    requires before.accepted.None? ==>
               && (now.accepted.Some? ==> now.statuses != [] && now.accepted == Some(now.statuses[0]) && created != [] && !(before.statuses == [] && silent))
               && (now.accepted.None? && created != [] ==> now.statuses == [] && before.statuses == [] && silent)
               && (created == [] ==> now.accepted == None && now.statuses == before.statuses && silent)
    ensures var after, more := Create(now, handler, cutoff, task), created + [|rest|];
            SentAs(before, after.statuses, handler, cutoff, rest + [task], more, |created|, after.signatures[|after.signatures| - 1])
  {
    hide Picks, Quiet;
    assert (rest + [task])[|rest|] == task && (created + [|rest|])[|created|] == |rest|;
  }

  lemma AcceptedBefore(
    before: Progress, now: Progress, handler: Handler, cutoff: Option<int>, rest: seq<Task>, created: seq<int>)
    requires SentAsCreated(before, now, handler, cutoff, rest, created) && before.accepted.Some?
    ensures now.accepted == before.accepted
  {
    if created != [] {
      var n := |now.signatures| - 1;
      assert SentAs(before, now.statuses, handler, cutoff, rest, created, n - |before.signatures|, now.signatures[n]);
    }
  }

  lemma OneMoreIsPicked(rest: seq<Task>, created: seq<int>, task: Task)
    requires Picks(rest, created)
    ensures Picks(rest + [task], if task.create then created + [|rest|] else created)
  {
    var tasks, more := rest + [task], if task.create then created + [|rest|] else created;
    forall m | 0 <= m < |more| ensures 0 <= more[m] < |tasks| && tasks[more[m]].create {
      assert m < |created| ==> more[m] == created[m] && tasks[created[m]] == rest[created[m]];
    }
    forall k | 0 <= k < |tasks| && tasks[k].create ensures k in more {
      assert k < |rest| ==> tasks[k] == rest[k] && k in created;
      assert k == |rest| ==> task.create && more[|created|] == k;
    }
    forall m, n | 0 <= m < n < |more| ensures more[m] < more[n] {
      assert more[m] == created[m] && (n < |created| ==> more[n] == created[n]);
    }
  }

  /** The handler, job and cutoff of a task that was sent, found in the turn that sent it. */
  ghost predicate CarriesItsTurn(turns: seq<Turn>, signature: Signature) {
    exists n, k | 0 <= n < |turns| && 0 <= k < |turns[n].tasks| ::
      && turns[n].tasks[k].create && signature.job == turns[n].tasks[k].job && signature.handler == turns[n].handler
      && LatestRead(turns, n + 1, signature.cutoff)
  }

  /** `cutoff` is the latest pipeline datetime read in the first `n` turns, the last reading counting; null without one. */
  ghost predicate LatestRead(turns: seq<Turn>, n: int, cutoff: Option<int>)
    requires 0 <= n <= |turns|
  {
    || (cutoff == None && forall m | 0 <= m < n :: turns[m].latest.None?)
    || (exists m | 0 <= m < n :: turns[m].latest == Some(cutoff) && forall l | m < l < n :: turns[l].latest.None?)
  }

  /** What one event sends: every task carries its turn's handler, its job and the cutoff read last. */
  lemma {:induction false} EveryTaskCarriesItsTurn(turns: seq<Turn>)
    ensures var o := TakeTurns(Outcome(None, None, [], [], []), turns);
            && LatestRead(turns, |turns|, o.cutoff)
            && forall k | 0 <= k < |o.sent| :: CarriesItsTurn(turns, o.sent[k])
  {
    if turns != [] {
      var rest, turn := turns[..|turns| - 1], turns[|turns| - 1];
      var before := TakeTurns(Outcome(None, None, [], [], []), rest);
      EveryTaskCarriesItsTurn(rest);
      LatestReadExtends(rest, turn, before.cutoff);
      assert rest + [turn] == turns;
      forall k | 0 <= k < |before.sent| ensures CarriesItsTurn(turns, before.sent[k]) {
        CarryingExtends(rest, turn, before.sent[k]);
      }
      var start := Progress(before.accepted, before.statuses, []);
      NewTasksCarryTheirTurn(rest, turn, start, CutoffOf(turn, before.cutoff));
      assert TakeTurns(Outcome(None, None, [], [], []), turns).sent
          == before.sent + CreateAll(start, turn.handler, CutoffOf(turn, before.cutoff), turn.tasks).signatures;
    }
  }

  lemma {:induction false} NewTasksCarryTheirTurn(rest: seq<Turn>, turn: Turn, start: Progress, cutoff: Option<int>)
    requires start.signatures == [] && LatestRead(rest + [turn], |rest| + 1, cutoff)
    ensures var sent := CreateAll(start, turn.handler, cutoff, turn.tasks).signatures;
            forall k | 0 <= k < |sent| :: CarriesItsTurn(rest + [turn], sent[k])
  {
    hide LatestRead, CreateAll, StatusesAre, Quiet;
    var turns := rest + [turn];
    var created := TasksAreSentAsCreated(start, turn.handler, cutoff, turn.tasks);
    var p := CreateAll(start, turn.handler, cutoff, turn.tasks);
    forall k | 0 <= k < |p.signatures| ensures CarriesItsTurn(turns, p.signatures[k]) {
      assert SentAs(start, p.statuses, turn.handler, cutoff, turn.tasks, created, k - |start.signatures|, p.signatures[k]);
      assert turns[|rest|].tasks[created[k]].create;
    }
  }

  lemma LatestReadExtends(rest: seq<Turn>, turn: Turn, cutoff: Option<int>)
    requires LatestRead(rest, |rest|, cutoff)
    ensures LatestRead(rest + [turn], |rest| + 1, CutoffOf(turn, cutoff))
  {
    var turns := rest + [turn];
    if turn.latest.Some? {
      assert turns[|rest|].latest == Some(CutoffOf(turn, cutoff));
    } else if m :| 0 <= m < |rest| && rest[m].latest == Some(cutoff) && forall l | m < l < |rest| :: rest[l].latest.None? {
      assert turns[m].latest == Some(cutoff);
    }
  }

  lemma CarryingExtends(rest: seq<Turn>, turn: Turn, signature: Signature)
    requires CarriesItsTurn(rest, signature)
    ensures CarriesItsTurn(rest + [turn], signature)
  {
    var turns := rest + [turn];
    var n, k :| 0 <= n < |rest| && 0 <= k < |rest[n].tasks| && rest[n].tasks[k].create && signature.job == rest[n].tasks[k].job
                && signature.handler == rest[n].handler && LatestRead(rest, n + 1, signature.cutoff);
    LatestReadStays(rest, turn, n + 1, signature.cutoff);
    assert turns[n].tasks[k].create;
  }

  lemma LatestReadStays(rest: seq<Turn>, turn: Turn, n: int, cutoff: Option<int>)
    requires 0 <= n <= |rest| && LatestRead(rest, n, cutoff)
    ensures LatestRead(rest + [turn], n, cutoff)
  {
    var turns := rest + [turn];
    if m :| 0 <= m < n && rest[m].latest == Some(cutoff) && forall l | m < l < n :: rest[l].latest.None? {
      assert turns[m].latest == Some(cutoff);
    }
  }

  // ---- From the configuration to Celery ----

  ghost predicate IsSent(sent: seq<Signature>, handler: Handler, job: Job) {
    exists k :: 0 <= k < |sent| && sent[k].handler == handler && sent[k].job == job
  }

  /** A task that passes its checks is sent. */
  lemma {:induction false} CreatedTasksAreSent(turns: seq<Turn>, n: int, i: int)
    requires 0 <= n < |turns| && 0 <= i < |turns[n].tasks| && turns[n].tasks[i].create
    ensures IsSent(TakeTurns(Outcome(None, None, [], [], []), turns).sent, turns[n].handler, turns[n].tasks[i].job)
  {
    var rest, turn := turns[..|turns| - 1], turns[|turns| - 1];
    var before := TakeTurns(Outcome(None, None, [], [], []), rest);
    var sent := TakeTurns(Outcome(None, None, [], [], []), turns).sent;
    if n < |rest| {
      CreatedTasksAreSent(rest, n, i);
      var k :| 0 <= k < |before.sent| && before.sent[k].handler == rest[n].handler && before.sent[k].job == rest[n].tasks[i].job;
      assert sent[k] == before.sent[k];
    } else {
      var cutoff := CutoffOf(turn, before.cutoff);
      var start := Progress(before.accepted, before.statuses, []);
      var created := TasksAreSentAsCreated(start, turn.handler, cutoff, turn.tasks);
      var p := CreateAll(start, turn.handler, cutoff, turn.tasks);
      var m :| 0 <= m < |created| && created[m] == i;
      assert SentAs(start, p.statuses, turn.handler, cutoff, turn.tasks, created, m - |start.signatures|, p.signatures[m]);
      assert sent[|before.sent| + m] == p.signatures[m];
    }
  }

  lemma AllowedTurnsAreAll(turns: seq<Turn>)
    requires forall n | 0 <= n < |turns| :: turns[n].allowed
    ensures AllowedTurns(turns) == |turns| && turns[..|turns|] == turns
  {
  }

  lemma SentJobIsConfigured(
    turns: seq<Turn>, tables: Tables, jobs: seq<Job>, supported: set<Handler>, allowed: Option<set<Handler>>, signature: Signature)
    requires TurnsOf(turns, tables, jobs, supported, allowed) && CarriesItsTurn(turns, signature)
    ensures IsMatching(tables, jobs, supported, allowed, signature.handler)
    ensures signature.job in ConfigsFor(tables, jobs, signature.handler)
  {
    hide ConfigsFor, IsMatching, LatestRead;
    var n, k :| 0 <= n < |turns| && 0 <= k < |turns[n].tasks| && turns[n].tasks[k].create && signature.job == turns[n].tasks[k].job
                && signature.handler == turns[n].handler;
    assert turns[n].tasks[k].job == ConfigsFor(tables, jobs, turns[n].handler)[k];
  }

  /**
  What an allowed event sends goes to a handler that the event and the comment admit, with a job
  that this handler runs or, if it runs none of the matching jobs, that requires it.
  */
  lemma SentJobsAreConfigured(
    turns: seq<Turn>, tables: Tables, jobs: seq<Job>, supported: set<Handler>, allowed: Option<set<Handler>>, k: int)
    requires TurnsOf(turns, tables, jobs, supported, allowed)
    requires (forall n | 0 <= n < |turns| :: turns[n].allowed) && 0 <= k < |Processed(turns).0|
    ensures var handler, job := Processed(turns).0[k].handler, Processed(turns).0[k].job;
            && handler in supported && (allowed.Some? ==> handler in allowed.value) && job in jobs
            && if exists other :: other in jobs && handler in tables.direct(other.kind)
               then handler in tables.direct(job.kind) else handler in tables.required(job.kind)
  {
    var signature := Processed(turns).0[k];
    AllowedTurnsAreAll(turns);
    assert CarriesItsTurn(turns, signature) by {
      hide TurnsOf, CarriesItsTurn;
      EveryTaskCarriesItsTurn(turns);
    }
    SentJobIsConfigured(turns, tables, jobs, supported, allowed, signature);
    assert ConfigsFor(tables, jobs, signature.handler) != [];
    HandlersAndConfigsAgree(tables, jobs, supported, allowed, signature.handler);
  }

  lemma ConfiguredJobHasATask(
    turns: seq<Turn>, tables: Tables, jobs: seq<Job>, supported: set<Handler>, allowed: Option<set<Handler>>,
    handler: Handler, job: Job) returns (n: int, i: int)
    requires TurnsOf(turns, tables, jobs, supported, allowed)
    requires IsMatching(tables, jobs, supported, allowed, handler) && job in ConfigsFor(tables, jobs, handler)
    ensures 0 <= n < |turns| && 0 <= i < |turns[n].tasks|
    ensures turns[n].handler == handler && turns[n].tasks[i].job == job
  {
    hide ConfigsFor, IsMatching;
    n :| 0 <= n < |turns| && turns[n].handler == handler;
    i :| 0 <= i < |ConfigsFor(tables, jobs, handler)| && ConfigsFor(tables, jobs, handler)[i] == job;
    assert turns[n].tasks[i].job == job;
  }

  /** And every such job is sent to every such handler, unless its checks fail. */
  lemma ConfiguredJobsAreSent(
    turns: seq<Turn>, tables: Tables, jobs: seq<Job>, supported: set<Handler>, allowed: Option<set<Handler>>,
    handler: Handler, job: Job)
    requires TurnsOf(turns, tables, jobs, supported, allowed) && forall n | 0 <= n < |turns| :: turns[n].allowed
    requires handler in supported && (allowed.Some? ==> handler in allowed.value) && job in jobs
    requires if exists other :: other in jobs && handler in tables.direct(other.kind)
             then handler in tables.direct(job.kind) else handler in tables.required(job.kind)
    ensures exists n, i | 0 <= n < |turns| && 0 <= i < |turns[n].tasks| ::
              && turns[n].handler == handler && turns[n].tasks[i].job == job
              && (turns[n].tasks[i].create ==> IsSent(Processed(turns).0, handler, job))
  {
    HandlersAndConfigsAgree(tables, jobs, supported, allowed, handler);
    assert job in ConfigsFor(tables, jobs, handler) && ConfigsFor(tables, jobs, handler) != [];
    assert IsMatching(tables, jobs, supported, allowed, handler) by {
      assert handler in tables.direct(job.kind) + tables.required(job.kind);
    }
    hide ConfigsFor, IsMatching, TurnsOf;
    var n, i := ConfiguredJobHasATask(turns, tables, jobs, supported, allowed, handler, job);
    AllowedTurnsAreAll(turns);
    if turns[n].tasks[i].create {
      CreatedTasksAreSent(turns, n, i);
    }
  }
}
