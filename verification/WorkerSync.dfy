/** Merging a worker's report into the manager's record (manager/worker_sync.go). */
module WorkerSync {
  import opened Base
  import opened Tasks
  import opened Backoff

  datatype Delays = Delays(base: Duration, max: Duration)

  /** The end of the backoff window a failure at `now` arms. */
  function RetryAt(d: Delays, restartCount: int, now: Instant): Time {
    now + Schedule(d.base, d.max, restartCount)
  }

  /** The record after one report. A report of another restart attempt is stale and ignored. */
  function Fold(d: Delays, record: Task, report: Task, now: Instant): Task {
    if report.restartCount != record.restartCount then record
    else
      var updated := record.(
        containerId := report.containerId,
        hostPorts := report.hostPorts,
        startTime := if report.startTime != 0 then report.startTime else record.startTime,
        finishTime := if report.finishTime != 0 then report.finishTime else record.finishTime);
      if report.state.Failed? then
        updated.(
          state := Failed,
          nextRetryAt := if record.state.Failed? then record.nextRetryAt else RetryAt(d, record.restartCount, now),
          failureReason := if report.failureReason != "" then report.failureReason else record.failureReason)
      else if !updated.IsTerminal() then updated.(state := report.state)
      else updated
  }

  function FoldAll(d: Delays, record: Task, reports: seq<(Task, Instant)>): Task
    decreases |reports|
  {
    if reports == [] then record
    else FoldAll(d, Fold(d, record, reports[0].0, reports[0].1), reports[1..])
  }

  /** What no report can touch. */
  predicate SameIdentity(a: Task, b: Task) {
    && a.id == b.id && a.name == b.name && a.ports == b.ports && a.policy == b.policy
    && a.maxRestarts == b.maxRestarts && a.restartCount == b.restartCount
    && a.manuallyStopped == b.manuallyStopped && a.timeout == b.timeout && a.health == b.health
  }

  /** Whatever the workers report, in any order and number, a terminal record stays terminal and the
      restart count, the stop flag, the ports and the name stay as they are. */
  lemma {:induction false} FoldsKeepIdentity(d: Delays, record: Task, reports: seq<(Task, Instant)>)
    ensures SameIdentity(record, FoldAll(d, record, reports))
    ensures record.IsTerminal() ==> FoldAll(d, record, reports).IsTerminal()
    decreases |reports|
  {
    if reports != [] {
      FoldsKeepIdentity(d, Fold(d, record, reports[0].0, reports[0].1), reports[1..]);
    }
  }

  /** Reports that are never Pending never make a record Pending. */
  lemma {:induction false} FoldsNeverPending(d: Delays, record: Task, reports: seq<(Task, Instant)>)
    requires !record.state.Pending?
    requires forall i :: 0 <= i < |reports| ==> !reports[i].0.state.Pending?
    ensures !FoldAll(d, record, reports).state.Pending?
    decreases |reports|
  {
    if reports != [] {
      FoldsNeverPending(d, Fold(d, record, reports[0].0, reports[0].1), reports[1..]);
    }
  }

  lemma OnceMoreIsIdle(d: Delays, record: Task, report: Task, now: Instant, later: Instant)
    ensures var once := Fold(d, record, report, now); Fold(d, once, report, later) == once
  {
  }

  function Again(report: Task, later: seq<Instant>): seq<(Task, Instant)> {
    seq(|later|, i requires 0 <= i < |later| => (report, later[i]))
  }

  /** Seeing the same report again, however much later and however often, changes nothing; in
      particular it never pushes an armed backoff deadline back. */
  lemma {:induction false} RepeatedReportIsIdle(d: Delays, record: Task, report: Task, now: Instant, later: seq<Instant>)
    ensures var once := Fold(d, record, report, now); FoldAll(d, once, Again(report, later)) == once
    decreases |later|
  {
    if later != [] {
      OnceMoreIsIdle(d, record, report, now, later[0]);
      assert Again(report, later)[1..] == Again(report, later[1..]);
      RepeatedReportIsIdle(d, record, report, now, later[1..]);
    }
  }

  /** The deadline moves only when a failure is first seen. */
  lemma DeadlineMovesOnlyOnFirstFailure(d: Delays, record: Task, report: Task, now: Instant)
    requires Fold(d, record, report, now).nextRetryAt != record.nextRetryAt
    ensures report.state.Failed? && !record.state.Failed? && report.restartCount == record.restartCount
    ensures now < Fold(d, record, report, now).nextRetryAt <= now + d.max
  {
  }

  /** A report ends a task, stamping it terminal, exactly when it meets a failure (its own or the
      record's) with a finish time (likewise); so not only stopTaskTerminal does. */
  lemma ReportEndsIff(d: Delays, record: Task, report: Task, now: Instant)
    requires !record.IsTerminal()
    ensures Fold(d, record, report, now).IsTerminal() <==>
            && report.restartCount == record.restartCount
            && (report.state.Failed? || record.state.Failed?)
            && (report.finishTime != 0 || record.finishTime != 0)
  {
  }

  // ---- what reports must leave ----

  lemma {:induction false} FoldAllSnoc(d: Delays, record: Task, reports: seq<(Task, Instant)>, last: (Task, Instant))
    ensures FoldAll(d, record, reports + [last]) == Fold(d, FoldAll(d, record, reports), last.0, last.1)
    decreases |reports|
  {
    if reports == [] {
      assert FoldAll(d, Fold(d, record, last.0, last.1), []) == Fold(d, record, last.0, last.1);
    } else {
      assert (reports + [last])[1..] == reports[1..] + [last];
      FoldAllSnoc(d, Fold(d, record, reports[0].0, reports[0].1), reports[1..], last);
    }
  }

  function OfOtherAttempt(count: int): ((Task, Instant)) -> bool {
    (r: (Task, Instant)) => r.0.restartCount != count
  }

  /** Reports of other attempts might as well not have come. */
  lemma {:induction false} StaleReportsDoNotCount(d: Delays, record: Task, reports: seq<(Task, Instant)>)
    ensures FoldAll(d, record, reports) == FoldAll(d, record, DropMatching(reports, OfOtherAttempt(record.restartCount)))
    decreases |reports|
  {
    if reports != [] {
      var front, last := reports[..|reports| - 1], reports[|reports| - 1];
      var current := DropMatching(front, OfOtherAttempt(record.restartCount));
      assert reports == front + [last];
      FoldAllSnoc(d, record, front, last);
      FoldAllSnoc(d, record, current, last);
      FoldsKeepIdentity(d, record, front);
      StaleReportsDoNotCount(d, record, front);
    }
  }

  /** `t` is the last of these times that is set, or else `before`. */
  predicate LastSet(times: seq<Time>, before: Time, t: Time) {
    || (t == before && forall i :: 0 <= i < |times| ==> times[i] == 0)
    || (exists i :: 0 <= i < |times| && t == times[i] != 0 && forall j :: i < j < |times| ==> times[j] == 0)
  }

  lemma LastSetSnoc(times: seq<Time>, before: Time, t: Time, next: Time)
    requires LastSet(times, before, t)
    ensures LastSet(times + [next], before, if next != 0 then next else t)
  {
    var all := times + [next];
    if next != 0 {
      assert all[|times|] == next;
    } else if i :| 0 <= i < |times| && t == times[i] != 0 && forall j :: i < j < |times| ==> times[j] == 0 {
      assert all[i] == t;
    }
  }

  function StartTimes(reports: seq<(Task, Instant)>): seq<Time> {
    seq(|reports|, i requires 0 <= i < |reports| => reports[i].0.startTime)
  }

  function FinishTimes(reports: seq<(Task, Instant)>): seq<Time> {
    seq(|reports|, i requires 0 <= i < |reports| => reports[i].0.finishTime)
  }

  lemma {:induction false} TimesCount(d: Delays, record: Task, reports: seq<(Task, Instant)>)
    requires forall i :: 0 <= i < |reports| ==> reports[i].0.restartCount == record.restartCount
    ensures LastSet(StartTimes(reports), record.startTime, FoldAll(d, record, reports).startTime)
    ensures LastSet(FinishTimes(reports), record.finishTime, FoldAll(d, record, reports).finishTime)
    decreases |reports|
  {
    if reports != [] {
      var front, last := reports[..|reports| - 1], reports[|reports| - 1];
      var before := FoldAll(d, record, front);
      assert reports == front + [last];
      FoldAllSnoc(d, record, front, last);
      FoldsKeepIdentity(d, record, front);
      TimesCount(d, record, front);
      assert StartTimes(reports) == StartTimes(front) + [last.0.startTime];
      assert FinishTimes(reports) == FinishTimes(front) + [last.0.finishTime];
      LastSetSnoc(StartTimes(front), record.startTime, before.startTime, last.0.startTime);
      LastSetSnoc(FinishTimes(front), record.finishTime, before.finishTime, last.0.finishTime);
    }
  }

  lemma AnyTimesCount(d: Delays, record: Task, reports: seq<(Task, Instant)>)
    ensures var current := DropMatching(reports, OfOtherAttempt(record.restartCount));
            && LastSet(StartTimes(current), record.startTime, FoldAll(d, record, reports).startTime)
            && LastSet(FinishTimes(current), record.finishTime, FoldAll(d, record, reports).finishTime)
  {
    var current := DropMatching(reports, OfOtherAttempt(record.restartCount));
    DropMatchingMembers(reports, OfOtherAttempt(record.restartCount));
    forall i | 0 <= i < |current| ensures current[i].0.restartCount == record.restartCount { assert current[i] in current; }
    StaleReportsDoNotCount(d, record, reports);
    TimesCount(d, record, current);
  }

  lemma LastReportNames(d: Delays, record: Task, reports: seq<(Task, Instant)>)
    requires reports != [] && reports[|reports| - 1].0.restartCount == record.restartCount
    ensures var last := reports[|reports| - 1].0;
            var r := FoldAll(d, record, reports);
            && r.containerId == last.containerId && r.hostPorts == last.hostPorts
            && r.state == (if r.state == Failed && r.finishTime != 0 then Failed else last.state)
  {
    var front, last := reports[..|reports| - 1], reports[|reports| - 1];
    assert reports == front + [last];
    FoldAllSnoc(d, record, front, last);
    FoldsKeepIdentity(d, record, front);
  }

  /** Whatever was recorded and reported before, by this attempt or others: after a report of the current attempt,
      container and published ports are the ones it names, each time is the last one that any report of the
      attempt has set, and the state is the reported one unless the failure on record has become final. */
  lemma LastReportCounts(d: Delays, record: Task, reports: seq<(Task, Instant)>)
    requires reports != [] && reports[|reports| - 1].0.restartCount == record.restartCount
    ensures var last := reports[|reports| - 1].0;
            var current := DropMatching(reports, OfOtherAttempt(record.restartCount));
            var r := FoldAll(d, record, reports);
            && r.containerId == last.containerId && r.hostPorts == last.hostPorts
            && LastSet(StartTimes(current), record.startTime, r.startTime)
            && LastSet(FinishTimes(current), record.finishTime, r.finishTime)
            && r.state == (if r.state == Failed && r.finishTime != 0 then Failed else last.state)
  {
    LastReportNames(d, record, reports);
    AnyTimesCount(d, record, reports);
  }

  /** A report arms the backoff if and only if it is the first of the current attempt to show a failure; then the
      backoff of that attempt runs from the moment the report is seen. */
  lemma FirstFailureArmsIff(d: Delays, record: Task, report: Task, now: Instant)
    requires record.nextRetryAt <= now
    ensures var r := Fold(d, record, report, now);
            var armed := report.restartCount == record.restartCount && report.state == Failed && record.state != Failed;
            && (r.nextRetryAt != record.nextRetryAt <==> armed)
            && (armed ==> r.nextRetryAt == now + Schedule(d.base, d.max, record.restartCount))
  {
    ScheduleBounds(d.base, d.max, record.restartCount, record.restartCount);
  }

  /** A failure is recorded with the reason reported for it, if any; whatever else is reported, the reason on
      record stays. */
  lemma ReasonsAreKept(d: Delays, record: Task, report: Task, now: Instant)
    requires report.restartCount == record.restartCount
    ensures Fold(d, record, report, now).failureReason ==
            if report.state == Failed && report.failureReason != "" then report.failureReason else record.failureReason
  {
  }
}
