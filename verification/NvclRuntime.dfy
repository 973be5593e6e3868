/** The NVCL loop: observe, remember the best canvas in a snapshot, let the agent act, and fall back to the best
    snapshot when a run does not complete. The viewport stays fixed, verification depends on the canvas alone, and
    nobody else edits the canvas. */
module NvclRuntime {
  import opened Basics

  // ---------------------------------------------------------------- verification

  datatype Severity = ErrorIssue | WarningIssue | InfoIssue

  datatype Issue = Issue(severity: Severity)

  datatype Check =
    | MaxOverlap(foreground: Option<Id>, background: Option<Id>)
    | InsideBounds(target: Option<Id>)
    | CountCheck

  /** A check applies when the objects it names are on the canvas. */
  predicate Applies(check: Check, ids: set<Id>) {
    match check
    case MaxOverlap(f, b) => f.Some? && b.Some? && f.value in ids && b.value in ids
    case InsideBounds(t) => t.Some? && t.value in ids
    case CountCheck => true
  }

  function FilterChecks(checks: seq<Check>, ids: set<Id>): seq<Check> { Filter((c: Check) => Applies(c, ids), checks) }

  function Weight(i: Issue): nat {
    if i.severity == ErrorIssue then 100 else if i.severity == WarningIssue then 10 else 1
  }

  function ScoreIssues(issues: seq<Issue>): nat {
    if issues == [] then 0 else ScoreIssues(issues[..|issues| - 1]) + Weight(issues[|issues| - 1])
  }

  /** How a canvas of type `C` is listed and judged. */
  datatype Verifier<!C> = Verifier(checks: seq<Check>, ids: C -> set<Id>, judge: (seq<Check>, C) -> seq<Issue>) {
    function Issues(canvas: C): seq<Issue> { judge(FilterChecks(checks, ids(canvas)), canvas) }

    function Score(canvas: C): nat { ScoreIssues(Issues(canvas)) }
  }

  // ---------------------------------------------------------------- runs

  /** A tool call leaves any canvas and may be reported as failed. */
  datatype Decision<C> = StopRun(success: bool) | ToolCall(next: C, ok: bool)

  /** What one iteration meets: an abort signal, how snapshot and restore go, and what the agent decides. */
  datatype Turn<C> = Turn(aborted: bool, snapshotOk: bool, restoreOk: bool, decision: Decision<C>)

  datatype Status = Completed | Failed | Cancelled

  datatype Outcome<C> = Outcome(status: Status, iterations: nat, toolCalls: nat, finalIssues: seq<Issue>,
                                bestScore: Option<nat>, restored: bool, canvas: C)

  /** The canvas at the start of iteration `k`. */
  function Visited<C>(initial: C, script: nat -> Turn<C>, k: nat): C {
    if k == 0 then initial
    else if script(k - 1).decision.ToolCall? then script(k - 1).decision.next
    else Visited(initial, script, k - 1)
  }

  /** The first iteration, of `n`, that observed the least score. */
  function Best<C>(v: Verifier<C>, initial: C, script: nat -> Turn<C>, n: nat): (b: nat)
    requires n > 0
    ensures b < n
  {
    if n == 1 then 0
    else
      var b := Best(v, initial, script, n - 1);
      if v.Score(Visited(initial, script, n - 1)) < v.Score(Visited(initial, script, b)) then n - 1 else b
  }

  /** The iteration whose canvas the best snapshot holds; the initial snapshot holds that of iteration 0. */
  function Stored<C>(v: Verifier<C>, initial: C, script: nat -> Turn<C>, n: nat): (b: nat)
    ensures b < n || n == b == 0
  {
    if n <= 1 then 0
    else if Best(v, initial, script, n) == n - 1 && script(n - 1).snapshotOk then n - 1
    else Stored(v, initial, script, n - 1)
  }

  /** What a run that fell back leaves: the best snapshot's canvas, or the last one visited if restoring failed. */
  ghost predicate FellBack<C>(v: Verifier<C>, initial: C, script: nat -> Turn<C>, n: nat, restored: bool, canvas: C,
                              issues: seq<Issue>) {
    && canvas == Visited(initial, script, if restored then Stored(v, initial, script, n) else n)
    && issues == v.Issues(canvas)
  }

  /** After `n` observations: the best snapshot and the best score. */
  ghost predicate Remembers<C>(v: Verifier<C>, initial: C, script: nat -> Turn<C>, n: nat, snapshot: C,
                               bestScore: Option<nat>) {
    && snapshot == Visited(initial, script, Stored(v, initial, script, n))
    && bestScore == if n == 0 then None else Some(v.Score(Visited(initial, script, Best(v, initial, script, n))))
  }

  lemma RememberOne<C>(v: Verifier<C>, initial: C, script: nat -> Turn<C>, n: nat, snapshot: C, bestScore: Option<nat>)
    requires Remembers(v, initial, script, n, snapshot, bestScore)
    ensures var canvas := Visited(initial, script, n);
            var better := bestScore.None? || v.Score(canvas) < bestScore.value;
            Remembers(v, initial, script, n + 1, if better && script(n).snapshotOk then canvas else snapshot,
                      if better then Some(v.Score(canvas)) else bestScore)
  {
    hide Verifier.Score;
  }

  lemma VisitNext<C>(initial: C, script: nat -> Turn<C>, n: nat)
    ensures Visited(initial, script, n + 1)
            == if script(n).decision.ToolCall? then script(n).decision.next else Visited(initial, script, n)
  {
  }

  /** How many tool calls in a row have failed by the end of iteration `n - 1`. */
  function FailuresInARow<C>(script: nat -> Turn<C>, n: nat): nat {
    if n > 0 && script(n - 1).decision.ToolCall? && !script(n - 1).decision.ok then FailuresInARow(script, n - 1) + 1
    else 0
  }

  /** Iteration `k` lets the loop go on. */
  predicate GoesOn<C>(script: nat -> Turn<C>, maxFailures: int, k: nat) {
    && !script(k).aborted && script(k).decision.ToolCall?
    && (script(k).decision.ok || FailuresInARow(script, k + 1) < maxFailures)
  }

  predicate Stops<C>(script: nat -> Turn<C>, k: nat) { script(k).decision.StopRun? }

  lemma CountFailure<C>(script: nat -> Turn<C>, n: nat)
    ensures FailuresInARow(script, 0) == 0
    ensures script(n).decision.ToolCall?
      ==> FailuresInARow(script, n + 1) == if script(n).decision.ok then 0 else FailuresInARow(script, n) + 1
  {
  }

  method Run<C>(v: Verifier<C>, initial: C, script: nat -> Turn<C>, maxIterations: int, maxFailures: int)
    returns (r: Outcome<C>)
    ensures r.iterations <= Max(0, maxIterations)
    ensures forall k :: 0 <= k < r.iterations - 1 ==> GoesOn(script, maxFailures, k)
    ensures r.toolCalls == if r.iterations > 0 && Stops(script, r.iterations - 1) then r.iterations - 1
            else r.iterations
    ensures r.status == Cancelled <==> r.iterations < maxIterations && script(r.iterations).aborted
                                       && (r.iterations > 0 ==> GoesOn(script, maxFailures, r.iterations - 1))
    ensures r.status == Completed
            <==> r.iterations > 0 && Stops(script, r.iterations - 1) && script(r.iterations - 1).decision.success
    ensures r.status == Failed && r.iterations < maxIterations ==>
            r.iterations > 0 && !GoesOn(script, maxFailures, r.iterations - 1)
    ensures r.bestScore == if r.iterations == 0 then None
                           else Some(v.Score(Visited(initial, script, Best(v, initial, script, r.iterations))))
    ensures r.status != Completed && maxIterations > 0
      ==> FellBack(v, initial, script, r.iterations, r.restored, r.canvas, r.finalIssues)
          && r.restored == script(if r.status == Cancelled then r.iterations else r.iterations - 1).restoreOk
    ensures r.status == Completed ==>
            r.iterations > 0 && r.canvas == Visited(initial, script, r.iterations - 1) && !r.restored
            && r.finalIssues == v.Issues(r.canvas)
    ensures maxIterations <= 0 ==> r == Outcome(Failed, 0, 0, [], None, false, initial)
  {
    hide Visited, Best, Stored, ScoreIssues, FailuresInARow;
    var canvas, snapshots, best: nat, bestScore: Option<nat> := initial, [initial], 0, None;
    var status, issues, toolCalls, failures, decisions, restored := Failed, [], 0, 0, 0, false;
    Nothing(v, initial, script);
    CountFailure(script, 0);
    var iteration := 0;
    while iteration < maxIterations
      invariant iteration <= Max(0, maxIterations) && decisions == toolCalls == iteration
                && failures == FailuresInARow(script, iteration)
      invariant forall k :: 0 <= k < iteration ==> GoesOn(script, maxFailures, k)
      invariant iteration > 0 ==> GoesOn(script, maxFailures, iteration - 1) && !Stops(script, iteration - 1)
      invariant status == Failed && best < |snapshots|
                && Remembers(v, initial, script, iteration, snapshots[best], bestScore)
      invariant iteration < maxIterations || iteration == 0 ==>
                canvas == Visited(initial, script, iteration) && !restored
      invariant iteration == 0 ==> issues == [] && canvas == initial
      invariant iteration == maxIterations > 0 ==> FellBack(v, initial, script, iteration, restored, canvas, issues)
                                                   && restored == script(iteration - 1).restoreOk
    {
      var turn := script(iteration);
      if turn.aborted {
        status := Cancelled;
        canvas, restored := RestoreBest(canvas, snapshots[best], turn.restoreOk);
        issues := v.Issues(canvas);
        break;
      }
      issues := v.Issues(canvas);
      var score := ScoreIssues(issues);
      RememberOne(v, initial, script, iteration, snapshots[best], bestScore);
      if bestScore.None? || score < bestScore.value {
        bestScore := Some(score);
        if turn.snapshotOk {
          snapshots := snapshots + [canvas];
          best := |snapshots| - 1;
        }
      }
      decisions := decisions + 1;
      VisitNext(initial, script, iteration);
      if turn.decision.StopRun? {
        status := if turn.decision.success then Completed else Failed;
        if !turn.decision.success {
          canvas, restored := RestoreBest(canvas, snapshots[best], turn.restoreOk);
          issues := v.Issues(canvas);
        }
        break;
      }
      toolCalls := toolCalls + 1;
      CountFailure(script, iteration);
      canvas := turn.decision.next;
      if !turn.decision.ok {
        failures := failures + 1;
        if failures >= maxFailures {
          canvas, restored := RestoreBest(canvas, snapshots[best], turn.restoreOk);
          issues := v.Issues(canvas);
          break;
        }
      } else {
        failures := 0;
      }
      if iteration == maxIterations - 1 {
        canvas, restored := RestoreBest(canvas, snapshots[best], turn.restoreOk);
        issues := v.Issues(canvas);
      }
      iteration := iteration + 1;
    }
    r := Outcome(status, decisions, toolCalls, issues, bestScore, restored, canvas);
  }

  method RestoreBest<C>(canvas: C, snapshot: C, restoreOk: bool) returns (after: C, restored: bool)
    ensures restored == restoreOk && after == if restoreOk then snapshot else canvas
  {
    restored := restoreOk;
    after := if restoreOk then snapshot else canvas;
  }

  lemma Nothing<C>(v: Verifier<C>, initial: C, script: nat -> Turn<C>)
    ensures Remembers(v, initial, script, 0, initial, None) && Visited(initial, script, 0) == initial
  {
  }

  // ---------------------------------------------------------------- what is judged and what ends a run

  function Count(issues: seq<Issue>, severity: Severity): nat {
    |Filter((i: Issue) => i.severity == severity, issues)|
  }

  /** A score weighs errors a hundredfold, warnings tenfold and the rest once. */
  lemma {:induction false} ScoreCounts(issues: seq<Issue>)
    ensures ScoreIssues(issues)
            == 100 * Count(issues, ErrorIssue) + 10 * Count(issues, WarningIssue) + Count(issues, InfoIssue)
  {
    if issues != [] {
      var init, last := issues[..|issues| - 1], issues[|issues| - 1];
      ScoreCounts(init);
      assert issues == init + [last];
      CountOneMore(init, last, ErrorIssue);
      CountOneMore(init, last, WarningIssue);
      CountOneMore(init, last, InfoIssue);
    }
  }

  lemma CountOneMore(issues: seq<Issue>, last: Issue, severity: Severity)
    ensures Count(issues + [last], severity) == Count(issues, severity) + if last.severity == severity then 1 else 0
  {
    FilterConcat((i: Issue) => i.severity == severity, issues, [last]);
  }

  /** Exactly the checks that lack no object run: an overlap check needs both its objects on the canvas, a bounds check
      its one, and any other check runs always. */
  lemma ChecksRunIff(checks: seq<Check>, ids: set<Id>, check: Check)
    ensures check in FilterChecks(checks, ids) <==>
              check in checks
              && (check.MaxOverlap? ==> exists f, b :: check == MaxOverlap(Some(f), Some(b)) && f in ids && b in ids)
              && (check.InsideBounds? ==> exists t :: check == InsideBounds(Some(t)) && t in ids)
  {
    FilterMember((c: Check) => Applies(c, ids), checks, check);
    if check.MaxOverlap? && Applies(check, ids) {
      assert check == MaxOverlap(Some(check.foreground.value), Some(check.background.value));
    } else if check.InsideBounds? && Applies(check, ids) {
      assert check == InsideBounds(Some(check.target.value));
    }
  }

  predicate FailedCall<C>(script: nat -> Turn<C>, k: nat) { script(k).decision.ToolCall? && !script(k).decision.ok }

  /** A tool call ends the run exactly when it failed as the last of `maxFailures` failed calls in a row. */
  lemma {:induction false} GivesUpIff<C>(script: nat -> Turn<C>, maxFailures: nat, k: nat)
    requires maxFailures > 0 && !script(k).aborted && script(k).decision.ToolCall?
    ensures !GoesOn(script, maxFailures, k)
            <==> maxFailures <= k + 1 && forall j: nat :: k + 1 - maxFailures <= j <= k ==> FailedCall(script, j)
  {
    FailuresAreTheLast(script, k + 1);
    if maxFailures <= k + 1 && FailuresInARow(script, k + 1) < maxFailures {
      assert !FailedCall(script, k - FailuresInARow(script, k + 1));
    }
  }

  lemma {:induction false} FailuresAreTheLast<C>(script: nat -> Turn<C>, n: nat)
    ensures var m := FailuresInARow(script, n);
            && m <= n && (forall j: nat :: n - m <= j < n ==> FailedCall(script, j))
            && (m < n ==> !FailedCall(script, n - m - 1))
  {
    if n > 0 { FailuresAreTheLast(script, n - 1); }
  }

  // ---------------------------------------------------------------- what the fallback means

  /** Iteration `k` sees a better canvas than any before it. */
  ghost predicate Improves<C>(v: Verifier<C>, initial: C, script: nat -> Turn<C>, k: nat) {
    forall j: nat :: j < k ==> v.Score(Visited(initial, script, k)) < v.Score(Visited(initial, script, j))
  }

  lemma ImprovesIffBest<C>(v: Verifier<C>, initial: C, script: nat -> Turn<C>, k: nat)
    ensures Improves(v, initial, script, k) <==> Best(v, initial, script, k + 1) == k
  {
    forall j: nat | j < k + 1
      ensures j < Best(v, initial, script, k + 1)
        ==> v.Score(Visited(initial, script, Best(v, initial, script, k + 1))) < v.Score(Visited(initial, script, j))
    {
      BestIsLeast(v, initial, script, k + 1, j);
    }
    BestIsLeast(v, initial, script, k + 1, k);
  }

  /** The stored canvas is that of the last improvement whose snapshot was taken, or the initial one. */
  lemma {:induction false} StoredIsLastTaken<C>(v: Verifier<C>, initial: C, script: nat -> Turn<C>, n: nat)
    ensures var kept := Stored(v, initial, script, n);
            && (kept > 0 ==> kept < n && Improves(v, initial, script, kept) && script(kept).snapshotOk)
            && forall k: nat :: kept < k < n ==> !(Improves(v, initial, script, k) && script(k).snapshotOk)
  {
    hide Visited, Verifier.Score, Improves;
    if n > 1 {
      StoredIsLastTaken(v, initial, script, n - 1);
      ImprovesIffBest(v, initial, script, n - 1);
    }
  }

  lemma {:induction false} BestIsLeast<C>(v: Verifier<C>, initial: C, script: nat -> Turn<C>, n: nat, k: nat)
    requires k < n
    ensures v.Score(Visited(initial, script, Best(v, initial, script, n))) <= v.Score(Visited(initial, script, k))
    ensures k < Best(v, initial, script, n)
      ==> v.Score(Visited(initial, script, Best(v, initial, script, n))) < v.Score(Visited(initial, script, k))
  {
    if k < n - 1 { BestIsLeast(v, initial, script, n - 1, k); }
    else if n > 1 { BestIsLeast(v, initial, script, n - 1, Best(v, initial, script, n - 1)); }
  }

  /** The best snapshot holds the best canvas exactly when its snapshot was taken; otherwise it holds a worse one. */
  lemma {:induction false} StoredIsBestIff<C>(v: Verifier<C>, initial: C, script: nat -> Turn<C>, n: nat)
    requires n > 0
    ensures var b, kept := Best(v, initial, script, n), Stored(v, initial, script, n);
            && kept <= b && (kept == b <==> b == 0 || script(b).snapshotOk)
            && (kept < b ==> v.Score(Visited(initial, script, kept)) > v.Score(Visited(initial, script, b)))
  {
    if n > 1 {
      StoredIsBestIff(v, initial, script, n - 1);
      var b := Best(v, initial, script, n);
      if Stored(v, initial, script, n) < b { BestIsLeast(v, initial, script, n, Stored(v, initial, script, n)); }
    }
  }

  /** A run that fell back leaves the canvas of the least score it observed, and issues that score exactly the best,
      if and only if the snapshot of that canvas was taken (the first one always is). */
  lemma FallbackIsBestIff<C>(v: Verifier<C>, initial: C, script: nat -> Turn<C>, n: nat, canvas: C, issues: seq<Issue>)
    requires n > 0 && FellBack(v, initial, script, n, true, canvas, issues)
    ensures var b := Best(v, initial, script, n);
            && (b == 0 || script(b).snapshotOk <==> ScoreIssues(issues) == v.Score(Visited(initial, script, b)))
            && (b == 0 || script(b).snapshotOk ==> canvas == Visited(initial, script, b))
            && forall k :: 0 <= k < n ==> v.Score(Visited(initial, script, b)) <= v.Score(Visited(initial, script, k))
  {
    StoredIsBestIff(v, initial, script, n);
    forall k | 0 <= k < n
      ensures v.Score(Visited(initial, script, Best(v, initial, script, n))) <= v.Score(Visited(initial, script, k))
    {
      BestIsLeast(v, initial, script, n, k);
    }
  }

  /** Canvas 0 has an error and the others have none. */
  function Faults(checks: seq<Check>, canvas: nat): seq<Issue> { if canvas == 0 then [Issue(ErrorIssue)] else [] }

  function NoIds(canvas: nat): set<Id> { {} }

  function Judged(): Verifier<nat> { Verifier([], NoIds, Faults) }

  /** The agent repairs the canvas, and gives up in the iteration that sees it repaired and cannot take its snapshot. */
  function Repair(k: nat): Turn<nat> {
    if k == 0 then Turn(false, true, true, ToolCall(1, true)) else Turn(false, false, true, StopRun(false))
  }

  /** The failing family is inhabited: the run reports the best score 0 and leaves issues that score 100. */
  lemma MissedSnapshotRestoresWorse(canvas: nat, issues: seq<Issue>)
    ensures GoesOn(Repair, 3, 0) && !GoesOn(Repair, 3, 1) && Stops(Repair, 1) && Repair(1).restoreOk
    ensures Best(Judged(), 0, Repair, 2) == 1 && Stored(Judged(), 0, Repair, 2) == 0
    ensures Judged().Score(Visited(0, Repair, Best(Judged(), 0, Repair, 2))) == 0
    ensures FellBack(Judged(), 0, Repair, 2, true, canvas, issues) ==> canvas == 0 && ScoreIssues(issues) == 100
  {
    assert Judged().Issues(0) == [Issue(ErrorIssue)] && Judged().Issues(1) == [];
    assert ScoreIssues([Issue(ErrorIssue)]) == 100;
    assert Visited(0, Repair, 1) == 1 && Visited(0, Repair, 0) == 0;
  }
}
