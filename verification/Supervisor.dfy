/** The migration supervisor: round-robin choice among projects, with exponential backoff. */
module Supervisor {
  import opened Collections
  import opened Decimal

  /** Time and durations in nanoseconds. */
  const SECOND: nat := 1_000_000_000
  const SUPERVISOR_MAX_PROJECT_BACKOFF: nat := 60 * 60 * SECOND
  const DURATION_MAX: nat := U64_MAX * SECOND + (SECOND - 1)

  function Max(a: nat, b: nat): nat { if a <= b then b else a }

  function Pow2(k: nat): nat { if k == 0 then 1 else 2 * Pow2(k - 1) }

  function BackoffDelay(pollInterval: nat, failures: nat): nat {
    var base := Max(pollInterval, SECOND);
    var doublings := Min(SaturatingSub(failures, 1), 16);
    Capped(base * Pow2(doublings))
  }

  lemma {:induction false} Pow2Monotone(j: nat, k: nat)
    requires j <= k
    ensures 1 <= Pow2(j) <= Pow2(k)
  {
    if j < k {
      Pow2Monotone(j, k - 1);
    } else if k > 0 {
      Pow2Monotone(j - 1, k - 1);
    }
  }

  /** Sixteen doublings of at least one second exceed an hour, and further ones stay above. */
  lemma SixteenDoublingsExceedTheCap(base: nat, k: nat)
    requires SECOND <= base && 16 <= k
    ensures base * Pow2(k) >= SUPERVISOR_MAX_PROJECT_BACKOFF
  {
    Pow2Monotone(16, k);
    assert Pow2(16) == 65_536 by {
      assert Pow2(8) == 256;
    }
    ProductGrows(SECOND, base, 65_536, Pow2(k));
  }

  lemma ProductGrows(a: nat, b: nat, x: nat, y: nat)
    requires a <= b && x <= y
    ensures a * x <= b * y
  {
    assert a * x <= b * x;
    assert b * x <= b * y;
  }

  function Capped(product: nat): nat {
    Min(Min(product, DURATION_MAX), SUPERVISOR_MAX_PROJECT_BACKOFF)
  }

  lemma CapIsAll(product: nat)
    ensures Capped(product) == Min(product, SUPERVISOR_MAX_PROJECT_BACKOFF)
  {
  }

  /** The clamp at sixteen doublings and the saturation never change the delay. */
  lemma ClampIsInvisible(pollInterval: nat, failures: nat)
    requires failures >= 1
    ensures BackoffDelay(pollInterval, failures) ==
      Min(Max(pollInterval, SECOND) * Pow2(failures - 1), SUPERVISOR_MAX_PROJECT_BACKOFF)
  {
    hide Pow2;
    var base := Max(pollInterval, SECOND);
    CapIsAll(base * Pow2(failures - 1));
    if failures > 17 {
      CapIsAll(base * Pow2(16));
      SixteenDoublingsExceedTheCap(base, 16);
      SixteenDoublingsExceedTheCap(base, failures - 1);
    }
  }

  datatype Backoff = Backoff(failures: nat, retryAt: nat)

  predicate Eligible(backoff: map<string, Backoff>, project: string, now: nat) {
    project !in backoff || backoff[project].retryAt <= now
  }

  function Position(candidates: seq<string>, project: string, i: nat): Option<nat>
    decreases |candidates| - i
  {
    if i >= |candidates| then None
    else if candidates[i] == project then Some(i)
    else Position(candidates, project, i + 1)
  }

  /** Where the round starts: right after the project served last. */
  function RoundStart(candidates: seq<string>, lastServed: Option<string>): nat
    requires candidates != []
  {
    match lastServed
    case None => 0
    case Some(last) =>
      match Position(candidates, last, 0)
      case None => 0
      case Some(index) => (index + 1) % |candidates|
  }

  function FindFrom(candidates: seq<string>, backoff: map<string, Backoff>, now: nat, start: nat, offset: nat): Option<nat>
    requires candidates != []
    decreases |candidates| - offset
  {
    if offset >= |candidates| then None
    else if Eligible(backoff, candidates[(start + offset) % |candidates|], now) then Some(offset)
    else FindFrom(candidates, backoff, now, start, offset + 1)
  }

  predicate Blocked(candidates: seq<string>, backoff: map<string, Backoff>, now: nat, start: nat, offset: nat)
    requires candidates != []
  {
    !Eligible(backoff, candidates[(start + offset) % |candidates|], now)
  }

  function NextProject(
    candidates: seq<string>, backoff: map<string, Backoff>, now: nat, lastServed: Option<string>): Option<string>
  {
    if candidates == [] then None
    else
      var start := RoundStart(candidates, lastServed);
      match FindFrom(candidates, backoff, now, start, 0)
      case None => None
      case Some(offset) => Some(candidates[(start + offset) % |candidates|])
  }

  lemma {:induction false} FindFromFindsFirst(
    candidates: seq<string>, backoff: map<string, Backoff>, now: nat, start: nat, offset: nat)
    requires candidates != []
    ensures var r := FindFrom(candidates, backoff, now, start, offset);
      && (r.None? ==> forall k :: offset <= k < |candidates| ==> Blocked(candidates, backoff, now, start, k))
      && (r.Some? ==>
            && offset <= r.value < |candidates| && !Blocked(candidates, backoff, now, start, r.value)
            && forall k :: offset <= k < r.value ==> Blocked(candidates, backoff, now, start, k))
    decreases |candidates| - offset
  {
    if offset < |candidates| && !Eligible(backoff, candidates[(start + offset) % |candidates|], now) {
      FindFromFindsFirst(candidates, backoff, now, start, offset + 1);
    }
  }

  // ----- Bounded waiting

  ghost predicate Distinct(candidates: seq<string>) {
    forall i, j :: 0 <= i < j < |candidates| ==> candidates[i] != candidates[j]
  }

  lemma WrapAround(i: nat, n: nat)
    requires 0 < n && i < 2 * n
    ensures i % n == if i < n then i else i - n
  {
    if n <= i {
      assert i == n + (i - n);
      assert i / n == 1;
    }
  }

  /** How many places the round passes before it reaches `position`. */
  function Distance(n: nat, start: nat, position: nat): nat
    requires start < n && position < n
  {
    if start <= position then position - start else position + n - start
  }

  lemma {:induction false} PositionFinds(candidates: seq<string>, index: nat, i: nat)
    requires Distinct(candidates) && i <= index < |candidates|
    ensures Position(candidates, candidates[index], i) == Some(index)
    decreases index - i
  {
    if i < index {
      PositionFinds(candidates, index, i + 1);
    }
  }

  lemma {:induction false} PositionInRange(candidates: seq<string>, project: string, i: nat)
    ensures Position(candidates, project, i).Some? ==> Position(candidates, project, i).value < |candidates|
    decreases |candidates| - i
  {
    if i < |candidates| {
      PositionInRange(candidates, project, i + 1);
    }
  }

  lemma RoundStartInRange(candidates: seq<string>, lastServed: Option<string>)
    requires candidates != []
    ensures RoundStart(candidates, lastServed) < |candidates|
  {
  }

  lemma DistanceReaches(n: nat, start: nat, position: nat)
    requires start < n && position < n
    ensures Distance(n, start, position) < n && (start + Distance(n, start, position)) % n == position
  {
    WrapAround(start + Distance(n, start, position), n);
  }

  lemma DistanceShrinks(n: nat, start: nat, k: nat, position: nat)
    requires start < n && position < n && k < Distance(n, start, position)
    ensures var next := ((start + k) % n + 1) % n;
      next < n && Distance(n, next, position) < Distance(n, start, position)
  {
    WrapAround(start + k, n);
    WrapAround((start + k) % n + 1, n);
  }

  lemma RoundStartAfter(candidates: seq<string>, index: nat)
    requires Distinct(candidates) && index < |candidates|
    ensures RoundStart(candidates, Some(candidates[index])) == (index + 1) % |candidates|
  {
    PositionFinds(candidates, index, 0);
  }

  /** Each selection either serves an eligible project or brings the round closer to it. */
  lemma SelectionApproaches(
    candidates: seq<string>, backoff: map<string, Backoff>, now: nat, lastServed: Option<string>, position: nat)
    requires Distinct(candidates) && position < |candidates|
    requires Eligible(backoff, candidates[position], now)
    ensures RoundStart(candidates, lastServed) < |candidates|
    ensures var r := NextProject(candidates, backoff, now, lastServed);
      && r.Some? && RoundStart(candidates, r) < |candidates|
      && (r.value == candidates[position] ||
          Distance(|candidates|, RoundStart(candidates, r), position) <
            Distance(|candidates|, RoundStart(candidates, lastServed), position))
  {
    hide Distance, RoundStart, FindFrom, Distinct;
    var n, start := |candidates|, RoundStart(candidates, lastServed);
    RoundStartInRange(candidates, lastServed);
    DistanceReaches(n, start, position);
    FindFromFindsFirst(candidates, backoff, now, start, 0);
    assert !Blocked(candidates, backoff, now, start, Distance(n, start, position));
    var k := FindFrom(candidates, backoff, now, start, 0).value;
    RoundStartAfter(candidates, (start + k) % n);
    RoundStartInRange(candidates, Some(candidates[(start + k) % n]));
    if k < Distance(n, start, position) {
      DistanceShrinks(n, start, k, position);
    }
  }

  // ----- The supervisor loop

  datatype Pass = Completed | InstanceOwned | PassFailed(end: nat, message: string)

  /** One turn of the loop as its surroundings shape it: the window is closed, the ledger is
      busy or broken, or it lists candidates at some time and the chosen pass ends somehow. */
  datatype Tick = WindowClosed | StoreBusy | StoreBroken | Poll(candidates: seq<string>, now: nat, pass: Pass)

  datatype Failure = Failure(project: string, message: string)

  datatype Reason = OutsideWindow | NoWork | AllBackingOff

  datatype Report = Report(reason: Reason, polls: nat, completed: nat, failed: nat, lastFailure: Option<Failure>)

  datatype Stop = Finished(ok: bool, report: Report) | Broken

  /** A turn that was taken, and the project whose pass it ran. */
  datatype Turn = Turn(tick: Tick, served: Option<string>)

  datatype Run = Run(
    idle: nat, completed: nat, failed: nat, lastFailure: Option<Failure>,
    backoff: map<string, Backoff>, lastServed: Option<string>, stop: Option<Stop>, log: seq<Turn>)

  const START := Run(0, 0, 0, None, map[], None, None, [])

  function Idle(r: Run, reason: Reason, maxIdle: nat): Run {
    var idle := SaturatingAdd(r.idle, 1);
    r.(idle := idle,
       stop := if maxIdle != 0 && idle >= maxIdle
               then Some(Finished(r.failed == 0, Report(reason, idle, r.completed, r.failed, r.lastFailure)))
               else None)
  }

  /** Backoff is forgotten for projects without actionable work. */
  function StillCandidates(backoff: map<string, Backoff>, candidates: seq<string>): map<string, Backoff> {
    map p | p in backoff && p in candidates :: backoff[p]
  }

  function Punish(backoff: map<string, Backoff>, project: string, end: nat, pollInterval: nat): map<string, Backoff> {
    var before := if project in backoff then backoff[project].failures else 0;
    var failures := Min(before + 1, U32_MAX);
    backoff[project := Backoff(failures, end + BackoffDelay(pollInterval, failures))]
  }

  function Serve(r: Run, project: string, pass: Pass, pollInterval: nat): Run {
    var served := r.(lastServed := Some(project), idle := 0);
    match pass
    case Completed => served.(completed := SaturatingAdd(r.completed, 1), backoff := r.backoff - {project})
    case InstanceOwned => served
    case PassFailed(end, message) =>
      served.(failed := SaturatingAdd(r.failed, 1), lastFailure := Some(Failure(project, message)),
              backoff := Punish(r.backoff, project, end, pollInterval))
  }

  function Step(r: Run, tick: Tick, pollInterval: nat, maxIdle: nat): Run {
    match tick
    case WindowClosed => Idle(r.(log := r.log + [Turn(tick, None)]), OutsideWindow, maxIdle)
    case StoreBusy => r.(log := r.log + [Turn(tick, None)])
    case StoreBroken => r.(log := r.log + [Turn(tick, None)], stop := Some(Broken))
    case Poll(candidates, now, pass) =>
      var kept := StillCandidates(r.backoff, candidates);
      var next := NextProject(candidates, kept, now, r.lastServed);
      var seen := r.(backoff := kept, log := r.log + [Turn(tick, next)]);
      match next
      case None => Idle(seen, if candidates == [] then NoWork else AllBackingOff, maxIdle)
      case Some(project) => Serve(seen, project, pass, pollInterval)
  }

  /** The run after a number of turns; a stopped run stays as it is. */
  function RunOf(start: Run, ticks: seq<Tick>, pollInterval: nat, maxIdle: nat): Run {
    if ticks == [] then start
    else
      var before := RunOf(start, ticks[..|ticks| - 1], pollInterval, maxIdle);
      if before.stop.Some? then before else Step(before, ticks[|ticks| - 1], pollInterval, maxIdle)
  }

  /** The projects served, in order. */
  function Serves(log: seq<Turn>): seq<string> {
    if log == [] then []
    else
      var served := log[|log| - 1].served;
      Serves(log[..|log| - 1]) + (if served.Some? then [served.value] else [])
  }

  lemma ServesAppend(log: seq<Turn>, turn: Turn)
    ensures Serves(log + [turn]) == Serves(log) + (if turn.served.Some? then [turn.served.value] else [])
  {
    assert (log + [turn])[..|log|] == log;
  }

  /** All through the run the candidates are these, and the project at `position` is out of backoff. */
  ghost predicate StaysEligible(
    start: Run, ticks: seq<Tick>, candidates: seq<string>, position: nat, pollInterval: nat, maxIdle: nat)
    requires position < |candidates|
  {
    forall i :: 0 <= i < |ticks| && ticks[i].Poll? ==>
      && ticks[i].candidates == candidates
      && Eligible(RunOf(start, ticks[..i], pollInterval, maxIdle).backoff, candidates[position], ticks[i].now)
  }

  /** Served already, or closer than the serves so far account for. */
  ghost predicate Approached(start: Run, run: Run, candidates: seq<string>, position: nat)
    requires position < |candidates|
  {
    && RoundStart(candidates, start.lastServed) < |candidates|
    && RoundStart(candidates, run.lastServed) < |candidates|
    && (candidates[position] in Serves(run.log) ||
        |Serves(run.log)| + Distance(|candidates|, RoundStart(candidates, run.lastServed), position) <=
          Distance(|candidates|, RoundStart(candidates, start.lastServed), position))
  }

  lemma StepApproaches(
    start: Run, run: Run, tick: Tick, candidates: seq<string>, position: nat, pollInterval: nat, maxIdle: nat)
    requires Distinct(candidates) && position < |candidates|
    requires Approached(start, run, candidates, position)
    requires tick.Poll? ==> tick.candidates == candidates && Eligible(run.backoff, candidates[position], tick.now)
    ensures Approached(start, Step(run, tick, pollInterval, maxIdle), candidates, position)
  {
    hide Distance, RoundStart, NextProject, Distinct, BackoffDelay;
    ServesAppend(run.log, Turn(tick, None));
    if tick.Poll? {
      var kept := StillCandidates(run.backoff, candidates);
      SelectionApproaches(candidates, kept, tick.now, run.lastServed, position);
      ServesAppend(run.log, Turn(tick, NextProject(candidates, kept, tick.now, run.lastServed)));
    }
  }

  lemma {:induction false} RoundsApproach(
    start: Run, ticks: seq<Tick>, candidates: seq<string>, position: nat, pollInterval: nat, maxIdle: nat)
    requires Distinct(candidates) && position < |candidates| && start.log == []
    requires StaysEligible(start, ticks, candidates, position, pollInterval, maxIdle)
    ensures Approached(start, RunOf(start, ticks, pollInterval, maxIdle), candidates, position)
  {
    hide Step, Approached, Eligible, Distinct;
    if ticks == [] {
      NothingServedYet(start, candidates, position);
    } else {
      var rest := ticks[..|ticks| - 1];
      forall i | 0 <= i < |rest| && rest[i].Poll?
        ensures rest[i].candidates == candidates
        ensures Eligible(RunOf(start, rest[..i], pollInterval, maxIdle).backoff, candidates[position], rest[i].now)
      {
        assert rest[i] == ticks[i] && rest[..i] == ticks[..i];
      }
      RoundsApproach(start, rest, candidates, position, pollInterval, maxIdle);
      var before := RunOf(start, rest, pollInterval, maxIdle);
      if before.stop.None? {
        StepApproaches(start, before, ticks[|ticks| - 1], candidates, position, pollInterval, maxIdle);
      }
    }
  }

  lemma NothingServedYet(start: Run, candidates: seq<string>, position: nat)
    requires position < |candidates| && start.log == []
    ensures Approached(start, start, candidates, position)
  {
    RoundStartInRange(candidates, start.lastServed);
  }

  /**
   Bounded waiting: from any point of a run, a project that stays a candidate and out of
   backoff is among the next n projects served, n being the number of candidates,
   however the others enter and leave backoff.
   */
  lemma BoundedWaiting(
    start: Run, ticks: seq<Tick>, candidates: seq<string>, position: nat, pollInterval: nat, maxIdle: nat)
    requires Distinct(candidates) && position < |candidates| && start.log == []
    requires StaysEligible(start, ticks, candidates, position, pollInterval, maxIdle)
    requires |Serves(RunOf(start, ticks, pollInterval, maxIdle).log)| >= |candidates|
    ensures candidates[position] in Serves(RunOf(start, ticks, pollInterval, maxIdle).log)
  {
    RoundsApproach(start, ticks, candidates, position, pollInterval, maxIdle);
    DistanceReaches(|candidates|, RoundStart(candidates, start.lastServed), position);
  }

  // ----- What the turns taken so far say, without the loop's counters and tables

  /** Failures of a project in a row, since its last completed pass and while it stayed a
      candidate; a pass that another instance owned counts neither way. */
  ghost function Streak(log: seq<Turn>, project: string): nat {
    if log == [] then 0 else NextStreak(Streak(log[..|log| - 1], project), log[|log| - 1], project)
  }

  ghost function NextStreak(streak: nat, turn: Turn, project: string): nat {
    if !turn.tick.Poll? then streak
    else
      var sighted := if project in turn.tick.candidates then streak else 0;
      if turn.served != Some(project) || turn.tick.pass.InstanceOwned? then sighted
      else if turn.tick.pass.Completed? then 0 else sighted + 1
  }

  /** The turn ran a pass of the project, which failed. */
  predicate Fails(turn: Turn, project: string) {
    turn.tick.Poll? && turn.served == Some(project) && turn.tick.pass.PassFailed?
  }

  /** When the latest failure of a project ended. */
  ghost function LastFailureEnd(log: seq<Turn>, project: string): nat {
    if log == [] then 0
    else if Fails(log[|log| - 1], project) then log[|log| - 1].tick.pass.end
    else LastFailureEnd(log[..|log| - 1], project)
  }

  ghost function LastServed(log: seq<Turn>): Option<string> {
    if log == [] then None
    else if log[|log| - 1].served.Some? then log[|log| - 1].served else LastServed(log[..|log| - 1])
  }

  /** Nobody could be served; a busy ledger says nothing either way. */
  predicate IsIdle(turn: Turn) {
    turn.tick.WindowClosed? || (turn.tick.Poll? && turn.served.None?)
  }

  /** The idle turns since the last one that served a project. */
  ghost function IdleTurns(log: seq<Turn>): nat {
    if log == [] || log[|log| - 1].served.Some? then 0
    else IdleTurns(log[..|log| - 1]) + if IsIdle(log[|log| - 1]) then 1 else 0
  }

  predicate Completes(turn: Turn) {
    turn.tick.Poll? && turn.served.Some? && turn.tick.pass.Completed?
  }

  ghost function Completions(log: seq<Turn>): nat {
    if log == [] then 0 else Completions(log[..|log| - 1]) + if Completes(log[|log| - 1]) then 1 else 0
  }

  ghost function Failures(log: seq<Turn>): seq<Failure> {
    if log == [] then []
    else
      var rest, last := Failures(log[..|log| - 1]), log[|log| - 1];
      if last.served.Some? && Fails(last, last.served.value)
      then rest + [Failure(last.served.value, last.tick.pass.message)] else rest
  }

  lemma TurnAppends(log: seq<Turn>, turn: Turn)
    ensures IdleTurns(log + [turn]) == if turn.served.Some? then 0 else IdleTurns(log) + if IsIdle(turn) then 1 else 0
    ensures LastServed(log + [turn]) == if turn.served.Some? then turn.served else LastServed(log)
    ensures Completions(log + [turn]) == Completions(log) + if Completes(turn) then 1 else 0
    ensures Failures(log + [turn]) ==
      if turn.served.Some? && Fails(turn, turn.served.value)
      then Failures(log) + [Failure(turn.served.value, turn.tick.pass.message)] else Failures(log)
  {
    assert (log + [turn])[..|log|] == log;
  }

  lemma StreakAppend(log: seq<Turn>, turn: Turn, project: string)
    ensures Streak(log + [turn], project) == NextStreak(Streak(log, project), turn, project)
    ensures LastFailureEnd(log + [turn], project) ==
      if Fails(turn, project) then turn.tick.pass.end else LastFailureEnd(log, project)
  {
    assert (log + [turn])[..|log|] == log;
  }

  /** How long a project rests after so many failures in a row. */
  function Rest(failures: nat, pollInterval: nat): nat
    requires failures > 0
  {
    Min(Max(pollInterval, SECOND) * Pow2(failures - 1), SUPERVISOR_MAX_PROJECT_BACKOFF)
  }

  /** A candidate may be served once it has rested since its latest failure. */
  ghost predicate IsReady(log: seq<Turn>, project: string, now: nat, pollInterval: nat) {
    Streak(log, project) > 0 ==> LastFailureEnd(log, project) + Rest(Streak(log, project), pollInterval) <= now
  }

  /** The round begins right behind the project served last, if it is still a candidate. */
  ghost predicate RoundBegins(candidates: seq<string>, last: Option<string>, k: nat) {
    if last.Some? && last.value in candidates
    then
      && 0 < k <= |candidates| && candidates[k - 1] == last.value
      && forall i :: 0 <= i < k - 1 ==> candidates[i] != last.value
    else k == 0
  }

  /** The first ready project of the round, or none if none is ready. */
  ghost predicate FirstReady(log: seq<Turn>, round: seq<string>, now: nat, pollInterval: nat, choice: Option<string>) {
    match choice
    case None => forall i :: 0 <= i < |round| ==> !IsReady(log, round[i], now, pollInterval)
    case Some(project) =>
      exists i :: 0 <= i < |round| && round[i] == project && IsReady(log, project, now, pollInterval)
        && forall j :: 0 <= j < i ==> !IsReady(log, round[j], now, pollInterval)
  }

  /** A turn that polls serves the first ready project of its round; any other serves nobody. */
  ghost predicate ServesRightly(log: seq<Turn>, turn: Turn, pollInterval: nat) {
    match turn.tick
    case Poll(candidates, now, _) =>
      exists k: nat :: k <= |candidates| && RoundBegins(candidates, LastServed(log), k)
        && FirstReady(log, candidates[k..] + candidates[..k], now, pollInterval, turn.served)
    case _ => turn.served.None?
  }

  /** The latest turn was idle, and made the idle turns as many as allowed; zero allows any number. */
  ghost predicate IdleTooLong(log: seq<Turn>, maxIdle: nat) {
    log != [] && IsIdle(log[|log| - 1]) && maxIdle > 0 && Min(IdleTurns(log), U64_MAX) >= maxIdle
  }

  ghost function ReasonOf(turn: Turn): Reason {
    match turn.tick
    case Poll(candidates, _, _) => if candidates == [] then NoWork else AllBackingOff
    case _ => OutsideWindow
  }

  /** What the latest turn makes of the run: it stops at a broken ledger or after too many idle turns. */
  ghost function StopAfter(log: seq<Turn>, maxIdle: nat): Option<Stop> {
    if log == [] then None
    else if log[|log| - 1].tick.StoreBroken? then Some(Broken)
    else if IdleTooLong(log, maxIdle) then
      var failures := Failures(log);
      Some(Finished(
        failures == [],
        Report(ReasonOf(log[|log| - 1]), Min(IdleTurns(log), U64_MAX), Min(Completions(log), U64_MAX),
               Min(|failures|, U64_MAX), if failures == [] then None else Some(failures[|failures| - 1]))))
    else None
  }

  /** Every turn served rightly, and no turn was taken after the run had reason to stop. */
  ghost predicate RightTurns(log: seq<Turn>, pollInterval: nat, maxIdle: nat) {
    forall i :: 0 <= i < |log| ==> ServesRightly(log[..i], log[i], pollInterval) && StopAfter(log[..i], maxIdle).None?
  }

  /** The turns are those of the ticks, as many as there were until the run had reason to stop. */
  ghost predicate TurnsOf(log: seq<Turn>, ticks: seq<Tick>, maxIdle: nat) {
    && |log| <= |ticks|
    && (forall i :: 0 <= i < |log| ==> log[i].tick == ticks[i])
    && (|log| < |ticks| ==> StopAfter(log, maxIdle).Some?)
  }

  lemma RightTurnsAppend(log: seq<Turn>, turn: Turn, pollInterval: nat, maxIdle: nat)
    requires RightTurns(log, pollInterval, maxIdle)
    requires ServesRightly(log, turn, pollInterval) && StopAfter(log, maxIdle).None?
    ensures RightTurns(log + [turn], pollInterval, maxIdle)
  {
    hide ServesRightly, StopAfter;
    forall i | 0 <= i < |log + [turn]|
      ensures ServesRightly((log + [turn])[..i], (log + [turn])[i], pollInterval)
      ensures StopAfter((log + [turn])[..i], maxIdle).None?
    {
      assert (log + [turn])[..i] == log[..i];
      assert i == |log| ==> log[..i] == log;
    }
  }

  // ----- The loop's counters and tables agree with the turns

  /** The backoff table is exactly what the turns say about failures in a row. */
  ghost predicate Tracks(backoff: map<string, Backoff>, log: seq<Turn>, pollInterval: nat) {
    forall p :: TracksProject(backoff, log, pollInterval, p)
  }

  ghost predicate TracksProject(backoff: map<string, Backoff>, log: seq<Turn>, pollInterval: nat, p: string) {
    var k := Streak(log, p);
    && (p in backoff <==> k > 0)
    && (p in backoff ==>
          && backoff[p].failures == Min(k, U32_MAX)
          && backoff[p].retryAt == LastFailureEnd(log, p) + BackoffDelay(pollInterval, backoff[p].failures))
  }

  /** Saturating the failure count at 32 bits does not shorten the rest. */
  lemma DelayOfStreak(pollInterval: nat, k: nat)
    requires k > 0
    ensures BackoffDelay(pollInterval, Min(k, U32_MAX)) == Rest(k, pollInterval)
  {
    hide Pow2, BackoffDelay;
    ClampIsInvisible(pollInterval, Min(k, U32_MAX));
    if k > U32_MAX {
      SixteenDoublingsExceedTheCap(Max(pollInterval, SECOND), U32_MAX - 1);
      SixteenDoublingsExceedTheCap(Max(pollInterval, SECOND), k - 1);
    }
  }

  /** A candidate is out of backoff exactly when it has rested. */
  lemma EligibleIsReady(
    backoff: map<string, Backoff>, log: seq<Turn>, candidates: seq<string>, pollInterval: nat, p: string, now: nat)
    requires Tracks(backoff, log, pollInterval) && p in candidates
    ensures Eligible(StillCandidates(backoff, candidates), p, now) <==> IsReady(log, p, now, pollInterval)
  {
    hide BackoffDelay, Rest;
    assert TracksProject(backoff, log, pollInterval, p);
    if Streak(log, p) > 0 {
      DelayOfStreak(pollInterval, Streak(log, p));
    }
  }

  /** The modular arithmetic of the search walks the candidates from the beginning of the round. */
  lemma RoundAt(candidates: seq<string>, k: nat, offset: nat)
    requires k <= |candidates| && offset < |candidates|
    ensures (candidates[k..] + candidates[..k])[offset] == candidates[(k % |candidates| + offset) % |candidates|]
  {
    var n := |candidates|;
    WrapAround(k, n);
    WrapAround(k % n + offset, n);
  }

  lemma {:induction false} PositionIsFirst(candidates: seq<string>, project: string, i: nat)
    requires i <= |candidates|
    ensures match Position(candidates, project, i)
      case None => forall j :: i <= j < |candidates| ==> candidates[j] != project
      case Some(index) =>
        && i <= index < |candidates| && candidates[index] == project
        && forall j :: i <= j < index ==> candidates[j] != project
    decreases |candidates| - i
  {
    if i < |candidates| && candidates[i] != project {
      PositionIsFirst(candidates, project, i + 1);
    }
  }

  lemma RoundStartBegins(candidates: seq<string>, last: Option<string>) returns (k: nat)
    requires candidates != []
    ensures k <= |candidates| && RoundBegins(candidates, last, k) && RoundStart(candidates, last) == k % |candidates|
  {
    k := 0;
    if last.Some? {
      PositionIsFirst(candidates, last.value, 0);
      var index := Position(candidates, last.value, 0);
      if index.Some? {
        k := index.value + 1;
      }
    }
  }

  /** The search of the loop finds the project that the turns so far call for. */
  lemma ChoiceIsRight(backoff: map<string, Backoff>, log: seq<Turn>, tick: Tick, pollInterval: nat)
    requires Tracks(backoff, log, pollInterval) && tick.Poll?
    ensures
      var kept := StillCandidates(backoff, tick.candidates);
      ServesRightly(log, Turn(tick, NextProject(tick.candidates, kept, tick.now, LastServed(log))), pollInterval)
  {
    hide Tracks, Eligible, IsReady, LastServed, RoundStart, RoundBegins;
    var candidates, now := tick.candidates, tick.now;
    var kept := StillCandidates(backoff, candidates);
    var k: nat := 0;
    if candidates == [] {
      assert RoundBegins([], LastServed(log), 0) by {
        NoRoundBegins(LastServed(log));
      }
    } else {
      k := RoundStartBegins(candidates, LastServed(log));
      var round, start := candidates[k..] + candidates[..k], RoundStart(candidates, LastServed(log));
      forall i | 0 <= i < |round|
        ensures Blocked(candidates, kept, now, start, i) <==> !IsReady(log, round[i], now, pollInterval)
      {
        RoundAt(candidates, k, i);
        EligibleIsReady(backoff, log, candidates, pollInterval, round[i], now);
      }
      FindFromFindsFirst(candidates, kept, now, start, 0);
      var found := FindFrom(candidates, kept, now, start, 0);
      if found.Some? {
        RoundAt(candidates, k, found.value);
      }
    }
    assert FirstReady(log, candidates[k..] + candidates[..k], now, pollInterval,
                      NextProject(candidates, kept, now, LastServed(log)));
  }

  lemma NoRoundBegins(last: Option<string>)
    ensures RoundBegins([], last, 0)
  {
  }

  /** The backoff table after a turn. */
  lemma TurnKeepsTrack(r: Run, tick: Tick, served: Option<string>, pollInterval: nat)
    requires Tracks(r.backoff, r.log, pollInterval) && tick.Poll?
    requires served.Some? ==> served.value in tick.candidates
    ensures
      var seen := r.(backoff := StillCandidates(r.backoff, tick.candidates));
      var after := if served.Some? then Serve(seen, served.value, tick.pass, pollInterval) else seen;
      Tracks(after.backoff, r.log + [Turn(tick, served)], pollInterval)
  {
    hide BackoffDelay, Streak, LastFailureEnd;
    var seen := r.(backoff := StillCandidates(r.backoff, tick.candidates));
    var after := if served.Some? then Serve(seen, served.value, tick.pass, pollInterval) else seen;
    forall p ensures TracksProject(after.backoff, r.log + [Turn(tick, served)], pollInterval, p) {
      assert TracksProject(r.backoff, r.log, pollInterval, p);
      StreakAppend(r.log, Turn(tick, served), p);
    }
  }

  lemma QuietTurnKeepsTrack(backoff: map<string, Backoff>, log: seq<Turn>, tick: Tick, pollInterval: nat)
    requires Tracks(backoff, log, pollInterval) && !tick.Poll?
    ensures Tracks(backoff, log + [Turn(tick, None)], pollInterval)
  {
    hide BackoffDelay, Streak, LastFailureEnd;
    forall p ensures TracksProject(backoff, log + [Turn(tick, None)], pollInterval, p) {
      assert TracksProject(backoff, log, pollInterval, p);
      StreakAppend(log, Turn(tick, None), p);
    }
  }

  lemma SelectedIsEligible(candidates: seq<string>, backoff: map<string, Backoff>, now: nat, lastServed: Option<string>)
    requires NextProject(candidates, backoff, now, lastServed).Some?
    ensures var p := NextProject(candidates, backoff, now, lastServed).value;
      p in candidates && Eligible(backoff, p, now)
  {
    FindFromFindsFirst(candidates, backoff, now, RoundStart(candidates, lastServed), 0);
  }

  /** The counters are those of the turns, as far as a machine word goes. */
  ghost predicate Counts(r: Run) {
    var failures := Failures(r.log);
    && r.idle == Min(IdleTurns(r.log), U64_MAX)
    && r.completed == Min(Completions(r.log), U64_MAX)
    && r.failed == Min(|failures|, U64_MAX)
    && r.lastFailure == (if failures == [] then None else Some(failures[|failures| - 1]))
    && r.lastServed == LastServed(r.log)
  }

  /** What holds of every run, however its surroundings behave. */
  ghost predicate RunInvariant(r: Run, pollInterval: nat, maxIdle: nat) {
    && Tracks(r.backoff, r.log, pollInterval) && Counts(r)
    && RightTurns(r.log, pollInterval, maxIdle)
    && r.stop == StopAfter(r.log, maxIdle)
  }

  lemma StepCounts(r: Run, tick: Tick, pollInterval: nat, maxIdle: nat)
    requires Counts(r) && r.stop == None == StopAfter(r.log, maxIdle)
    ensures
      var t := Step(r, tick, pollInterval, maxIdle);
      Counts(t) && t.stop == StopAfter(t.log, maxIdle)
  {
    hide NextProject, Punish, StillCandidates, IdleTurns, LastServed, Completions, Failures;
    var served := Step(r, tick, pollInterval, maxIdle).log[|r.log|].served;
    TurnAppends(r.log, Turn(tick, served));
  }

  lemma StepKeepsInvariant(r: Run, tick: Tick, pollInterval: nat, maxIdle: nat)
    requires RunInvariant(r, pollInterval, maxIdle) && r.stop.None?
    ensures RunInvariant(Step(r, tick, pollInterval, maxIdle), pollInterval, maxIdle)
  {
    hide Tracks, RightTurns, NextProject, Punish, Counts, StopAfter;
    StepCounts(r, tick, pollInterval, maxIdle);
    LastServedCounts(r);
    var served: Option<string> := None;
    if tick.Poll? {
      var kept := StillCandidates(r.backoff, tick.candidates);
      ChoiceIsRight(r.backoff, r.log, tick, pollInterval);
      served := NextProject(tick.candidates, kept, tick.now, r.lastServed);
      if served.Some? {
        SelectedIsEligible(tick.candidates, kept, tick.now, r.lastServed);
      }
      TurnKeepsTrack(r, tick, served, pollInterval);
    } else {
      QuietTurnKeepsTrack(r.backoff, r.log, tick, pollInterval);
    }
    RightTurnsAppend(r.log, Turn(tick, served), pollInterval, maxIdle);
  }

  lemma LastServedCounts(r: Run)
    requires Counts(r)
    ensures r.lastServed == LastServed(r.log)
  {
  }

  /**
   Over every run each poll serves the first ready project of its round, ready meaning that
   min(base * 2^(k-1), one hour) has passed since the k-th failure in a row, and the run stops
   exactly at a broken ledger or when its idle turns reach the limit.
   */
  lemma {:induction false} RunsKeepInvariant(ticks: seq<Tick>, pollInterval: nat, maxIdle: nat)
    ensures RunInvariant(RunOf(START, ticks, pollInterval, maxIdle), pollInterval, maxIdle)
    ensures TurnsOf(RunOf(START, ticks, pollInterval, maxIdle).log, ticks, maxIdle)
  {
    hide Step, StopAfter;
    if ticks == [] {
      NothingTaken(pollInterval, maxIdle);
    } else {
      RunsKeepInvariant(ticks[..|ticks| - 1], pollInterval, maxIdle);
      var before := RunOf(START, ticks[..|ticks| - 1], pollInterval, maxIdle);
      if before.stop.None? {
        StepKeepsInvariant(before, ticks[|ticks| - 1], pollInterval, maxIdle);
        StepLogs(before, ticks[|ticks| - 1], pollInterval, maxIdle);
      }
    }
  }

  lemma StepLogs(r: Run, tick: Tick, pollInterval: nat, maxIdle: nat)
    ensures exists served :: Step(r, tick, pollInterval, maxIdle).log == r.log + [Turn(tick, served)]
  {
    hide NextProject;
    if tick.Poll? {
      var served := NextProject(tick.candidates, StillCandidates(r.backoff, tick.candidates), tick.now, r.lastServed);
      assert Step(r, tick, pollInterval, maxIdle).log == r.log + [Turn(tick, served)];
    } else {
      assert Step(r, tick, pollInterval, maxIdle).log == r.log + [Turn(tick, None)];
    }
  }

  lemma NothingTaken(pollInterval: nat, maxIdle: nat)
    ensures RunInvariant(START, pollInterval, maxIdle)
  {
    forall p ensures TracksProject(START.backoff, START.log, pollInterval, p) {
    }
  }

  // ----- What the turns mean

  lemma OneRightTurn(log: seq<Turn>, tick: Tick, served: Option<string>, other: Option<string>, pollInterval: nat)
    requires ServesRightly(log, Turn(tick, served), pollInterval) && ServesRightly(log, Turn(tick, other), pollInterval)
    ensures served == other
  {
    hide IsReady;
    if tick.Poll? {
      var candidates, last := tick.candidates, LastServed(log);
      assert forall j: nat, k: nat :: RoundBegins(candidates, last, j) && RoundBegins(candidates, last, k) ==> j == k;
    }
  }

  lemma {:induction false} SameTurnsSoFar(log: seq<Turn>, other: seq<Turn>, n: nat, pollInterval: nat, maxIdle: nat)
    requires n <= |log| && n <= |other| && forall i :: 0 <= i < n ==> log[i].tick == other[i].tick
    requires RightTurns(log, pollInterval, maxIdle) && RightTurns(other, pollInterval, maxIdle)
    ensures log[..n] == other[..n]
  {
    hide ServesRightly, StopAfter;
    if n > 0 {
      SameTurnsSoFar(log, other, n - 1, pollInterval, maxIdle);
      OneRightTurn(log[..n - 1], log[n - 1].tick, log[n - 1].served, other[n - 1].served, pollInterval);
    }
  }

  /** The rules leave no choice: they determine the turns, and with them when and how the run stops. */
  lemma RulesDetermineTurns(log: seq<Turn>, other: seq<Turn>, ticks: seq<Tick>, pollInterval: nat, maxIdle: nat)
    requires RightTurns(log, pollInterval, maxIdle) && RightTurns(other, pollInterval, maxIdle)
    requires TurnsOf(log, ticks, maxIdle) && TurnsOf(other, ticks, maxIdle)
    ensures log == other
  {
    hide ServesRightly, StopAfter;
    SameTurnsSoFar(log, other, Min(|log|, |other|), pollInterval, maxIdle);
    assert log[..|log|] == log && other[..|other|] == other;
    GoesOn(log, |other|, pollInterval, maxIdle);
    GoesOn(other, |log|, pollInterval, maxIdle);
  }

  lemma GoesOn(log: seq<Turn>, n: nat, pollInterval: nat, maxIdle: nat)
    requires RightTurns(log, pollInterval, maxIdle)
    ensures n < |log| ==> StopAfter(log[..n], maxIdle).None?
  {
    hide ServesRightly, StopAfter;
  }

  /** In the continuous mode, with no limit, no run ever finishes. */
  lemma ContinuousNeverFinishes(ticks: seq<Tick>, pollInterval: nat)
    ensures
      var stop := RunOf(START, ticks, pollInterval, 0).stop;
      stop.None? || stop.value.Broken?
  {
    RunsKeepInvariant(ticks, pollInterval, 0);
  }

  /** Nobody can be served in such a turn. */
  predicate IsQuiet(tick: Tick) {
    tick.WindowClosed? || (tick.Poll? && tick.candidates == [])
  }

  lemma QuietTurn(r: Run, tick: Tick, pollInterval: nat, maxIdle: nat)
    requires IsQuiet(tick)
    ensures
      var log := Step(r, tick, pollInterval, maxIdle).log;
      log != [] && IsIdle(log[|log| - 1]) && IdleTurns(log) == IdleTurns(r.log) + 1
  {
    TurnAppends(r.log, Turn(tick, None));
  }

  /** Stopped already, or with an idle turn for each of these. */
  lemma {:induction false} QuietTurnsCount(ticks: seq<Tick>, quiet: seq<Tick>, pollInterval: nat, maxIdle: nat)
    requires forall i :: 0 <= i < |quiet| ==> IsQuiet(quiet[i])
    ensures
      var r := RunOf(START, ticks + quiet, pollInterval, maxIdle);
      r.stop.Some? || (IdleTurns(r.log) >= |quiet| && (quiet != [] ==> r.log != [] && IsIdle(r.log[|r.log| - 1])))
  {
    hide Step, IsQuiet, IdleTurns;
    if quiet != [] {
      var rest := quiet[..|quiet| - 1];
      QuietTurnsCount(ticks, rest, pollInterval, maxIdle);
      assert (ticks + quiet)[..|ticks + quiet| - 1] == ticks + rest;
      QuietTurn(RunOf(START, ticks + rest, pollInterval, maxIdle), quiet[|quiet| - 1], pollInterval, maxIdle);
    }
  }

  /** With a limit, a run stops no later than after so many quiet turns in a row, whatever came before. */
  lemma QuietRunsStop(ticks: seq<Tick>, quiet: seq<Tick>, pollInterval: nat, maxIdle: nat)
    requires 0 < maxIdle <= U64_MAX && |quiet| == maxIdle && forall i :: 0 <= i < |quiet| ==> IsQuiet(quiet[i])
    ensures RunOf(START, ticks + quiet, pollInterval, maxIdle).stop.Some?
  {
    hide Tracks, Counts, RightTurns, TurnsOf, Failures, Completions, IdleTurns, IsIdle, IsQuiet, RunOf;
    QuietTurnsCount(ticks, quiet, pollInterval, maxIdle);
    RunsKeepInvariant(ticks + quiet, pollInterval, maxIdle);
  }

  lemma RunOfNothing(start: Run, ticks: seq<Tick>, pollInterval: nat, maxIdle: nat)
    ensures RunOf(start, ticks[..0], pollInterval, maxIdle) == start
  {
  }

  lemma RunOfNext(start: Run, ticks: seq<Tick>, i: nat, pollInterval: nat, maxIdle: nat)
    requires i < |ticks| && RunOf(start, ticks[..i], pollInterval, maxIdle).stop.None?
    ensures RunOf(start, ticks[..i + 1], pollInterval, maxIdle) ==
      Step(RunOf(start, ticks[..i], pollInterval, maxIdle), ticks[i], pollInterval, maxIdle)
  {
    assert ticks[..i + 1][..i] == ticks[..i];
  }

  /** The supervisor's loop over its counters, its backoff table and the last project served. */
  method Supervise(ticks: seq<Tick>, pollInterval: nat, maxIdle: nat) returns (stop: Option<Stop>, log: seq<Turn>)
    ensures stop == RunOf(START, ticks, pollInterval, maxIdle).stop
    ensures log == RunOf(START, ticks, pollInterval, maxIdle).log
    ensures RightTurns(log, pollInterval, maxIdle) && TurnsOf(log, ticks, maxIdle)
    ensures stop == StopAfter(log, maxIdle)
    ensures stop.Some? && stop.value.Finished? ==> maxIdle > 0
  {
    hide RunOf, NextProject, BackoffDelay, StillCandidates, RightTurns, TurnsOf, Failures, IdleTurns, Completions;
    RunOfNothing(START, ticks, pollInterval, maxIdle);
    var idlePolls: nat, completedPasses: nat, failedPasses: nat := 0, 0, 0;
    var lastFailure: Option<Failure> := None;
    var backoff: map<string, Backoff> := map[];
    var lastServed: Option<string> := None;
    stop, log := None, [];
    var i := 0;
    while i < |ticks| && stop.None?
      invariant i <= |ticks|
      invariant RunOf(START, ticks[..i], pollInterval, maxIdle) ==
        Run(idlePolls, completedPasses, failedPasses, lastFailure, backoff, lastServed, stop, log)
    {
      var tick := ticks[i];
      RunOfNext(START, ticks, i, pollInterval, maxIdle);
      i := i + 1;
      match tick
      case StoreBusy => log := log + [Turn(tick, None)];
      case StoreBroken => stop, log := Some(Broken), log + [Turn(tick, None)];
      case WindowClosed =>
        idlePolls, log := SaturatingAdd(idlePolls, 1), log + [Turn(tick, None)];
        if maxIdle != 0 && idlePolls >= maxIdle {
          stop := Some(Finished(failedPasses == 0,
                                Report(OutsideWindow, idlePolls, completedPasses, failedPasses, lastFailure)));
        }
      case Poll(candidates, now, pass) =>
        backoff := StillCandidates(backoff, candidates);
        var next := NextProject(candidates, backoff, now, lastServed);
        log := log + [Turn(tick, next)];
        if next.None? {
          idlePolls := SaturatingAdd(idlePolls, 1);
          if maxIdle != 0 && idlePolls >= maxIdle {
            var reason := if candidates == [] then NoWork else AllBackingOff;
            stop := Some(Finished(failedPasses == 0,
                                  Report(reason, idlePolls, completedPasses, failedPasses, lastFailure)));
          }
        } else {
          var project := next.value;
          lastServed, idlePolls := Some(project), 0;
          match pass
          case Completed =>
            completedPasses, backoff := SaturatingAdd(completedPasses, 1), backoff - {project};
          case InstanceOwned =>
          case PassFailed(end, message) =>
            failedPasses, lastFailure := SaturatingAdd(failedPasses, 1), Some(Failure(project, message));
            var failures := Min((if project in backoff then backoff[project].failures else 0) + 1, U32_MAX);
            backoff := backoff[project := Backoff(failures, end + BackoffDelay(pollInterval, failures))];
        }
    }
    StoppedStays(START, ticks, i, pollInterval, maxIdle);
    RunsKeepInvariant(ticks, pollInterval, maxIdle);
  }

  lemma {:induction false} StoppedStays(start: Run, ticks: seq<Tick>, i: nat, pollInterval: nat, maxIdle: nat)
    requires i <= |ticks|
    requires i == |ticks| || RunOf(start, ticks[..i], pollInterval, maxIdle).stop.Some?
    ensures RunOf(start, ticks, pollInterval, maxIdle) == RunOf(start, ticks[..i], pollInterval, maxIdle)
  {
    if i == |ticks| {
      assert ticks[..i] == ticks;
    } else {
      var rest := ticks[..|ticks| - 1];
      assert rest[..i] == ticks[..i];
      StoppedStays(start, rest, i, pollInterval, maxIdle);
    }
  }
}
