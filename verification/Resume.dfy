/**
 The resumable bring-up (`up` in `just/stack.just`; `gate`, `run` and `probe` in
 `tools/domo-bootstrap/src/state.rs`): ten stages, their markers, the re-probe and the interruption hook.
 */
module Resume {
  import opened Common

  datatype Stage =
    | Preflight | Pki | AxiamUp | OrgBootstrap | Tenants | Catalog | ServiceCerts | Broker | PlatformUp | Verify

  const STAGES: seq<Stage> :=
    [Preflight, Pki, AxiamUp, OrgBootstrap, Tenants, Catalog, ServiceCerts, Broker, PlatformUp, Verify]

  predicate Resumable(s: Stage) { s != Preflight && s != Verify }

  predicate BootstrapOwned(s: Stage) {
    s == OrgBootstrap || s == Tenants || s == Catalog || s == ServiceCerts || s == Broker
  }

  /** With the marker a stage writes itself, inside its container; the others' are written by the recipe. */
  function SelfMarked(markers: set<Stage>, s: Stage): set<Stage> {
    if BootstrapOwned(s) then markers + {s} else markers
  }

  /** The markers on disk, and the stages whose work is really there. */
  datatype Machine = Machine(markers: set<Stage>, work: set<Stage>)

  /**
   How a stage that runs ends: done, failed or killed before its work landed, or after it, or after the
   marker that a bootstrap-owned stage writes itself.
   */
  datatype Ending = Finishes | FailsBefore | FailsAfter | FailsMarked

  /** What one run meets: each stage's probe answer and, if it runs, its ending. */
  datatype Luck = Luck(probe: Stage -> bool, ending: Stage -> Ending)

  datatype Line = Skipped(stage: Stage) | Resuming(stage: Stage) | Ran(stage: Stage)

  /** The machine a run leaves, the stage it died at if it did, and the lines it printed. */
  datatype Report = Report(machine: Machine, died: Option<Stage>, lines: seq<Line>)

  /** Where a run stands between two stages: the machine, the loop's two variables, and its output. */
  datatype Point = Point(machine: Machine, skipped: nat, resumed: bool, lines: seq<Line>)

  function AfterRun(now: Machine, s: Stage): Machine { Machine(now.markers + {s}, now.work + {s}) }

  /** The first resumable stage to run after a skip is announced. */
  function Announced(p: Point, s: Stage): Point {
    if !p.resumed && p.skipped > 0 && Resumable(s) then p.(resumed := true, lines := p.lines + [Resuming(s)]) else p
  }

  /** A stage that is not skipped: it gets through, or the run dies at it. */
  function StageRun(p: Point, s: Stage, luck: Luck, failAt: Option<Stage>): Result<Point, Report> {
    if BootstrapOwned(s) && failAt == Some(s) then Err(Report(p.machine, Some(s), p.lines))
    else
      var m := p.machine;
      match luck.ending(s)
      case FailsBefore => Err(Report(m, Some(s), p.lines))
      case FailsAfter => Err(Report(m.(work := m.work + {s}), Some(s), p.lines))
      case FailsMarked => Err(Report(Machine(SelfMarked(m.markers, s), m.work + {s}), Some(s), p.lines))
      case Finishes => Ok(p.(machine := AfterRun(m, s), lines := p.lines + [Ran(s)]))
  }

  function StageAt(p: Point, s: Stage, luck: Luck, failAt: Option<Stage>): Result<Point, Report> {
    if !BootstrapOwned(s) && failAt == Some(s) then Err(Report(p.machine, Some(s), p.lines))
    else if Resumable(s) && s in p.machine.markers && luck.probe(s) then
      Ok(p.(skipped := p.skipped + 1, lines := p.lines + [Skipped(s)]))
    else StageRun(Announced(p, s), s, luck, failAt)
  }

  /** A run from its `k`-th stage on. */
  function UpFrom(p: Point, k: nat, luck: Luck, failAt: Option<Stage>): Report
    requires k <= 10
    decreases 10 - k
  {
    if k == 10 then Report(p.machine, None, p.lines)
    else
      match StageAt(p, STAGES[k], luck, failAt)
      case Err(report) => report
      case Ok(next) => UpFrom(next, k + 1, luck, failAt)
  }

  lemma UpFromNext(p: Point, k: nat, luck: Luck, failAt: Option<Stage>, stage: Result<Point, Report>)
    requires k < 10 && stage == StageAt(p, STAGES[k], luck, failAt)
    ensures UpFrom(p, k, luck, failAt) ==
            match stage { case Err(report) => report case Ok(next) => UpFrom(next, k + 1, luck, failAt) }
  {
  }

  function Start(m: Machine): Point { Point(m, 0, false, []) }

  function Up(m: Machine, luck: Luck, failAt: Option<Stage>): Report { UpFrom(Start(m), 0, luck, failAt) }

  /** The machine as the recipe changes it: marker files written, work done by the stages. */
  class Host {
    var markers: set<Stage>
    var work: set<Stage>

    constructor (m: Machine)
      ensures markers == m.markers && work == m.work
    {
      markers, work := m.markers, m.work;
    }

    function Now(): Machine
      reads this
    {
      Machine(markers, work)
    }

    /** One stage's work; if it is the bootstrap's own, gated before it and marked after it in the container. */
    method RunStage(s: Stage, luck: Luck, failAt: Option<Stage>) returns (ok: bool)
      modifies this
      ensures var gated, ending := BootstrapOwned(s) && failAt == Some(s), luck.ending(s);
              && (ok <==> !gated && ending == Finishes)
              && work == (if gated || ending == FailsBefore then old(work) else old(work) + {s})
              && markers == (if !gated && (ending == Finishes || ending == FailsMarked)
                             then SelfMarked(old(markers), s) else old(markers))
    {
      if BootstrapOwned(s) && failAt == Some(s) {
        return false;
      }
      ok := luck.ending(s) == Finishes;
      if luck.ending(s) != FailsBefore {
        work := work + {s};
      }
      if ok || luck.ending(s) == FailsMarked {
        markers := SelfMarked(markers, s);
      }
    }

    /** One turn of the loop: the hook, the re-probe, or the stage itself. */
    method Turn(s: Stage, luck: Luck, failAt: Option<Stage>, before: Point) returns (ok: bool, after: Point)
      requires before.machine == Now()
      modifies this
      ensures after.machine == Now()
      ensures StageAt(before, s, luck, failAt) == if ok then Ok(after) else Err(Report(Now(), Some(s), after.lines))
    {
      after := before;
      if !BootstrapOwned(s) && failAt == Some(s) {
        return false, after;
      }
      if Resumable(s) && s in markers && luck.probe(s) {
        return true, after.(skipped := after.skipped + 1, lines := after.lines + [Skipped(s)]);
      }
      if !after.resumed && after.skipped > 0 && Resumable(s) {
        after := after.(resumed := true, lines := after.lines + [Resuming(s)]);
      }
      ok := RunStage(s, luck, failAt);
      if ok {
        if !BootstrapOwned(s) {
          markers := markers + {s};
        }
        after := after.(lines := after.lines + [Ran(s)]);
      }
      after := after.(machine := Now());
    }

    /** The loop of `up`. */
    method Run(luck: Luck, failAt: Option<Stage>) returns (died: Option<Stage>, lines: seq<Line>)
      modifies this
      ensures Report(Now(), died, lines) == Up(old(Now()), luck, failAt)
    {
      var at := Point(Now(), 0, false, []);
      ghost var whole := Up(Now(), luck, failAt);
      for k := 0 to 10
        invariant at.machine == Now()
        invariant UpFrom(at, k, luck, failAt) == whole
      {
        var ok, next := Turn(STAGES[k], luck, failAt, at);
        UpFromNext(at, k, luck, failAt, if ok then Ok(next) else Err(Report(Now(), Some(STAGES[k]), next.lines)));
        at := next;
        if !ok {
          return Some(STAGES[k]), at.lines;
        }
      }
      died, lines := None, at.lines;
    }
  }

  // ---------------------------------------------------------------- what a run establishes

  ghost predicate Skips(m: Machine, luck: Luck, s: Stage) { Resumable(s) && s in m.markers && luck.probe(s) }

  /** Whenever the probe of a marked stage would say done, it is. */
  ghost predicate Truthful(m: Machine, luck: Luck) {
    forall s :: Skips(m, luck, s) ==> s in m.work
  }

  ghost predicate Before(s: Stage, k: nat) { exists i | 0 <= i < k && i < 10 :: STAGES[i] == s }

  lemma {:induction false} StagesAreDistinct(i: nat, j: nat)
    requires i < 10 && j < 10 && STAGES[i] == STAGES[j]
    ensures i == j
  {
  }

  lemma EveryStageIsListed(s: Stage)
    ensures Before(s, 10)
  {
    var i := match s
      case Preflight => 0 case Pki => 1 case AxiamUp => 2 case OrgBootstrap => 3 case Tenants => 4
      case Catalog => 5 case ServiceCerts => 6 case Broker => 7 case PlatformUp => 8 case Verify => 9;
    assert STAGES[i] == s;
  }

  lemma BeforeStep(s: Stage, k: nat)
    requires k < 10
    ensures Before(s, k + 1) <==> Before(s, k) || s == STAGES[k]
  {
  }

  ghost predicate MarkerAt(m: Machine, now: Machine, k: nat, s: Stage) {
    if Before(s, k) then s in now.markers else s in now.markers <==> s in m.markers
  }

  ghost predicate WorkAt(m: Machine, now: Machine, luck: Luck, k: nat, s: Stage) {
    s in now.work <==> s in m.work || (Before(s, k) && !Skips(m, luck, s))
  }

  /** After `k` stages of a run that began as `m`: markers and work changed by the earlier stages only. */
  ghost predicate Progress(m: Machine, now: Machine, luck: Luck, k: nat) {
    forall s :: MarkerAt(m, now, k, s) && WorkAt(m, now, luck, k, s)
  }

  lemma NotBeforeItself(k: nat)
    requires k < 10
    ensures !Before(STAGES[k], k)
  {
  }

  lemma ProgressSkip(m: Machine, now: Machine, luck: Luck, k: nat, s: Stage)
    requires k < 10 && s == STAGES[k] && Progress(m, now, luck, k) && Skips(m, luck, s)
    ensures Progress(m, now, luck, k + 1)
  {
    NotBeforeItself(k);
    var n := k + 1;
    forall t ensures MarkerAt(m, now, n, t) && WorkAt(m, now, luck, n, t) {
      BeforeStep(t, k);
      assert MarkerAt(m, now, k, t) && WorkAt(m, now, luck, k, t);
    }
  }

  lemma ProgressRun(m: Machine, now: Machine, luck: Luck, k: nat, s: Stage)
    requires k < 10 && s == STAGES[k] && Progress(m, now, luck, k) && !Skips(m, luck, s)
    ensures Progress(m, Machine(now.markers + {s}, now.work + {s}), luck, k + 1)
  {
    var n, after := k + 1, Machine(now.markers + {s}, now.work + {s});
    forall t ensures MarkerAt(m, after, n, t) && WorkAt(m, after, luck, n, t) {
      BeforeStep(t, k);
      assert MarkerAt(m, now, k, t) && WorkAt(m, now, luck, k, t);
    }
  }

  /** The hook stops a run here: always for a host stage, for the bootstrap's own only if it is not skipped. */
  ghost predicate Hooked(m: Machine, luck: Luck, failAt: Option<Stage>, s: Stage) {
    failAt == Some(s) && (BootstrapOwned(s) ==> !Skips(m, luck, s))
  }

  /** The stage, if the run dies at it, has written its marker by then. */
  ghost predicate DiesMarked(m: Machine, luck: Luck, failAt: Option<Stage>, s: Stage) {
    BootstrapOwned(s) && luck.ending(s) == FailsMarked && !Hooked(m, luck, failAt, s)
  }

  ghost predicate Passes(m: Machine, luck: Luck, failAt: Option<Stage>, s: Stage) {
    !Hooked(m, luck, failAt, s) && (Skips(m, luck, s) || luck.ending(s) == Finishes)
  }

  /** A run that got through `k` stages: with all ten it succeeded, else it died at the next. */
  ghost predicate Stopped(m: Machine, out: Report, luck: Luck, failAt: Option<Stage>, k: nat) {
    && k <= 10
    && out.died == (if k == 10 then None else Some(STAGES[k]))
    && (k < 10 ==> !Passes(m, luck, failAt, STAGES[k]))
    && (forall s | k == 10 || s != STAGES[k] || !DiesMarked(m, luck, failAt, s) :: MarkerAt(m, out.machine, k, s))
    && (k < 10 && DiesMarked(m, luck, failAt, STAGES[k]) ==> STAGES[k] in out.machine.markers * out.machine.work)
    && (forall s | k == 10 || s != STAGES[k] || Hooked(m, luck, failAt, s) :: WorkAt(m, out.machine, luck, k, s))
  }

  lemma DiesHere(m: Machine, now: Machine, k: nat, luck: Luck, failAt: Option<Stage>, out: Report)
    requires k < 10 && Progress(m, now, luck, k) && !Passes(m, luck, failAt, STAGES[k])
    requires out.died == Some(STAGES[k])
    requires out.machine == now || !Hooked(m, luck, failAt, STAGES[k])
    requires out.machine.work == now.work || out.machine.work == now.work + {STAGES[k]}
    requires if DiesMarked(m, luck, failAt, STAGES[k]) then out.machine == AfterRun(now, STAGES[k])
             else out.machine.markers == now.markers
    ensures Stopped(m, out, luck, failAt, k)
  {
    forall s | s != STAGES[k] || !DiesMarked(m, luck, failAt, s) ensures MarkerAt(m, out.machine, k, s) {
      assert MarkerAt(m, now, k, s);
    }
    forall s | s != STAGES[k] || Hooked(m, luck, failAt, s) ensures WorkAt(m, out.machine, luck, k, s) {
      assert MarkerAt(m, now, k, s) && WorkAt(m, now, luck, k, s);
    }
  }

  lemma StopsHere(m: Machine, p: Point, k: nat, luck: Luck, failAt: Option<Stage>)
    requires k < 10 && Progress(m, p.machine, luck, k) && !Passes(m, luck, failAt, STAGES[k])
    ensures StageAt(p, STAGES[k], luck, failAt).Err?
    ensures Stopped(m, StageAt(p, STAGES[k], luck, failAt).error, luck, failAt, k)
  {
    NotBeforeItself(k);
    assert MarkerAt(m, p.machine, k, STAGES[k]);
    DiesHere(m, p.machine, k, luck, failAt, StageAt(p, STAGES[k], luck, failAt).error);
  }

  lemma SucceedsHere(m: Machine, now: Machine, luck: Luck, failAt: Option<Stage>, out: Report)
    requires Progress(m, now, luck, 10) && out.died.None? && out.machine == now
    ensures Stopped(m, out, luck, failAt, 10)
  {
  }

  lemma SkipsOn(m: Machine, p: Point, k: nat, luck: Luck, failAt: Option<Stage>)
    requires k < 10 && Progress(m, p.machine, luck, k)
    requires Passes(m, luck, failAt, STAGES[k]) && Skips(m, luck, STAGES[k])
    ensures StageAt(p, STAGES[k], luck, failAt) ==
            Ok(p.(skipped := p.skipped + 1, lines := p.lines + [Skipped(STAGES[k])]))
    ensures Progress(m, p.machine, luck, k + 1)
  {
    NotBeforeItself(k);
    assert MarkerAt(m, p.machine, k, STAGES[k]);
    ProgressSkip(m, p.machine, luck, k, STAGES[k]);
  }

  /** Where a stage that runs and finishes leaves the run. */
  function Ended(p: Point, s: Stage): Point {
    var q := Announced(p, s);
    q.(machine := AfterRun(q.machine, s), lines := q.lines + [Ran(s)])
  }

  lemma RunsOn(m: Machine, p: Point, k: nat, luck: Luck, failAt: Option<Stage>)
    requires k < 10 && Progress(m, p.machine, luck, k)
    requires Passes(m, luck, failAt, STAGES[k]) && !Skips(m, luck, STAGES[k])
    ensures StageAt(p, STAGES[k], luck, failAt) == Ok(Ended(p, STAGES[k]))
    ensures Progress(m, Ended(p, STAGES[k]).machine, luck, k + 1)
  {
    NotBeforeItself(k);
    assert MarkerAt(m, p.machine, k, STAGES[k]);
    ProgressRun(m, p.machine, luck, k, STAGES[k]);
  }

  /** One stage of a run: it stops here, or goes on with the progress one further. */
  lemma StageDecides(m: Machine, p: Point, k: nat, luck: Luck, failAt: Option<Stage>)
    requires k < 10 && Progress(m, p.machine, luck, k)
    ensures var out := StageAt(p, STAGES[k], luck, failAt);
            && (out.Ok? <==> Passes(m, luck, failAt, STAGES[k]))
            && (out.Ok? ==> Progress(m, out.value.machine, luck, k + 1))
            && (out.Err? ==> Stopped(m, out.error, luck, failAt, k))
  {
    if !Passes(m, luck, failAt, STAGES[k]) {
      StopsHere(m, p, k, luck, failAt);
    } else if Skips(m, luck, STAGES[k]) {
      SkipsOn(m, p, k, luck, failAt);
    } else {
      RunsOn(m, p, k, luck, failAt);
    }
  }

  /** Where a run stops: at the first stage that does not pass. */
  lemma {:induction false} RunStops(m: Machine, p: Point, k: nat, luck: Luck, failAt: Option<Stage>) returns (end: nat)
    requires k <= 10 && Progress(m, p.machine, luck, k)
    ensures k <= end && Stopped(m, UpFrom(p, k, luck, failAt), luck, failAt, end)
    ensures forall i | k <= i < end :: Passes(m, luck, failAt, STAGES[i])
    decreases 10 - k
  {
    if k == 10 {
      SucceedsHere(m, p.machine, luck, failAt, UpFrom(p, k, luck, failAt));
      return 10;
    }
    StageDecides(m, p, k, luck, failAt);
    end := k;
    if StageAt(p, STAGES[k], luck, failAt).Ok? {
      end := RunStops(m, StageAt(p, STAGES[k], luck, failAt).value, k + 1, luck, failAt);
    }
  }

  lemma UpStops(m: Machine, luck: Luck, failAt: Option<Stage>) returns (end: nat)
    ensures Stopped(m, Up(m, luck, failAt), luck, failAt, end)
    ensures forall i | 0 <= i < end :: Passes(m, luck, failAt, STAGES[i])
  {
    end := RunStops(m, Start(m), 0, luck, failAt);
  }

  /**
   From any markers and any work, whatever earlier runs left: a run that succeeds has every stage's
   work present if and only if no stage it skipped was hollow.
   */
  lemma SuccessIsCompleteExactly(m: Machine, luck: Luck, failAt: Option<Stage>)
    requires Up(m, luck, failAt).died.None?
    ensures (forall s :: s in Up(m, luck, failAt).machine.work) <==> Truthful(m, luck)
  {
    var out := Up(m, luck, failAt);
    var end := UpStops(m, luck, failAt);
    forall s ensures s in out.machine.work <==> s in m.work || !Skips(m, luck, s) {
      EveryStageIsListed(s);
      assert WorkAt(m, out.machine, luck, end, s);
    }
  }

  /**
   A run that dies leaves the marker of every later stage as it found it, with every earlier stage marked
   and, probes being truthful, done. It leaves the marker of the stage it died at unless that stage wrote
   it itself, its work being done, and failed afterwards. Stopped by the hook, it did none of that work.
   */
  lemma DeathLeavesLaterMarkers(m: Machine, luck: Luck, failAt: Option<Stage>, k: nat)
    requires k < 10 && Up(m, luck, failAt).died == Some(STAGES[k])
    ensures var out := Up(m, luck, failAt);
            && (forall s | !Before(s, k) && s != STAGES[k] :: s in out.machine.markers <==> s in m.markers)
            && (STAGES[k] in out.machine.markers <==>
                  STAGES[k] in m.markers || DiesMarked(m, luck, failAt, STAGES[k]))
            && (DiesMarked(m, luck, failAt, STAGES[k]) ==> STAGES[k] in out.machine.work)
            && (forall s | Before(s, k) :: s in out.machine.markers)
            && (forall s | Before(s, k) && Truthful(m, luck) :: s in out.machine.work)
            && (Hooked(m, luck, failAt, STAGES[k]) ==> (STAGES[k] in out.machine.work <==> STAGES[k] in m.work))
  {
    var out := Up(m, luck, failAt);
    var end := UpStops(m, luck, failAt);
    StagesAreDistinct(k, end);
    NotBeforeItself(k);
    forall s | s != STAGES[k]
      ensures MarkerAt(m, out.machine, k, s) && (Before(s, k) ==> WorkAt(m, out.machine, luck, k, s))
    {
    }
    assert !DiesMarked(m, luck, failAt, STAGES[k]) ==> MarkerAt(m, out.machine, k, STAGES[k]);
  }

  /** With every stage finishing, the hook stops the run where it is named, unless that stage is the
      bootstrap's own and skipped. */
  lemma TheHookFiresExactly(m: Machine, luck: Luck, k: nat)
    requires k < 10 && forall s :: luck.ending(s) == Finishes
    ensures var s := STAGES[k];
            var ownGate := s in {OrgBootstrap, Tenants, Catalog, ServiceCerts, Broker};
            Up(m, luck, Some(s)).died == if ownGate && s in m.markers && luck.probe(s) then None else Some(s)
  {
    var end := UpStops(m, luck, Some(STAGES[k]));
    if end < 10 {
      StagesAreDistinct(k, end);
    } else {
      assert Passes(m, luck, Some(STAGES[k]), STAGES[k]);
    }
  }

  // ---------------------------------------------------------------- where a run says it resumes

  /** The `i`-th stage is the first resumable one to run after a skip. */
  ghost predicate ResumePoint(m: Machine, luck: Luck, i: nat) {
    && i < 10 && Resumable(STAGES[i]) && !Skips(m, luck, STAGES[i])
    && (exists j | 0 <= j < i :: Skips(m, luck, STAGES[j]))
    && forall j, l | 0 <= l < j < i && Resumable(STAGES[j]) && !Skips(m, luck, STAGES[j]) :: !Skips(m, luck, STAGES[l])
  }

  lemma OneResumePoint(m: Machine, luck: Luck, i: nat, j: nat)
    ensures ResumePoint(m, luck, i) && ResumePoint(m, luck, j) ==> i == j
  {
  }

  function Resumings(lines: seq<Line>): nat {
    if lines == [] then 0
    else Resumings(lines[..|lines| - 1]) + (if lines[|lines| - 1].Resuming? then 1 else 0)
  }

  lemma OneLineMore(lines: seq<Line>, line: Line)
    ensures Resumings(lines + [line]) == Resumings(lines) + (if line.Resuming? then 1 else 0)
  {
  }

  ghost predicate SkippedBefore(m: Machine, luck: Luck, k: nat) {
    exists j | 0 <= j < k && j < 10 :: Skips(m, luck, STAGES[j])
  }

  ghost predicate ResumedBefore(m: Machine, luck: Luck, k: nat) { exists i | 0 <= i < k :: ResumePoint(m, luck, i) }

  ghost predicate ResumesAt(m: Machine, luck: Luck, k: nat, s: Stage) {
    exists i | 0 <= i < k :: ResumePoint(m, luck, i) && STAGES[i] == s
  }

  ghost predicate LinesTell(m: Machine, luck: Luck, k: nat, lines: seq<Line>) {
    forall s | Resuming(s) in lines :: ResumesAt(m, luck, k, s)
  }

  /** What the loop's two variables and its output say about the stages so far. */
  ghost predicate Told(m: Machine, luck: Luck, k: nat, p: Point) {
    && k <= 10
    && (p.skipped > 0 <==> SkippedBefore(m, luck, k))
    && (p.resumed <==> ResumedBefore(m, luck, k))
    && Resumings(p.lines) == (if p.resumed then 1 else 0) && LinesTell(m, luck, k, p.lines)
  }

  lemma SkippedNext(m: Machine, luck: Luck, k: nat)
    requires k < 10
    ensures SkippedBefore(m, luck, k + 1) <==> SkippedBefore(m, luck, k) || Skips(m, luck, STAGES[k])
  {
  }

  lemma ResumedNext(m: Machine, luck: Luck, k: nat)
    requires k < 10
    ensures ResumedBefore(m, luck, k + 1) <==> ResumedBefore(m, luck, k) || ResumePoint(m, luck, k)
  {
  }

  lemma LinesTellNext(m: Machine, luck: Luck, k: nat, lines: seq<Line>, line: Line)
    requires k < 10 && LinesTell(m, luck, k, lines)
    requires line.Resuming? ==> line == Resuming(STAGES[k]) && ResumePoint(m, luck, k)
    ensures LinesTell(m, luck, k + 1, lines) && LinesTell(m, luck, k + 1, lines + [line])
  {
    forall s | Resuming(s) in lines + [line] ensures ResumesAt(m, luck, k + 1, s) {
      if Resuming(s) in lines {
        assert ResumesAt(m, luck, k, s);
      }
    }
  }

  /** Between a skip and a later resumable stage that runs, there is a resume point. */
  lemma {:induction false} FirstRunAfterSkip(m: Machine, luck: Luck, l: nat, j: nat)
    requires l < j < 10
    ensures Skips(m, luck, STAGES[l]) && Resumable(STAGES[j]) && !Skips(m, luck, STAGES[j]) ==>
              exists i | 0 <= i <= j :: ResumePoint(m, luck, i)
    decreases j
  {
    if a, b :| 0 <= b < a < j && Resumable(STAGES[a]) && !Skips(m, luck, STAGES[a]) && Skips(m, luck, STAGES[b]) {
      FirstRunAfterSkip(m, luck, b, a);
    } else if Skips(m, luck, STAGES[l]) && Resumable(STAGES[j]) && !Skips(m, luck, STAGES[j]) {
      assert ResumePoint(m, luck, j);
    }
  }

  lemma ResumesExactly(m: Machine, luck: Luck, k: nat, p: Point)
    requires k < 10 && Told(m, luck, k, p) && !Skips(m, luck, STAGES[k])
    ensures (!p.resumed && p.skipped > 0 && Resumable(STAGES[k])) <==> ResumePoint(m, luck, k)
  {
    forall i: nat | i < k ensures ResumePoint(m, luck, k) ==> !ResumePoint(m, luck, i) {
      OneResumePoint(m, luck, i, k);
    }
    forall j: nat, l: nat | l < j < k
      ensures Resumable(STAGES[j]) && !Skips(m, luck, STAGES[j]) && Skips(m, luck, STAGES[l]) ==> p.resumed
    {
      FirstRunAfterSkip(m, luck, l, j);
    }
  }

  lemma ToldSkip(m: Machine, luck: Luck, k: nat, p: Point, s: Stage)
    requires k < 10 && s == STAGES[k] && Told(m, luck, k, p) && Skips(m, luck, s)
    ensures Told(m, luck, k + 1, p.(skipped := p.skipped + 1, lines := p.lines + [Skipped(s)]))
  {
    OneLineMore(p.lines, Skipped(s));
    SkippedNext(m, luck, k);
    ResumedNext(m, luck, k);
    LinesTellNext(m, luck, k, p.lines, Skipped(s));
  }

  lemma ToldRun(m: Machine, luck: Luck, k: nat, p: Point, s: Stage)
    requires k < 10 && s == STAGES[k] && Told(m, luck, k, p) && !Skips(m, luck, s)
    ensures Told(m, luck, k + 1, Announced(p, s))
  {
    ResumesExactly(m, luck, k, p);
    OneLineMore(p.lines, Resuming(s));
    SkippedNext(m, luck, k);
    ResumedNext(m, luck, k);
    LinesTellNext(m, luck, k, p.lines, if ResumePoint(m, luck, k) then Resuming(s) else Ran(s));
  }

  lemma LinesTellRan(m: Machine, luck: Luck, k: nat, lines: seq<Line>, s: Stage)
    requires LinesTell(m, luck, k, lines)
    ensures LinesTell(m, luck, k, lines + [Ran(s)])
  {
    forall t | Resuming(t) in lines + [Ran(s)] ensures ResumesAt(m, luck, k, t) {
      assert Resuming(t) in lines;
    }
  }

  lemma ToldRan(m: Machine, luck: Luck, k: nat, p: Point, s: Stage)
    requires k < 10 && s == STAGES[k] && Told(m, luck, k, p) && !Skips(m, luck, s)
    ensures Told(m, luck, k + 1, Ended(p, s))
  {
    ToldRun(m, luck, k, p, s);
    OneLineMore(Announced(p, s).lines, Ran(s));
    LinesTellRan(m, luck, k + 1, Announced(p, s).lines, s);
  }

  /** How the output of a run reads: told up to some stage, all of them if it succeeded. */
  ghost predicate ToldSomewhere(m: Machine, luck: Luck, out: Report) {
    exists k: nat, p: Point :: Told(m, luck, k, p) && p.lines == out.lines && (out.died.None? ==> k == 10)
  }

  lemma ToldAtTheEnd(m: Machine, luck: Luck, k: nat, p: Point, out: Report)
    requires Told(m, luck, k, p) && p.lines == out.lines && (out.died.None? ==> k == 10)
    ensures ToldSomewhere(m, luck, out)
  {
  }

  /** A run that dies at a stage has said what came before it, and that it resumes there if it got as far. */
  lemma DeathSays(p: Point, s: Stage, luck: Luck, failAt: Option<Stage>)
    requires StageAt(p, s, luck, failAt).Err?
    ensures var out := StageAt(p, s, luck, failAt).error;
            && out.died == Some(s)
            && (out.lines == p.lines || (out.lines == Announced(p, s).lines
                                         && !(Resumable(s) && s in p.machine.markers && luck.probe(s))))
  {
  }

  /** A stage that does not pass ends the output there. */
  lemma DeathTells(m: Machine, p: Point, k: nat, luck: Luck, failAt: Option<Stage>)
    requires k < 10 && Told(m, luck, k, p) && Progress(m, p.machine, luck, k)
    requires StageAt(p, STAGES[k], luck, failAt).Err?
    ensures ToldSomewhere(m, luck, StageAt(p, STAGES[k], luck, failAt).error)
  {
    var s, out := STAGES[k], StageAt(p, STAGES[k], luck, failAt).error;
    NotBeforeItself(k);
    assert MarkerAt(m, p.machine, k, s);
    DeathSays(p, s, luck, failAt);
    if out.lines == p.lines {
      ToldAtTheEnd(m, luck, k, p, out);
    } else {
      ToldRun(m, luck, k, p, s);
      ToldAtTheEnd(m, luck, k + 1, Announced(p, s), out);
    }
  }

  /** A stage that passes is told with the rest. */
  lemma PassTells(m: Machine, p: Point, k: nat, luck: Luck, failAt: Option<Stage>)
    requires k < 10 && Told(m, luck, k, p) && Progress(m, p.machine, luck, k) && Passes(m, luck, failAt, STAGES[k])
    ensures StageAt(p, STAGES[k], luck, failAt).Ok?
    ensures Told(m, luck, k + 1, StageAt(p, STAGES[k], luck, failAt).value)
  {
    if Skips(m, luck, STAGES[k]) {
      SkipsOn(m, p, k, luck, failAt);
      ToldSkip(m, luck, k, p, STAGES[k]);
    } else {
      RunsOn(m, p, k, luck, failAt);
      ToldRan(m, luck, k, p, STAGES[k]);
    }
  }

  lemma StageTells(m: Machine, p: Point, k: nat, luck: Luck, failAt: Option<Stage>, stage: Result<Point, Report>)
    requires k < 10 && Told(m, luck, k, p) && Progress(m, p.machine, luck, k)
    requires stage == StageAt(p, STAGES[k], luck, failAt)
    ensures match stage
            case Err(out) => ToldSomewhere(m, luck, out)
            case Ok(next) => Told(m, luck, k + 1, next) && Progress(m, next.machine, luck, k + 1)
  {
    StageDecides(m, p, k, luck, failAt);
    if stage.Err? {
      DeathTells(m, p, k, luck, failAt);
    } else {
      PassTells(m, p, k, luck, failAt);
    }
  }

  lemma {:induction false} RunTells(m: Machine, p: Point, k: nat, luck: Luck, failAt: Option<Stage>)
    requires k <= 10 && Told(m, luck, k, p) && Progress(m, p.machine, luck, k)
    ensures ToldSomewhere(m, luck, UpFrom(p, k, luck, failAt))
    decreases 10 - k
  {
    if k == 10 {
      ToldAtTheEnd(m, luck, k, p, UpFrom(p, k, luck, failAt));
    } else {
      var stage := StageAt(p, STAGES[k], luck, failAt);
      StageTells(m, p, k, luck, failAt, stage);
      UpFromNext(p, k, luck, failAt, stage);
      if stage.Ok? {
        RunTells(m, stage.value, k + 1, luck, failAt);
      }
    }
  }

  /** A run says at most once where it resumes, and only of the first resumable stage it runs after a
      skip; one that succeeds says it if there is such a stage. */
  lemma ResumeIsSaidOnce(m: Machine, luck: Luck, failAt: Option<Stage>)
    ensures Resumings(Up(m, luck, failAt).lines) <= 1
    ensures forall s | Resuming(s) in Up(m, luck, failAt).lines ::
              exists i: nat :: ResumePoint(m, luck, i) && STAGES[i] == s
    ensures Up(m, luck, failAt).died.None? ==>
              (Resumings(Up(m, luck, failAt).lines) == 1 <==> exists i: nat :: ResumePoint(m, luck, i))
  {
    RunTells(m, Start(m), 0, luck, failAt);
    var out := Up(m, luck, failAt);
    var k: nat, p: Point :| Told(m, luck, k, p) && p.lines == out.lines && (out.died.None? ==> k == 10);
  }

  /** The lines about stages run and skipped, so far. */
  ghost predicate Listed(m: Machine, luck: Luck, k: nat, lines: seq<Line>) {
    forall s ::
      && (Ran(s) in lines <==> Before(s, k) && !Skips(m, luck, s))
      && (Skipped(s) in lines <==> Before(s, k) && Skips(m, luck, s))
  }

  /**
   What a stage that the run gets past adds to the output: that it ran or was skipped, and perhaps that
   it resumes.
   */
  lemma StageLists(m: Machine, p: Point, k: nat, luck: Luck, failAt: Option<Stage>)
    requires k < 10 && Progress(m, p.machine, luck, k) && Passes(m, luck, failAt, STAGES[k])
    ensures var s, out := STAGES[k], StageAt(p, STAGES[k], luck, failAt);
            && out.Ok?
            && out.value.lines == if Skips(m, luck, s) then p.lines + [Skipped(s)] else Announced(p, s).lines + [Ran(s)]
  {
    if Skips(m, luck, STAGES[k]) {
      SkipsOn(m, p, k, luck, failAt);
    } else {
      RunsOn(m, p, k, luck, failAt);
    }
  }

  lemma ListedNext(m: Machine, luck: Luck, k: nat, p: Point, s: Stage, lines: seq<Line>)
    requires k < 10 && s == STAGES[k] && Listed(m, luck, k, p.lines)
    requires lines == if Skips(m, luck, s) then p.lines + [Skipped(s)] else Announced(p, s).lines + [Ran(s)]
    ensures Listed(m, luck, k + 1, lines)
  {
    forall t
      ensures Ran(t) in lines <==> Before(t, k + 1) && !Skips(m, luck, t)
      ensures Skipped(t) in lines <==> Before(t, k + 1) && Skips(m, luck, t)
    {
      BeforeStep(t, k);
    }
  }

  lemma {:induction false} RunLists(m: Machine, p: Point, k: nat, luck: Luck, failAt: Option<Stage>)
    requires k <= 10 && Progress(m, p.machine, luck, k) && Listed(m, luck, k, p.lines)
    requires UpFrom(p, k, luck, failAt).died.None?
    ensures Listed(m, luck, 10, UpFrom(p, k, luck, failAt).lines)
    decreases 10 - k
  {
    if k < 10 {
      StageDecides(m, p, k, luck, failAt);
      var out := StageAt(p, STAGES[k], luck, failAt);
      UpFromNext(p, k, luck, failAt, out);
      if out.Ok? {
        StageLists(m, p, k, luck, failAt);
        ListedNext(m, luck, k, p, STAGES[k], out.value.lines);
        RunLists(m, out.value, k + 1, luck, failAt);
      }
    }
  }

  /**
   A successful run says of every stage that it ran or that it was skipped, and not both: skipped are
   exactly the marked stages whose probe said done, and preflight and verify never.
   */
  lemma SuccessSaysExactly(m: Machine, luck: Luck, failAt: Option<Stage>, s: Stage)
    requires Up(m, luck, failAt).died.None?
    ensures var lines := Up(m, luck, failAt).lines;
            && (Skipped(s) in lines <==> s != Preflight && s != Verify && s in m.markers && luck.probe(s))
            && (Ran(s) in lines <==> Skipped(s) !in lines)
  {
    RunLists(m, Start(m), 0, luck, failAt);
    EveryStageIsListed(s);
  }

  // ---------------------------------------------------------------- two probes

  /** A demo tenant as the probes see it. */
  datatype Tenant = Tenant(id: nat, signs: bool, admits: bool, converged: bool)

  /** The catalog probe's answer: a failed listing reads as no tenants. */
  ghost predicate CatalogAnswer(login: bool, listing: Result<seq<Tenant>, ()>) {
    login && forall t | listing.Ok? && t in listing.value :: t.admits && t.converged
  }

  ghost predicate TenantsAnswer(login: bool, listing: Result<seq<Tenant>, ()>) {
    login && listing.Ok? && |listing.value| >= 2 && forall t | t in listing.value :: t.signs && t.admits
  }

  method ProbeCatalog(login: bool, listing: Result<seq<Tenant>, ()>) returns (done: bool)
    ensures done <==> CatalogAnswer(login, listing)
  {
    if !login {
      return false;
    }
    var tenants := if listing.Ok? then listing.value else [];
    for i := 0 to |tenants|
      invariant forall j | 0 <= j < i :: tenants[j].admits && tenants[j].converged
    {
      if !tenants[i].admits || !tenants[i].converged {
        return false;
      }
    }
    done := true;
  }

  method ProbeTenants(login: bool, listing: Result<seq<Tenant>, ()>) returns (done: bool)
    ensures done <==> TenantsAnswer(login, listing)
  {
    if !login {
      return false;
    }
    var tenants := if listing.Ok? then listing.value else [];
    if |tenants| < 2 {
      return false;
    }
    for i := 0 to |tenants|
      invariant forall j | 0 <= j < i :: tenants[j].signs && tenants[j].admits
    {
      if !tenants[i].signs || !tenants[i].admits {
        return false;
      }
    }
    done := true;
  }

  /** The catalog's work: it is converged on every tenant there is. */
  predicate CatalogDone(tenants: seq<Tenant>) { forall t | t in tenants :: t.converged }

  function Listing(tenants: seq<Tenant>, answered: bool): Result<seq<Tenant>, ()> {
    if answered then Ok(tenants) else Err(())
  }

  /** The catalog probe can be believed of every set of tenants if and only if its listing was answered
      (or it could not sign in at all, and said no). */
  lemma CatalogProbeIsTruthfulExactly(login: bool, answered: bool)
    ensures (forall tenants :: CatalogAnswer(login, Listing(tenants, answered)) ==> CatalogDone(tenants))
            <==> answered || !login
  {
    if !answered && login {
      var bare := [Tenant(0, true, true, false)];
      assert bare[0] in bare;
      assert CatalogAnswer(login, Listing(bare, answered)) && !CatalogDone(bare);
    }
  }

  /**
   What comes of it: a marked catalog whose work is gone, a listing that fails, every stage that runs
   finishing. The run succeeds and the catalog is still missing.
   */
  lemma AFailedListingHidesTheCatalog(m: Machine, luck: Luck)
    requires Catalog in m.markers && Catalog !in m.work
    requires luck.probe(Catalog) == CatalogAnswer(true, Err(())) && forall s :: luck.ending(s) == Finishes
    ensures Up(m, luck, None).died.None? && Catalog !in Up(m, luck, None).machine.work
  {
    var end := UpStops(m, luck, None);
    assert Skips(m, luck, Catalog);
    assert WorkAt(m, Up(m, luck, None).machine, luck, 10, Catalog);
  }

  /**
   The tenants' work: there are two at least, each can sign certificates and be signed in to, and the map
   the Twin reads, by which it tells a token's tenant, names each. The probe looks at no map.
   */
  predicate TenantsDone(tenants: seq<Tenant>, named: set<nat>) {
    |tenants| >= 2 && forall t | t in tenants :: t.signs && t.admits && t.id in named
  }

  /** The listing is of some of the demo tenants, each once. */
  predicate Demo(tenants: seq<Tenant>, demo: set<nat>) {
    && (forall t | t in tenants :: t.id in demo)
    && forall i, j | 0 <= i < j < |tenants| :: tenants[i].id != tenants[j].id
  }

  ghost predicate TenantsProbeBelievable(login: bool, answered: bool, demo: set<nat>, named: set<nat>) {
    forall tenants | Demo(tenants, demo) && TenantsAnswer(login, Listing(tenants, answered)) ::
      TenantsDone(tenants, named)
  }

  /** Two demo tenants in order, one of them not in the map. */
  lemma OneUnnamed(demo: set<nat>, named: set<nat>, x: nat, y: nat)
    requires x in demo && y in demo && x != y && x !in named
    ensures !TenantsProbeBelievable(true, true, demo, named)
  {
    var tenants := [Tenant(x, true, true, true), Tenant(y, true, true, true)];
    assert Demo(tenants, demo) && TenantsAnswer(true, Listing(tenants, true));
    assert tenants[0] in tenants;
  }

  /**
   The tenants probe can be believed of every listing of the demo tenants, two or more, if and only if
   the map names them all, or the probe could not sign in or list and said no.
   */
  lemma TenantsProbeIsTruthfulExactly(login: bool, answered: bool, demo: set<nat>, named: set<nat>)
    requires exists x, y :: x in demo && y in demo && x != y
    ensures TenantsProbeBelievable(login, answered, demo, named) <==> demo <= named || !login || !answered
  {
    if login && answered && !(demo <= named) {
      var x :| x in demo && x !in named;
      var y :| y in demo && y != x;
      OneUnnamed(demo, named, x, y);
    }
  }

  /**
   What comes of it: marked tenants in order but for the Twin's map, every stage that runs finishing.
   The run succeeds, and the tenants' work is still not all there.
   */
  lemma AMissingMapIsNotMissed(m: Machine, luck: Luck, tenants: seq<Tenant>, named: set<nat>)
    requires Tenants in m.markers && (Tenants in m.work <==> TenantsDone(tenants, named))
    requires TenantsAnswer(true, Ok(tenants)) && luck.probe(Tenants) && (exists t :: t in tenants && t.id !in named)
    requires forall s :: luck.ending(s) == Finishes
    ensures Up(m, luck, None).died.None? && Tenants !in Up(m, luck, None).machine.work
  {
    var end := UpStops(m, luck, None);
    assert Skips(m, luck, Tenants);
    assert WorkAt(m, Up(m, luck, None).machine, luck, 10, Tenants);
  }
}
