/** The phase service: a barrier over the participants of each runtime phase, and what every run
    of it keeps. */
module Phases {
  import opened Options

  datatype Phase =
    | Build | Connect | ResolveBindings | EndOfElaboration | StartOfSimulation
    | Run | Reset | Configure | Main | Shutdown
    | Extract | Check | Report | Final
    | Other(name: string)

  datatype Action = Started | Executing | ReadyToEnd | Ended

  datatype Time = Time(unit: int, value: real)

  const TIME_UNIT_FS := 0
  const TIME_UNIT_UNDEFINED := 8

  /** A notification to all frameworks; only runtime phases carry the time. */
  datatype Event = Event(group: string, phase: Phase, action: Action, time: Option<Time>)

  /** How many participants all frameworks together report for a phase. */
  type Counts = Phase -> nat

  datatype Service = Service(
    participate: map<Phase, nat>,
    done: map<Phase, nat>,
    current: Phase,
    time: Time,
    log: seq<Event>)

  /** `operator[]` of a map of counters. */
  function Get(m: map<Phase, nat>, p: Phase): nat {
    if p in m then m[p] else 0
  }

  const ZEROES: map<Phase, nat> := map[Run := 0, Reset := 0, Configure := 0, Main := 0, Shutdown := 0]

  function Initial(): Service {
    Service(ZEROES, ZEROES, Other(""), Time(TIME_UNIT_FS, 0.0), [])
  }

  function NextRuntime(p: Phase): Option<Phase> {
    match p
    case Reset => Some(Configure)
    case Configure => Some(Main)
    case Main => Some(Shutdown)
    case _ => None
  }

  function ExecutePhase(s: Service, group: string, p: Phase): Service {
    s.(current := p,
       log := s.log + [Event(group, p, Started, None), Event(group, p, Executing, None), Event(group, p, Ended, None)])
  }

  function ExecuteRuntime(s: Service, group: string, p: Phase, counts: Counts): Service {
    s.(current := p,
       log := s.log + [Event(group, p, Started, Some(s.time)), Event(group, p, Executing, Some(s.time))],
       participate := s.participate[p := counts(p)])
  }

  function EndRuntime(s: Service, group: string, p: Phase): Service {
    s.(log := s.log + [Event(group, p, ReadyToEnd, Some(s.time)), Event(group, p, Ended, Some(s.time))])
  }

  function StartPhasing(s: Service, counts: Counts): Service {
    var s1 := ExecutePhase(ExecutePhase(s, "common", Build), "common", Connect);
    var s2 := ExecutePhase(ExecutePhase(s1, "common", ResolveBindings), "common", EndOfElaboration);
    var s3 := ExecutePhase(s2, "common", StartOfSimulation);
    ExecuteRuntime(ExecuteRuntime(s3, "common", Run, counts), "uvm", Reset, counts)
  }

  function Count(s: Service, p: Phase, time: Time): Service {
    var s1 := if time.unit < TIME_UNIT_UNDEFINED then s.(time := time) else s;
    s1.(done := s1.done[p := Get(s1.done, p) + 1])
  }

  /** A phase other than `run` ends when as many have reported as take part; the next one starts. */
  function EndPhase(s: Service, group: string, p: Phase, counts: Counts): Service {
    if p != Run && Get(s.done, p) == Get(s.participate, p) then
      var s1 := EndRuntime(s, group, p);
      if NextRuntime(p).Some? then ExecuteRuntime(s1, "uvm", NextRuntime(p).value, counts) else s1
    else s
  }

  /** The guard of the post-run phases. */
  predicate BothDone(s: Service) {
    Get(s.done, Run) == Get(s.participate, Run) && Get(s.done, Shutdown) == Get(s.participate, Shutdown)
  }

  function PostRun(s: Service): Service {
    if BothDone(s) then
      var s1 := EndRuntime(s, "common", Run);
      var s2 := ExecutePhase(ExecutePhase(s1, "common", Extract), "common", Check);
      ExecutePhase(ExecutePhase(s2, "common", Report), "common", Final)
    else s
  }

  function NotifyDone(s: Service, group: string, p: Phase, time: Time, counts: Counts): Service {
    PostRun(EndPhase(Count(s, p, time), group, p, counts))
  }

  // ------------------------------------------------------------------ the script

  /** What a framework sees, without groups and times. */
  function Seen(log: seq<Event>): seq<(Phase, Action)> {
    seq(|log|, i requires 0 <= i < |log| => (log[i].phase, log[i].action))
  }

  function Whole(p: Phase): seq<(Phase, Action)> {
    [(p, Started), (p, Executing), (p, Ended)]
  }

  function Begins(p: Phase): seq<(Phase, Action)> {
    [(p, Started), (p, Executing)]
  }

  function Ends(p: Phase): seq<(Phase, Action)> {
    [(p, ReadyToEnd), (p, Ended)]
  }

  /** The UVM phases in their order. */
  function Uvm(j: int): Phase {
    if j == 0 then Reset else if j == 1 then Configure else if j == 2 then Main else Shutdown
  }

  predicate IsUvm(p: Phase) {
    p == Reset || p == Configure || p == Main || p == Shutdown
  }

  /** All notifications up to the point where `k` of the four UVM phases have ended. */
  function Script(k: nat): seq<(Phase, Action)>
    requires k <= 4
  {
    if k == 0 then
      Whole(Build) + Whole(Connect) + Whole(ResolveBindings) + Whole(EndOfElaboration) + Whole(StartOfSimulation)
      + Begins(Run) + Begins(Reset)
    else Script(k - 1) + Ends(Uvm(k - 1)) + (if k < 4 then Begins(Uvm(k)) else [])
  }

  const PostScript := Ends(Run) + Whole(Extract) + Whole(Check) + Whole(Report) + Whole(Final)

  /** The script, spelled out. */
  lemma {:induction false} WholeScript()
    ensures Script(4) + PostScript ==
      Whole(Build) + Whole(Connect) + Whole(ResolveBindings) + Whole(EndOfElaboration) + Whole(StartOfSimulation)
      + Begins(Run) + Begins(Reset) + Ends(Reset) + Begins(Configure) + Ends(Configure) + Begins(Main) + Ends(Main)
      + Begins(Shutdown) + Ends(Shutdown) + Ends(Run)
      + Whole(Extract) + Whole(Check) + Whole(Report) + Whole(Final)
  {
    hide Whole, Begins, Ends;
    assert Script(1) == Script(0) + Ends(Reset) + Begins(Configure);
    assert Script(2) == Script(1) + Ends(Configure) + Begins(Main);
    assert Script(3) == Script(2) + Ends(Main) + Begins(Shutdown);
    assert Script(4) == Script(3) + Ends(Shutdown);
  }

  // ------------------------------------------------------------------ runs

  datatype Done = Done(group: string, phase: Phase, time: Time)

  ghost predicate AllTakePart(counts: Counts) {
    0 < counts(Run) && forall j | 0 <= j < 4 :: 0 < counts(Uvm(j))
  }

  /** Every participant reports once, and only after EXECUTING has returned. */
  predicate MayReport(s: Service, p: Phase) {
    Get(s.done, p) < Get(s.participate, p)
  }

  ghost predicate IsRun(ss: seq<Service>, reports: seq<Done>, counts: Counts) {
    && AllTakePart(counts)
    && |ss| == |reports| + 1 && ss[0] == StartPhasing(Initial(), counts)
    && forall i | 0 <= i < |reports| :: IsStep(ss[i], reports[i], ss[i + 1], counts)
  }

  ghost predicate IsStep(s: Service, d: Done, s': Service, counts: Counts) {
    MayReport(s, d.phase) && s' == NotifyDone(s, d.group, d.phase, d.time, counts)
  }

  /** All participants of `p` have reported. */
  predicate Over(s: Service, p: Phase) {
    0 < Get(s.participate, p) && Get(s.done, p) == Get(s.participate, p)
  }

  /** How many of the four UVM phases are over. */
  function Stage(s: Service): nat {
    if !Over(s, Reset) then 0 else if !Over(s, Configure) then 1 else if !Over(s, Main) then 2
    else if !Over(s, Shutdown) then 3 else 4
  }

  /** Phases before phase `k` are over, phase `k` is under way, those after it have not started. */
  ghost predicate CountsAt(s: Service, k: nat, counts: Counts)
    ensures CountsAt(s, k, counts) ==> k <= 4
  {
    && k <= 4
    && Get(s.participate, Run) == counts(Run) && Get(s.done, Run) <= counts(Run)
    && (forall p | p != Run && !IsUvm(p) :: Get(s.participate, p) == 0)
    && PhaseAt(s, 0, k, counts) && PhaseAt(s, 1, k, counts) && PhaseAt(s, 2, k, counts) && PhaseAt(s, 3, k, counts)
  }

  ghost predicate PhaseAt(s: Service, j: nat, k: nat, counts: Counts) {
    var part, done := Get(s.participate, Uvm(j)), Get(s.done, Uvm(j));
    if j < k then part == done == counts(Uvm(j))
    else if j == k then done < part == counts(Uvm(j))
    else part == done == 0
  }

  lemma {:induction false} StageAt(s: Service, k: nat, counts: Counts)
    requires AllTakePart(counts) && CountsAt(s, k, counts)
    ensures Stage(s) == k
  {
  }

  lemma {:induction false} StartCounts(counts: Counts)
    requires AllTakePart(counts)
    ensures CountsAt(StartPhasing(Initial(), counts), 0, counts)
  {
  }

  /** What one report does to the counters. */
  lemma {:induction false} StepEffect(s: Service, d: Done, s': Service, counts: Counts)
    requires IsStep(s, d, s', counts)
    ensures forall q :: Get(s'.done, q) == Get(s.done, q) + if q == d.phase then 1 else 0
    ensures var ends := d.phase != Run && Get(s.done, d.phase) + 1 == Get(s.participate, d.phase);
      forall q :: Get(s'.participate, q) ==
        if ends && NextRuntime(d.phase) == Some(q) then counts(q) else Get(s.participate, q)
  {
    var s1 := Count(s, d.phase, d.time);
    assert forall q :: Get(s1.done, q) == Get(s.done, q) + if q == d.phase then 1 else 0;
  }

  /** Whether a report ends its phase. */
  predicate EndsPhase(s: Service, d: Done) {
    d.phase != Run && Get(s.done, d.phase) + 1 == Get(s.participate, d.phase)
  }

  lemma {:induction false} WhoReports(s: Service, p: Phase, k: nat, counts: Counts)
    requires CountsAt(s, k, counts) && MayReport(s, p)
    ensures p == Run || (k < 4 && p == Uvm(k))
  {
  }

  lemma {:induction false} Reports(s: Service, d: Done, s': Service, counts: Counts)
    requires IsStep(s, d, s', counts)
    ensures MayReport(s, d.phase)
  {
  }

  lemma {:induction false} PhaseStep(s: Service, d: Done, s': Service, j: nat, k: nat, counts: Counts)
    requires AllTakePart(counts) && CountsAt(s, k, counts) && IsStep(s, d, s', counts) && j < 4
    ensures PhaseAt(s', j, if EndsPhase(s, d) then k + 1 else k, counts)
  {
    hide NotifyDone, Get, IsStep, MayReport;
    StepEffect(s, d, s', counts);
    Reports(s, d, s', counts);
    WhoReports(s, d.phase, k, counts);
    assert PhaseAt(s, j, k, counts) && 0 < counts(Uvm(j));
    assert k < 4 ==> PhaseAt(s, k, k, counts) && 0 < counts(Uvm(k));
    NextUvm(k, j);
  }

  lemma {:induction false} NextUvm(k: nat, j: nat)
    ensures k < 4 ==> (NextRuntime(Uvm(k)) == if k < 3 then Some(Uvm(k + 1)) else None)
    ensures k < 4 && j < 4 ==> (Uvm(j) == Uvm(k) <==> j == k)
    ensures Uvm(j) != Run && NextRuntime(Run) == None
  {
  }

  lemma {:induction false} StepCounts(s: Service, d: Done, s': Service, k: nat, counts: Counts)
    requires AllTakePart(counts) && CountsAt(s, k, counts) && IsStep(s, d, s', counts)
    ensures d.phase == Run || (k < 4 && d.phase == Uvm(k))
    ensures CountsAt(s', if EndsPhase(s, d) then k + 1 else k, counts)
  {
    hide NotifyDone, Get, PhaseAt, IsStep, MayReport;
    StepEffect(s, d, s', counts);
    Reports(s, d, s', counts);
    WhoReports(s, d.phase, k, counts);
    PhaseStep(s, d, s', 0, k, counts);
    PhaseStep(s, d, s', 1, k, counts);
    PhaseStep(s, d, s', 2, k, counts);
    PhaseStep(s, d, s', 3, k, counts);
    NextUvm(k, 0);
  }

  // ------------------------------------------------------------------ what the frameworks see

  lemma {:induction false} StartSeen(counts: Counts)
    ensures Seen(StartPhasing(Initial(), counts).log) == Script(0)
  {
  }

  lemma {:induction false} EndPhaseSeen(s: Service, group: string, p: Phase, counts: Counts)
    ensures var s' := EndPhase(s, group, p, counts);
      && s'.done == s.done
      && Seen(s'.log) == Seen(s.log) +
        (if p == Run || Get(s.done, p) != Get(s.participate, p) then []
         else Ends(p) + (if NextRuntime(p).Some? then Begins(NextRuntime(p).value) else []))
  {
  }

  lemma {:induction false} PostRunSeen(s: Service)
    ensures Seen(PostRun(s).log) == Seen(s.log) + (if BothDone(s) then PostScript else [])
    ensures PostRun(s).participate == s.participate && PostRun(s).done == s.done
  {
  }

  /** One report adds the end of its phase and the start of the next, and then the post-run
      phases if the guard holds. */
  lemma {:induction false} StepSeen(s: Service, d: Done, s': Service, counts: Counts)
    requires IsStep(s, d, s', counts)
    ensures Seen(s'.log) == Seen(s.log)
      + (if !EndsPhase(s, d) then []
         else Ends(d.phase) + (if NextRuntime(d.phase).Some? then Begins(NextRuntime(d.phase).value) else []))
      + (if BothDone(s') then PostScript else [])
  {
    var s1 := Count(s, d.phase, d.time);
    assert Get(s1.done, d.phase) == Get(s.done, d.phase) + 1 && s1.participate == s.participate && s1.log == s.log;
    EndPhaseSeen(s1, d.group, d.phase, counts);
    PostRunSeen(EndPhase(s1, d.group, d.phase, counts));
  }

  /** The last report of `run` does not come before the shutdown phase is under way. */
  ghost predicate RunReportsLast(ss: seq<Service>, reports: seq<Done>)
    requires |ss| == |reports| + 1
  {
    forall i | 0 <= i < |reports| :: !EndsRunEarly(ss[i], reports[i])
  }

  predicate EndsRunEarly(s: Service, d: Done) {
    d.phase == Run && Get(s.done, Run) + 1 == Get(s.participate, Run) && Get(s.participate, Shutdown) == 0
  }

  ghost predicate Follows(s: Service, k: nat, counts: Counts) {
    && CountsAt(s, k, counts)
    && (Get(s.done, Run) == counts(Run) ==> 3 <= k)
    && Seen(s.log) == Script(k) + (if k == 4 && Get(s.done, Run) == counts(Run) then PostScript else [])
  }

  /** The guard of the post-run phases, by what it stands for. */
  lemma {:induction false} GuardMeans(s: Service, k: nat, counts: Counts)
    requires AllTakePart(counts) && CountsAt(s, k, counts)
    ensures BothDone(s) <==> Get(s.done, Run) == counts(Run) && k != 3
  {
  }

  lemma {:induction false} ScriptStep(k: nat)
    requires k < 4
    ensures Script(k + 1) ==
      Script(k) + (Ends(Uvm(k)) + (if NextRuntime(Uvm(k)).Some? then Begins(NextRuntime(Uvm(k)).value) else []))
  {
  }

  /** No one may report once everything has ended. */
  lemma {:induction false} NotFinished(s: Service, p: Phase, k: nat, counts: Counts)
    requires CountsAt(s, k, counts) && MayReport(s, p)
    ensures !(k == 4 && Get(s.done, Run) == counts(Run))
  {
  }

  lemma {:induction false} FollowsStep(s: Service, d: Done, s': Service, k: nat, counts: Counts)
    requires AllTakePart(counts) && Follows(s, k, counts) && IsStep(s, d, s', counts) && !EndsRunEarly(s, d)
    ensures Follows(s', if EndsPhase(s, d) then k + 1 else k, counts)
  {
    hide NotifyDone, Get, Seen, Script, Uvm, CountsAt, Ends, Begins, NextRuntime, IsStep, MayReport, BothDone;
    Reports(s, d, s', counts);
    NotFinished(s, d.phase, k, counts);
    StepCounts(s, d, s', k, counts);
    StepSeen(s, d, s', counts);
    RunLateOnly(s, d, s', k, counts);
    var k' := if EndsPhase(s, d) then k + 1 else k;
    GuardMeans(s', k', counts);
    assert Seen(s.log) == Script(k);
    if EndsPhase(s, d) {
      ScriptStep(k);
      assert d.phase == Uvm(k);
    } else {
      assert Script(k) + [] == Script(k);
    }
  }

  lemma {:induction false} RunLateOnly(s: Service, d: Done, s': Service, k: nat, counts: Counts)
    requires AllTakePart(counts) && CountsAt(s, k, counts) && IsStep(s, d, s', counts) && !EndsRunEarly(s, d)
    requires Get(s.done, Run) == counts(Run) ==> 3 <= k
    ensures Get(s'.done, Run) == counts(Run) ==> 3 <= k
    ensures d.phase != Run ==> Get(s'.done, Run) == Get(s.done, Run)
  {
    hide NotifyDone, Get, IsStep;
    StepEffect(s, d, s', counts);
    assert PhaseAt(s, 3, k, counts) && Uvm(3) == Shutdown && 0 < counts(Uvm(3));
  }

  // ------------------------------------------------------------------ whole runs

  lemma {:induction false} RunCounts(ss: seq<Service>, reports: seq<Done>, counts: Counts, i: nat)
    requires IsRun(ss, reports, counts) && i < |ss|
    ensures CountsAt(ss[i], Stage(ss[i]), counts)
    decreases i
  {
    hide NotifyDone, Get, CountsAt, StartPhasing, Stage;
    if i == 0 {
      StartCounts(counts);
      StageAt(ss[0], 0, counts);
    } else {
      RunCounts(ss, reports, counts, i - 1);
      assert IsStep(ss[i - 1], reports[i - 1], ss[i - 1 + 1], counts);
      var k := Stage(ss[i - 1]);
      StepCounts(ss[i - 1], reports[i - 1], ss[i], k, counts);
      StageAt(ss[i], if EndsPhase(ss[i - 1], reports[i - 1]) then k + 1 else k, counts);
    }
  }

  lemma {:induction false} RunFollows(ss: seq<Service>, reports: seq<Done>, counts: Counts, i: nat)
    requires IsRun(ss, reports, counts) && RunReportsLast(ss, reports) && i < |ss|
    ensures Follows(ss[i], Stage(ss[i]), counts)
    decreases i
  {
    hide NotifyDone, Get, CountsAt, StartPhasing, Stage, EndsRunEarly, Script, Seen;
    if i == 0 {
      StartFollows(counts);
      StartCounts(counts);
      StageAt(ss[0], 0, counts);
    } else {
      RunFollows(ss, reports, counts, i - 1);
      assert IsStep(ss[i - 1], reports[i - 1], ss[i - 1 + 1], counts);
      assert !EndsRunEarly(ss[i - 1], reports[i - 1]);
      var k := Stage(ss[i - 1]);
      FollowsStep(ss[i - 1], reports[i - 1], ss[i], k, counts);
      StageAt(ss[i], if EndsPhase(ss[i - 1], reports[i - 1]) then k + 1 else k, counts);
    }
  }

  lemma {:induction false} StartFollows(counts: Counts)
    requires AllTakePart(counts)
    ensures Follows(StartPhasing(Initial(), counts), 0, counts)
  {
    StartCounts(counts);
    StartSeen(counts);
    assert Script(0) + [] == Script(0);
    assert Get(StartPhasing(Initial(), counts).done, Run) == 0;
  }

  ghost predicate SeesScript(s: Service) {
    Seen(s.log) == Script(Stage(s)) + (if Stage(s) == 4 && Over(s, Run) then PostScript else [])
  }

  /** At every point of such a run the frameworks have seen exactly the script: the UVM phases end
      in order, each once and only when all its participants have reported, and the post-run
      phases follow once, when shutdown and run are both over. */
  lemma {:induction false} FrameworksSeeTheScript(ss: seq<Service>, reports: seq<Done>, counts: Counts, i: nat)
    requires IsRun(ss, reports, counts) && RunReportsLast(ss, reports) && i < |ss|
    ensures SeesScript(ss[i])
  {
    RunFollows(ss, reports, counts, i);
  }

  /** And when everyone has reported, all of it has been seen. */
  lemma {:induction false} AllReportedAllSeen(ss: seq<Service>, reports: seq<Done>, counts: Counts, i: nat)
    requires IsRun(ss, reports, counts) && RunReportsLast(ss, reports) && i < |ss|
    requires Get(ss[i].done, Run) == counts(Run) && forall j | 0 <= j < 4 :: Get(ss[i].done, Uvm(j)) == counts(Uvm(j))
    ensures Seen(ss[i].log) == Script(4) + PostScript
  {
    hide PhaseAt, Get, Stage;
    RunFollows(ss, reports, counts, i);
    var k := Stage(ss[i]);
    if k < 4 {
      SomeoneMissing(ss[i], k, counts);
    }
  }

  lemma {:induction false} SomeoneMissing(s: Service, k: nat, counts: Counts)
    requires CountsAt(s, k, counts) && k < 4
    ensures Get(s.done, Uvm(k)) < counts(Uvm(k))
  {
  }

  /** Without that assumption the guard also holds while shutdown has no participants yet. The
      frameworks see the script throughout a run, with the post-run phases after shutdown, exactly
      if the last report of `run` does not come before shutdown is under way. */
  lemma {:induction false} PostRunWaitsExactlyIf(ss: seq<Service>, reports: seq<Done>, counts: Counts)
    requires IsRun(ss, reports, counts)
    ensures (forall i | 0 <= i < |ss| :: SeesScript(ss[i])) <==> RunReportsLast(ss, reports)
    ensures (forall i | 0 < i < |ss| :: BothDone(ss[i]) ==> Stage(ss[i]) == 4) <==> RunReportsLast(ss, reports)
  {
    hide Stage, Get, BothDone, SeesScript, EndsRunEarly, IsStep, StartPhasing;
    if RunReportsLast(ss, reports) {
      forall i | 0 <= i < |ss| ensures SeesScript(ss[i]) && (BothDone(ss[i]) ==> Stage(ss[i]) == 4) {
        FrameworksSeeTheScript(ss, reports, counts, i);
        RunFollows(ss, reports, counts, i);
        GuardMeans(ss[i], Stage(ss[i]), counts);
      }
    } else {
      var i :| 0 <= i < |reports| && EndsRunEarly(ss[i], reports[i]);
      RunCounts(ss, reports, counts, i);
      EarlyUnscripted(ss[i], reports[i], ss[i + 1], Stage(ss[i]), counts);
      assert BothDone(ss[i + 1]) && Stage(ss[i + 1]) < 4;
    }
  }

  /** An early last report of `run` lets the frameworks see the post-run phases out of turn. */
  lemma {:induction false} EarlyUnscripted(s: Service, d: Done, s': Service, k: nat, counts: Counts)
    requires AllTakePart(counts) && CountsAt(s, k, counts) && IsStep(s, d, s', counts) && EndsRunEarly(s, d)
    ensures BothDone(s') && Stage(s') < 4 && !(SeesScript(s) && SeesScript(s'))
  {
    EarlyGuard(s, d, s', k, counts);
    StepCounts(s, d, s', k, counts);
    StepSeen(s, d, s', counts);
    StageAt(s, k, counts);
    StageAt(s', k, counts);
    hide NotifyDone, IsStep, CountsAt, Get, Stage, BothDone, Script;
    assert |PostScript| > 0;
  }

  lemma {:induction false} EarlyGuard(s: Service, d: Done, s': Service, k: nat, counts: Counts)
    requires AllTakePart(counts) && CountsAt(s, k, counts) && IsStep(s, d, s', counts) && EndsRunEarly(s, d)
    ensures BothDone(s') && Stage(s') < 4
  {
    hide NotifyDone, Get, IsStep, Stage, BothDone;
    StepEffect(s, d, s', counts);
    StepCounts(s, d, s', k, counts);
    assert PhaseAt(s, 3, k, counts) && Uvm(3) == Shutdown && 0 < counts(Uvm(3));
    GuardMeans(s', k, counts);
    StageAt(s', k, counts);
  }

  /** For instance, whenever `run` has one participant: if the first report of all is its, the
      post-run phases are executed while reset is still under way. */
  lemma {:induction false} PostRunTooEarly(counts: Counts, time: Time)
    requires AllTakePart(counts) && counts(Run) == 1
    ensures var s := StartPhasing(Initial(), counts);
      var s' := NotifyDone(s, "common", Run, time, counts);
      MayReport(s, Run) && Stage(s') == 0 && Seen(s'.log) == Script(0) + PostScript
  {
    hide NotifyDone, StartPhasing, Get, Script, Seen, CountsAt, Stage, BothDone;
    var s, d := StartPhasing(Initial(), counts), Done("common", Run, time);
    var s' := NotifyDone(s, "common", Run, time, counts);
    StartCounts(counts);
    StartSeen(counts);
    NoReportsYet(counts);
    assert IsStep(s, d, s', counts);
    StageAt(s, 0, counts);
    EarlyGuard(s, d, s', 0, counts);
    StepCounts(s, d, s', 0, counts);
    StageAt(s', 0, counts);
    StepSeen(s, d, s', counts);
    assert Script(0) + [] == Script(0);
  }

  lemma {:induction false} NoReportsYet(counts: Counts)
    ensures var s := StartPhasing(Initial(), counts);
      Get(s.done, Run) == 0 && Get(s.participate, Run) == counts(Run) && Get(s.participate, Shutdown) == 0
  {
  }

  // ------------------------------------------------------------------ groups and times

  /** The time that was reported last with a valid unit. */
  function LastTime(reports: seq<Done>): Time {
    if reports == [] then Time(TIME_UNIT_FS, 0.0)
    else if reports[|reports| - 1].time.unit < TIME_UNIT_UNDEFINED then reports[|reports| - 1].time
    else LastTime(reports[..|reports| - 1])
  }

  /** A notification made at time `now`: runtime phases carry the time, and no others; and the group
      is the one of the phase, except that a UVM phase is ended in the group that reported. */
  predicate Carries(e: Event, now: Time, group: string) {
    && e.time == (if e.phase == Run || IsUvm(e.phase) then Some(now) else None)
    && e.group == (if !IsUvm(e.phase) then "common"
                   else if e.action == Started || e.action == Executing then "uvm" else group)
  }

  ghost predicate Appends(log: seq<Event>, log': seq<Event>, now: Time, group: string) {
    log <= log' && forall i | |log| <= i < |log'| :: Carries(log'[i], now, group)
  }

  lemma {:induction false} AppendsOn(a: seq<Event>, b: seq<Event>, c: seq<Event>, now: Time, group: string)
    requires Appends(a, b, now, group) && Appends(b, c, now, group)
    ensures Appends(a, c, now, group)
  {
    assert forall i | |a| <= i < |b| :: c[i] == b[i];
  }

  lemma {:induction false} PhaseAppends(s: Service, p: Phase, group: string)
    ensures p != Run && !IsUvm(p) ==> var r := ExecutePhase(s, "common", p);
      Appends(s.log, r.log, s.time, group) && r.time == s.time
    ensures p == Run ==> var r := EndRuntime(s, "common", p); Appends(s.log, r.log, s.time, group) && r.time == s.time
    ensures IsUvm(p) ==> var r := EndRuntime(s, group, p); Appends(s.log, r.log, s.time, group) && r.time == s.time
  {
  }

  lemma {:induction false} StartAppends(s: Service, p: Phase, counts: Counts, group: string)
    requires p == Run || IsUvm(p)
    ensures var r := ExecuteRuntime(s, if p == Run then "common" else "uvm", p, counts);
      Appends(s.log, r.log, s.time, group) && r.time == s.time
  {
  }

  lemma {:induction false} PostRunAppends(s: Service, group: string)
    ensures Appends(s.log, PostRun(s).log, s.time, group) && PostRun(s).time == s.time
  {
    hide EndRuntime, ExecutePhase, Appends, Get;
    var s1 := EndRuntime(s, "common", Run);
    var s2 := ExecutePhase(s1, "common", Extract);
    var s3 := ExecutePhase(s2, "common", Check);
    var s4 := ExecutePhase(s3, "common", Report);
    var s5 := ExecutePhase(s4, "common", Final);
    PhaseAppends(s, Run, group);
    PhaseAppends(s1, Extract, group);
    PhaseAppends(s2, Check, group);
    PhaseAppends(s3, Report, group);
    PhaseAppends(s4, Final, group);
    AppendsOn(s.log, s1.log, s2.log, s.time, group);
    AppendsOn(s.log, s2.log, s3.log, s.time, group);
    AppendsOn(s.log, s3.log, s4.log, s.time, group);
    AppendsOn(s.log, s4.log, s5.log, s.time, group);
    NothingAppends(s.log, s.time, group);
  }

  lemma {:induction false} NothingAppends(log: seq<Event>, now: Time, group: string)
    ensures Appends(log, log, now, group)
  {
  }

  lemma {:induction false} EndPhaseAppends(s: Service, group: string, p: Phase, counts: Counts)
    requires p == Run || IsUvm(p)
    ensures Appends(s.log, EndPhase(s, group, p, counts).log, s.time, group)
    ensures EndPhase(s, group, p, counts).time == s.time
  {
    hide EndRuntime, ExecuteRuntime, Appends, Get;
    NothingAppends(s.log, s.time, group);
    var s1 := EndRuntime(s, group, p);
    PhaseAppends(s, p, group);
    if IsUvm(p) && NextRuntime(p).Some? {
      var q := NextRuntime(p).value;
      StartAppends(s1, q, counts, group);
      AppendsOn(s.log, s1.log, ExecuteRuntime(s1, "uvm", q, counts).log, s.time, group);
    }
  }

  lemma {:induction false} StepAppends(s: Service, d: Done, s': Service, counts: Counts)
    requires IsStep(s, d, s', counts) && (d.phase == Run || IsUvm(d.phase))
    ensures s'.time == if d.time.unit < TIME_UNIT_UNDEFINED then d.time else s.time
    ensures Appends(s.log, s'.log, s'.time, d.group)
  {
    hide EndPhase, PostRun, Appends, Get;
    var s1 := Count(s, d.phase, d.time);
    var s2 := EndPhase(s1, d.group, d.phase, counts);
    EndPhaseAppends(s1, d.group, d.phase, counts);
    PostRunAppends(s2, d.group);
    AppendsOn(s1.log, s2.log, s'.log, s'.time, d.group);
  }

  /** In every run, each notification that a report leads to carries the last valid time reported, that
      report included, and the right group. */
  lemma {:induction false} EventsCarry(ss: seq<Service>, reports: seq<Done>, counts: Counts, i: nat)
    requires IsRun(ss, reports, counts) && i <= |reports|
    ensures ss[i].time == LastTime(reports[..i])
    ensures i == 0 ==> Appends([], ss[0].log, LastTime([]), "")
    ensures i > 0 ==> Appends(ss[i - 1].log, ss[i].log, LastTime(reports[..i]), reports[i - 1].group)
  {
    hide StartPhasing, NotifyDone, CountsAt, Stage, Appends, Get, MayReport;
    if i == 0 {
      StartCarries(counts);
    } else {
      EventsCarry(ss, reports, counts, i - 1);
      assert reports[..i][..i - 1] == reports[..i - 1];
      RunCounts(ss, reports, counts, i - 1);
      assert IsStep(ss[i - 1], reports[i - 1], ss[i - 1 + 1], counts);
      Reports(ss[i - 1], reports[i - 1], ss[i], counts);
      WhoReports(ss[i - 1], reports[i - 1].phase, Stage(ss[i - 1]), counts);
      StepAppends(ss[i - 1], reports[i - 1], ss[i], counts);
    }
  }

  lemma {:induction false} StartCarries(counts: Counts)
    ensures StartPhasing(Initial(), counts).time == LastTime([])
    ensures Appends([], StartPhasing(Initial(), counts).log, LastTime([]), "")
  {
  }

  // ------------------------------------------------------------------ the service itself

  /** Adds up what each framework reports. */
  function Total(frameworks: seq<Counts>, p: Phase): nat {
    if frameworks == [] then 0 else Total(frameworks[..|frameworks| - 1], p) + frameworks[|frameworks| - 1](p)
  }

  /** The participants of two groups of frameworks add up. */
  lemma {:induction false} TotalAdds(a: seq<Counts>, b: seq<Counts>, p: Phase)
    ensures Total(a + b, p) == Total(a, p) + Total(b, p)
    ensures |a| == 1 ==> Total(a, p) == a[0](p)
  {
    if b == [] {
      assert a + b == a;
    } else {
      assert (a + b)[..|a + b| - 1] == a + b[..|b| - 1];
      TotalAdds(a, b[..|b| - 1], p);
    }
  }

  /** `told` is what each framework was told; all of them were told the same. */
  class Backplane {
    const frameworks: seq<Counts>
    var told: seq<seq<Event>>
    ghost var log: seq<Event>

    ghost predicate Valid()
      reads this
    {
      |told| == |frameworks| && forall i | 0 <= i < |told| :: told[i] == log
    }

    constructor (frameworks: seq<Counts>)
      ensures this.frameworks == frameworks && log == [] && Valid()
    {
      this.frameworks := frameworks;
      told, log := seq(|frameworks|, _ => []), [];
    }

    method NotifyPhase(group: string, p: Phase, action: Action)
      requires Valid()
      modifies this
      ensures Valid() && log == old(log) + [Event(group, p, action, None)]
    {
      var e := Event(group, p, action, None);
      for i := 0 to |frameworks|
        invariant |told| == |frameworks| && log == old(log)
        invariant forall j | 0 <= j < |told| :: told[j] == if j < i then log + [e] else log
      {
        told := told[i := told[i] + [e]];
      }
      log := log + [e];
    }

    /** Tells every framework, and sums up their participants. */
    method NotifyRuntimePhase(group: string, p: Phase, action: Action, time: Time) returns (participate: nat)
      requires Valid()
      modifies this
      ensures Valid() && log == old(log) + [Event(group, p, action, Some(time))]
      ensures participate == Total(frameworks, p)
    {
      var e := Event(group, p, action, Some(time));
      participate := 0;
      for i := 0 to |frameworks|
        invariant participate == Total(frameworks[..i], p) && |told| == |frameworks| && log == old(log)
        invariant forall j | 0 <= j < |told| :: told[j] == if j < i then log + [e] else log
      {
        assert frameworks[..i + 1][..i] == frameworks[..i];
        told := told[i := told[i] + [e]];
        participate := participate + frameworks[i](p);
      }
      assert frameworks[..|frameworks|] == frameworks;
      log := log + [e];
    }
  }

  class PhaseService {
    const backplane: Backplane
    var mParticipate: map<Phase, nat>
    var mParticipateDone: map<Phase, nat>
    var mCurrentPhase: Phase
    var mCurrentTime: Time

    ghost function View(): Service
      reads this, backplane
    {
      Service(mParticipate, mParticipateDone, mCurrentPhase, mCurrentTime, backplane.log)
    }

    ghost function Participants(): Counts {
      p => Total(backplane.frameworks, p)
    }

    constructor (backplane: Backplane)
      requires backplane.Valid() && backplane.log == []
      ensures this.backplane == backplane && View() == Initial() && backplane.Valid()
    {
      this.backplane := backplane;
      mParticipate, mParticipateDone := ZEROES, ZEROES;
      mCurrentPhase, mCurrentTime := Other(""), Time(TIME_UNIT_FS, 0.0);
    }

    method RunPhase(group: string, p: Phase)
      requires backplane.Valid()
      modifies this, backplane
      ensures backplane.Valid() && View() == ExecutePhase(old(View()), group, p)
    {
      mCurrentPhase := p;
      backplane.NotifyPhase(group, p, Started);
      backplane.NotifyPhase(group, p, Executing);
      backplane.NotifyPhase(group, p, Ended);
    }

    method RunRuntimePhase(group: string, p: Phase)
      requires backplane.Valid()
      modifies this, backplane
      ensures backplane.Valid() && View() == ExecuteRuntime(old(View()), group, p, Participants())
    {
      mCurrentPhase := p;
      var dummy := backplane.NotifyRuntimePhase(group, p, Started, mCurrentTime);
      var participate := backplane.NotifyRuntimePhase(group, p, Executing, mCurrentTime);
      mParticipate := mParticipate[p := participate];
    }

    method FinishRuntimePhase(group: string, p: Phase)
      requires backplane.Valid()
      modifies backplane
      ensures backplane.Valid() && View() == EndRuntime(old(View()), group, p)
    {
      var dummy := backplane.NotifyRuntimePhase(group, p, ReadyToEnd, mCurrentTime);
      dummy := backplane.NotifyRuntimePhase(group, p, Ended, mCurrentTime);
    }

    method Start()
      requires backplane.Valid()
      modifies this, backplane
      ensures backplane.Valid() && View() == StartPhasing(old(View()), Participants())
    {
      RunPhase("common", Build);
      RunPhase("common", Connect);
      RunPhase("common", ResolveBindings);
      RunPhase("common", EndOfElaboration);
      RunPhase("common", StartOfSimulation);
      RunRuntimePhase("common", Run);
      RunRuntimePhase("uvm", Reset);
    }

    method EndsOrWaits(group: string, p: Phase)
      requires backplane.Valid()
      modifies this, backplane
      ensures backplane.Valid() && View() == EndPhase(old(View()), group, p, Participants())
    {
      hide EndRuntime, ExecuteRuntime, Get;
      if p != Run && Get(mParticipateDone, p) == Get(mParticipate, p) {
        FinishRuntimePhase(group, p);
        if NextRuntime(p).Some? {
          RunRuntimePhase("uvm", NextRuntime(p).value);
        }
      }
    }

    method PostRunPhases()
      requires backplane.Valid()
      modifies this, backplane
      ensures backplane.Valid() && View() == PostRun(old(View()))
    {
      hide EndRuntime, ExecutePhase, Get;
      if Get(mParticipateDone, Run) == Get(mParticipate, Run)
        && Get(mParticipateDone, Shutdown) == Get(mParticipate, Shutdown)
      {
        FinishRuntimePhase("common", Run);
        RunPhase("common", Extract);
        RunPhase("common", Check);
        RunPhase("common", Report);
        RunPhase("common", Final);
      }
    }

    /** `srvc_notify_phase_done`. */
    method SrvcNotifyPhaseDone(group: string, p: Phase, time: Time)
      requires backplane.Valid()
      modifies this, backplane
      ensures backplane.Valid() && View() == NotifyDone(old(View()), group, p, time, Participants())
    {
      hide EndPhase, PostRun, Get;
      if time.unit < TIME_UNIT_UNDEFINED {
        mCurrentTime := time;
      }
      mParticipateDone := mParticipateDone[p := Get(mParticipateDone, p) + 1];
      EndsOrWaits(group, p);
      PostRunPhases();
    }
  }
}
