/** The lease file of winner/runtime/job-store.ts, one step per file operation: exclusive
    creation, heartbeats, expiry, the read and the probe of an owner, take-over and release.

    `takeover` and `heartbeat` say whether taking over (read, probe, unlink) and beating
    (read, replace) are single steps; in the source neither is.  Every lease is written to
    expire one `duration` after the clock. */
module Lease {
  import opened Domain

  type Pid = nat

  type Duration = d: int | 0 < d witness 1

  /** `ticket` is the random part of an owner id: fresh for every acquisition. */
  datatype Record = Record(owner: Pid, ticket: nat, expires: int)

  /** `Probing`: an expired record of `owner` was read.  `Removing`: the release found its own
      record and has yet to unlink it. */
  datatype Pc = Outside | Wanting | Probing(owner: Pid) | Unlinking | Inside(ticket: nat) | Removing(ticket: nat)

  /** `beats`: the tickets that heartbeats found in the file; any number of these may be under
      way and replace it at any time. */
  datatype Process = Process(alive: bool, pc: Pc, beats: set<nat>)

  datatype State = State(file: Option<Record>, now: int, processes: map<Pid, Process>, tickets: nat)

  datatype Grain = Grain(takeover: bool, heartbeat: bool, duration: Duration)

  datatype Step =
    | Elapse(till: int)
    | Appear(p: Pid)
    | Want(p: Pid)
    | Create(p: Pid)
    | GiveUp(p: Pid)
    | FindExpired(p: Pid)
    | Probe(p: Pid)
    | Unlink(p: Pid)
    | ReadBeat(p: Pid)
    | WriteBeat(p: Pid, ticket: nat)
    | Release(p: Pid)
    | Remove(p: Pid)
    | Leave(p: Pid)
    | Crash(p: Pid)

  predicate Live(s: State, p: Pid) { p in s.processes && s.processes[p].alive }

  predicate InsideLease(s: State, p: Pid) { Live(s, p) && s.processes[p].pc.Inside? }

  function With(s: State, p: Pid, process: Process): State { s.(processes := s.processes[p := process]) }

  function At(s: State, p: Pid, pc: Pc): State
    requires p in s.processes
  {
    With(s, p, s.processes[p].(pc := pc))
  }

  predicate IsDead(s: State, p: Pid) { p in s.processes && !s.processes[p].alive }

  predicate Expired(s: State) { s.file.Some? && s.file.value.expires <= s.now }

  predicate Owns(s: State, p: Pid, ticket: nat) { s.file.Some? && s.file.value.owner == p && s.file.value.ticket == ticket }

  predicate Enabled(g: Grain, s: State, step: Step) {
    match step {
      case Elapse(till) => s.now <= till
      case Appear(p) => p !in s.processes
      case Want(p) => Live(s, p) && s.processes[p].pc == Outside
      case Create(p) => Live(s, p) && s.processes[p].pc == Wanting && s.file.None?
      case GiveUp(p) => Live(s, p) && (s.processes[p].pc == Wanting || s.processes[p].pc.Probing?)
      case FindExpired(p) => Live(s, p) && s.processes[p].pc == Wanting && Expired(s) && (g.takeover ==> IsDead(s, s.file.value.owner))
      case Probe(p) => Live(s, p) && s.processes[p].pc.Probing? && IsDead(s, s.processes[p].pc.owner)
      case Unlink(p) => Live(s, p) && s.processes[p].pc == Unlinking
      case ReadBeat(p) => Live(s, p) && s.processes[p].pc.Inside? && Owns(s, p, s.processes[p].pc.ticket)
      case WriteBeat(p, ticket) => Live(s, p) && ticket in s.processes[p].beats
      case Release(p) => Live(s, p) && s.processes[p].pc.Inside? && Owns(s, p, s.processes[p].pc.ticket)
      case Remove(p) => Live(s, p) && s.processes[p].pc.Removing?
      case Leave(p) => Live(s, p) && (s.processes[p].pc.Inside? || s.processes[p].pc.Removing?)
      case Crash(p) => Live(s, p)
    }
  }

  function After(g: Grain, s: State, step: Step): State
    requires Enabled(g, s, step)
  {
    match step {
      case Elapse(till) => s.(now := till)
      case Appear(p) => With(s, p, Process(true, Outside, {}))
      case Want(p) => At(s, p, Wanting)
      case Create(p) => At(s, p, Inside(s.tickets)).(file := Some(Record(p, s.tickets, s.now + g.duration)), tickets := s.tickets + 1)
      case GiveUp(p) => At(s, p, Outside)
      case FindExpired(p) => if g.takeover then s.(file := None) else At(s, p, Probing(s.file.value.owner))
      case Probe(p) => At(s, p, Unlinking)
      case Unlink(p) => At(s, p, Wanting).(file := None)
      case ReadBeat(p) =>
        var ticket := s.processes[p].pc.ticket;
        if g.heartbeat then s.(file := Some(Record(p, ticket, s.now + g.duration)))
        else With(s, p, s.processes[p].(beats := s.processes[p].beats + {ticket}))
      case WriteBeat(p, ticket) => s.(file := Some(Record(p, ticket, s.now + g.duration)))
      case Release(p) => At(s, p, Removing(s.processes[p].pc.ticket))
      case Remove(p) => At(s, p, Outside).(file := None)
      case Leave(p) => At(s, p, Outside)
      case Crash(p) => With(s, p, s.processes[p].(alive := false))
    }
  }

  const START := State(None, 0, map[], 0)

  /** The state a run of steps ends in; a step that is not enabled ends the run. */
  function Runs(g: Grain, s: State, steps: seq<Step>): State
    decreases |steps|
  {
    if steps == [] || !Enabled(g, s, steps[0]) then s else Runs(g, After(g, s, steps[0]), steps[1..])
  }

  predicate Exclusive(s: State) { forall p <- s.processes, q <- s.processes :: InsideLease(s, p) && InsideLease(s, q) ==> p == q }

  function LivePids(s: State): set<Pid> { set p <- s.processes | s.processes[p].alive }

  function CrashedPids(s: State): set<Pid> { set p <- s.processes | !s.processes[p].alive }

  /** At most `k` processes are alive in every state of the run. */
  predicate AlwaysFew(g: Grain, k: nat, s: State, steps: seq<Step>)
    decreases |steps|
  {
    |LivePids(s)| <= k && (steps == [] || !Enabled(g, s, steps[0]) || AlwaysFew(g, k, After(g, s, steps[0]), steps[1..]))
  }

  predicate HoldsLease(s: State, p: Pid) { Live(s, p) && (s.processes[p].pc.Inside? || s.processes[p].pc.Removing?) }

  // ---- Single steps keep the lease exclusive

  /** Whoever is alive and holds the lease owns the file; nothing is half done. */
  ghost predicate Inv(s: State) {
    && (forall p <- s.processes :: HoldsLease(s, p) ==> Owns(s, p, s.processes[p].pc.ticket))
    && (forall p <- s.processes :: s.processes[p].beats == {} && !s.processes[p].pc.Probing? && s.processes[p].pc != Unlinking)
  }

  lemma StepKeeps(g: Grain, s: State, step: Step)
    requires Inv(s) && Enabled(g, s, step) && g.takeover && g.heartbeat
    ensures Inv(After(g, s, step))
  {
  }

  lemma {:induction false} RunsKeep(g: Grain, s: State, steps: seq<Step>)
    requires Inv(s) && g.takeover && g.heartbeat
    ensures Inv(Runs(g, s, steps))
    decreases |steps|
  {
    if steps != [] && Enabled(g, s, steps[0]) {
      StepKeeps(g, s, steps[0]);
      RunsKeep(g, After(g, s, steps[0]), steps[1..]);
    }
  }

  lemma InvIsExclusive(s: State)
    requires Inv(s)
    ensures Exclusive(s)
  {
    forall p, q | InsideLease(s, p) && InsideLease(s, q) ensures p == q {
      assert HoldsLease(s, p) && HoldsLease(s, q);
    }
  }

  /** With single steps, nobody moves a lease away from an owner that is alive and inside. */
  lemma LiveOwnersKeepTheirLease(g: Grain, steps: seq<Step>, step: Step)
    requires g.takeover && g.heartbeat
    ensures
      var s := Runs(g, START, steps);
      Enabled(g, s, step) && s.file.Some? && InsideLease(s, s.file.value.owner) ==>
        var later := After(g, s, step);
        later.file.Some? && later.file.value.owner == s.file.value.owner && later.file.value.ticket == s.file.value.ticket
  {
    RunsKeep(g, START, steps);
  }

  /** And nobody at all ends a lease that has not expired, but its own holder. */
  lemma UnexpiredLeasesStay(g: Grain, steps: seq<Step>, step: Step)
    requires g.takeover && g.heartbeat
    ensures
      var s := Runs(g, START, steps);
      Enabled(g, s, step) && s.file.Some? && s.now < s.file.value.expires ==>
        var later := After(g, s, step);
        || (later.file.Some? && later.file.value.owner == s.file.value.owner && later.file.value.ticket == s.file.value.ticket)
        || step == Remove(s.file.value.owner)
  {
    RunsKeep(g, START, steps);
  }

  // ---- Runs, put together step by step

  predicate Leads(g: Grain, k: nat, s: State, steps: seq<Step>, end: State)
    decreases |steps|
  {
    && |LivePids(s)| <= k
    && if steps == [] then s == end else Enabled(g, s, steps[0]) && Leads(g, k, After(g, s, steps[0]), steps[1..], end)
  }

  lemma {:induction false} LeadsRuns(g: Grain, k: nat, s: State, steps: seq<Step>, end: State)
    requires Leads(g, k, s, steps, end)
    ensures Runs(g, s, steps) == end && AlwaysFew(g, k, s, steps)
    decreases |steps|
  {
    if steps != [] {
      LeadsRuns(g, k, After(g, s, steps[0]), steps[1..], end);
    }
  }

  lemma {:induction false} OneMore(g: Grain, k: nat, s: State, steps: seq<Step>, middle: State, step: Step)
    requires Leads(g, k, s, steps, middle) && Enabled(g, middle, step) && |LivePids(After(g, middle, step))| <= k
    ensures Leads(g, k, s, steps + [step], After(g, middle, step))
    decreases |steps|
  {
    if steps == [] {
      assert [] + [step] == [step] && [step][1..] == [];
    } else {
      OneMore(g, k, After(g, s, steps[0]), steps[1..], middle, step);
      assert (steps + [step])[1..] == steps[1..] + [step];
    }
  }

  lemma FewNames(s: State, a: Pid, b: Pid)
    requires LivePids(s) <= {a, b}
    ensures |LivePids(s)| <= 2
  {
    if a in LivePids(s) {
      assert LivePids(s) - {a} <= {b};
      assert |LivePids(s) - {a}| <= |{b}| by { SubsetIsSmaller(LivePids(s) - {a}, {b}); }
    } else {
      SubsetIsSmaller(LivePids(s), {b});
    }
  }

  lemma {:induction false} SubsetIsSmaller(a: set<Pid>, b: set<Pid>)
    requires a <= b
    ensures |a| <= |b|
  {
    if x :| x in a {
      SubsetIsSmaller(a - {x}, b - {x});
    }
  }

  /** Only `a` and `b` are alive. */
  predicate Only(s: State, a: Pid, b: Pid) { LivePids(s) <= {a, b} }

  lemma StaysOnly(g: Grain, s: State, step: Step, a: Pid, b: Pid)
    requires Only(s, a, b) && Enabled(g, s, step) && (step.Appear? ==> step.p == a || step.p == b)
    ensures Only(After(g, s, step), a, b)
  {
    var later := After(g, s, step);
    forall p <- LivePids(later) ensures p == a || p == b {
      assert p in LivePids(s) || (step.Appear? && step.p == p);
    }
  }

  /** One more step of a run in which only `a` and `b` are alive. */
  lemma Then(g: Grain, steps: seq<Step>, s: State, step: Step, a: Pid, b: Pid) returns (longer: seq<Step>, later: State)
    requires Leads(g, 2, START, steps, s) && Enabled(g, s, step) && Only(s, a, b) && (step.Appear? ==> step.p == a || step.p == b)
    ensures later == After(g, s, step) && Leads(g, 2, START, longer, later) && Only(later, a, b)
  {
    hide After, Enabled, Leads;
    longer, later := steps + [step], After(g, s, step);
    StaysOnly(g, s, step, a, b);
    FewNames(later, a, b);
    OneMore(g, 2, START, steps, s, step);
  }

  /** A run to a state where process 0 died inside its lease, which has expired since. */
  lemma OwnerDies(g: Grain) returns (steps: seq<Step>, s: State)
    ensures Leads(g, 2, START, steps, s)
    ensures s == State(Some(Record(0, 0, g.duration)), g.duration, map[0 := Process(false, Inside(0), {})], 1)
  {
    steps, s := [], START;
    assert Leads(g, 2, START, steps, s) && Only(s, 0, 0);
    hide Leads, Only;
    steps, s := Then(g, steps, s, Appear(0), 0, 0);
    steps, s := Then(g, steps, s, Want(0), 0, 0);
    steps, s := Then(g, steps, s, Create(0), 0, 0);
    steps, s := Then(g, steps, s, Crash(0), 0, 0);
    steps, s := Then(g, steps, s, Elapse(g.duration), 0, 0);
  }

  /** What a race shows: two inside, with three processes of which one crashed, and never more
      than two alive. */
  predicate Breaks(g: Grain, steps: seq<Step>) {
    var s := Runs(g, START, steps);
    && !Exclusive(s) && AlwaysFew(g, 2, START, steps)
    && s.processes.Keys == {0, 1, 2} && CrashedPids(s) == {0}
  }

  lemma BothWant(g: Grain) returns (steps: seq<Step>, s: State)
    ensures Leads(g, 2, START, steps, s) && Only(s, 1, 2)
    ensures s == State(Some(Record(0, 0, g.duration)), g.duration,
                       map[0 := Process(false, Inside(0), {}), 1 := Process(true, Wanting, {}), 2 := Process(true, Wanting, {})], 1)
  {
    steps, s := OwnerDies(g);
    assert Only(s, 1, 2);
    hide Leads, Only;
    steps, s := Then(g, steps, s, Appear(1), 1, 2);
    steps, s := Then(g, steps, s, Want(1), 1, 2);
    steps, s := Then(g, steps, s, Appear(2), 1, 2);
    steps, s := Then(g, steps, s, Want(2), 1, 2);
  }

  /** A run to a state where two contenders have found the same dead owner. */
  lemma BothFindDead(g: Grain) returns (steps: seq<Step>, s: State)
    requires !g.takeover
    ensures Leads(g, 2, START, steps, s) && Only(s, 1, 2)
    ensures s == State(Some(Record(0, 0, g.duration)), g.duration,
                       map[0 := Process(false, Inside(0), {}), 1 := Process(true, Unlinking, {}), 2 := Process(true, Unlinking, {})], 1)
  {
    steps, s := BothWant(g);
    hide Leads, Only;
    steps, s := Then(g, steps, s, FindExpired(1), 1, 2);
    steps, s := Then(g, steps, s, Probe(1), 1, 2);
    steps, s := Then(g, steps, s, FindExpired(2), 1, 2);
    steps, s := Then(g, steps, s, Probe(2), 1, 2);
  }

  /** Two of three inside, and the third is dead: what makes a run a race. */
  lemma TwoInside(g: Grain, steps: seq<Step>, s: State)
    requires Leads(g, 2, START, steps, s)
    requires InsideLease(s, 1) && InsideLease(s, 2) && s.processes.Keys == {0, 1, 2} && IsDead(s, 0)
    ensures Breaks(g, steps)
  {
    hide Leads;
    LeadsRuns(g, 2, START, steps, s);
  }

  /** Read, probe, unlink: two contenders find the same dead owner; the second unlinks the
      lease that the first has taken. */
  lemma TakeoverRace(g: Grain) returns (steps: seq<Step>)
    requires !g.takeover
    ensures Breaks(g, steps)
  {
    var s;
    steps, s := BothFindDead(g);
    hide Leads, Only, Breaks;
    steps, s := Then(g, steps, s, Unlink(1), 1, 2);
    steps, s := Then(g, steps, s, Create(1), 1, 2);
    steps, s := Then(g, steps, s, Unlink(2), 1, 2);
    steps, s := Then(g, steps, s, Create(2), 1, 2);
    TwoInside(g, steps, s);
  }

  /** A run to a state where process 0 has a heartbeat under way. */
  lemma BeatIsUnderWay(g: Grain) returns (steps: seq<Step>, s: State)
    requires !g.heartbeat
    ensures Leads(g, 2, START, steps, s) && Only(s, 0, 1)
    ensures s == State(Some(Record(0, 0, g.duration)), 0, map[0 := Process(true, Inside(0), {0})], 1)
  {
    steps, s := [], START;
    assert Leads(g, 2, START, steps, s) && Only(s, 0, 1);
    hide Leads, Only;
    steps, s := Then(g, steps, s, Appear(0), 0, 1);
    steps, s := Then(g, steps, s, Want(0), 0, 1);
    steps, s := Then(g, steps, s, Create(0), 0, 1);
    steps, s := Then(g, steps, s, ReadBeat(0), 0, 1);
    assert {} + {0} == {0};
  }

  /** And has released its lease to process 1 since. */
  lemma BeatOutlivesLease(g: Grain) returns (steps: seq<Step>, s: State)
    requires !g.heartbeat
    ensures Leads(g, 2, START, steps, s) && Only(s, 0, 1)
    ensures s == State(Some(Record(1, 1, g.duration)), 0,
                       map[0 := Process(true, Outside, {0}), 1 := Process(true, Inside(1), {})], 2)
  {
    steps, s := BeatIsUnderWay(g);
    hide Leads, Only;
    steps, s := Then(g, steps, s, Release(0), 0, 1);
    steps, s := Then(g, steps, s, Remove(0), 0, 1);
    steps, s := Then(g, steps, s, Appear(1), 0, 1);
    steps, s := Then(g, steps, s, Want(1), 0, 1);
    steps, s := Then(g, steps, s, Create(1), 0, 1);
  }

  /** A run to a state where the late heartbeat of the now dead process 0 has replaced the
      lease of process 1, and has expired. */
  lemma BeatIsLate(g: Grain) returns (steps: seq<Step>, s: State)
    requires !g.heartbeat
    ensures Leads(g, 2, START, steps, s)
    ensures s == State(Some(Record(0, 0, g.duration)), g.duration,
                       map[0 := Process(false, Outside, {0}), 1 := Process(true, Inside(1), {})], 2)
  {
    steps, s := BeatOutlivesLease(g);
    hide Leads, Only;
    steps, s := Then(g, steps, s, WriteBeat(0, 0), 0, 1);
    steps, s := Then(g, steps, s, Crash(0), 0, 1);
    steps, s := Then(g, steps, s, Elapse(g.duration), 0, 1);
  }

  /** Read, replace: a heartbeat that read its own lease lands after it was released and
      taken by another; its process then dies, and a third finds a dead owner. */
  lemma HeartbeatRace(g: Grain) returns (steps: seq<Step>)
    requires g.takeover && !g.heartbeat
    ensures Breaks(g, steps)
  {
    var s;
    steps, s := BeatIsLate(g);
    assert Only(s, 1, 2);
    hide Leads, Only, Breaks;
    steps, s := Then(g, steps, s, Appear(2), 1, 2);
    steps, s := Then(g, steps, s, Want(2), 1, 2);
    steps, s := Then(g, steps, s, FindExpired(2), 1, 2);
    steps, s := Then(g, steps, s, Create(2), 1, 2);
    TwoInside(g, steps, s);
  }

  /** A race, wherever one of the two is more than a single step. */
  lemma Race(g: Grain) returns (steps: seq<Step>)
    requires !(g.takeover && g.heartbeat)
    ensures Breaks(g, steps)
  {
    if !g.takeover {
      steps := TakeoverRace(g);
    } else {
      steps := HeartbeatRace(g);
    }
  }

  /** Exclusion in every run, over expiry, heartbeats and crashes, holds exactly when taking
      over and beating are single steps. */
  lemma ExclusionNeedsSingleSteps(g: Grain)
    ensures (forall steps :: Exclusive(Runs(g, START, steps))) <==> g.takeover && g.heartbeat
  {
    if g.takeover && g.heartbeat {
      forall steps ensures Exclusive(Runs(g, START, steps)) {
        RunsKeep(g, START, steps);
        InvIsExclusive(Runs(g, START, steps));
      }
    } else {
      var race := Race(g);
      assert !Exclusive(Runs(g, START, race));
      assert exists steps :: !Exclusive(Runs(g, START, steps));
    }
  }

  // ---- The steps of the source

  ghost predicate AllAlive(s: State) { forall p <- s.processes :: s.processes[p].alive }

  /** As long as nobody has died: one holder, whose file is there, and nobody about to unlink. */
  ghost predicate Quiet(s: State) {
    AllAlive(s) ==>
      && (forall p <- s.processes :: HoldsLease(s, p) ==> s.file.Some?)
      && (forall p <- s.processes, q <- s.processes :: HoldsLease(s, p) && HoldsLease(s, q) ==> p == q)
      && (forall p <- s.processes :: s.processes[p].pc != Unlinking)
  }

  lemma StepStaysQuiet(g: Grain, s: State, step: Step)
    requires Quiet(s) && Enabled(g, s, step)
    ensures Quiet(After(g, s, step))
  {
    var later := After(g, s, step);
    if AllAlive(later) {
      forall p <- s.processes ensures s.processes[p].alive {
        assert p in later.processes;
      }
      NobodyUnlinks(g, s, step);
      OneHolds(g, s, step);
    }
  }

  lemma NobodyUnlinks(g: Grain, s: State, step: Step)
    requires AllAlive(s) && Enabled(g, s, step) && forall p <- s.processes :: s.processes[p].pc != Unlinking
    ensures forall p <- After(g, s, step).processes :: After(g, s, step).processes[p].pc != Unlinking
    ensures !step.Unlink? && !step.Probe? && !(step.FindExpired? && g.takeover)
  {
  }

  /** Who holds the lease afterwards held it before, or has just created it. */
  lemma HoldersComeFrom(g: Grain, s: State, step: Step, p: Pid)
    requires Enabled(g, s, step) && HoldsLease(After(g, s, step), p)
    ensures HoldsLease(s, p) || step == Create(p)
  {
  }

  lemma OneHolds(g: Grain, s: State, step: Step)
    requires Enabled(g, s, step) && !step.Unlink? && !(step.FindExpired? && g.takeover)
    requires forall p <- s.processes :: HoldsLease(s, p) ==> s.file.Some?
    requires forall p <- s.processes, q <- s.processes :: HoldsLease(s, p) && HoldsLease(s, q) ==> p == q
    ensures
      var later := After(g, s, step);
      && (forall p <- later.processes :: HoldsLease(later, p) ==> later.file.Some?)
      && (forall p <- later.processes, q <- later.processes :: HoldsLease(later, p) && HoldsLease(later, q) ==> p == q)
  {
    var later := After(g, s, step);
    assert step.Remove? ==> HoldsLease(s, step.p) && !HoldsLease(later, step.p);
    forall p | HoldsLease(later, p) ensures later.file.Some? && (HoldsLease(s, p) || step == Create(p)) {
      HoldersComeFrom(g, s, step, p);
    }
  }

  lemma {:induction false} RunsStayQuiet(g: Grain, s: State, steps: seq<Step>)
    requires Quiet(s)
    ensures Quiet(Runs(g, s, steps))
    decreases |steps|
  {
    if steps != [] && Enabled(g, s, steps[0]) {
      StepStaysQuiet(g, s, steps[0]);
      RunsStayQuiet(g, After(g, s, steps[0]), steps[1..]);
    }
  }

  /** Once one of two processes is dead there is nobody to exclude. */
  lemma TwoAreExclusive(s: State)
    requires Quiet(s) && (|s.processes| <= 2 || |CrashedPids(s)| == 0)
    ensures Exclusive(s)
  {
    if r :| r in s.processes && !s.processes[r].alive {
      assert r in CrashedPids(s);
      forall p, q | InsideLease(s, p) && InsideLease(s, q) ensures p == q {
        SubsetIsSmaller({p, q, r}, s.processes.Keys);
      }
    }
  }

  /** The processes and the crashes of a run, by the state it ends in: neither is forgotten. */
  predicate Counts(s: State, n: nat, c: nat) { |s.processes| <= n && |CrashedPids(s)| <= c }

  /** However coarse the steps, and in the source both are coarse: exclusion over every run
      with at most `n` processes and at most `c` crashes holds exactly when there are no three
      processes or there is no crash. */
  lemma ExclusionAsCoded(g: Grain, n: nat, c: nat)
    requires !(g.takeover && g.heartbeat)
    ensures (forall steps :: Counts(Runs(g, START, steps), n, c) ==> Exclusive(Runs(g, START, steps))) <==> n <= 2 || c == 0
  {
    if n <= 2 || c == 0 {
      forall steps | Counts(Runs(g, START, steps), n, c) ensures Exclusive(Runs(g, START, steps)) {
        RunsStayQuiet(g, START, steps);
        TwoAreExclusive(Runs(g, START, steps));
      }
    } else {
      var steps := Race(g);
      assert Counts(Runs(g, START, steps), n, c) by {
        assert |{0, 1, 2}| == 3;
        assert |Runs(g, START, steps).processes| == |Runs(g, START, steps).processes.Keys|;
      }
    }
  }

  /** As deployed: keeping at most `k` processes alive at any time is enough exactly when `k`
      is one. */
  lemma OneSupervisorIsNeeded(g: Grain, k: nat)
    requires !(g.takeover && g.heartbeat)
    ensures (forall steps :: AlwaysFew(g, k, START, steps) ==> Exclusive(Runs(g, START, steps))) <==> k <= 1
  {
    if k <= 1 {
      forall steps | AlwaysFew(g, k, START, steps) ensures Exclusive(Runs(g, START, steps)) {
        FewAtTheEnd(g, k, START, steps);
        AloneIsExclusive(Runs(g, START, steps));
      }
    } else {
      var steps := Race(g);
      FewIsFewer(g, 2, k, START, steps);
      assert !Exclusive(Runs(g, START, steps));
    }
  }

  lemma {:induction false} FewAtTheEnd(g: Grain, k: nat, s: State, steps: seq<Step>)
    requires AlwaysFew(g, k, s, steps)
    ensures |LivePids(Runs(g, s, steps))| <= k
    decreases |steps|
  {
    if steps != [] && Enabled(g, s, steps[0]) {
      FewAtTheEnd(g, k, After(g, s, steps[0]), steps[1..]);
    }
  }

  lemma {:induction false} FewIsFewer(g: Grain, k: nat, more: nat, s: State, steps: seq<Step>)
    requires AlwaysFew(g, k, s, steps) && k <= more
    ensures AlwaysFew(g, more, s, steps)
    decreases |steps|
  {
    if steps != [] && Enabled(g, s, steps[0]) {
      FewIsFewer(g, k, more, After(g, s, steps[0]), steps[1..]);
    }
  }

  lemma AloneIsExclusive(s: State)
    requires |LivePids(s)| <= 1
    ensures Exclusive(s)
  {
    forall p, q | InsideLease(s, p) && InsideLease(s, q) ensures p == q {
      assert {p, q} <= LivePids(s);
      SubsetIsSmaller({p, q}, LivePids(s));
    }
  }
}
