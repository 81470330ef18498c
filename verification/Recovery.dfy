// The pure recovery reducer of scripts/bundle_lifecycle.py and its restart budget.

module Recovery {
  import opened Common

  datatype Phase = Disabled | IntentionallyOff | Ready | Crashed | Recovering | Faulted | Maintenance | Blocked

  datatype Action = Skip | Probe | Start | Restart | Quarantine

  datatype RecoveryState = RecoveryState(
    phase: Phase, transitionId: int, attempts: nat, windowStart: Option<real>, lastRestart: Option<real>,
    lastHealthy: Option<real>)

  datatype Observation = Observation(
    enabled: bool, stopped: bool, maintenance: bool, plannedStop: bool, paused: bool, probe: Option<bool>,
    now: real, rejoin: bool, maxAttempts: int, window: real, minInterval: real)

  datatype Decision = Decision(action: Action, previous: RecoveryState, next: RecoveryState, logged: bool)

  function Limit(o: Observation): int {
    if o.maxAttempts > 1 then o.maxAttempts else 1
  }

  function InPhase(s: RecoveryState, p: Phase): RecoveryState {
    if p != s.phase then s.(phase := p, transitionId := s.transitionId + 1) else s
  }

  function Decide(action: Action, previous: RecoveryState, next: RecoveryState, log: bool): Decision {
    Decision(action, previous, next,
             log || previous.phase != next.phase || previous.transitionId != next.transitionId)
  }

  /** A faulted bundle starts over when a rejoin is requested. */
  function Rejoined(s: RecoveryState): RecoveryState {
    s.(phase := IntentionallyOff, transitionId := s.transitionId + 1, attempts := 0, windowStart := None, lastRestart := None)
  }

  predicate NewWindow(s: RecoveryState, o: Observation) {
    s.windowStart.None? || o.now - s.windowStart.value > o.window
  }

  /** A failed probe of a bundle that was healthy once. */
  function HealthLost(s: RecoveryState, o: Observation): Decision {
    var opens := NewWindow(s, o);
    var start := if opens then o.now else s.windowStart.value;
    var attempts := if opens then 1 else s.attempts + 1;
    if attempts > Limit(o) then
      Decide(Quarantine, s,
             InPhase(s, Faulted).(attempts := attempts, windowStart := Some(start), lastRestart := None), false)
    else
      Decide(Restart, s,
             s.(phase := Recovering, transitionId := s.transitionId + 1, attempts := attempts,
                windowStart := Some(start), lastRestart := Some(o.now)), s.phase.Ready?)
  }

  /** The observation of a bundle that may run. */
  function Judge(s: RecoveryState, o: Observation): Decision {
    match o.probe
    case None =>
      if (s.phase.Recovering? || s.phase.Crashed?) && s.lastRestart.Some? && o.now - s.lastRestart.value < o.minInterval
      then Decide(Skip, s, s, false)
      else Decide(Probe, s, s, false)
    case Some(true) =>
      Decide(Skip, s, InPhase(s, Ready).(attempts := 0, windowStart := None, lastRestart := None, lastHealthy := Some(o.now)), false)
    case Some(false) =>
      if s.lastHealthy.None? then Decide(Start, s, InPhase(s, Crashed).(lastRestart := Some(o.now)), false)
      else HealthLost(s, o)
  }

  /** `reduce_recovery` */
  function Reduce(s: RecoveryState, o: Observation): Decision {
    if !o.enabled || o.stopped then Decide(Skip, s, InPhase(s, Disabled), false)
    else if o.maintenance then Decide(Skip, s, InPhase(s, Maintenance), false)
    else if o.plannedStop || o.paused then Decide(Skip, s, InPhase(s, Blocked), false)
    else if s.phase.Faulted? then
      if !o.rejoin then Decide(Skip, s, s, false) else Judge(Rejoined(s), o)
    else Judge(s, o)
  }

  // --- Single steps -----------------------------------------------------------

  /** The transition id never falls, and rises with every phase change and every restart. */
  lemma TransitionIdRises(s: RecoveryState, o: Observation)
    ensures var d := Reduce(s, o);
      && d.next.transitionId >= s.transitionId
      && (d.next.phase != s.phase || d.action.Restart? ==> d.next.transitionId > s.transitionId)
  {
  }

  /** An open circuit acts again only on a rejoin, and only while the bundle is allowed to run. */
  lemma CircuitStaysOpen(s: RecoveryState, o: Observation)
    requires s.phase.Faulted?
    ensures var d := Reduce(s, o);
      !d.action.Skip? ==> o.rejoin && o.enabled && !o.stopped && !o.maintenance && !o.plannedStop && !o.paused
  {
  }

  /** A change is logged, except that the step out of an open circuit is compared with its own result:
      a rejoin that still needs a probe changes the phase silently. */
  lemma LoggedIff(s: RecoveryState, o: Observation)
    ensures var d := Reduce(s, o);
      d.logged <==> (d.next != s && (d.next.phase != s.phase || d.next.transitionId != s.transitionId)
                     && !(s.phase.Faulted? && d.next == Rejoined(s)))
  {
  }

  /** The bundle may be acted on: nothing forbids it, and an open circuit is being closed. */
  predicate MayRun(s: RecoveryState, o: Observation) {
    o.enabled && !o.stopped && !o.maintenance && !o.plannedStop && !o.paused && (s.phase == Faulted ==> o.rejoin)
  }

  /** Too soon after the last restart to look again. */
  predicate Cooling(s: RecoveryState, o: Observation) {
    (s.phase == Recovering || s.phase == Crashed) && s.lastRestart.Some? && o.now - s.lastRestart.value < o.minInterval
  }

  /** The number of this failure in its window, which a rejoin or the end of the old window opens anew. */
  function FailureNumber(s: RecoveryState, o: Observation): int {
    if s.phase == Faulted || s.windowStart == None || o.now - s.windowStart.value > o.window then 1 else s.attempts + 1
  }

  /** Which action is chosen. */
  lemma ActionIff(s: RecoveryState, o: Observation)
    ensures var action := Reduce(s, o).action;
      var failed := MayRun(s, o) && o.probe == Some(false);
      var spent := FailureNumber(s, o) > 1 && FailureNumber(s, o) > o.maxAttempts;
      && (action == Probe <==> MayRun(s, o) && o.probe == None && !Cooling(s, o))
      && (action == Start <==> failed && s.lastHealthy == None)
      && (action == Restart <==> failed && s.lastHealthy != None && !spent)
      && (action == Quarantine <==> failed && s.lastHealthy != None && spent)
  {
  }

  /** Which phase follows. */
  lemma PhaseAfter(s: RecoveryState, o: Observation)
    ensures Reduce(s, o).next.phase ==
      if !o.enabled || o.stopped then Disabled
      else if o.maintenance then Maintenance
      else if o.plannedStop || o.paused then Blocked
      else if s.phase == Faulted && !o.rejoin then Faulted
      else match Reduce(s, o).action
        case Start => Crashed
        case Restart => Recovering
        case Quarantine => Faulted
        case _ => if o.probe == Some(true) then Ready else if s.phase == Faulted then IntentionallyOff else s.phase
  {
  }

  /** What is remembered: health only from a healthy probe, which also clears the budget; a restart only from the
      actions that start the bundle; and the failures of the window, when health was lost. */
  lemma RememberedAfter(s: RecoveryState, o: Observation)
    ensures var d := Reduce(s, o);
      var healthy := MayRun(s, o) && o.probe == Some(true);
      var lost := d.action == Restart || d.action == Quarantine;
      var cleared := healthy || (MayRun(s, o) && s.phase == Faulted);
      && d.next.lastHealthy == (if healthy then Some(o.now) else s.lastHealthy)
      && d.next.lastRestart == (if d.action == Start || d.action == Restart then Some(o.now)
                                else if cleared || d.action == Quarantine then None else s.lastRestart)
      && d.next.attempts == (if lost then FailureNumber(s, o) else if cleared then 0 else s.attempts)
      && d.next.windowStart == (if lost then (if FailureNumber(s, o) == 1 && (s.phase == Faulted || s.windowStart == None || o.now - s.windowStart.value > o.window)
                                              then Some(o.now) else s.windowStart)
                                else if cleared then None else s.windowStart)
  {
  }

  // --- Runs of the reducer ----------------------------------------------------

  /** States before each observation, and after the last. */
  function StateAfter(s: RecoveryState, os: seq<Observation>): RecoveryState
    decreases |os|
  {
    if os == [] then s else StateAfter(Reduce(s, os[0]).next, os[1..])
  }

  /** How many observations are answered with a restart. */
  function Restarts(s: RecoveryState, os: seq<Observation>): nat
    decreases |os|
  {
    if os == [] then 0
    else
      var d := Reduce(s, os[0]);
      (if d.action.Restart? then 1 else 0) + Restarts(d.next, os[1..])
  }

  /** The observation clears the budget: a healthy probe, or a rejoin of a faulted bundle. */
  predicate Clears(s: RecoveryState, o: Observation) {
    && o.enabled && !o.stopped && !o.maintenance && !o.plannedStop && !o.paused
    && (if s.phase.Faulted? then o.rejoin else o.probe == Some(true))
  }

  predicate NeverClears(s: RecoveryState, os: seq<Observation>)
    decreases |os|
  {
    os == [] || (!Clears(s, os[0]) && NeverClears(Reduce(s, os[0]).next, os[1..]))
  }

  /** Fixed limit and window, and a clock that does not run backwards, within [from, until]. */
  predicate Timed(os: seq<Observation>, from: real, until: real, limit: int, window: real) {
    && (forall i | 0 <= i < |os| :: Limit(os[i]) == limit && os[i].window == window && from <= os[i].now <= until)
    && forall i, j | 0 <= i < j < |os| :: os[i].now <= os[j].now
  }

  /** What is left of the window in which the state stands. */
  function Left(s: RecoveryState, limit: nat): nat {
    if s.attempts >= limit then 0 else limit - s.attempts
  }

  /** Restarts still possible: windows opened since `from` cannot end before `until`. */
  function Allowance(s: RecoveryState, from: real, limit: nat): nat {
    if s.windowStart.None? then limit
    else if s.windowStart.value >= from then Left(s, limit)
    else Left(s, limit) + limit
  }

  /** An open window has seen an attempt. */
  predicate Sane(s: RecoveryState) {
    s.windowStart.Some? ==> s.attempts >= 1
  }

  lemma SaneKept(s: RecoveryState, o: Observation)
    requires Sane(s)
    ensures Sane(Reduce(s, o).next)
  {
  }

  lemma AllowanceFalls(s: RecoveryState, o: Observation, from: real, until: real, limit: nat)
    requires Sane(s) && !Clears(s, o) && Limit(o) == limit && from <= o.now <= until && until - from <= o.window
    ensures var d := Reduce(s, o);
      Allowance(d.next, from, limit) + (if d.action.Restart? then 1 else 0) <= Allowance(s, from, limit)
  {
  }

  lemma {:induction false} RestartsWithinAllowance(s: RecoveryState, os: seq<Observation>, from: real, until: real, limit: nat, window: real)
    requires Sane(s) && NeverClears(s, os) && Timed(os, from, until, limit, window) && until - from <= window
    ensures Restarts(s, os) <= Allowance(s, from, limit)
    decreases |os|
  {
    hide Reduce;
    if os != [] {
      AllowanceFalls(s, os[0], from, until, limit);
      SaneKept(s, os[0]);
      RestartsWithinAllowance(Reduce(s, os[0]).next, os[1..], from, until, limit, window);
    }
  }

  /** Restart budget: any stretch no longer than the window, without a healthy probe or a rejoin, holds
      fewer than twice the limit of restarts. */
  lemma RestartBudget(s: RecoveryState, os: seq<Observation>, limit: nat, window: real)
    requires Sane(s) && os != [] && NeverClears(s, os)
    requires Timed(os, os[0].now, os[|os| - 1].now, limit, window) && os[|os| - 1].now - os[0].now <= window
    ensures Restarts(s, os) < 2 * limit
  {
    RestartsWithinAllowance(s, os, os[0].now, os[|os| - 1].now, limit, window);
  }

  function Repeat(o: Observation, n: nat): (os: seq<Observation>)
    ensures |os| == n && forall i | 0 <= i < n :: os[i] == o
  {
    seq(n, i => o)
  }

  lemma {:induction false} Stretches(s: RecoveryState, a: seq<Observation>, b: seq<Observation>)
    ensures Restarts(s, a + b) == Restarts(s, a) + Restarts(StateAfter(s, a), b)
    ensures NeverClears(s, a + b) == (NeverClears(s, a) && NeverClears(StateAfter(s, a), b))
    decreases |a|
  {
    hide Reduce, Clears;
    if a == [] {
      assert a + b == b;
    } else {
      Stretches(Reduce(s, a[0]).next, a[1..], b);
      assert (a + b)[1..] == a[1..] + b;
    }
  }

  /** A failed probe of a bundle that may run. */
  predicate Fails(o: Observation) {
    o.enabled && !o.stopped && !o.maintenance && !o.plannedStop && !o.paused && o.probe == Some(false)
  }

  /** A recovering bundle in an open window. */
  predicate InWindow(s: RecoveryState, start: real, attempts: nat) {
    s.phase.Recovering? && s.lastHealthy.Some? && s.windowStart == Some(start) && s.attempts == attempts
  }

  /** Failures within the window are answered with restarts as long as the limit lasts. */
  lemma {:induction false} Streak(s: RecoveryState, o: Observation, n: nat, start: real)
    requires Fails(o) && InWindow(s, start, s.attempts) && o.now - start <= o.window && s.attempts + n <= Limit(o)
    ensures Restarts(s, Repeat(o, n)) == n && NeverClears(s, Repeat(o, n))
    ensures InWindow(StateAfter(s, Repeat(o, n)), start, s.attempts + n)
    decreases n
  {
    if n > 0 {
      assert Repeat(o, n)[1..] == Repeat(o, n - 1);
      Streak(Reduce(s, o).next, o, n - 1, start);
    }
  }

  /** The first failure after the window opens the next one. */
  lemma NewStreak(s: RecoveryState, o: Observation, start: real)
    requires Fails(o) && InWindow(s, start, s.attempts) && o.now - start > o.window >= 0.0
    ensures Restarts(s, Repeat(o, Limit(o))) == Limit(o) && NeverClears(s, Repeat(o, Limit(o)))
  {
    assert Repeat(o, Limit(o))[1..] == Repeat(o, Limit(o) - 1);
    Streak(Reduce(s, o).next, o, Limit(o) - 1, o.now);
  }

  /** The bound is met for every limit and window: what an old window has left, and all of the next one,
      within one window's length. */
  lemma BudgetIsTight(o: Observation, window: real)
    requires Fails(o) && window > 0.0 && o.window == window
    ensures var s := RecoveryState(Recovering, 1, 1, Some(0.0), None, Some(0.0));
      var limit := Limit(o);
      var os := Repeat(o.(now := window), limit - 1) + Repeat(o.(now := 2.0 * window), limit);
      && Sane(s) && NeverClears(s, os) && Timed(os, window, 2.0 * window, limit, window)
      && Restarts(s, os) == 2 * limit - 1
  {
    hide Reduce, Restarts, NeverClears, StateAfter;
    var s := RecoveryState(Recovering, 1, 1, Some(0.0), None, Some(0.0));
    var limit := Limit(o);
    var a, b := o.(now := window), o.(now := 2.0 * window);
    Streak(s, a, limit - 1, 0.0);
    NewStreak(StateAfter(s, Repeat(a, limit - 1)), b, 0.0);
    Stretches(s, Repeat(a, limit - 1), Repeat(b, limit));
  }

  // --- One window -------------------------------------------------------------

  /** No observation opens a new window. */
  predicate OneWindow(s: RecoveryState, os: seq<Observation>, start: real)
    decreases |os|
  {
    s.windowStart == Some(start) && (os == [] || OneWindow(Reduce(s, os[0]).next, os[1..], start))
  }

  /** A failure is quarantined exactly when its window is still open and the limit is used up. */
  lemma QuarantinedIff(s: RecoveryState, o: Observation)
    requires Fails(o) && !s.phase.Faulted?
    ensures Reduce(s, o).action.Quarantine? <==>
      s.lastHealthy.Some? && s.windowStart.Some? && o.now - s.windowStart.value <= o.window && s.attempts >= Limit(o)
    ensures Reduce(s, o).action.Quarantine? ==> Reduce(s, o).next.phase.Faulted?
  {
  }

  /** Within one window there are never more restarts than the limit leaves, and a window in which they are
      used up quarantines the next failure. */
  lemma WindowBudget(s: RecoveryState, os: seq<Observation>, start: real, limit: nat, window: real)
    requires Sane(s) && NeverClears(s, os) && OneWindow(s, os, start)
    requires window >= 0.0 && forall i | 0 <= i < |os| :: Limit(os[i]) == limit && os[i].window == window
    ensures Restarts(s, os) <= Left(s, limit)
    ensures var u := StateAfter(s, os);
      && u.windowStart == Some(start)
      && (Restarts(s, os) == Left(s, limit) ==>
            forall o | Fails(o) && Limit(o) == limit && o.window == window && o.now - start <= window
                       && !u.phase.Faulted? && u.lastHealthy.Some? :: Reduce(u, o).action.Quarantine?)
  {
    WindowAttempts(s, os, start, limit, window);
    var u := StateAfter(s, os);
    forall o | Fails(o) && !u.phase.Faulted? ensures Reduce(u, o).action.Quarantine? <==>
      u.lastHealthy.Some? && u.windowStart.Some? && o.now - u.windowStart.value <= o.window && u.attempts >= Limit(o)
    {
      QuarantinedIff(u, o);
    }
  }

  /** Every restart of the window is one of its attempts. */
  lemma {:induction false} WindowAttempts(s: RecoveryState, os: seq<Observation>, start: real, limit: nat, window: real)
    requires Sane(s) && NeverClears(s, os) && OneWindow(s, os, start)
    requires window >= 0.0 && forall i | 0 <= i < |os| :: Limit(os[i]) == limit && os[i].window == window
    ensures Restarts(s, os) <= Left(s, limit)
    ensures StateAfter(s, os).windowStart == Some(start) && StateAfter(s, os).attempts >= s.attempts + Restarts(s, os)
    decreases |os|
  {
    if os != [] {
      SaneKept(s, os[0]);
      WindowAttempts(Reduce(s, os[0]).next, os[1..], start, limit, window);
    }
  }

  /** Over any run the transition id rises with every restart. */
  lemma {:induction false} RunsRaiseTransitionId(s: RecoveryState, os: seq<Observation>)
    ensures StateAfter(s, os).transitionId >= s.transitionId + Restarts(s, os)
    decreases |os|
  {
    if os != [] {
      TransitionIdRises(s, os[0]);
      RunsRaiseTransitionId(Reduce(s, os[0]).next, os[1..]);
    }
  }
}
