// Who runs which stage of a pipeline with mixed ownership: external stages before the worker, the worker's
// stages, and external stages after it (scripts/execution_boundary.py:346-578, 647-1113).

module Handoff {
  import opened Common

  datatype Kind = PromptEnhance | Generate | Delegate | Qc | Correct | OtherKind

  datatype Stage = Stage(id: string, provider: string, kind: Kind, dependsOn: seq<string>)

  /** Providers with ownership metadata, and those managed by the worker. */
  datatype Registry = Registry(known: set<string>, managed: set<string>)

  datatype Mode = Reconcile | Generic | Mixed | Unsupported

  datatype Classification = Classification(mode: Mode, worker: set<string>, external: set<string>, unknown: set<string>)

  // --- Ownership --------------------------------------------------------------

  predicate IsUnknown(r: Registry, p: string) {
    p == "" || p !in r.known
  }

  predicate IsWorker(r: Registry, p: string) {
    !IsUnknown(r, p) && p in r.managed
  }

  predicate IsExternal(r: Registry, p: string) {
    !IsUnknown(r, p) && p !in r.managed
  }

  function Providers(stages: seq<Stage>): set<string> {
    set i | 0 <= i < |stages| :: stages[i].provider
  }

  function WorkersOf(r: Registry, stages: seq<Stage>): set<string> {
    set p | p in Providers(stages) && IsWorker(r, p)
  }

  function ExternalsOf(r: Registry, stages: seq<Stage>): set<string> {
    set p | p in Providers(stages) && IsExternal(r, p)
  }

  function UnknownsOf(r: Registry, stages: seq<Stage>): set<string> {
    set p | p in Providers(stages) && IsUnknown(r, p)
  }

  function Classify(r: Registry, stages: seq<Stage>): Classification {
    var w, e, u := WorkersOf(r, stages), ExternalsOf(r, stages), UnknownsOf(r, stages);
    if u != {} then Classification(Unsupported, w, e, u)
    else if e == {} then Classification(Reconcile, w, {}, {})
    else if w == {} then Classification(Generic, {}, e, {})
    else Classification(Mixed, w, e, {})
  }

  /** `classify_stages` */
  method ClassifyStages(r: Registry, stages: seq<Stage>) returns (c: Classification)
    ensures c == Classify(r, stages)
  {
    if stages == [] {
      assert Providers(stages) == {};
      return Classification(Reconcile, {}, {}, {});
    }
    var worker, external, unknown := {}, {}, {};
    var i := 0;
    while i < |stages|
      invariant 0 <= i <= |stages|
      invariant worker == WorkersOf(r, stages[..i])
      invariant external == ExternalsOf(r, stages[..i])
      invariant unknown == UnknownsOf(r, stages[..i])
    {
      var p := stages[i].provider;
      ProvidersNext(stages, i);
      if p == "" || p !in r.known {
        unknown := unknown + {p};
      } else if p in r.managed {
        worker := worker + {p};
      } else {
        external := external + {p};
      }
      i := i + 1;
    }
    assert stages[..i] == stages;
    if unknown != {} {
      return Classification(Unsupported, worker, external, unknown);
    }
    c := if external == {} then Classification(Reconcile, worker, {}, {})
         else if worker == {} then Classification(Generic, {}, external, {})
         else Classification(Mixed, worker, external, {});
  }

  lemma ProvidersNext(stages: seq<Stage>, i: nat)
    requires i < |stages|
    ensures Providers(stages[..i + 1]) == Providers(stages[..i]) + {stages[i].provider}
  {
    var a, b := stages[..i], stages[..i + 1];
    assert forall k | 0 <= k < i :: a[k] == b[k];
    assert b[i] == stages[i];
  }

  /** The dispatch mode, or the refusal of an unknown provider. */
  function DispatchMode(r: Registry, stages: seq<Stage>, execution: string): Option<Mode> {
    if stages == [] then Some(Reconcile)
    else
      var c := Classify(r, stages);
      if c.unknown != {} then None
      else if c.mode.Mixed? then Some(if execution == "generic" then Mixed else Unsupported)
      else if execution == "legacy_reconcile" then Some(if c.mode.Reconcile? then Reconcile else Unsupported)
      else Some(if c.mode.Reconcile? then Reconcile else Generic)
  }

  /** Each mode in the caller's terms: refused exactly with an unknown provider; evidence binding exactly when
      the worker owns every stage; external dispatch never when it owns one; mixed only in generic mode. */
  lemma DispatchModeMeaning(r: Registry, stages: seq<Stage>, execution: string)
    ensures var m := DispatchMode(r, stages, execution);
      && (m.None? <==> exists i :: 0 <= i < |stages| && IsUnknown(r, stages[i].provider))
      && (m == Some(Reconcile) <==> forall i | 0 <= i < |stages| :: IsWorker(r, stages[i].provider))
      && (m == Some(Generic) <==> stages != [] && execution != "legacy_reconcile" && forall i | 0 <= i < |stages| :: IsExternal(r, stages[i].provider))
      && (m == Some(Mixed) <==> execution == "generic" && (forall i | 0 <= i < |stages| :: !IsUnknown(r, stages[i].provider))
                                && (exists i :: 0 <= i < |stages| && IsWorker(r, stages[i].provider))
                                && (exists i :: 0 <= i < |stages| && IsExternal(r, stages[i].provider)))
  {
    ProviderOf(r, stages);
    if stages != [] {
      assert stages[0].provider in Providers(stages);
    }
  }

  lemma ProviderOf(r: Registry, stages: seq<Stage>)
    ensures UnknownsOf(r, stages) != {} <==> exists i :: 0 <= i < |stages| && IsUnknown(r, stages[i].provider)
    ensures WorkersOf(r, stages) != {} <==> exists i :: 0 <= i < |stages| && IsWorker(r, stages[i].provider)
    ensures ExternalsOf(r, stages) != {} <==> exists i :: 0 <= i < |stages| && IsExternal(r, stages[i].provider)
  {
    if i :| 0 <= i < |stages| && IsUnknown(r, stages[i].provider) {
      assert stages[i].provider in UnknownsOf(r, stages);
    }
    if i :| 0 <= i < |stages| && IsWorker(r, stages[i].provider) {
      assert stages[i].provider in WorkersOf(r, stages);
    }
    if i :| 0 <= i < |stages| && IsExternal(r, stages[i].provider) {
      assert stages[i].provider in ExternalsOf(r, stages);
    }
  }

  // --- Before the worker ------------------------------------------------------

  /** How many stages stand before the first one the worker owns. */
  function BeforeWorker(r: Registry, stages: seq<Stage>): nat {
    if stages == [] || IsWorker(r, stages[0].provider) then 0 else 1 + BeforeWorker(r, stages[1..])
  }

  predicate DependsWithin(stages: seq<Stage>, ids: set<string>) {
    forall i, k | 0 <= i < |stages| && 0 <= k < |stages[i].dependsOn| :: stages[i].dependsOn[k] in ids
  }

  function IdsOf(stages: seq<Stage>): set<string> {
    set i | 0 <= i < |stages| :: stages[i].id
  }

  datatype Extraction = Extraction(pre: seq<Stage>, rest: seq<Stage>, safe: bool)

  function Extract(r: Registry, stages: seq<Stage>): Extraction {
    if stages == [] || !Classify(r, stages).mode.Mixed? then Extraction([], stages, false)
    else
      var n := BeforeWorker(r, stages);
      BeforeWorkerFits(r, stages);
      var pre := stages[..n];
      if pre == [] || !DependsWithin(pre, IdsOf(pre)) then Extraction([], stages, false)
      else Extraction(pre, stages[n..], true)
  }

  lemma {:induction false} BeforeWorkerFits(r: Registry, stages: seq<Stage>)
    ensures BeforeWorker(r, stages) <= |stages|
    ensures forall i | 0 <= i < BeforeWorker(r, stages) :: !IsWorker(r, stages[i].provider)
    ensures BeforeWorker(r, stages) < |stages| ==> IsWorker(r, stages[BeforeWorker(r, stages)].provider)
  {
    if stages != [] && !IsWorker(r, stages[0].provider) {
      BeforeWorkerFits(r, stages[1..]);
    }
  }

  /** `extract_pre_handoff_stages` */
  method ExtractPreHandoffStages(r: Registry, stages: seq<Stage>) returns (e: Extraction)
    ensures e == Extract(r, stages)
  {
    var c := ClassifyStages(r, stages);
    if stages == [] || !c.mode.Mixed? {
      return Extraction([], stages, false);
    }
    var n := 0;
    while n < |stages| && !(stages[n].provider in c.worker)
      invariant 0 <= n <= |stages|
      invariant BeforeWorker(r, stages) == n + BeforeWorker(r, stages[n..])
    {
      OneFurther(r, stages, n);
      n := n + 1;
    }
    assert n < |stages| ==> IsWorker(r, stages[n..][0].provider);
    BeforeWorkerFits(r, stages);
    var pre := stages[..n];
    if pre == [] {
      return Extraction([], stages, false);
    }
    var ids := IdsOf(pre);
    var ready := true;
    var i := 0;
    while i < |pre|
      invariant 0 <= i <= |pre|
      invariant ready == forall j, k | 0 <= j < i && 0 <= k < |pre[j].dependsOn| :: pre[j].dependsOn[k] in ids
    {
      var k := 0;
      while k < |pre[i].dependsOn|
        invariant 0 <= k <= |pre[i].dependsOn|
        invariant ready == ((forall j, m | 0 <= j < i && 0 <= m < |pre[j].dependsOn| :: pre[j].dependsOn[m] in ids)
                            && (forall m | 0 <= m < k :: pre[i].dependsOn[m] in ids))
      {
        ready := ready && pre[i].dependsOn[k] in ids;
        k := k + 1;
      }
      i := i + 1;
    }
    e := if ready then Extraction(pre, stages[n..], true) else Extraction([], stages, false);
  }

  lemma OneFurther(r: Registry, stages: seq<Stage>, n: nat)
    requires n < |stages| && stages[n].provider !in WorkersOf(r, stages)
    ensures BeforeWorker(r, stages[n..]) == 1 + BeforeWorker(r, stages[n + 1..])
  {
    assert stages[n..][0] == stages[n] && stages[n..][1..] == stages[n + 1..];
    assert stages[n].provider in Providers(stages);
  }

  // --- After the worker -------------------------------------------------------

  /** A result, of a stage run before the worker or bound from its evidence. */
  datatype Result = Result(id: string, kind: Kind, provider: string)

  function ResultIds(rs: seq<Result>): set<string> {
    set i | 0 <= i < |rs| && rs[i].id != "" :: rs[i].id
  }

  predicate Remaining(r: Registry, s: Stage, done: set<string>) {
    IsExternal(r, s.provider) && s.id !in done
  }

  function RemainingOf(r: Registry, stages: seq<Stage>, done: set<string>): seq<Stage> {
    if stages == [] then []
    else
      var s := stages[|stages| - 1];
      RemainingOf(r, stages[..|stages| - 1], done) + (if Remaining(r, s, done) then [s] else [])
  }

  function WorkerStages(r: Registry, stages: seq<Stage>): seq<Stage> {
    if stages == [] then []
    else
      var s := stages[|stages| - 1];
      WorkerStages(r, stages[..|stages| - 1]) + (if IsWorker(r, s.provider) then [s] else [])
  }

  function ResultOf(s: Stage): Result {
    Result(s.id, s.kind, s.provider)
  }

  function Results(stages: seq<Stage>): (rs: seq<Result>)
    ensures |rs| == |stages| && forall i | 0 <= i < |rs| :: rs[i] == ResultOf(stages[i])
  {
    seq(|stages|, i requires 0 <= i < |stages| => ResultOf(stages[i]))
  }

  /** A QC stage of the worker without a passing verdict in the evidence. */
  predicate VerdictFails(r: Registry, s: Stage, passed: set<string>) {
    IsWorker(r, s.provider) && s.kind.Qc? && s.id !in passed
  }

  datatype Merge = Merge(external: seq<Stage>, seeded: seq<Result>, safe: bool, qcFailed: bool)

  function SafeHandoff(r: Registry, stages: seq<Stage>, pre: seq<Result>, passed: set<string>): Merge {
    var external := RemainingOf(r, stages, ResultIds(pre));
    if stages == [] || !Classify(r, stages).mode.Mixed? || external == [] then Merge([], [], false, false)
    else Merge(external, pre + Results(WorkerStages(r, stages)), true,
               exists i | 0 <= i < |stages| :: VerdictFails(r, stages[i], passed))
  }

  /** `safe_handoff_stages` */
  method SafeHandoffStages(r: Registry, stages: seq<Stage>, pre: seq<Result>, passed: set<string>) returns (m: Merge)
    ensures m == SafeHandoff(r, stages, pre, passed)
  {
    var c := ClassifyStages(r, stages);
    if stages == [] || !c.mode.Mixed? {
      return Merge([], [], false, false);
    }
    var done := ResultIds(pre);
    var external, seeded, failed := [], [], false;
    var i := 0;
    while i < |stages|
      invariant 0 <= i <= |stages|
      invariant external == RemainingOf(r, stages[..i], done)
      invariant seeded == Results(WorkerStages(r, stages[..i]))
      invariant failed == exists k | 0 <= k < i :: VerdictFails(r, stages[k], passed)
    {
      var s := stages[i];
      assert stages[..i + 1][..i] == stages[..i];
      OwnerOf(r, stages, i);
      if s.provider in c.external && s.id !in done {
        external := external + [s];
      }
      if s.provider in c.worker {
        failed := failed || (s.kind.Qc? && s.id !in passed);
        seeded := seeded + [Result(s.id, s.kind, s.provider)];
      }
      i := i + 1;
    }
    assert stages[..i] == stages;
    if external == [] {
      return Merge([], [], false, false);
    }
    m := Merge(external, pre + seeded, true, failed);
  }

  lemma OwnerOf(r: Registry, stages: seq<Stage>, i: nat)
    requires i < |stages|
    ensures stages[i].provider in WorkersOf(r, stages) <==> IsWorker(r, stages[i].provider)
    ensures stages[i].provider in ExternalsOf(r, stages) <==> IsExternal(r, stages[i].provider)
  {
    assert stages[i].provider in Providers(stages);
  }

  // --- What the seams report --------------------------------------------------

  /** The first stages up to the worker's first are external, none is missing its owner behind them, and they depend
      on one another only. */
  ghost predicate EarlyPart(r: Registry, stages: seq<Stage>, n: nat) {
    && 0 < n < |stages| && IsWorker(r, stages[n].provider)
    && (forall i | 0 <= i < n :: IsExternal(r, stages[i].provider))
    && (forall i | n < i < |stages| :: !IsUnknown(r, stages[i].provider))
    && forall i, k | 0 <= i < n && 0 <= k < |stages[i].dependsOn| :: exists j :: 0 <= j < n && stages[j].id == stages[i].dependsOn[k]
  }

  /** The extraction splits the pipeline, always; and is safe exactly when there is such an early part, which it is. */
  lemma ExtractionMeaning(r: Registry, stages: seq<Stage>)
    ensures var e := Extract(r, stages);
      && e.pre + e.rest == stages
      && (e.safe <==> exists n :: EarlyPart(r, stages, n))
      && (if e.safe then EarlyPart(r, stages, |e.pre|) else e.pre == [])
  {
    hide EarlyPart, Classify;
    var e := Extract(r, stages);
    if stages != [] {
      MixedIff(r, stages);
      BeforeWorkerFits(r, stages);
      EarlyIff(r, stages, BeforeWorker(r, stages));
    }
    if n :| EarlyPart(r, stages, n) {
      EarlyIsBefore(r, stages, n);
    }
  }

  lemma MixedIff(r: Registry, stages: seq<Stage>)
    ensures Classify(r, stages).mode.Mixed? <==>
      && (forall i | 0 <= i < |stages| :: !IsUnknown(r, stages[i].provider))
      && (exists i :: 0 <= i < |stages| && IsWorker(r, stages[i].provider))
      && (exists i :: 0 <= i < |stages| && IsExternal(r, stages[i].provider))
  {
    ProviderOf(r, stages);
  }

  lemma EarlyIff(r: Registry, stages: seq<Stage>, n: nat)
    requires n == BeforeWorker(r, stages) <= |stages|
    ensures EarlyPart(r, stages, n) <==>
      Classify(r, stages).mode.Mixed? && n > 0 && DependsWithin(stages[..n], IdsOf(stages[..n]))
  {
    hide Classify, IsUnknown;
    MixedIff(r, stages);
    BeforeWorkerFits(r, stages);
    var pre := stages[..n];
    if EarlyPart(r, stages, n) {
      forall i, k | 0 <= i < n && 0 <= k < |pre[i].dependsOn| ensures pre[i].dependsOn[k] in IdsOf(pre) {
        var j :| 0 <= j < n && stages[j].id == stages[i].dependsOn[k];
        assert pre[j].id == pre[i].dependsOn[k];
      }
    } else if Classify(r, stages).mode.Mixed? && n > 0 && DependsWithin(pre, IdsOf(pre)) {
      forall i, k | 0 <= i < n && 0 <= k < |stages[i].dependsOn| ensures exists j :: 0 <= j < n && stages[j].id == stages[i].dependsOn[k] {
        assert pre[i].dependsOn[k] in IdsOf(pre);
        var j :| 0 <= j < |pre| && pre[j].id == pre[i].dependsOn[k];
        assert stages[j].id == stages[i].dependsOn[k];
      }
    }
  }

  lemma EarlyIsBefore(r: Registry, stages: seq<Stage>, n: nat)
    requires EarlyPart(r, stages, n)
    ensures n == BeforeWorker(r, stages) && stages != []
  {
    BeforeWorkerFits(r, stages);
  }

  /** The handoff is safe exactly when every provider is known, the worker owns a stage, and an external one has no
      result yet; then a verdict failed exactly when some QC stage of the worker has not passed. */
  lemma HandoffMeaning(r: Registry, stages: seq<Stage>, pre: seq<Result>, passed: set<string>)
    ensures var m := SafeHandoff(r, stages, pre, passed);
      && (m.safe <==>
            && (forall i | 0 <= i < |stages| :: !IsUnknown(r, stages[i].provider))
            && (exists i :: 0 <= i < |stages| && IsWorker(r, stages[i].provider))
            && (exists i :: 0 <= i < |stages| && IsExternal(r, stages[i].provider)
                            && (stages[i].id == "" || forall k | 0 <= k < |pre| :: pre[k].id != stages[i].id)))
      && (m.qcFailed <==> m.safe && exists i :: 0 <= i < |stages| && IsWorker(r, stages[i].provider)
                                             && stages[i].kind == Qc && stages[i].id !in passed)
      && (!m.safe ==> m.external == [] && m.seeded == [])
      && (m.safe ==> |pre| <= |m.seeded| && m.seeded[..|pre|] == pre
                     && forall i | 0 <= i < |stages| && IsWorker(r, stages[i].provider) ::
                          Result(stages[i].id, stages[i].kind, stages[i].provider) in m.seeded[|pre|..])
  {
    WorkersSeeded(r, stages);
    hide Classify, IsUnknown, IsExternal, IsWorker, RemainingOf, WorkerStages;
    MixedIff(r, stages);
    SomeRemain(r, stages, ResultIds(pre));
    assert forall id :: id in ResultIds(pre) <==> id != "" && exists k :: 0 <= k < |pre| && pre[k].id == id;
    if i :| 0 <= i < |stages| && Remaining(r, stages[i], ResultIds(pre)) {
    }
    VerdictsOf(r, stages, passed);
  }

  lemma WorkersSeeded(r: Registry, stages: seq<Stage>)
    ensures forall i | 0 <= i < |stages| && IsWorker(r, stages[i].provider) ::
      Result(stages[i].id, stages[i].kind, stages[i].provider) in Results(WorkerStages(r, stages))
  {
    hide IsWorker, WorkerStages;
    var at := WorkerSelects(r, stages);
    forall i | 0 <= i < |stages| && IsWorker(r, stages[i].provider)
      ensures Result(stages[i].id, stages[i].kind, stages[i].provider) in Results(WorkerStages(r, stages))
    {
      var k :| 0 <= k < |at| && at[k] == i;
      assert Results(WorkerStages(r, stages))[k] == Result(stages[i].id, stages[i].kind, stages[i].provider);
    }
  }

  lemma VerdictsOf(r: Registry, stages: seq<Stage>, passed: set<string>)
    ensures (exists i | 0 <= i < |stages| :: VerdictFails(r, stages[i], passed)) <==>
      exists i :: 0 <= i < |stages| && IsWorker(r, stages[i].provider) && stages[i].kind == Qc && stages[i].id !in passed
  {
  }

  lemma {:induction false} SomeRemain(r: Registry, stages: seq<Stage>, done: set<string>)
    ensures RemainingOf(r, stages, done) != [] <==> exists i :: 0 <= i < |stages| && IsExternal(r, stages[i].provider) && stages[i].id !in done
  {
    hide IsExternal;
    if stages != [] {
      var n := |stages| - 1;
      SomeRemain(r, stages[..n], done);
      if i :| 0 <= i < |stages| && IsExternal(r, stages[i].provider) && stages[i].id !in done {
        if i < n {
          assert stages[..n][i] == stages[i];
        }
      }
      if i :| 0 <= i < n && IsExternal(r, stages[..n][i].provider) && stages[..n][i].id !in done {
        assert stages[i] == stages[..n][i];
      }
    }
  }

  // --- Every stage exactly once -----------------------------------------------

  predicate Unique(stages: seq<Stage>) {
    forall i, j | 0 <= i < j < |stages| :: stages[i].id != stages[j].id
  }

  /** Which stages of the pipeline a list holds, in pipeline order. */
  predicate Selects(stages: seq<Stage>, part: seq<Stage>, at: seq<nat>) {
    && |at| == |part|
    && (forall k | 0 <= k < |at| :: at[k] < |stages| && part[k] == stages[at[k]])
    && (forall j, k | 0 <= j < k < |at| :: at[j] < at[k])
  }

  lemma SelectsMore(stages: seq<Stage>, part: seq<Stage>, at: seq<nat>)
    requires stages != [] && Selects(stages[..|stages| - 1], part, at)
    ensures Selects(stages, part, at) && Selects(stages, part + [stages[|stages| - 1]], at + [|stages| - 1])
  {
  }

  lemma SelectsBelow(stages: seq<Stage>, part: seq<Stage>, at: seq<nat>)
    requires Selects(stages, part, at)
    ensures forall i | i in at :: i < |stages|
  {
  }

  /** The external list: the external stages that are not done, in pipeline order. */
  lemma {:induction false} RemainingSelects(r: Registry, stages: seq<Stage>, done: set<string>) returns (at: seq<nat>)
    ensures Selects(stages, RemainingOf(r, stages, done), at)
    ensures forall i | 0 <= i < |stages| :: i in at <==> Remaining(r, stages[i], done)
  {
    if stages == [] {
      at := [];
    } else {
      var n := |stages| - 1;
      hide Selects, Remaining;
      var before := RemainingSelects(r, stages[..n], done);
      SelectsBelow(stages[..n], RemainingOf(r, stages[..n], done), before);
      var part := RemainingOf(r, stages[..n], done);
      SelectsMore(stages, part, before);
      assert part + [] == part;
      at := if Remaining(r, stages[n], done) then before + [n] else before;
      forall i | 0 <= i < |stages| ensures i in at <==> Remaining(r, stages[i], done) {
        if i < n {
          assert stages[..n][i] == stages[i];
          assert i in at <==> i in before;
        } else {
          assert n !in before;
        }
      }
    }
  }

  /** The worker's list likewise. */
  lemma {:induction false} WorkerSelects(r: Registry, stages: seq<Stage>) returns (at: seq<nat>)
    ensures Selects(stages, WorkerStages(r, stages), at)
    ensures forall i | 0 <= i < |stages| :: i in at <==> IsWorker(r, stages[i].provider)
  {
    if stages == [] {
      at := [];
    } else {
      var n := |stages| - 1;
      hide Selects, IsWorker;
      var before := WorkerSelects(r, stages[..n]);
      var part := WorkerStages(r, stages[..n]);
      SelectsMore(stages, part, before);
      SelectsBelow(stages[..n], part, before);
      assert part + [] == part;
      at := if IsWorker(r, stages[n].provider) then before + [n] else before;
      forall i | 0 <= i < |stages| ensures i in at <==> IsWorker(r, stages[i].provider) {
        if i < n {
          assert stages[..n][i] == stages[i];
          assert i in at <==> i in before;
        } else {
          assert n !in before;
        }
      }
    }
  }

  /** The three parts, by the indices they take from the pipeline: no stage is missing and none is twice. */
  predicate Partition(n: nat, a: seq<nat>, b: seq<nat>, c: seq<nat>) {
    forall i | 0 <= i < n ::
      && (i in a || i in b || i in c)
      && !(i in a && i in b) && !(i in a && i in c) && !(i in b && i in c)
  }

  /** No stage runs early under an empty id. */
  predicate EarlyNamed(r: Registry, stages: seq<Stage>) {
    forall k | 0 <= k < |Extract(r, stages).pre| :: Extract(r, stages).pre[k].id != ""
  }

  /** The stages run before the worker, the worker's own and those handed off afterwards, each in pipeline
      order, are the whole pipeline, each stage once. */
  ghost predicate Parts(r: Registry, stages: seq<Stage>, passed: set<string>, a: seq<nat>, b: seq<nat>, c: seq<nat>) {
    var e := Extract(r, stages);
    var m := SafeHandoff(r, stages, Results(e.pre), passed);
    && Selects(stages, e.pre, a) && Selects(stages, WorkerStages(r, stages), b) && Selects(stages, m.external, c)
    && Partition(|stages|, a, b, c)
  }

  /** When both seams report safe, the three parts partition the pipeline exactly when no stage ran early
      under an empty id. Either way the early part depends on nothing but itself, and the results seeded for
      the last part are those of the other two. */
  lemma HandoffPartitionIff(r: Registry, stages: seq<Stage>, passed: set<string>)
    requires Unique(stages)
    requires Extract(r, stages).safe && SafeHandoff(r, stages, Results(Extract(r, stages).pre), passed).safe
    ensures var e := Extract(r, stages); var m := SafeHandoff(r, stages, Results(e.pre), passed);
      && ((exists a, b, c :: Parts(r, stages, passed, a, b, c)) <==> EarlyNamed(r, stages))
      && m.seeded == Results(e.pre) + Results(WorkerStages(r, stages))
      && (forall k, d | 0 <= k < |e.pre| && 0 <= d < |e.pre[k].dependsOn| :: e.pre[k].dependsOn[d] in IdsOf(e.pre))
  {
    hide Parts, EarlyNamed;
    if EarlyNamed(r, stages) {
      var a, b, c := NamedParts(r, stages, passed);
    }
    if a, b, c :| Parts(r, stages, passed, a, b, c) {
      PartsNamed(r, stages, passed, a, b, c);
    }
  }

  lemma NamedParts(r: Registry, stages: seq<Stage>, passed: set<string>) returns (a: seq<nat>, b: seq<nat>, c: seq<nat>)
    requires Unique(stages) && EarlyNamed(r, stages)
    requires Extract(r, stages).safe && SafeHandoff(r, stages, Results(Extract(r, stages).pre), passed).safe
    ensures Parts(r, stages, passed, a, b, c)
  {
    hide Classify, ResultIds, DependsWithin, RemainingOf, WorkerStages;
    var n := BeforeWorker(r, stages);
    SafeIsMixed(r, stages);
    BeforeWorkerFits(r, stages);
    a := seq(n, i => i);
    b := WorkerSelects(r, stages);
    var done := ResultIds(Results(stages[..n]));
    c := RemainingSelects(r, stages, done);
    PreDone(r, stages, n);
    AllKnown(r, stages);
    forall i | 0 <= i < |stages|
      ensures i in a <==> i < n
    {
      if i < n {
        assert a[i] == i;
        assert Extract(r, stages).pre[i] == stages[i];
      }
    }
  }

  /** With unique ids a stage of two parts is taken from one place by both. */
  lemma TwiceSelected(stages: seq<Stage>, p: seq<Stage>, q: seq<Stage>, a: seq<nat>, c: seq<nat>, s: Stage)
    requires Unique(stages) && Selects(stages, p, a) && Selects(stages, q, c) && s in p && s in q
    ensures exists i: nat :: i < |stages| && i in a && i in c
  {
    var k :| 0 <= k < |p| && p[k] == s;
    var m :| 0 <= m < |q| && q[m] == s;
    assert stages[a[k]].id == stages[c[m]].id;
    assert a[k] in a && c[m] in c;
  }

  /** A stage that ran early under an empty id is in two parts. */
  lemma PartsNamed(r: Registry, stages: seq<Stage>, passed: set<string>, a: seq<nat>, b: seq<nat>, c: seq<nat>)
    requires Unique(stages) && Parts(r, stages, passed, a, b, c)
    requires Extract(r, stages).safe && SafeHandoff(r, stages, Results(Extract(r, stages).pre), passed).safe
    ensures EarlyNamed(r, stages)
  {
    hide Extract, SafeHandoff;
    var e := Extract(r, stages);
    forall k | 0 <= k < |e.pre| ensures e.pre[k].id != "" {
      if e.pre[k].id == "" {
        EmptyIdRunsTwice(r, stages, passed, k);
        TwiceSelected(stages, e.pre, SafeHandoff(r, stages, Results(e.pre), passed).external, a, c, e.pre[k]);
      }
    }
  }

  /** With unique ids the stages before the worker are the ones counted as done, but for an empty id. */
  lemma PreDone(r: Registry, stages: seq<Stage>, n: nat)
    requires Unique(stages) && n <= |stages|
    ensures forall i | 0 <= i < |stages| :: stages[i].id in ResultIds(Results(stages[..n])) <==> i < n && stages[i].id != ""
  {
    var rs := Results(stages[..n]);
    forall i | 0 <= i < |stages| ensures stages[i].id in ResultIds(rs) <==> i < n && stages[i].id != "" {
      if i < n {
        assert rs[i].id == stages[i].id;
      }
    }
  }

  lemma AllKnown(r: Registry, stages: seq<Stage>)
    requires Classify(r, stages).mode.Mixed?
    ensures forall i | 0 <= i < |stages| :: IsWorker(r, stages[i].provider) || IsExternal(r, stages[i].provider)
  {
    ProviderOf(r, stages);
  }

  lemma SafeIsMixed(r: Registry, stages: seq<Stage>)
    requires Extract(r, stages).safe
    ensures stages != [] && Classify(r, stages).mode.Mixed? && BeforeWorker(r, stages) <= |stages|
    ensures Extract(r, stages).pre == stages[..BeforeWorker(r, stages)]
  {
    BeforeWorkerFits(r, stages);
  }

  /** After a safe extraction the later handoff is safe exactly when some external stage comes after the
      worker's first, or one that ran early has an empty id: a pipeline whose external stages all ran early
      under a name fails it. */
  lemma HandoffAfterPreIff(r: Registry, stages: seq<Stage>, passed: set<string>)
    requires Unique(stages) && Extract(r, stages).safe
    ensures SafeHandoff(r, stages, Results(Extract(r, stages).pre), passed).safe <==>
            (exists i :: BeforeWorker(r, stages) <= i < |stages| && IsExternal(r, stages[i].provider)) || !EarlyNamed(r, stages)
  {
    hide ResultIds, Results, Unique, RemainingOf, IsExternal, Classify, IsWorker, DependsWithin;
    var n := BeforeWorker(r, stages);
    BeforeWorkerFits(r, stages);
    PreDone(r, stages, n);
    SafeIsMixed(r, stages);
    AllKnown(r, stages);
    var done := ResultIds(Results(stages[..n]));
    var c := RemainingSelects(r, stages, done);
    var external := RemainingOf(r, stages, done);
    if i :| n <= i < |stages| && IsExternal(r, stages[i].provider) {
      assert Remaining(r, stages[i], done) && i in c;
    }
    if k :| 0 <= k < n && stages[k].id == "" {
      assert Remaining(r, stages[k], done) && k in c;
    }
    if external != [] {
      assert c[0] in c && Remaining(r, stages[c[0]], done);
      assert c[0] < n ==> Extract(r, stages).pre[c[0]] == stages[c[0]];
    }
  }

  /** Without an early part, the worker's and the external stages partition the pipeline. */
  lemma HandoffWithoutPre(r: Registry, stages: seq<Stage>, passed: set<string>) returns (b: seq<nat>, c: seq<nat>)
    requires SafeHandoff(r, stages, [], passed).safe
    ensures var m := SafeHandoff(r, stages, [], passed);
      && Selects(stages, WorkerStages(r, stages), b) && Selects(stages, m.external, c) && Partition(|stages|, [], b, c)
  {
    b := WorkerSelects(r, stages);
    c := RemainingSelects(r, stages, {});
    AllKnown(r, stages);
    assert ResultIds([]) == {};
  }

  /** A stage with an empty id that ran early is not recognized as done, and is handed off again. */
  lemma EmptyIdRunsTwice(r: Registry, stages: seq<Stage>, passed: set<string>, i: nat)
    requires Extract(r, stages).safe && i < |Extract(r, stages).pre| && Extract(r, stages).pre[i].id == ""
    ensures SafeHandoff(r, stages, Results(Extract(r, stages).pre), passed).safe
    ensures Extract(r, stages).pre[i] in SafeHandoff(r, stages, Results(Extract(r, stages).pre), passed).external
  {
    BeforeWorkerFits(r, stages);
    AllKnown(r, stages);
    var done := ResultIds(Results(Extract(r, stages).pre));
    var c := RemainingSelects(r, stages, done);
    assert i in c;
    var k :| 0 <= k < |c| && c[k] == i;
    assert RemainingOf(r, stages, done)[k] == stages[i];
  }
}
