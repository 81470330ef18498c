// What a run looks like in the store: the encoding of the whole run state
// (scripts/pipeline_coordinator.py:287-505).

module DurableState {
  import opened Common
  import opened Sanitizer

  // --- Run records ------------------------------------------------------------

  datatype StageStatus = Pending | Running | Completed | Failed | Skipped

  datatype TerminalCode =
    | Success | QcExhausted | ProviderTimeout | ProviderError | LeafError | CoordinatorError
    | CoordinatorCancelled | UnsafeResume | NoArtifact

  datatype Artifact = Artifact(path: string, sha256: string, producer: string, producedAt: string)

  datatype Verdict = Verdict(stage: string, passed: bool, report: string, raw: Option<string>, scoredAt: string)

  datatype Child = Child(job: string, stage: string, submittedAt: string, key: string, status: string, cancelled: bool)

  datatype Attempt = Attempt(
    num: int, status: StageStatus, startedAt: string, completedAt: Option<string>, error: Option<string>,
    output: Data, verdict: Option<Verdict>, key: string, handle: Option<string>)

  datatype Evidence = Evidence(from: string, stage: Option<string>, at: string, count: int, refs: seq<string>)

  datatype Run = Run(
    parentJob: string, run: string, pipeline: string, revision: string, status: string,
    current: Option<string>, note: Option<string>, params: Data, plan: Data,
    children: seq<Child>, attempts: map<string, seq<Attempt>>, verdicts: map<string, seq<Verdict>>,
    corrections: int, maxCorrections: int, iterations: map<string, int>, pending: seq<string>,
    artifact: Option<Artifact>, initialArtifact: Option<Artifact>, lastGood: Option<Artifact>,
    cancelled: bool, cancelIntent: bool, cancelledChildren: seq<string>,
    code: Option<TerminalCode>, reason: Option<string>, terminalAt: Option<string>,
    createdAt: string, updatedAt: string, resumedAt: Option<string>, resumes: int, evidence: seq<Evidence>)

  /** The keys of the stored dictionaries. */
  datatype Key =
    | KParentJob | KRun | KPipeline | KRevision | KStatus | KCurrent | KNote | KParams | KPlan | KChildren
    | KAttempts | KVerdicts | KCorrections | KMaxCorrections | KIterations | KPending | KArtifact | KInitial
    | KLastGood | KCancelled | KCancelIntent | KCancelledChildren | KCode | KReason | KTerminalAt | KCreatedAt
    | KUpdatedAt | KResumedAt | KResumes | KEvidence
    | KJob | KStage | KSubmittedAt | KIdempotency | KAttempt | KStartedAt | KCompletedAt | KError | KOutput
    | KVerdict | KHandle | KPassed | KReport | KRaw | KScoredAt | KPath | KSha | KProducer | KProducedAt
    | KFrom | KAt | KCount | KRefs

  /** A stored value: plain data, a record, a list, or a dictionary by id. */
  datatype Doc = Plain(data: Data) | Rec(fields: map<Key, Doc>) | Docs(list: seq<Doc>) | ById(dict: map<string, Doc>)

  const NONE := Plain(Null)

  function Text(s: string): Doc {
    Plain(Str(s))
  }

  function Opt(s: Option<string>): Doc {
    if s.Some? then Text(s.value) else NONE
  }

  function Texts(ss: seq<string>): (r: Doc)
    ensures r.Docs? && |r.list| == |ss| && forall i | 0 <= i < |ss| :: r.list[i] == Text(ss[i])
  {
    Docs(seq(|ss|, i requires 0 <= i < |ss| => Text(ss[i])))
  }

  // --- Reading, with the defaults of from_dict --------------------------------

  function Field(d: Doc, k: Key): Doc {
    if d.Rec? && k in d.fields then d.fields[k] else NONE
  }

  function StrOf(d: Doc): string {
    if d.Plain? && d.data.Str? then d.data.s else ""
  }

  function OptOf(d: Doc): Option<string> {
    if d.Plain? && d.data.Str? then Some(d.data.s) else None
  }

  function IntOf(d: Doc): int {
    if d.Plain? && d.data.Int? then d.data.n else 0
  }

  function BoolOf(d: Doc): bool {
    d.Plain? && d.data.Bool? && d.data.b
  }

  function DataOf(d: Doc): Data {
    if d.Plain? then d.data else Dict([])
  }

  function ListOf(d: Doc): seq<Doc> {
    if d.Docs? then d.list else []
  }

  function DictOf(d: Doc): map<string, Doc> {
    if d.ById? then d.dict else map[]
  }

  function StrsOf(d: Doc): (r: seq<string>)
    ensures |r| == |ListOf(d)| && forall i | 0 <= i < |r| :: r[i] == StrOf(ListOf(d)[i])
  {
    seq(|ListOf(d)|, i requires 0 <= i < |ListOf(d)| => StrOf(ListOf(d)[i]))
  }

  lemma TextsBack(ss: seq<string>)
    ensures StrsOf(Texts(ss)) == ss
  {
  }

  // --- Records ----------------------------------------------------------------

  function StatusText(s: StageStatus): string {
    match s
    case Pending => "pending"
    case Running => "running"
    case Completed => "completed"
    case Failed => "failed"
    case Skipped => "skipped"
  }

  function StatusOf(s: string): Option<StageStatus> {
    if s == "pending" then Some(Pending)
    else if s == "running" then Some(Running)
    else if s == "completed" then Some(Completed)
    else if s == "failed" then Some(Failed)
    else if s == "skipped" then Some(Skipped)
    else None
  }

  function CodeText(c: TerminalCode): string {
    match c
    case Success => "success"
    case QcExhausted => "qc_exhausted"
    case ProviderTimeout => "provider_timeout"
    case ProviderError => "provider_error"
    case LeafError => "leaf_error"
    case CoordinatorError => "coordinator_error"
    case CoordinatorCancelled => "coordinator_cancelled"
    case UnsafeResume => "unsafe_resume"
    case NoArtifact => "no_artifact"
  }

  function CodeOf(s: string): Option<TerminalCode> {
    if s == "success" then Some(Success)
    else if s == "qc_exhausted" then Some(QcExhausted)
    else if s == "provider_timeout" then Some(ProviderTimeout)
    else if s == "provider_error" then Some(ProviderError)
    else if s == "leaf_error" then Some(LeafError)
    else if s == "coordinator_error" then Some(CoordinatorError)
    else if s == "coordinator_cancelled" then Some(CoordinatorCancelled)
    else if s == "unsafe_resume" then Some(UnsafeResume)
    else if s == "no_artifact" then Some(NoArtifact)
    else None
  }

  lemma StatusBack(s: StageStatus)
    ensures StatusOf(StatusText(s)) == Some(s)
  {
    var a, b, c, d := "pending", "running", "completed", "failed";
    assert |a| == 7 && |b| == 7 && |c| == 9 && |d| == 6 && a[0] != b[0] && |"skipped"| == 7 && "skipped"[0] == 's';
  }

  lemma CodeBack(c: TerminalCode)
    ensures CodeOf(CodeText(c)) == Some(c) && CodeText(c) != ""
  {
    assert |"success"| == 7 && |"qc_exhausted"| == 12 && |"provider_timeout"| == 16 && |"provider_error"| == 14
        && |"leaf_error"| == 10 && |"coordinator_error"| == 17 && |"coordinator_cancelled"| == 21
        && |"unsafe_resume"| == 13 && |"no_artifact"| == 11;
  }

  function OfArtifact(a: Artifact): Doc {
    Rec(map[KPath := Text(a.path), KSha := Text(a.sha256), KProducer := Text(a.producer), KProducedAt := Text(a.producedAt)])
  }

  /** A stored artifact lacking a field is no artifact. */
  function ToArtifact(d: Doc): Option<Artifact> {
    if d.Rec? && KPath in d.fields && KSha in d.fields && KProducer in d.fields && KProducedAt in d.fields
    then Some(Artifact(StrOf(d.fields[KPath]), StrOf(d.fields[KSha]), StrOf(d.fields[KProducer]), StrOf(d.fields[KProducedAt])))
    else None
  }

  function OfOptArtifact(a: Option<Artifact>): Doc {
    if a.Some? then OfArtifact(a.value) else NONE
  }

  function OfVerdict(v: Verdict): Doc {
    Rec(map[KStage := Text(v.stage), KPassed := Plain(Bool(v.passed)), KReport := Text(v.report), KRaw := Opt(v.raw),
            KScoredAt := Text(v.scoredAt)])
  }

  function ToVerdict(d: Doc): Verdict {
    Verdict(StrOf(Field(d, KStage)), BoolOf(Field(d, KPassed)), StrOf(Field(d, KReport)), OptOf(Field(d, KRaw)),
            StrOf(Field(d, KScoredAt)))
  }

  function OfChild(c: Child): Doc {
    Rec(map[KJob := Text(c.job), KStage := Text(c.stage), KSubmittedAt := Text(c.submittedAt), KIdempotency := Text(c.key),
            KStatus := Text(c.status), KCancelled := Plain(Bool(c.cancelled))])
  }

  function ToChild(d: Doc): Child {
    Child(StrOf(Field(d, KJob)), StrOf(Field(d, KStage)), StrOf(Field(d, KSubmittedAt)), StrOf(Field(d, KIdempotency)),
          if Field(d, KStatus) == NONE then "queued" else StrOf(Field(d, KStatus)), BoolOf(Field(d, KCancelled)))
  }

  function OfAttempt(a: Attempt): Doc {
    Rec(map[KAttempt := Plain(Int(a.num)), KStatus := Text(StatusText(a.status)), KStartedAt := Text(a.startedAt),
            KCompletedAt := Opt(a.completedAt), KError := Opt(a.error), KOutput := Plain(a.output),
            KVerdict := if a.verdict.Some? then OfVerdict(a.verdict.value) else NONE,
            KIdempotency := Text(a.key), KHandle := Opt(a.handle)])
  }

  function ToAttempt(d: Doc): Option<Attempt> {
    match StatusOf(StrOf(Field(d, KStatus)))
    case None => None
    case Some(status) =>
      Some(Attempt(IntOf(Field(d, KAttempt)), status, StrOf(Field(d, KStartedAt)), OptOf(Field(d, KCompletedAt)),
                   OptOf(Field(d, KError)), DataOf(Field(d, KOutput)),
                   if Field(d, KVerdict).Rec? then Some(ToVerdict(Field(d, KVerdict))) else None,
                   StrOf(Field(d, KIdempotency)), OptOf(Field(d, KHandle))))
  }

  function OfEvidence(e: Evidence): Doc {
    Rec(map[KFrom := Text(e.from), KStage := Opt(e.stage), KAt := Text(e.at), KCount := Plain(Int(e.count)), KRefs := Texts(e.refs)])
  }

  function ToEvidence(d: Doc): Evidence {
    Evidence(StrOf(Field(d, KFrom)), OptOf(Field(d, KStage)), StrOf(Field(d, KAt)), IntOf(Field(d, KCount)), StrsOf(Field(d, KRefs)))
  }

  lemma ArtifactBack(a: Option<Artifact>)
    ensures ToArtifact(OfOptArtifact(a)) == a
  {
  }

  lemma VerdictBack(v: Verdict)
    ensures ToVerdict(OfVerdict(v)) == v
  {
  }

  lemma VerdictIsRecord(v: Verdict)
    ensures OfVerdict(v).Rec?
  {
  }

  lemma ChildBack(c: Child)
    ensures ToChild(OfChild(c)) == c
  {
  }

  lemma AttemptBack(a: Attempt)
    ensures ToAttempt(OfAttempt(a)) == Some(a)
  {
    hide StatusText, StatusOf, OfVerdict, ToVerdict;
    StatusBack(a.status);
    if a.verdict.Some? {
      VerdictBack(a.verdict.value);
      VerdictIsRecord(a.verdict.value);
    }
  }

  lemma EvidenceBack(e: Evidence)
    ensures ToEvidence(OfEvidence(e)) == e
  {
    TextsBack(e.refs);
  }

  // --- Lists of records -------------------------------------------------------

  function OfChildren(cs: seq<Child>): (r: Doc)
    ensures r.Docs? && |r.list| == |cs| && forall i | 0 <= i < |cs| :: r.list[i] == OfChild(cs[i])
  {
    Docs(seq(|cs|, i requires 0 <= i < |cs| => OfChild(cs[i])))
  }

  function ToChildren(d: Doc): (r: seq<Child>)
    ensures |r| == |ListOf(d)| && forall i | 0 <= i < |r| :: r[i] == ToChild(ListOf(d)[i])
  {
    seq(|ListOf(d)|, i requires 0 <= i < |ListOf(d)| => ToChild(ListOf(d)[i]))
  }

  function OfVerdicts(vs: seq<Verdict>): (r: Doc)
    ensures r.Docs? && |r.list| == |vs| && forall i | 0 <= i < |vs| :: r.list[i] == OfVerdict(vs[i])
  {
    Docs(seq(|vs|, i requires 0 <= i < |vs| => OfVerdict(vs[i])))
  }

  function ToVerdicts(d: Doc): (r: seq<Verdict>)
    ensures |r| == |ListOf(d)| && forall i | 0 <= i < |r| :: r[i] == ToVerdict(ListOf(d)[i])
  {
    seq(|ListOf(d)|, i requires 0 <= i < |ListOf(d)| => ToVerdict(ListOf(d)[i]))
  }

  function OfEvidences(es: seq<Evidence>): (r: Doc)
    ensures r.Docs? && |r.list| == |es| && forall i | 0 <= i < |es| :: r.list[i] == OfEvidence(es[i])
  {
    Docs(seq(|es|, i requires 0 <= i < |es| => OfEvidence(es[i])))
  }

  function ToEvidences(d: Doc): (r: seq<Evidence>)
    ensures |r| == |ListOf(d)| && forall i | 0 <= i < |r| :: r[i] == ToEvidence(ListOf(d)[i])
  {
    seq(|ListOf(d)|, i requires 0 <= i < |ListOf(d)| => ToEvidence(ListOf(d)[i]))
  }

  function OfAttempts(a: seq<Attempt>): (r: Doc)
    ensures r.Docs? && |r.list| == |a| && forall i | 0 <= i < |a| :: r.list[i] == OfAttempt(a[i])
  {
    Docs(seq(|a|, i requires 0 <= i < |a| => OfAttempt(a[i])))
  }

  /** Fails, as the enumeration does, on an unknown status. */
  function ToAttempts(ds: seq<Doc>): Option<seq<Attempt>> {
    if ds == [] then Some([])
    else
      var n := |ds| - 1;
      var before, last := ToAttempts(ds[..n]), ToAttempt(ds[n]);
      if before.None? || last.None? then None else Some(before.value + [last.value])
  }

  lemma {:induction false} AttemptsBack(ds: seq<Doc>, a: seq<Attempt>)
    requires |ds| == |a| && forall i | 0 <= i < |a| :: ds[i] == OfAttempt(a[i])
    ensures ToAttempts(ds) == Some(a)
  {
    hide OfAttempt, ToAttempt;
    if a != [] {
      var n := |a| - 1;
      AttemptsBack(ds[..n], a[..n]);
      AttemptBack(a[n]);
      assert a == a[..n] + [a[n]];
    }
  }

  lemma ChildrenBack(cs: seq<Child>)
    ensures ToChildren(OfChildren(cs)) == cs
  {
    forall i | 0 <= i < |cs| ensures ToChild(OfChild(cs[i])) == cs[i] {
      ChildBack(cs[i]);
    }
  }

  lemma VerdictsBack(vs: seq<Verdict>)
    ensures ToVerdicts(OfVerdicts(vs)) == vs
  {
    forall i | 0 <= i < |vs| ensures ToVerdict(OfVerdict(vs[i])) == vs[i] {
      VerdictBack(vs[i]);
    }
  }

  lemma EvidencesBack(es: seq<Evidence>)
    ensures ToEvidences(OfEvidences(es)) == es
  {
    forall i | 0 <= i < |es| ensures ToEvidence(OfEvidence(es[i])) == es[i] {
      EvidenceBack(es[i]);
    }
  }

  // --- Dictionaries by id -----------------------------------------------------

  function OfAttemptMap(m: map<string, seq<Attempt>>): Doc {
    ById(map id | id in m :: OfAttempts(m[id]))
  }

  function ToAttemptMap(d: Doc): Option<map<string, seq<Attempt>>> {
    var m := DictOf(d);
    if exists id | id in m :: ToAttempts(ListOf(m[id])).None? then None
    else Some(map id | id in m :: ToAttempts(ListOf(m[id])).value)
  }

  function OfVerdictMap(m: map<string, seq<Verdict>>): Doc {
    ById(map id | id in m :: OfVerdicts(m[id]))
  }

  function ToVerdictMap(d: Doc): map<string, seq<Verdict>> {
    map id | id in DictOf(d) :: ToVerdicts(DictOf(d)[id])
  }

  function OfCounts(m: map<string, int>): Doc {
    ById(map id | id in m :: Plain(Int(m[id])))
  }

  function ToCounts(d: Doc): map<string, int> {
    map id | id in DictOf(d) :: IntOf(DictOf(d)[id])
  }

  lemma AttemptMapBack(m: map<string, seq<Attempt>>)
    ensures ToAttemptMap(OfAttemptMap(m)) == Some(m)
  {
    forall id | id in m ensures ToAttempts(ListOf(OfAttempts(m[id]))) == Some(m[id]) {
      AttemptsBack(OfAttempts(m[id]).list, m[id]);
    }
    var d := OfAttemptMap(m);
    assert DictOf(d).Keys == m.Keys && forall id | id in m :: DictOf(d)[id] == OfAttempts(m[id]);
    assert ToAttemptMap(d).value == m;
  }

  lemma VerdictMapBack(m: map<string, seq<Verdict>>)
    ensures ToVerdictMap(OfVerdictMap(m)) == m
  {
    forall id | id in m ensures ToVerdicts(OfVerdicts(m[id])) == m[id] {
      VerdictsBack(m[id]);
    }
  }

  lemma CountsBack(m: map<string, int>)
    ensures ToCounts(OfCounts(m)) == m
  {
  }

  // --- The run ----------------------------------------------------------------

  /** Which part of the record a key belongs to. */
  function Part(k: Key): nat {
    if k in {KParentJob, KRun, KPipeline, KRevision, KStatus, KCurrent, KNote, KParams, KPlan} then 0
    else if k in {KChildren, KAttempts, KVerdicts, KCorrections, KMaxCorrections, KIterations, KPending} then 1
    else if k in {KArtifact, KInitial, KLastGood, KCancelled, KCancelIntent, KCancelledChildren, KCode, KReason, KTerminalAt} then 2
    else 3
  }

  function CursorFields(s: Run, params: Data, plan: Data): (m: map<Key, Doc>)
    ensures m.Keys == {KParentJob, KRun, KPipeline, KRevision, KStatus, KCurrent, KNote, KParams, KPlan}
    ensures forall k | k in m :: Part(k) == 0
  {
    map[KParentJob := Text(s.parentJob), KRun := Text(s.run), KPipeline := Text(s.pipeline), KRevision := Text(s.revision),
        KStatus := Text(s.status), KCurrent := Opt(s.current), KNote := Opt(s.note),
        KParams := Plain(params), KPlan := Plain(plan)]
  }

  function WorkFields(s: Run): (m: map<Key, Doc>)
    ensures m.Keys == {KChildren, KAttempts, KVerdicts, KCorrections, KMaxCorrections, KIterations, KPending}
    ensures forall k | k in m :: Part(k) == 1
  {
    map[KChildren := OfChildren(s.children), KAttempts := OfAttemptMap(s.attempts), KVerdicts := OfVerdictMap(s.verdicts),
        KCorrections := Plain(Int(s.corrections)), KMaxCorrections := Plain(Int(s.maxCorrections)),
        KIterations := OfCounts(s.iterations), KPending := Texts(s.pending)]
  }

  function OutcomeFields(s: Run): (m: map<Key, Doc>)
    ensures m.Keys == {KArtifact, KInitial, KLastGood, KCancelled, KCancelIntent, KCancelledChildren, KCode, KReason, KTerminalAt}
    ensures forall k | k in m :: Part(k) == 2
  {
    map[KArtifact := OfOptArtifact(s.artifact), KInitial := OfOptArtifact(s.initialArtifact),
        KLastGood := OfOptArtifact(s.lastGood),
        KCancelled := Plain(Bool(s.cancelled)), KCancelIntent := Plain(Bool(s.cancelIntent)),
        KCancelledChildren := Texts(s.cancelledChildren),
        KCode := if s.code.Some? then Text(CodeText(s.code.value)) else NONE, KReason := Opt(s.reason),
        KTerminalAt := Opt(s.terminalAt)]
  }

  function TimeFields(s: Run): (m: map<Key, Doc>)
    ensures m.Keys == {KCreatedAt, KUpdatedAt, KResumedAt, KResumes, KEvidence}
    ensures forall k | k in m :: Part(k) == 3
  {
    map[KCreatedAt := Text(s.createdAt), KUpdatedAt := Text(s.updatedAt), KResumedAt := Opt(s.resumedAt),
        KResumes := Plain(Int(s.resumes)), KEvidence := OfEvidences(s.evidence)]
  }

  /** `to_dict`: none where the sanitizer raises. */
  function ToDict(s: Run): Option<Doc> {
    var params, plan := Sanitize(s.params, "$"), Sanitize(s.plan, "$");
    if params.None? || plan.None? then None
    else Some(Rec(CursorFields(s, params.value, plan.value) + WorkFields(s) + OutcomeFields(s) + TimeFields(s)))
  }

  /** `from_dict`: none where an enumeration has no such value. */
  function FromDict(d: Doc): Option<Run> {
    var code := OptOf(Field(d, KCode));
    var attempts := ToAttemptMap(Field(d, KAttempts));
    if attempts.None? || (code.Some? && code.value != "" && CodeOf(code.value).None?) then None
    else Some(Run(
      StrOf(Field(d, KParentJob)), StrOf(Field(d, KRun)), StrOf(Field(d, KPipeline)), StrOf(Field(d, KRevision)),
      StrOf(Field(d, KStatus)), OptOf(Field(d, KCurrent)), OptOf(Field(d, KNote)),
      DataOf(Field(d, KParams)), DataOf(Field(d, KPlan)),
      ToChildren(Field(d, KChildren)), attempts.value, ToVerdictMap(Field(d, KVerdicts)),
      IntOf(Field(d, KCorrections)), IntOf(Field(d, KMaxCorrections)), ToCounts(Field(d, KIterations)),
      StrsOf(Field(d, KPending)), ToArtifact(Field(d, KArtifact)), ToArtifact(Field(d, KInitial)), ToArtifact(Field(d, KLastGood)),
      BoolOf(Field(d, KCancelled)), BoolOf(Field(d, KCancelIntent)), StrsOf(Field(d, KCancelledChildren)),
      if code.Some? && code.value != "" then CodeOf(code.value) else None, OptOf(Field(d, KReason)),
      OptOf(Field(d, KTerminalAt)), StrOf(Field(d, KCreatedAt)), StrOf(Field(d, KUpdatedAt)), OptOf(Field(d, KResumedAt)),
      IntOf(Field(d, KResumes)), ToEvidences(Field(d, KEvidence))))
  }

  lemma UnionLookup(a: map<Key, Doc>, b: map<Key, Doc>, c: map<Key, Doc>, d: map<Key, Doc>)
    requires (forall k | k in a :: Part(k) == 0) && (forall k | k in b :: Part(k) == 1)
    requires (forall k | k in c :: Part(k) == 2) && (forall k | k in d :: Part(k) == 3)
    ensures var r := Rec(a + b + c + d);
      && (forall k | k in a :: Field(r, k) == a[k]) && (forall k | k in b :: Field(r, k) == b[k])
      && (forall k | k in c :: Field(r, k) == c[k]) && (forall k | k in d :: Field(r, k) == d[k])
  {
    hide Part;
  }

  lemma Merged(s: Run)
    requires ToDict(s).Some?
    ensures var d := ToDict(s).value; var a := CursorFields(s, Sanitize(s.params, "$").value, Sanitize(s.plan, "$").value);
      && (forall k | k in a :: Field(d, k) == a[k])
      && (forall k | k in WorkFields(s) :: Field(d, k) == WorkFields(s)[k])
      && (forall k | k in OutcomeFields(s) :: Field(d, k) == OutcomeFields(s)[k])
      && (forall k | k in TimeFields(s) :: Field(d, k) == TimeFields(s)[k])
  {
    hide CursorFields, WorkFields, OutcomeFields, TimeFields, Sanitize, Field, Part;
    UnionLookup(CursorFields(s, Sanitize(s.params, "$").value, Sanitize(s.plan, "$").value), WorkFields(s), OutcomeFields(s), TimeFields(s));
  }

  lemma CursorBack(s: Run, params: Data, plan: Data)
    ensures var m := CursorFields(s, params, plan);
      && StrOf(m[KParentJob]) == s.parentJob && StrOf(m[KRun]) == s.run
      && StrOf(m[KPipeline]) == s.pipeline && StrOf(m[KRevision]) == s.revision && StrOf(m[KStatus]) == s.status
      && OptOf(m[KCurrent]) == s.current && OptOf(m[KNote]) == s.note
      && DataOf(m[KParams]) == params && DataOf(m[KPlan]) == plan
  {
  }

  lemma WorkBack(s: Run)
    ensures var m := WorkFields(s);
      && ToChildren(m[KChildren]) == s.children && ToAttemptMap(m[KAttempts]) == Some(s.attempts)
      && ToVerdictMap(m[KVerdicts]) == s.verdicts
      && IntOf(m[KCorrections]) == s.corrections && IntOf(m[KMaxCorrections]) == s.maxCorrections
      && ToCounts(m[KIterations]) == s.iterations && StrsOf(m[KPending]) == s.pending
  {
    hide OfChildren, ToChildren, OfAttemptMap, ToAttemptMap, OfVerdictMap, ToVerdictMap, OfCounts, ToCounts, Texts, StrsOf;
    ChildrenBack(s.children);
    AttemptMapBack(s.attempts);
    VerdictMapBack(s.verdicts);
    CountsBack(s.iterations);
    TextsBack(s.pending);
  }

  lemma OutcomeBack(s: Run)
    ensures var m := OutcomeFields(s);
      && ToArtifact(m[KArtifact]) == s.artifact && ToArtifact(m[KInitial]) == s.initialArtifact
      && ToArtifact(m[KLastGood]) == s.lastGood
      && BoolOf(m[KCancelled]) == s.cancelled && BoolOf(m[KCancelIntent]) == s.cancelIntent
      && StrsOf(m[KCancelledChildren]) == s.cancelledChildren
      && OptOf(m[KCode]) == (if s.code.Some? then Some(CodeText(s.code.value)) else None)
      && OptOf(m[KReason]) == s.reason && OptOf(m[KTerminalAt]) == s.terminalAt
  {
    hide OfOptArtifact, ToArtifact, Texts, StrsOf, CodeText;
    ArtifactBack(s.artifact);
    ArtifactBack(s.initialArtifact);
    ArtifactBack(s.lastGood);
    TextsBack(s.cancelledChildren);
  }

  lemma TimeBack(s: Run)
    ensures var m := TimeFields(s);
      && StrOf(m[KCreatedAt]) == s.createdAt && StrOf(m[KUpdatedAt]) == s.updatedAt
      && OptOf(m[KResumedAt]) == s.resumedAt && IntOf(m[KResumes]) == s.resumes && ToEvidences(m[KEvidence]) == s.evidence
  {
    hide OfEvidences, ToEvidences;
    EvidencesBack(s.evidence);
  }

  /** What the store gives back is what was saved, with its inputs sanitized. */
  lemma StoredRun(s: Run)
    requires Sanitize(s.params, "$").Some? && Sanitize(s.plan, "$").Some?
    ensures ToDict(s).Some?
    ensures FromDict(ToDict(s).value) == Some(s.(params := Sanitize(s.params, "$").value, plan := Sanitize(s.plan, "$").value))
  {
    hide Sanitize, ToDict, StrOf, OptOf, IntOf, BoolOf, DataOf, Field, ToChildren, ToAttemptMap, ToVerdictMap, ToCounts,
         StrsOf, ToArtifact, ToEvidences, CodeText, CodeOf, CursorFields, WorkFields, OutcomeFields, TimeFields;
    ToDictSome(s);
    Merged(s);
    CursorBack(s, Sanitize(s.params, "$").value, Sanitize(s.plan, "$").value);
    WorkBack(s);
    OutcomeBack(s);
    TimeBack(s);
    if s.code.Some? {
      CodeBack(s.code.value);
    }
  }

  lemma ToDictSome(s: Run)
    ensures ToDict(s).Some? <==> Sanitize(s.params, "$").Some? && Sanitize(s.plan, "$").Some?
  {
  }

  /** Fidelity: a run whose inputs went through the sanitizer when it was submitted is given back exactly,
      every time it is saved; and so it is saved without failing. */
  lemma SubmittedRunComesBack(s: Run, params: Data, plan: Data)
    requires Sanitize(params, "$") == Some(s.params) && Sanitize(plan, "$") == Some(s.plan)
    ensures ToDict(s).Some? && FromDict(ToDict(s).value) == Some(s)
  {
    SanitizeIdempotent(params, "$");
    SanitizeIdempotent(plan, "$");
    StoredRun(s);
  }

  /** A run can be saved exactly when its inputs are fit to be stored; and inputs without long strings and without
      tuples come back as they were submitted. */
  lemma SavedIff(s: Run)
    ensures ToDict(s).Some? <==> Fit(s.params) && Fit(s.plan)
    ensures ToDict(s).Some? && Plainly(s.params) && Plainly(s.plan) ==> FromDict(ToDict(s).value) == Some(s)
  {
    hide Sanitize, Fit, Plainly, ToDict, FromDict;
    ToDictSome(s);
    SanitizeAccepts(s.params, "$");
    SanitizeAccepts(s.plan, "$");
    if ToDict(s).Some? {
      StoredRun(s);
      if Plainly(s.params) && Plainly(s.plan) {
        ModestUnchanged(s.params, "$");
        ModestUnchanged(s.plan, "$");
      }
    }
  }
}
