/** The Machine object and the summary of its conditions (api/v1alpha1/helper.go). */
module Machines {
  import opened Wrappers
  import opened Cloud
  import opened ScriptResult

  const AWS_DRIVER := "amazonec2"
  const GOOGLE_DRIVER := "google"
  const AZURE_DRIVER := "azure"

  datatype Phase =
    | Unset | Pending | InProgress | WaitingForScriptCompletion
    | ClusterOperationFailed | Success | Terminating | Failed

  datatype Reason =
    | OperationFailed | CreationFailed | WaitingForCompletion | WaitingForRun
    | AuthDataNotFound | ScriptDataNotFound | Creating

  /** `NamedAfter(p)` is a condition whose type is spelled like the phase `p`. */
  datatype CondType =
    | MachineReady | ScriptReady | AuthDataReady | ClusterOperationComplete | MachineCreating
    | Ready | NamedAfter(phase: Phase)

  datatype Cond = True | False(reason: Reason)

  type Conditions = map<CondType, Cond>

  /** `basis` is history: the result file behind the current value of ClusterOperationComplete. */
  datatype Status = Status(conds: Conditions, phase: Phase, basis: Option<Report>)
  const EMPTY_STATUS := Status(map[], Unset, None)

  datatype Annotations = Annotations(vpc: Id, gateway: Id, subnet: Id)
  const NO_ANNOTATIONS := Annotations(NONE, NONE, NONE)

  datatype Spec = Spec(driver: string, parameters: map<string, string>, hasScript: bool)

  datatype Machine = Machine(spec: Spec, ann: Annotations, finalizer: bool, deleted: bool, status: Status)

  predicate IsTrue(conds: Conditions, t: CondType) {
    t in conds && conds[t].True?
  }

  /** The create command failed. */
  predicate IsBroken(conds: Conditions) {
    MachineReady in conds && conds[MachineReady] == False(CreationFailed)
  }

  /** Only the summary may differ. */
  ghost predicate SameButReady(c: Conditions, d: Conditions) {
    forall t :: t != Ready ==> (t in c <==> t in d) && (t in c ==> c[t] == d[t])
  }

  // ----- SetSummary over ConditionsOrder -----

  function ConditionsOrder(): seq<CondType> {
    [MachineReady, ClusterOperationComplete, AuthDataReady, ScriptReady]
  }

  predicate AnyPresent(order: seq<CondType>, conds: Conditions) {
    exists t | t in order :: t in conds
  }

  /** Reason of the first condition in `order` that is False. */
  function FirstFalse(order: seq<CondType>, conds: Conditions): Option<Reason> {
    if order == [] then None
    else if order[0] in conds && conds[order[0]].False? then Some(conds[order[0]].reason)
    else FirstFalse(order[1..], conds)
  }

  function WithSummary(conds: Conditions): Conditions {
    if !AnyPresent(ConditionsOrder(), conds) then conds
    else
      match FirstFalse(ConditionsOrder(), conds)
      case None => conds[Ready := True]
      case Some(r) => conds[Ready := False(r)]
  }

  lemma {:induction false} FirstFalseMeaning(order: seq<CondType>, conds: Conditions)
    ensures FirstFalse(order, conds) == None <==>
            forall i :: 0 <= i < |order| && order[i] in conds ==> conds[order[i]].True?
    ensures FirstFalse(order, conds).Some? ==>
            exists i :: 0 <= i < |order| && order[i] in conds
              && conds[order[i]] == False(FirstFalse(order, conds).value)
                        && forall j :: 0 <= j < i && order[j] in conds ==> conds[order[j]].True?
  {
    if order != [] {
      FirstFalseMeaning(order[1..], conds);
      var rest := order[1..];
      assert forall i :: 0 <= i < |rest| ==> rest[i] == order[i + 1];
      if !(order[0] in conds && conds[order[0]].False?) && FirstFalse(rest, conds).Some? {
        var i :| 0 <= i < |rest| && rest[i] in conds && conds[rest[i]] == False(FirstFalse(rest, conds).value)
                 && forall j :: 0 <= j < i && rest[j] in conds ==> conds[rest[j]].True?;
        forall j | 0 <= j < i + 1 && order[j] in conds ensures conds[order[j]].True? {
          assert j > 0 ==> order[j] == rest[j - 1];
        }
        assert order[i + 1] == rest[i];
      }
    }
  }

  function GetPhase(m: Machine): Phase {
    var conds := m.status.conds;
    if m.deleted then Terminating
    else if conds == map[] then InProgress
    else if Ready !in conds then Pending
    else
      match conds[Ready]
      case True => Success
      case False(WaitingForCompletion) => WaitingForScriptCompletion
      case False(OperationFailed) => ClusterOperationFailed
      case False(CreationFailed) => Failed
      case False(_) => InProgress
  }

  /** What `updateMachineStatus` does to the object in memory before it commits. */
  function Summarized(m: Machine): Machine {
    var s := m.(status := m.status.(conds := WithSummary(m.status.conds)));
    s.(status := s.status.(phase := GetPhase(s)))
  }

  // ----- what holds of every status the operator writes -----

  /** ClusterOperationComplete is True only on a result file of this very machine that says 0. */
  ghost predicate GoodBasis(name: string, basis: Option<Report>) {
    basis.Some? && basis.value.machine == name && FirstIntegerIs(basis.value.lines, 0)
  }

  /** It is False for a failed operation only on one of this very machine that says something else. */
  ghost predicate BadBasis(name: string, basis: Option<Report>) {
    basis.Some? && basis.value.machine == name && exists n :: n != 0 && FirstIntegerIs(basis.value.lines, n)
  }

  ghost predicate StatusOk(name: string, m: Machine) {
    var c := m.status.conds;
    && (forall p :: NamedAfter(p) !in c)
    && (c != map[] ==> MachineReady in c && ClusterOperationComplete in c)
    && (IsTrue(c, MachineReady) ==> IsTrue(c, AuthDataReady) && (m.spec.hasScript ==> IsTrue(c, ScriptReady)))
    && (AuthDataReady in c && c[AuthDataReady].False? ==> c[AuthDataReady].reason == AuthDataNotFound)
    && (ScriptReady in c ==> m.spec.hasScript)
    && (MachineReady in c && c[MachineReady].False? ==>
          c[MachineReady].reason in {Creating, CreationFailed}
          && c[ClusterOperationComplete] == False(WaitingForRun)
          && (c[MachineReady].reason == CreationFailed ==> IsTrue(c, MachineCreating)))
    && (ClusterOperationComplete in c && c[ClusterOperationComplete].False? ==>
          c[ClusterOperationComplete].reason in {WaitingForRun, WaitingForCompletion, OperationFailed})
    && (IsTrue(c, ClusterOperationComplete) ==> GoodBasis(name, m.status.basis))
    && (ClusterOperationComplete in c && c[ClusterOperationComplete] == False(OperationFailed) ==>
      BadBasis(name, m.status.basis))
  }

  /** The summary and the phase of a stored status are up to date. */
  ghost predicate Settled(m: Machine) {
    && m.status.conds == WithSummary(m.status.conds)
    && match m.status.phase
       case Unset => m.status.conds == map[]
       case Terminating => m.deleted
       case p => p == GetPhase(m.(deleted := false))
  }

  /** The script's outcome has been looked for at least once. */
  ghost predicate Polled(c: Conditions) {
    IsTrue(c, MachineReady) && ClusterOperationComplete in c && c[ClusterOperationComplete] != False(WaitingForRun)
  }

  /** What the conditions never give up: from `c` to `d` nothing decided is undone. */
  ghost predicate Progress(c: Conditions, d: Conditions) {
    && (IsTrue(c, MachineCreating) ==> IsTrue(d, MachineCreating))
    && (IsTrue(c, MachineReady) ==> IsTrue(d, MachineReady))
    && (Polled(c) ==> Polled(d))
    && (MachineReady in c && c[MachineReady] == False(CreationFailed) ==>
      MachineReady in d && d[MachineReady] == c[MachineReady])
  }

  lemma ProgressPreorder(c: Conditions, d: Conditions, e: Conditions)
    ensures Progress(c, c)
    ensures Progress(c, d) && Progress(d, e) ==> Progress(c, e)
  {}

  /** The order in which phases may be committed. */
  predicate Follows(p: Phase, q: Phase) {
    match p
    case Unset | InProgress => q != Pending
    case Failed => q in {Failed, Terminating}
    case WaitingForScriptCompletion | ClusterOperationFailed | Success =>
      q in {WaitingForScriptCompletion, ClusterOperationFailed, Success, Terminating}
    case Terminating => q == Terminating
    case Pending => q == Pending
  }

  /** From status `p` to a later one `q` of the same Machine. */
  ghost predicate Leads(p: Status, q: Status) {
    Follows(p.phase, q.phase) && Progress(p.conds, q.conds)
  }

  lemma FollowsPreorder(p: Phase, q: Phase, r: Phase)
    ensures p == q && p != Pending ==> Follows(p, q)
    ensures Follows(p, q) && Follows(q, r) ==> Follows(p, r)
  {}

  /** The phase of a settled status, read off the conditions themselves. */
  lemma PhaseMeaning(name: string, m: Machine)
    requires StatusOk(name, m) && Settled(m)
    ensures var c := m.status.conds;
      match m.status.phase
      case Unset => c == map[]
      case Pending => false
      case InProgress => !Polled(c) && !(MachineReady in c && c[MachineReady] == False(CreationFailed))
      case Failed => MachineReady in c && c[MachineReady] == False(CreationFailed) && IsTrue(c, MachineCreating)
      case WaitingForScriptCompletion => Polled(c) && c[ClusterOperationComplete] == False(WaitingForCompletion)
      case ClusterOperationFailed => Polled(c) && c[ClusterOperationComplete] == False(OperationFailed)
        && BadBasis(name, m.status.basis)
      case Success =>
        && IsTrue(c, MachineReady) && IsTrue(c, ClusterOperationComplete) && IsTrue(c, AuthDataReady)
        && (m.spec.hasScript ==> IsTrue(c, ScriptReady))
        && GoodBasis(name, m.status.basis)
      case Terminating => m.deleted
  {
    var c := m.status.conds;
    var order := ConditionsOrder();
    FirstFalseMeaning(order, c);
    assert order[0] == MachineReady && order[1] == ClusterOperationComplete
        && order[2] == AuthDataReady && order[3] == ScriptReady;
    if c != map[] {
      assert MachineReady in order;
    }
  }

  /** Conditions that only progress commit phases in order. */
  lemma PhasesFollow(name: string, p: Machine, q: Machine)
    requires StatusOk(name, p) && Settled(p) && StatusOk(name, q) && Settled(q)
    requires Progress(p.status.conds, q.status.conds)
    requires p.status.phase == Terminating ==> q.status.phase == Terminating
    ensures q.status.phase != Unset ==> Follows(p.status.phase, q.status.phase)
  {
    PhaseMeaning(name, p);
    PhaseMeaning(name, q);
  }

  lemma {:induction false} FirstFalseSame(order: seq<CondType>, c: Conditions, d: Conditions)
    requires forall t :: t in order ==> (t in c <==> t in d) && (t in c ==> c[t] == d[t])
    ensures FirstFalse(order, c) == FirstFalse(order, d)
  {
    if order != [] {
      assert order[0] in order;
      FirstFalseSame(order[1..], c, d);
    }
  }

  lemma SummaryKeeps(c: Conditions)
    ensures forall t :: t != Ready ==> (t in WithSummary(c) <==> t in c) && (t in c ==> WithSummary(c)[t] == c[t])
  {}

  /** Summarizing twice is summarizing once. */
  lemma SummaryStable(c: Conditions)
    ensures WithSummary(WithSummary(c)) == WithSummary(c)
  {
    var order, d := ConditionsOrder(), WithSummary(c);
    assert Ready !in order;
    assert forall t :: t in order ==> (t in c <==> t in d) && (t in c ==> c[t] == d[t]);
    FirstFalseSame(order, c, d);
  }

  lemma SummarizedSettles(m: Machine)
    ensures Settled(Summarized(m))
  {
    hide FirstFalse, AnyPresent;
    SummaryStable(m.status.conds);
    hide WithSummary;
    var s := Summarized(m);
    assert s.status.phase == GetPhase(s);
  }

  /** Summarizing settles the status and keeps what the conditions say. */
  lemma SummarizedOk(name: string, m: Machine)
    requires StatusOk(name, m)
    ensures var s := Summarized(m);
      && StatusOk(name, s) && Settled(s)
      && s.status.phase != Unset && (s.status.phase == Terminating <==> m.deleted)
      && Progress(m.status.conds, s.status.conds)
      && s == m.(status := s.status)
  {
    hide WithSummary, Settled, GoodBasis, BadBasis;
    SummarizedSettles(m);
    SummaryKeeps(m.status.conds);
    assert m.status.conds == map[] ==> WithSummary(m.status.conds) == map[] by { EmptySummary(); }
    assert StatusOk(name, Summarized(m));
  }

  lemma EmptySummary()
    ensures WithSummary(map[]) == map[]
  {}

  // ----- marking conditions -----

  /** `MarkTrue` and `MarkFalse`. */
  function Mark(m: Machine, t: CondType, v: Cond): Machine {
    m.(status := m.status.(conds := m.status.conds[t := v]))
  }

  /** Marks ClusterOperationComplete, and remembers why. */
  function MarkOutcome(m: Machine, v: Cond, basis: Option<Report>): Machine {
    var n := Mark(m, ClusterOperationComplete, v);
    n.(status := n.status.(basis := basis))
  }

  ghost predicate Started(c: Conditions) {
    MachineReady in c && c[MachineReady] == False(Creating)
  }

  /** The two marks of `setInitialConditions`. */
  function MarkInitial(m: Machine): Machine {
    MarkOutcome(Mark(m, MachineReady, False(Creating)), False(WaitingForRun), None)
  }

  lemma MarkInitialOk(name: string, m: Machine)
    requires StatusOk(name, m) && !IsTrue(m.status.conds, MachineCreating) && !IsTrue(m.status.conds, MachineReady)
    ensures StatusOk(name, MarkInitial(m)) && Started(MarkInitial(m).status.conds)
    ensures Progress(m.status.conds, MarkInitial(m).status.conds)
      && !IsTrue(MarkInitial(m).status.conds, MachineCreating)
  {
  }

  /** Before the launch: what was found out about the secrets. */
  lemma MarkSecretOk(name: string, m: Machine, t: CondType, v: Cond)
    requires StatusOk(name, m) && Started(m.status.conds)
    requires match t
      case AuthDataReady => v in {True, False(AuthDataNotFound)}
      case ScriptReady => m.spec.hasScript
      case MachineCreating => v == True
      case _ => false
    ensures StatusOk(name, Mark(m, t, v)) && Started(Mark(m, t, v).status.conds)
      && Progress(m.status.conds, Mark(m, t, v).status.conds)
  {
  }

  /** After the launch: how it went. */
  lemma MarkLaunchedOk(name: string, m: Machine, v: Cond)
    requires StatusOk(name, m) && Started(m.status.conds) && IsTrue(m.status.conds, MachineCreating)
    requires IsTrue(m.status.conds, AuthDataReady) && (m.spec.hasScript ==> IsTrue(m.status.conds, ScriptReady))
    requires v in {True, False(CreationFailed)}
    ensures StatusOk(name, Mark(m, MachineReady, v)) && Progress(m.status.conds, Mark(m, MachineReady, v).status.conds)
  {
  }

  /** Once the machine is ready: what the result file says. */
  lemma MarkOutcomeOk(name: string, m: Machine, v: Cond, basis: Option<Report>)
    requires StatusOk(name, m) && IsTrue(m.status.conds, MachineReady)
    requires match v
      case True => GoodBasis(name, basis)
      case False(r) => r == WaitingForCompletion || (r == OperationFailed && BadBasis(name, basis))
    ensures StatusOk(name, MarkOutcome(m, v, basis)) && Progress(m.status.conds, MarkOutcome(m, v, basis).status.conds)
  {
  }

  /** The phase of a ready machine is what the last look at the result file says. Since every pass looks again,
      Success is not final: a failed copy takes it back to WaitingForScriptCompletion. */
  lemma OutcomeDecidesPhase(name: string, m: Machine, v: Cond, basis: Option<Report>)
    requires StatusOk(name, m) && IsTrue(m.status.conds, MachineReady) && !m.deleted
    requires v in {True, False(WaitingForCompletion), False(OperationFailed)}
    ensures Summarized(MarkOutcome(m, v, basis)).status.phase ==
      match v
      case True => Success
      case False(r) => if r == OperationFailed then ClusterOperationFailed else WaitingForScriptCompletion
  {
    hide GoodBasis, BadBasis;
    var c := MarkOutcome(m, v, basis).status.conds;
    var order := ConditionsOrder();
    FirstFalseMeaning(order, c);
    assert order[0] == MachineReady && order[1] == ClusterOperationComplete
        && order[2] == AuthDataReady && order[3] == ScriptReady;
    assert MachineReady in order;
  }
}
