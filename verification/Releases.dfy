/** The control plane's durable release rows: starting under the target's lock, reopening after a
    recoverable failure, and the guarded writes of results, failures and cancellations. */
module Releases {
  import opened Wire
  import opened ReleaseValues

  const CHART_PATH := "charts/djangoops"
  const TIMEOUT: nat := 300

  datatype Phase = Pending | Validating | Migrating | Applying | Verifying

  datatype Status = Active(phase: Phase) | Ended(verdict: ResultStatus)

  /** A registered target; it does not change after registration. */
  datatype Target = Target(agent: nat, namespace: string, releaseName: string, credentialRef: string)

  /** Revision 0 stands for an empty column. */
  datatype Row = Row(
    target: nat,
    image: string,
    chartVersion: string,
    values: Values,
    operationId: JobId,
    previousRevision: nat,
    status: Status,
    helmRevision: nat,
    rollback: RollbackOutcome,
    code: ErrorCode)

  datatype Key = Key(target: nat, image: string, chartVersion: string, digest: Digest)

  function KeyOf(r: Row): Key {
    Key(r.target, r.image, r.chartVersion, Digest(r.values))
  }

  predicate Recoverable(code: ErrorCode) {
    code in {AgentUnavailable, AgentResultUnavailable, CancelUnavailable, DurableStateUnavailable, RecoveryRequired}
  }

  predicate Reopenable(r: Row) {
    r.status == Ended(Failed) && Recoverable(r.code)
  }

  /** A row that a start with the same key joins or reopens instead of creating another. */
  predicate Live(r: Row) {
    r.status.Active? || Reopenable(r)
  }

  // ---------------------------------------------------------------------------------------------
  // Starting a release
  // ---------------------------------------------------------------------------------------------

  /** What the locked section of a start decided to do, from the rows it read. */
  datatype Decision = Join(pk: nat) | Reopen(pk: nat, seen: Row) | Create(previousRevision: nat)

  datatype Start = Start(image: string, chartVersion: string, values: Values, decision: Decision)

  /** The rows, oldest first, and the start that holds each target's lock. */
  datatype Table = Table(rows: seq<Row>, locks: map<nat, Start>)

  /** The newest live row with this key. */
  function FindLive(rows: seq<Row>, key: Key): (pk: Option<nat>)
    ensures pk.Some? ==> pk.value < |rows| && Live(rows[pk.value]) && KeyOf(rows[pk.value]) == key
    ensures pk.Some? ==> forall i :: pk.value < i < |rows| && Live(rows[i]) ==> KeyOf(rows[i]) != key
    ensures pk.None? ==> forall i :: 0 <= i < |rows| && Live(rows[i]) ==> KeyOf(rows[i]) != key
  {
    if rows == [] then None
    else
      var last := |rows| - 1;
      if Live(rows[last]) && KeyOf(rows[last]) == key then Some(last) else FindLive(rows[..last], key)
  }

  /** The Helm revision of the target's newest succeeded row. */
  function LastSucceeded(rows: seq<Row>, target: nat): nat {
    if rows == [] then 0
    else
      var last := rows[|rows| - 1];
      if last.target == target && last.status == Ended(Succeeded) then last.helmRevision
      else LastSucceeded(rows[..|rows| - 1], target)
  }

  /** A start is acceptable if its image is pinned by digest and its compatibility is declared "safe",
      declared "unknown", or left out, which counts as unknown. */
  predicate Acceptable(image: string, values: Values) {
    DigestImage(image) && Sanitized(values) && !values.compatibility.OtherCompatibility?
  }

  function Decide(rows: seq<Row>, key: Key): Decision {
    match FindLive(rows, key)
    case Some(pk) => if rows[pk].status.Active? then Join(pk) else Reopen(pk, rows[pk])
    case None => Create(LastSucceeded(rows, key.target))
  }

  function Created(target: nat, s: Start, id: JobId): Row
    requires s.decision.Create?
  {
    Row(target, s.image, s.chartVersion, s.values, id, s.decision.previousRevision, Active(Validating),
        0, NoRollback, NoError)
  }

  function Reopened(r: Row): Row {
    r.(status := Active(Validating), code := NoError)
  }

  function Policy(values: Values): RollbackPolicy {
    if values.compatibility == Safe then Allow else BlockAfterMigration
  }

  /** The request of a dispatch, from the start's own parameters and two columns of the row. */
  function DispatchOf(t: Target, image: string, values: Values, id: JobId, previousRevision: nat): Request {
    Request(id, Content(t.namespace, t.releaseName, CHART_PATH, image, Canonical(Correlate(values, id)),
                        t.credentialRef, TIMEOUT, TIMEOUT, Policy(values), Release, previousRevision))
  }

  // ---------------------------------------------------------------------------------------------
  // Steps: each one is a single statement or transaction against the table
  // ---------------------------------------------------------------------------------------------

  datatype Op =
    | Lookup(target: nat, image: string, chartVersion: string, values: Values)
    | Commit(target: nat, newId: JobId)
    | WriteResult(pk: nat, result: JobResult, knownPrevious: nat)
    | WriteUnavailable(pk: nat)
    | WriteCancel(pk: nat, accepted: bool)

  predicate Fresh(rows: seq<Row>, id: JobId) {
    SafeJobId(id) && forall i :: 0 <= i < |rows| ==> rows[i].operationId != id
  }

  predicate CanApply(t: Table, op: Op) {
    match op
    case Lookup(target, image, _, values) => target !in t.locks && Acceptable(image, values)
    case Commit(target, newId) =>
      target in t.locks
      && (match t.locks[target].decision
          case Join(_) => true
          case Reopen(pk, _) => pk < |t.rows|
          case Create(_) => Fresh(t.rows, newId))
    case WriteResult(pk, _, _) => pk < |t.rows|
    case WriteUnavailable(pk) => pk < |t.rows|
    case WriteCancel(pk, _) => pk < |t.rows|
  }

  /** A write that the database applies only to a row in an active status. */
  function Guarded(rows: seq<Row>, pk: nat, r: Row): seq<Row>
    requires pk < |rows|
  {
    if rows[pk].status.Active? then rows[pk := r] else rows
  }

  function Clip(code: ErrorCode): ErrorCode {
    if code.OtherCode? && |code.text| > 48 then OtherCode(code.text[..48]) else code
  }

  function ClipRollback(outcome: RollbackOutcome): RollbackOutcome {
    if outcome.OtherRollback? && |outcome.text| > 32 then OtherRollback(outcome.text[..32]) else outcome
  }

  /** `knownPrevious` is the row's previous revision as the dispatching thread last read it. */
  function WithResult(r: Row, result: JobResult, knownPrevious: nat): Row {
    r.(status := Ended(if result.status.OtherStatus? then Failed else result.status),
       helmRevision := result.helmRevision,
       previousRevision := if result.previousRevision != 0 then result.previousRevision else knownPrevious,
       rollback := ClipRollback(result.rollback),
       code := Clip(result.code))
  }

  function WithCancel(r: Row, accepted: bool): Row {
    if accepted then r.(status := Ended(Cancelled), code := NoError)
    else r.(status := Ended(Failed), code := CancelUnavailable)
  }

  function Unlocked(t: Table, target: nat): Table {
    t.(locks := t.locks - {target})
  }

  function Apply(t: Table, op: Op): Table
    requires CanApply(t, op)
  {
    match op
    case Lookup(target, image, chartVersion, values) =>
      var key := Key(target, image, chartVersion, Digest(values));
      t.(locks := t.locks[target := Start(image, chartVersion, values, Decide(t.rows, key))])
    case Commit(target, newId) =>
      var s := t.locks[target];
      (match s.decision
       case Join(_) => Unlocked(t, target)
       case Reopen(pk, _) => Unlocked(t, target).(rows := t.rows[pk := Reopened(t.rows[pk])])
       case Create(_) => Unlocked(t, target).(rows := t.rows + [Created(target, s, newId)]))
    case WriteResult(pk, result, knownPrevious) =>
      t.(rows := Guarded(t.rows, pk, WithResult(t.rows[pk], result, knownPrevious)))
    case WriteUnavailable(pk) =>
      t.(rows := Guarded(t.rows, pk, t.rows[pk].(status := Ended(Failed), code := AgentUnavailable)))
    case WriteCancel(pk, accepted) =>
      t.(rows := Guarded(t.rows, pk, WithCancel(t.rows[pk], accepted)))
  }

  // ---------------------------------------------------------------------------------------------
  // Invariant
  // ---------------------------------------------------------------------------------------------

  predicate LockHolds(t: Table, target: nat)
    requires target in t.locks
  {
    var s := t.locks[target];
    var key := Key(target, s.image, s.chartVersion, Digest(s.values));
    && Acceptable(s.image, s.values)
    && match s.decision
       case Join(pk) => pk < |t.rows| && KeyOf(t.rows[pk]) == key
       case Reopen(pk, seen) => pk < |t.rows| && t.rows[pk] == seen && Reopenable(seen) && KeyOf(seen) == key
       case Create(_) => forall i :: 0 <= i < |t.rows| && Live(t.rows[i]) ==> KeyOf(t.rows[i]) != key
  }

  /** Of the rows with one key only the newest can be live. */
  predicate OlderRowsDead(rows: seq<Row>) {
    forall i, j :: 0 <= i < j < |rows| && KeyOf(rows[i]) == KeyOf(rows[j]) ==> !Live(rows[i])
  }

  predicate RowSound(r: Row) {
    && Acceptable(r.image, r.values)
    && SafeJobId(r.operationId)
    && (r.status.Ended? ==> !r.status.verdict.OtherStatus?)
  }

  predicate IdsDistinct(rows: seq<Row>) {
    forall i, j :: 0 <= i < j < |rows| ==> rows[i].operationId != rows[j].operationId
  }

  ghost predicate Inv(t: Table) {
    && OlderRowsDead(t.rows)
    && IdsDistinct(t.rows)
    && (forall i {:trigger RowSound(t.rows[i])} :: 0 <= i < |t.rows| ==> RowSound(t.rows[i]))
    && (forall target {:trigger LockHolds(t, target)} :: target in t.locks ==> LockHolds(t, target))
  }

  /** One row before and after a step: what never changes, and which changes of status there are. */
  predicate Evolves(r: Row, s: Row) {
    && KeyOf(s) == KeyOf(r) && s.operationId == r.operationId
    && (s == r || r.status.Active? || (Reopenable(r) && s == Reopened(r)))
    && (r.status.Active? ==> s == r || s.status.Ended?)
  }

  lemma WriteKeepsInv(t: Table, pk: nat, r: Row)
    requires Inv(t) && pk < |t.rows|
    requires KeyOf(r) == KeyOf(t.rows[pk]) && r.operationId == t.rows[pk].operationId && RowSound(r)
    ensures Inv(t.(rows := Guarded(t.rows, pk, r)))
  {
    var rows := Guarded(t.rows, pk, r);
    var u := t.(rows := rows);
    assert forall i :: 0 <= i < |rows| && i != pk ==> rows[i] == t.rows[i];
    assert forall i :: 0 <= i < |rows| && Live(rows[i]) ==> Live(t.rows[i]) && KeyOf(t.rows[i]) == KeyOf(rows[i]);
    forall i | 0 <= i < |rows| ensures RowSound(rows[i]) {
      assert RowSound(t.rows[i]);
    }
    forall target | target in u.locks ensures LockHolds(u, target) {
      assert LockHolds(t, target);
    }
  }

  lemma LookupKeepsInv(t: Table, op: Op)
    requires Inv(t) && op.Lookup? && CanApply(t, op)
    ensures Inv(Apply(t, op))
  {
    var u := Apply(t, op);
    forall target | target in u.locks ensures LockHolds(u, target) {
      if target != op.target { assert LockHolds(t, target); }
    }
  }

  lemma CommitKeepsInv(t: Table, op: Op)
    requires Inv(t) && op.Commit? && CanApply(t, op)
    ensures Inv(Apply(t, op))
  {
    var u := Apply(t, op);
    assert LockHolds(t, op.target);
    assert |u.rows| >= |t.rows|;
    forall i | 0 <= i < |u.rows| ensures RowSound(u.rows[i]) {
      if i < |t.rows| { assert RowSound(t.rows[i]); }
    }
    forall target | target in u.locks ensures LockHolds(u, target) {
      assert LockHolds(t, target);
      CommitKeepsLock(t, op, target);
    }
  }

  /** A commit under one target's lock does not disturb a start that holds another's. */
  lemma CommitKeepsLock(t: Table, op: Op, other: nat)
    requires op.Commit? && CanApply(t, op) && other in t.locks && other != op.target
    requires LockHolds(t, op.target) && LockHolds(t, other)
    ensures LockHolds(Apply(t, op), other)
  {
    var u := Apply(t, op);
    assert forall i :: 0 <= i < |u.rows| && u.rows[i].target != op.target ==> i < |t.rows| && u.rows[i] == t.rows[i];
  }

  lemma ApplyKeepsInv(t: Table, op: Op)
    requires Inv(t) && CanApply(t, op)
    ensures Inv(Apply(t, op))
  {
    if op.WriteResult? || op.WriteUnavailable? || op.WriteCancel? { assert RowSound(t.rows[op.pk]); }
    match op
    case Lookup(_, _, _, _) => LookupKeepsInv(t, op);
    case Commit(_, _) => CommitKeepsInv(t, op);
    case WriteResult(pk, result, knownPrevious) => WriteKeepsInv(t, pk, WithResult(t.rows[pk], result, knownPrevious));
    case WriteUnavailable(pk) => WriteKeepsInv(t, pk, t.rows[pk].(status := Ended(Failed), code := AgentUnavailable));
    case WriteCancel(pk, accepted) => WriteKeepsInv(t, pk, WithCancel(t.rows[pk], accepted));
  }

  lemma RowsEvolve(t: Table, op: Op)
    requires Inv(t) && CanApply(t, op)
    ensures |t.rows| <= |Apply(t, op).rows|
    ensures forall i :: 0 <= i < |t.rows| ==> Evolves(t.rows[i], Apply(t, op).rows[i])
  {
    if op.Commit? { assert LockHolds(t, op.target); }
  }

  // ---------------------------------------------------------------------------------------------
  // Theorems over every interleaving of starts, late results and cancellations
  // ---------------------------------------------------------------------------------------------

  const EMPTY := Table([], map[])

  ghost predicate IsRun(tables: seq<Table>, ops: seq<Op>) {
    && |tables| == |ops| + 1
    && tables[0] == EMPTY
    && forall i {:trigger ops[i]} :: 0 <= i < |ops| ==>
         CanApply(tables[i], ops[i]) && tables[i + 1] == Apply(tables[i], ops[i])
  }

  lemma {:induction false} InvRun(tables: seq<Table>, ops: seq<Op>, i: nat)
    requires IsRun(tables, ops) && i < |tables|
    ensures Inv(tables[i])
  {
    if i > 0 {
      InvRun(tables, ops, i - 1);
      assert CanApply(tables[i - 1], ops[i - 1]);
      ApplyKeepsInv(tables[i - 1], ops[i - 1]);
    }
  }

  /** In every reachable table a key has at most one live row, its newest: a second operation for a key
      exists only once the first is dead. */
  lemma OneLiveRowPerKey(tables: seq<Table>, ops: seq<Op>, i: nat, p: nat, q: nat)
    requires IsRun(tables, ops) && i < |tables|
    requires p < q < |tables[i].rows| && KeyOf(tables[i].rows[p]) == KeyOf(tables[i].rows[q])
    ensures !Live(tables[i].rows[p]) && tables[i].rows[p].operationId != tables[i].rows[q].operationId
  {
    InvRun(tables, ops, i);
  }

  /** A row that has left the live set never changes again. */
  lemma {:induction false} DeadRowsStay(tables: seq<Table>, ops: seq<Op>, i: nat, j: nat, pk: nat)
    requires IsRun(tables, ops) && i <= j < |tables| && pk < |tables[i].rows| && !Live(tables[i].rows[pk])
    ensures pk < |tables[j].rows| && tables[j].rows[pk] == tables[i].rows[pk]
    decreases j - i
  {
    if i < j {
      DeadRowsStay(tables, ops, i, j - 1, pk);
      InvRun(tables, ops, j - 1);
      assert CanApply(tables[j - 1], ops[j - 1]);
      RowsEvolve(tables[j - 1], ops[j - 1]);
    }
  }

  /** The key and the operation ID of a row never change. */
  lemma {:induction false} IdentityStays(tables: seq<Table>, ops: seq<Op>, i: nat, j: nat, pk: nat)
    requires IsRun(tables, ops) && i <= j < |tables| && pk < |tables[i].rows|
    ensures pk < |tables[j].rows| && KeyOf(tables[j].rows[pk]) == KeyOf(tables[i].rows[pk])
    ensures tables[j].rows[pk].operationId == tables[i].rows[pk].operationId
    decreases j - i
  {
    if i < j {
      IdentityStays(tables, ops, i, j - 1, pk);
      InvRun(tables, ops, j - 1);
      assert CanApply(tables[j - 1], ops[j - 1]);
      RowsEvolve(tables[j - 1], ops[j - 1]);
    }
  }

  // ---------------------------------------------------------------------------------------------
  // What a start decides, creates and dispatches
  // ---------------------------------------------------------------------------------------------

  /** Row `n` is the newest one of this target that succeeded. */
  predicate NewestSuccess(rows: seq<Row>, target: nat, n: nat) {
    && n < |rows| && rows[n].target == target && rows[n].status == Ended(Succeeded)
    && forall i :: n < i < |rows| && rows[i].target == target ==> rows[i].status != Ended(Succeeded)
  }

  /** The revision a new release of this target may be rolled back to: that of the newest success of the same
      target, and none if nothing of this target ever succeeded. */
  ghost predicate PreviousOf(rows: seq<Row>, target: nat, revision: nat) {
    if exists i :: 0 <= i < |rows| && rows[i].target == target && rows[i].status == Ended(Succeeded)
    then exists n: nat {:trigger NewestSuccess(rows, target, n)} ::
           NewestSuccess(rows, target, n) && revision == rows[n].helmRevision
    else revision == 0
  }

  lemma {:induction false} LastSucceededIsNewest(rows: seq<Row>, target: nat)
    ensures PreviousOf(rows, target, LastSucceeded(rows, target))
  {
    if rows != [] {
      var last := |rows| - 1;
      if rows[last].target == target && rows[last].status == Ended(Succeeded) {
        assert NewestSuccess(rows, target, last);
      } else {
        LastSucceededIsNewest(rows[..last], target);
        if i :| 0 <= i < |rows| && rows[i].target == target && rows[i].status == Ended(Succeeded) {
          assert rows[..last][i] == rows[i];
          var n: nat :| NewestSuccess(rows[..last], target, n)
                   && LastSucceeded(rows[..last], target) == rows[..last][n].helmRevision;
          assert NewestSuccess(rows, target, n);
        }
      }
    }
  }

  /** What the locked section decides: the newest live row with the key is joined if it is active and
      reopened if it failed recoverably; only without one a row is created, and it names the revision of the
      newest success of its own target. */
  ghost predicate Decided(rows: seq<Row>, key: Key, d: Decision) {
    match d
    case Create(revision) =>
      && (forall i :: 0 <= i < |rows| && KeyOf(rows[i]) == key ==> !Live(rows[i]))
      && PreviousOf(rows, key.target, revision)
    case Join(pk) => LastOfKey(rows, key, pk) && rows[pk].status.Active?
    case Reopen(pk, seen) =>
      LastOfKey(rows, key, pk) && seen == rows[pk] && seen.status == Ended(Failed) && Recoverable(seen.code)
  }

  /** Row `pk` has this key, and no newer row with it is live. */
  predicate LastOfKey(rows: seq<Row>, key: Key, pk: nat) {
    && pk < |rows| && KeyOf(rows[pk]) == key
    && (forall i :: pk < i < |rows| && KeyOf(rows[i]) == key ==> !Live(rows[i]))
  }

  lemma DecideIsRight(rows: seq<Row>, key: Key)
    ensures Decided(rows, key, Decide(rows, key))
  {
    LastSucceededIsNewest(rows, key.target);
  }

  /** A lookup changes no row and takes no lock but its target's, which then holds what it decided. */
  lemma LookupDecides(t: Table, op: Op)
    requires op.Lookup? && CanApply(t, op)
    ensures var u := Apply(t, op);
      && u.rows == t.rows && u.locks.Keys == t.locks.Keys + {op.target}
      && (forall x :: x in t.locks ==> u.locks[x] == t.locks[x])
      && var s := u.locks[op.target];
      && s.image == op.image && s.chartVersion == op.chartVersion && s.values == op.values
      && Decided(t.rows, Key(op.target, op.image, op.chartVersion, Digest(op.values)), s.decision)
  {
    DecideIsRight(t.rows, Key(op.target, op.image, op.chartVersion, Digest(op.values)));
  }

  /** The lookup whose decision a commit carries out. */
  lemma {:induction false} LookupBehind(tables: seq<Table>, ops: seq<Op>, j: nat, target: nat) returns (i: nat)
    requires IsRun(tables, ops) && j < |tables| && target in tables[j].locks
    ensures i < j && ops[i].Lookup? && ops[i].target == target
    ensures tables[j].locks[target] == tables[i + 1].locks[target]
  {
    assert CanApply(tables[j - 1], ops[j - 1]);
    if target in tables[j - 1].locks && tables[j - 1].locks[target] == tables[j].locks[target] {
      i := LookupBehind(tables, ops, j - 1, target);
    } else {
      i := j - 1;
    }
  }

  /** Over every run: a created row is what its start asked for, in the first active phase and with nothing
      recorded, and it names the newest success that its own target had when the start read the rows. */
  lemma CreatedRowIsNew(tables: seq<Table>, ops: seq<Op>, j: nat) returns (i: nat)
    requires IsRun(tables, ops) && j < |ops| && ops[j].Commit?
    requires tables[j].locks[ops[j].target].decision.Create?
    ensures i < j && ops[i].Lookup? && ops[i].target == ops[j].target
    ensures tables[j + 1].rows[..|tables[j].rows|] == tables[j].rows && |tables[j + 1].rows| == |tables[j].rows| + 1
    ensures var row := tables[j + 1].rows[|tables[j].rows|];
      && row.target == ops[i].target && row.image == ops[i].image && row.chartVersion == ops[i].chartVersion
      && row.values == ops[i].values && row.operationId == ops[j].newId
      && PreviousOf(tables[i].rows, row.target, row.previousRevision)
      && row.status == Active(Validating) && row.helmRevision == 0 && row.rollback == NoRollback && row.code == NoError
  {
    assert CanApply(tables[j], ops[j]);
    i := LookupBehind(tables, ops, j, ops[j].target);
    assert CanApply(tables[i], ops[i]);
    LookupDecides(tables[i], ops[i]);
  }

  /** What goes to the agent for a row: where to, from the target; what, from the row. The image may be rolled
      back exactly if the values declare the migration safe. The values are the row's, with the operation's
      ID for correlation where observability is on. */
  predicate Carries(c: Content, t: Target, row: Row) {
    && c.namespace == t.namespace && c.releaseName == t.releaseName && c.credentialRef == t.credentialRef
    && c.chartPath == CHART_PATH && c.migrationTimeout == c.rolloutTimeout == TIMEOUT
    && c.image == row.image && c.previousRevision == row.previousRevision && c.mode == Mode.Release
    && (if row.values.compatibility == Safe then c.policy == Allow else c.policy == BlockAfterMigration)
    && c.valuesJson.Canonical?
    && var sent := c.valuesJson.values;
    && sent.compatibility == row.values.compatibility && sent.rest == row.values.rest
    && match row.values.observability
       case Enabled(endpoint, namespace, _) => sent.observability == Enabled(endpoint, namespace, row.operationId.text)
       case other => sent.observability == other
  }

  lemma DispatchCarries(t: Target, row: Row)
    requires RowSound(row)
    ensures var r := DispatchOf(t, row.image, row.values, row.operationId, row.previousRevision);
      r.jobId == row.operationId && Carries(r.content, t, row)
  {
    CorrelationOfSafeId(row.operationId);
  }

  // ---------------------------------------------------------------------------------------------
  // What the writes store
  // ---------------------------------------------------------------------------------------------

  /** At most `n` characters of a text, from its beginning. */
  predicate CutTo(stored: string, text: string, n: nat) {
    stored <= text && |stored| == if |text| <= n then |text| else n
  }

  /** The row holds the result: its status if it is a terminal one and otherwise "failed", its revision, and
      its rollback outcome and code up to the length of their columns. A previous revision replaces the known
      one only if the result names one. Key and operation ID are those of the row before. */
  predicate Holds(before: Row, after: Row, result: JobResult, knownPrevious: nat) {
    && (!result.status.OtherStatus? ==> after.status == Ended(result.status))
    && (result.status.OtherStatus? ==> after.status == Ended(Failed))
    && after.helmRevision == result.helmRevision
    && (if result.previousRevision == 0 then after.previousRevision == knownPrevious
        else after.previousRevision == result.previousRevision)
    && (match result.rollback
        case OtherRollback(text) => after.rollback.OtherRollback? && CutTo(after.rollback.text, text, 32)
        case known => after.rollback == known)
    && (match result.code
        case OtherCode(text) => after.code.OtherCode? && CutTo(after.code.text, text, 48)
        case known => after.code == known)
    && KeyOf(after) == KeyOf(before) && after.operationId == before.operationId
  }

  /** A result that meets an active row is stored in it, and nothing else changes. */
  lemma ResultIsStored(t: Table, pk: nat, result: JobResult, knownPrevious: nat)
    requires pk < |t.rows| && t.rows[pk].status.Active?
    ensures var u := Apply(t, WriteResult(pk, result, knownPrevious));
      u == Table(t.rows[pk := u.rows[pk]], t.locks) && Holds(t.rows[pk], u.rows[pk], result, knownPrevious)
  {
  }

  /** An accepted cancellation of an active row is stored as cancelled, a refused one as CANCEL_UNAVAILABLE, and
      a backend that cannot be reached as AGENT_UNAVAILABLE; nothing else changes. */
  lemma CancelIsStored(t: Table, pk: nat, accepted: bool)
    requires pk < |t.rows| && t.rows[pk].status.Active?
    ensures var row := t.rows[pk];
      && Apply(t, WriteCancel(pk, accepted))
         == Table(t.rows[pk := if accepted then row.(status := Ended(Cancelled), code := NoError)
                               else row.(status := Ended(Failed), code := CancelUnavailable)], t.locks)
      && Apply(t, WriteUnavailable(pk))
         == Table(t.rows[pk := row.(status := Ended(Failed), code := AgentUnavailable)], t.locks)
  {
  }

  // ---------------------------------------------------------------------------------------------
  // How rows end and come back
  // ---------------------------------------------------------------------------------------------

  /** A recoverably failed row changes only when a start reopens it, and then only its status and code. */
  lemma RecoverableOnlyReopens(t: Table, op: Op, pk: nat)
    requires Inv(t) && CanApply(t, op) && pk < |t.rows| && Reopenable(t.rows[pk])
    requires Apply(t, op).rows[pk] != t.rows[pk]
    ensures op.Commit? && op.target == t.rows[pk].target
    ensures Apply(t, op).rows[pk] == t.rows[pk].(status := Active(Validating), code := NoError)
  {
    if op.Commit? { assert LockHolds(t, op.target); }
  }

  /** The table still has, at the row a start is about to reopen, the row that start read. */
  predicate SeenStands(t: Table, d: Decision) {
    d.Reopen? && d.pk < |t.rows| && t.rows[d.pk] == d.seen
  }

  /** The reopening write carries no guard, yet it overwrites nobody: from the moment its transaction read
      the row until it writes, whatever else runs, the row is the one that was read. */
  lemma {:induction false} ReopenLosesNoWrite(tables: seq<Table>, ops: seq<Op>, j: nat, target: nat) returns (i: nat)
    requires IsRun(tables, ops) && j < |tables|
    requires target in tables[j].locks && tables[j].locks[target].decision.Reopen?
    ensures i < j && ops[i].Lookup? && ops[i].target == target
    ensures forall k :: i <= k <= j ==> SeenStands(tables[k], tables[j].locks[target].decision)
  {
    InvRun(tables, ops, j);
    assert LockHolds(tables[j], target);
    assert CanApply(tables[j - 1], ops[j - 1]);
    if target in tables[j - 1].locks && tables[j - 1].locks[target] == tables[j].locks[target] {
      i := ReopenLosesNoWrite(tables, ops, j - 1, target);
    } else {
      i := j - 1;
    }
  }

  /** The first terminal write wins: a write that arrives for a row no longer active changes nothing. */
  lemma LateWritesAreIgnored(t: Table, op: Op)
    requires CanApply(t, op)
    requires match op
             case WriteResult(pk, _, _) => t.rows[pk].status.Ended?
             case WriteUnavailable(pk) => t.rows[pk].status.Ended?
             case WriteCancel(pk, _) => t.rows[pk].status.Ended?
             case _ => false
    ensures Apply(t, op) == t
  {
  }

  /** When a release fails or ends, the next start with the same key keeps its row and operation ID if and
      only if it was recorded as failed with one of the five recoverable codes; after any other result, a
      disconnect of the agent included, it creates a row with a new operation ID. */
  lemma RetryKeepsIdentityExactlyWhen(t: Table, pk: nat, result: JobResult, knownPrevious: nat)
    requires Inv(t) && pk < |t.rows| && t.rows[pk].status.Active?
    ensures var u := Apply(t, WriteResult(pk, result, knownPrevious)); var key := KeyOf(t.rows[pk]);
      && Decide(u.rows, key) == (if Reopenable(u.rows[pk]) then Reopen(pk, u.rows[pk])
                                 else Create(LastSucceeded(u.rows, key.target)))
      && (Reopenable(u.rows[pk]) <==>
            && (result.status.Failed? || result.status.OtherStatus?)
            && result.code in {AgentUnavailable, AgentResultUnavailable, CancelUnavailable, DurableStateUnavailable,
                               RecoveryRequired})
  {
    var u := Apply(t, WriteResult(pk, result, knownPrevious));
    assert KeyOf(u.rows[pk]) == KeyOf(t.rows[pk]);
    assert forall i :: 0 <= i < |u.rows| && i != pk ==> u.rows[i] == t.rows[i];
  }

  // ---------------------------------------------------------------------------------------------
  // The service as the program writes it
  // ---------------------------------------------------------------------------------------------

  /** What a start tells its caller: refused input, a row already in progress, or a row to dispatch. */
  datatype Started = Rejected | InProgress(pk: nat) | Dispatch(pk: nat, request: Request)

  class KubernetesService {
    const accepts: string -> bool
    var rows: seq<Row>
    var locks: map<nat, Start>

    ghost function View(): Table
      reads this
    {
      Table(rows, locks)
    }

    constructor (checkUrl: string -> bool)
      ensures View() == EMPTY && accepts == checkUrl
    {
      accepts := checkUrl;
      rows, locks := [], map[];
    }

    /** The row lock is taken and the live row, if any, is read. */
    method ReadUnderLock(target: nat, image: string, chartVersion: string, raw: RawValues) returns (ok: bool)
      requires target !in locks
      modifies this
      ensures ok <==> Sanitize(accepts, raw).Some? && Acceptable(image, Sanitize(accepts, raw).value)
      ensures View() == if ok then Apply(old(View()), Lookup(target, image, chartVersion, Sanitize(accepts, raw).value))
                        else old(View())
      ensures ok ==> var values := Sanitize(accepts, raw).value; var s := locks[target];
                && s.image == image && s.chartVersion == chartVersion && s.values == values
                && Decided(rows, Key(target, image, chartVersion, Digest(values)), s.decision)
    {
      var clean := Sanitize(accepts, raw);
      if clean.None? || !DigestImage(image) || clean.value.compatibility.OtherCompatibility? { return false; }
      SanitizedIsStable(accepts, raw);
      var values := clean.value;
      var existing := FindLive(rows, Key(target, image, chartVersion, Digest(values)));
      var decision := Create(LastSucceeded(rows, target));
      if existing.Some? {
        decision := if rows[existing.value].status.Active? then Join(existing.value)
                    else Reopen(existing.value, rows[existing.value]);
      }
      DecideIsRight(rows, Key(target, image, chartVersion, Digest(values)));
      locks := locks[target := Start(image, chartVersion, values, decision)];
      ok := true;
    }

    /** The rest of the transaction: reopen or create the row, release the lock, and build the request. */
    method CommitStart(targets: map<nat, Target>, target: nat, newId: JobId) returns (started: Started)
      requires target in targets && Inv(View()) && CanApply(View(), Commit(target, newId))
      modifies this
      ensures View() == Apply(old(View()), Commit(target, newId))
      ensures var s := old(locks)[target];
        match started
        case Rejected => false
        case InProgress(pk) => s.decision == Join(pk)
        case Dispatch(pk, request) =>
          && pk < |rows| && rows[pk].status == Active(Validating)
          && KeyOf(rows[pk]) == Key(target, s.image, s.chartVersion, Digest(s.values))
          && request == DispatchOf(targets[target], s.image, s.values, rows[pk].operationId, rows[pk].previousRevision)
          && request.jobId == rows[pk].operationId && Carries(request.content, targets[target], rows[pk])
    {
      var s := locks[target];
      ghost var before := View();
      assert LockHolds(before, target);
      var pk;
      match s.decision {
        case Join(existing) =>
          locks := locks - {target};
          return InProgress(existing);
        case Reopen(existing, _) =>
          pk := existing;
          rows := rows[pk := rows[pk].(status := Active(Validating), code := NoError)];
        case Create(previousRevision) =>
          pk := |rows|;
          rows := rows + [Row(target, s.image, s.chartVersion, s.values, newId, previousRevision,
                              Active(Validating), 0, NoRollback, NoError)];
      }
      locks := locks - {target};
      var row := rows[pk];
      ApplyKeepsInv(before, Commit(target, newId));
      assert RowSound(View().rows[pk]);
      DispatchCarries(targets[target], row);
      started := Dispatch(pk, DispatchOf(targets[target], s.image, s.values, row.operationId, row.previousRevision));
    }

    method RecordResult(pk: nat, result: JobResult, knownPrevious: nat)
      requires pk < |rows|
      modifies this`rows
      ensures View() == Apply(old(View()), WriteResult(pk, result, knownPrevious))
      ensures if old(rows)[pk].status.Active?
              then rows == old(rows)[pk := rows[pk]] && Holds(old(rows)[pk], rows[pk], result, knownPrevious)
              else rows == old(rows)
    {
      if rows[pk].status.Active? {
        var verdict := if result.status.OtherStatus? then Failed else result.status;
        var previous := if result.previousRevision != 0 then result.previousRevision else knownPrevious;
        rows := rows[pk := rows[pk].(status := Ended(verdict), helmRevision := result.helmRevision,
                                     previousRevision := previous, rollback := ClipRollback(result.rollback),
                                     code := Clip(result.code))];
      }
    }

    method RecordUnavailable(pk: nat)
      requires pk < |rows|
      modifies this`rows
      ensures View() == Apply(old(View()), WriteUnavailable(pk))
    {
      if rows[pk].status.Active? {
        rows := rows[pk := rows[pk].(status := Ended(Failed), code := AgentUnavailable)];
      }
    }

    /** `accepted` is the backend's answer; a row already terminal is left alone without asking. */
    method CancelRelease(pk: nat, accepted: bool)
      requires pk < |rows|
      modifies this`rows
      ensures View() == Apply(old(View()), WriteCancel(pk, accepted))
      ensures var row := old(rows)[pk];
        rows == if row.status.Ended? then old(rows)
                else if accepted then old(rows)[pk := row.(status := Ended(Cancelled), code := NoError)]
                else old(rows)[pk := row.(status := Ended(Failed), code := CancelUnavailable)]
    {
      if rows[pk].status.Ended? { return; }
      if accepted {
        rows := rows[pk := rows[pk].(status := Ended(Cancelled), code := NoError)];
      } else {
        rows := rows[pk := rows[pk].(status := Ended(Failed), code := CancelUnavailable)];
      }
    }
  }
}
