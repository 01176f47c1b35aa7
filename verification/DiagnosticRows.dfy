/** The stored diagnostic operations. Consumers, cancelling requests and history trimming write the same
    rows at any time; every step below is one statement of one of them. */
module DiagnosticRows {
  import Diagnostics

  const MAX_HISTORY: nat := 200
  const MAX_CHECKS: nat := 32

  datatype Status =
    | Pending | Running
    | Succeeded | Failed | Cancelled | Offline | Overloaded | Disconnected | Timeout

  predicate Terminal(s: Status) {
    s != Pending && s != Running
  }

  datatype Check = Check(name: string, status: string)

  datatype Summary = Empty | Progress(phase: string) | Checks(checks: seq<Check>)

  /** `Reported` is the agent's own status as an error code. */
  datatype Code =
    | NoCode | AgentOffline | OverloadedCode | GatewayUnavailable
    | CancelTimeout | CancelFailed | CancelUnavailable
    | DiagnosticTimeout | DiagnosticFailed
    | Reported(status: string)

  datatype Row = Row(project: nat, created: int, status: Status, summary: Summary, code: Code)

  datatype CancelOutcome = Accepted | Refused | TimedOut | Broken

  /** How a consumer ends without a result. */
  datatype Ending = TimesOut | AgentMissing | NoRoom | Crashes

  /** What a request finds when it starts an operation that it then cannot hand over. */
  datatype Early = AgentIsOffline | NoCapacity | NoGateway

  datatype Step =
    | Create(project: nat, created: int)
    | EndEarly(pk: nat, early: Early)
    | Dispatch(pk: nat)
    | SetRunning(pk: nat)
    | SaveProgress(pk: nat, phase: string)
    | SaveResult(pk: nat, status: string, checks: seq<Check>)
    | SaveError(pk: nat, ending: Ending)
    | SaveCancel(pk: nat, outcome: CancelOutcome)
    | SelectStale(project: nat, order: seq<nat>)
    | DeleteStale(ids: set<nat>)

  /** `dispatched` are the operations handed to a consumer; `selected` are all rows that some trim has ever
      chosen to delete. */
  datatype Store = Store(rows: map<nat, Row>, next: nat, dispatched: set<nat>, selected: set<nat>)

  // ---------------------------------------------------------------------------------------------
  // The writes
  // ---------------------------------------------------------------------------------------------

  function Mapped(status: string): Status {
    if status == "succeeded" then Succeeded
    else if status == "cancelled" then Cancelled
    else if status == "disconnected" then Disconnected
    else Failed
  }

  function CancelStatus(o: CancelOutcome): (Status, Code) {
    match o
    case Accepted => (Cancelled, NoCode)
    case Refused => (Disconnected, CancelUnavailable)
    case TimedOut => (Failed, CancelTimeout)
    case Broken => (Failed, CancelFailed)
  }

  function EndingStatus(e: Ending): (Status, Code) {
    match e
    case TimesOut => (Timeout, DiagnosticTimeout)
    case AgentMissing => (Offline, AgentOffline)
    case NoRoom => (Overloaded, OverloadedCode)
    case Crashes => (Failed, DiagnosticFailed)
  }

  /** The unguarded write of a request that has not handed its operation to a consumer. */
  function EndedEarly(row: Row, early: Early): Row {
    match early
    case AgentIsOffline => row.(status := Offline, code := AgentOffline)
    case NoCapacity => row.(status := Overloaded, code := OverloadedCode)
    case NoGateway => row.(status := Failed, code := GatewayUnavailable)
  }

  function FirstOf<T>(s: seq<T>, n: nat): seq<T> {
    if |s| <= n then s else s[..n]
  }

  function Kept(checks: seq<Check>): seq<Check> {
    seq(|FirstOf(checks, MAX_CHECKS)|, i requires 0 <= i < |FirstOf(checks, MAX_CHECKS)| =>
      Check(FirstOf(FirstOf(checks, MAX_CHECKS)[i].name, 128), FirstOf(FirstOf(checks, MAX_CHECKS)[i].status, 32)))
  }

  /** The write ends the operation. */
  predicate Ends(step: Step, pk: nat) {
    (step.SaveResult? || step.SaveError? || step.SaveCancel?) && step.pk == pk
  }

  /** An active row after an ending write; a result replaces the summary, the other endings keep it. */
  function Ended(row: Row, step: Step): Row
    requires step.SaveResult? || step.SaveError? || step.SaveCancel?
  {
    match step
    case SaveResult(_, status, checks) =>
      var mapped := Mapped(status);
      row.(status := mapped, summary := Checks(Kept(checks)),
           code := if mapped == Succeeded then NoCode else Reported(FirstOf(status, 32)))
    case SaveError(_, e) => row.(status := EndingStatus(e).0, code := EndingStatus(e).1)
    case SaveCancel(_, o) => row.(status := CancelStatus(o).0, code := CancelStatus(o).1)
  }

  /** The row after a write that is guarded by an active status. */
  function Guarded(row: Row, step: Step): Row {
    if Terminal(row.status) then row
    else
      match step
      case SetRunning(_) => row.(status := Running)
      case SaveProgress(_, phase) => row.(summary := Progress(FirstOf(phase, 64)))
      case SaveResult(_, _, _) => Ended(row, step)
      case SaveError(_, _) => Ended(row, step)
      case SaveCancel(_, _) => Ended(row, step)
      case _ => row
  }

  /** The terminal rows of a project, newest first. */
  ghost predicate History(rows: map<nat, Row>, project: nat, order: seq<nat>) {
    && (forall i, j :: 0 <= i < j < |order| ==> order[i] != order[j])
    && (forall pk :: pk in order <==> pk in rows && rows[pk].project == project && Terminal(rows[pk].status))
    && (forall i, j :: 0 <= i < j < |order| ==> rows[order[i]].created >= rows[order[j]].created)
  }

  function Stale(order: seq<nat>): set<nat> {
    set i | MAX_HISTORY <= i < |order| :: order[i]
  }

  ghost predicate Next(s: Store, step: Step, t: Store) {
    match step
    case Create(project, created) =>
      t == s.(rows := s.rows[s.next := Row(project, created, Pending, Empty, NoCode)], next := s.next + 1)
    case EndEarly(pk, early) =>
      && pk !in s.dispatched
      && t == if pk in s.rows then s.(rows := s.rows[pk := EndedEarly(s.rows[pk], early)]) else s
    case Dispatch(pk) => t == s.(dispatched := s.dispatched + {pk})
    case SelectStale(project, order) =>
      History(s.rows, project, order) && t == s.(selected := s.selected + Stale(order))
    case DeleteStale(ids) => ids <= s.selected && t == s.(rows := s.rows - ids)
    case _ =>
      t == if step.pk in s.rows then s.(rows := s.rows[step.pk := Guarded(s.rows[step.pk], step)]) else s
  }

  // ---------------------------------------------------------------------------------------------
  // Runs
  // ---------------------------------------------------------------------------------------------

  predicate Fit(s: Store, pk: nat) {
    && (pk in s.rows || pk in s.selected ==> pk < s.next)
    && (pk in s.selected && pk in s.rows ==> Terminal(s.rows[pk].status))
  }

  /** Keys are never reused, and whatever a trim has chosen stays terminal for as long as it is there. */
  ghost predicate Inv(s: Store) {
    forall pk {:trigger Fit(s, pk)} :: Fit(s, pk)
  }

  ghost predicate IsRun(stores: seq<Store>, steps: seq<Step>) {
    && |stores| == |steps| + 1
    && stores[0] == Store(map[], 0, {}, {})
    && forall i {:trigger steps[i]} :: 0 <= i < |steps| ==> Next(stores[i], steps[i], stores[i + 1])
  }

  lemma NextInv(s: Store, step: Step, t: Store)
    requires Inv(s) && Next(s, step, t)
    ensures Inv(t)
  {
    forall pk ensures Fit(t, pk) {
      assert Fit(s, pk);
    }
  }

  lemma {:induction false} RunInv(stores: seq<Store>, steps: seq<Step>, i: nat)
    requires IsRun(stores, steps) && i < |stores|
    ensures Inv(stores[i])
  {
    if i > 0 {
      RunInv(stores, steps, i - 1);
      assert Next(stores[i - 1], steps[i - 1], stores[i]);
      NextInv(stores[i - 1], steps[i - 1], stores[i]);
    }
  }

  /** A terminal row changes if and only if it meets the unguarded write of a request that has not handed the
      operation to a consumer, and that write differs from what is stored. */
  lemma TerminalStays(s: Store, step: Step, t: Store, pk: nat)
    requires Inv(s) && Next(s, step, t) && pk in s.rows && Terminal(s.rows[pk].status)
    ensures pk in t.rows ==>
              (t.rows[pk] != s.rows[pk] <==>
                 step.EndEarly? && step.pk == pk && EndedEarly(s.rows[pk], step.early) != s.rows[pk])
    ensures step.EndEarly? && step.pk == pk ==> pk !in s.dispatched
  {
    assert Fit(s, pk);
  }

  /** From dispatch on, a terminal row is frozen: status, error code and summary stay until it is deleted. */
  lemma {:induction false} FrozenOnceTerminal(stores: seq<Store>, steps: seq<Step>, i: nat, j: nat, pk: nat)
    requires IsRun(stores, steps) && i <= j < |stores|
    requires pk in stores[i].rows && pk in stores[i].dispatched && Terminal(stores[i].rows[pk].status)
    ensures pk in stores[j].dispatched && pk < stores[j].next
    ensures pk in stores[j].rows ==> stores[j].rows[pk] == stores[i].rows[pk]
    decreases j - i
  {
    RunInv(stores, steps, j);
    if i == j {
      assert Fit(stores[i], pk);
    } else {
      FrozenOnceTerminal(stores, steps, i, j - 1, pk);
      RunInv(stores, steps, j - 1);
      assert Next(stores[j - 1], steps[j - 1], stores[j]);
      if pk in stores[j - 1].rows { TerminalStays(stores[j - 1], steps[j - 1], stores[j], pk); }
    }
  }

  /** The first ending write of a dispatched operation wins: whatever consumers, timeouts and cancelling
      requests write later, the row stays as that write made it. */
  lemma FirstEndingWins(stores: seq<Store>, steps: seq<Step>, i: nat, j: nat, pk: nat)
    requires IsRun(stores, steps) && i < j < |stores|
    requires pk in stores[i].rows && pk in stores[i].dispatched && !Terminal(stores[i].rows[pk].status)
    requires Ends(steps[i], pk)
    ensures pk in stores[j].rows ==> stores[j].rows[pk] == Ended(stores[i].rows[pk], steps[i])
    ensures Terminal(Ended(stores[i].rows[pk], steps[i]).status)
  {
    assert Next(stores[i], steps[i], stores[i + 1]);
    FrozenOnceTerminal(stores, steps, i + 1, j, pk);
  }

  // ---------------------------------------------------------------------------------------------
  // What is stored, and where it comes from
  // ---------------------------------------------------------------------------------------------

  /** The beginning of a text, up to a number of characters. */
  predicate CutTo(stored: string, text: string, n: nat) {
    stored <= text && |stored| == if |text| <= n then |text| else n
  }

  /** This step makes an operation end like this. The agent's own word decides between success, cancellation
      and loss of the connection, and anything else it says is a failure under its own name. */
  predicate Causes(step: Step, status: Status, code: Code) {
    match step
    case SaveResult(_, word, _) =>
      if word == "succeeded" then status == Succeeded && code == NoCode
      else
        && code.Reported? && CutTo(code.status, word, 32)
        && status == if word == "cancelled" then Cancelled
                     else if word == "disconnected" then Disconnected else Failed
    case SaveError(_, ending) =>
      && (ending == TimesOut ==> status == Timeout && code == DiagnosticTimeout)
      && (ending == AgentMissing ==> status == Offline && code == AgentOffline)
      && (ending == NoRoom ==> status == Overloaded && code == OverloadedCode)
      && (ending == Crashes ==> status == Failed && code == DiagnosticFailed)
    case SaveCancel(_, outcome) =>
      && (outcome == Accepted ==> status == Cancelled && code == NoCode)
      && (outcome == Refused ==> status == Disconnected && code == CancelUnavailable)
      && (outcome == TimedOut ==> status == Failed && code == CancelTimeout)
      && (outcome == Broken ==> status == Failed && code == CancelFailed)
    case EndEarly(_, early) =>
      && (early == AgentIsOffline ==> status == Offline && code == AgentOffline)
      && (early == NoCapacity ==> status == Overloaded && code == OverloadedCode)
      && (early == NoGateway ==> status == Failed && code == GatewayUnavailable)
    case _ => false
  }

  /** Checks as they are stored: the first 32, with their names and statuses cut to their columns. */
  predicate StoredChecks(stored: seq<Check>, checks: seq<Check>) {
    && |stored| == (if |checks| <= 32 then |checks| else 32)
    && forall i :: 0 <= i < |stored| ==>
         CutTo(stored[i].name, checks[i].name, 128) && CutTo(stored[i].status, checks[i].status, 32)
  }

  /** An ending that meets an active operation ends it as its cause says; a result brings its checks with it,
      the other endings leave the summary. Every other operation stays as it is. */
  lemma EndingIsStored(s: Store, step: Step, t: Store)
    requires Next(s, step, t) && (step.SaveResult? || step.SaveError? || step.SaveCancel? || step.EndEarly?)
    requires step.pk in s.rows && (step.EndEarly? || s.rows[step.pk].status in {Pending, Running})
    ensures t.rows == s.rows[step.pk := t.rows[step.pk]] && t.next == s.next
    ensures var before, after := s.rows[step.pk], t.rows[step.pk];
      && Causes(step, after.status, after.code)
      && after.project == before.project && after.created == before.created
      && if step.SaveResult? then after.summary.Checks? && StoredChecks(after.summary.checks, step.checks)
         else after.summary == before.summary
  {
  }

  /** Until it ends, an operation is pending and then runs, and shows the phase last reported, cut to 64
      characters. */
  lemma ProgressIsStored(s: Store, step: Step, t: Store)
    requires Next(s, step, t) && (step.SetRunning? || step.SaveProgress?)
    requires step.pk in s.rows && s.rows[step.pk].status in {Pending, Running}
    ensures t.rows == s.rows[step.pk := t.rows[step.pk]] && t.next == s.next
    ensures var before, after := s.rows[step.pk], t.rows[step.pk];
      if step.SetRunning? then after == before.(status := Running)
      else after == before.(summary := after.summary) && after.summary.Progress?
           && CutTo(after.summary.phase, step.phase, 64)
  {
  }

  /** Over every run: an operation that has ended was ended by a step that causes just this status and this
      code; nothing makes up an ending. */
  lemma {:induction false} EveryEndingHasItsCause(stores: seq<Store>, steps: seq<Step>, i: nat, pk: nat)
    returns (k: nat)
    requires IsRun(stores, steps) && i < |stores|
    requires pk in stores[i].rows && Terminal(stores[i].rows[pk].status)
    ensures k < i && Concerns(steps[k], pk) && Causes(steps[k], stores[i].rows[pk].status, stores[i].rows[pk].code)
  {
    assert i > 0;
    RunInv(stores, steps, i - 1);
    assert Next(stores[i - 1], steps[i - 1], stores[i]);
    assert Fit(stores[i - 1], pk);
    if pk in stores[i - 1].rows && stores[i - 1].rows[pk] == stores[i].rows[pk] {
      k := EveryEndingHasItsCause(stores, steps, i - 1, pk);
    } else {
      EndedNow(stores[i - 1], steps[i - 1], stores[i], pk);
      k := i - 1;
    }
  }

  /** The step ends this operation, or tries to. */
  predicate Concerns(step: Step, pk: nat) {
    (step.SaveResult? || step.SaveError? || step.SaveCancel? || step.EndEarly?) && step.pk == pk
  }

  lemma EndedNow(s: Store, step: Step, t: Store, pk: nat)
    requires Inv(s) && Next(s, step, t) && pk in t.rows && Terminal(t.rows[pk].status)
    requires pk !in s.rows || s.rows[pk] != t.rows[pk]
    ensures Concerns(step, pk) && Causes(step, t.rows[pk].status, t.rows[pk].code)
  {
    assert Fit(s, pk);
    if Concerns(step, pk) && pk in s.rows { EndingIsStored(s, step, t); }
  }

  /** Before dispatch it is otherwise: a cancellation that was stored can be overwritten. */
  lemma EarlyEndOverwritesCancel() returns (stores: seq<Store>, steps: seq<Step>)
    ensures IsRun(stores, steps) && |stores| == 4
    ensures 0 in stores[2].rows && stores[2].rows[0].status == Cancelled
    ensures 0 in stores[3].rows && stores[3].rows[0].status == Offline
  {
    var row := Row(0, 0, Pending, Empty, NoCode);
    steps := [Create(0, 0), SaveCancel(0, Accepted), EndEarly(0, AgentIsOffline)];
    stores := [Store(map[], 0, {}, {}), Store(map[0 := row], 1, {}, {}),
               Store(map[0 := row.(status := Cancelled)], 1, {}, {}),
               Store(map[0 := row.(status := Offline, code := AgentOffline)], 1, {}, {})];
    assert Next(stores[0], steps[0], stores[1]);
    assert Next(stores[1], steps[1], stores[2]);
    assert Next(stores[2], steps[2], stores[3]);
  }

  // ---------------------------------------------------------------------------------------------
  // Trimming
  // ---------------------------------------------------------------------------------------------

  /** Only terminal rows are ever deleted, however long after the choice the deletion comes. */
  lemma OnlyTerminalDeleted(stores: seq<Store>, steps: seq<Step>, i: nat, pk: nat)
    requires IsRun(stores, steps) && i < |steps| && pk in stores[i].rows && pk !in stores[i + 1].rows
    ensures steps[i].DeleteStale? && Terminal(stores[i].rows[pk].status)
  {
    RunInv(stores, steps, i);
    assert Next(stores[i], steps[i], stores[i + 1]);
    assert Fit(stores[i], pk);
  }

  function TerminalOf(rows: map<nat, Row>, project: nat): set<nat> {
    set pk | pk in rows && rows[pk].project == project && Terminal(rows[pk].status)
  }

  lemma {:induction false} DistinctCount(order: seq<nat>, ids: set<nat>)
    requires forall i, j :: 0 <= i < j < |order| ==> order[i] != order[j]
    requires forall pk :: pk in order <==> pk in ids
    ensures |ids| == |order|
  {
    if order == [] {
      assert ids == {};
    } else {
      var last := order[|order| - 1];
      forall pk ensures pk in order[..|order| - 1] <==> pk in ids - {last} {
        if pk in order && pk != last {
          var i :| 0 <= i < |order| && order[i] == pk;
          assert order[..|order| - 1][i] == pk;
        }
      }
      DistinctCount(order[..|order| - 1], ids - {last});
    }
  }

  /** A trim keeps exactly the 200 newest terminal rows of its project, or all if there are no more, and
      touches nothing else. */
  lemma TrimKeepsNewest(rows: map<nat, Row>, project: nat, order: seq<nat>)
    requires History(rows, project, order)
    ensures var left := rows - Stale(order);
      var before := TerminalOf(rows, project); var kept := TerminalOf(left, project);
      && |kept| == (if |before| <= MAX_HISTORY then |before| else MAX_HISTORY)
      && (forall pk, gone :: pk in kept && gone in before && gone !in kept ==> rows[pk].created >= rows[gone].created)
      && (forall pk :: pk in rows && pk !in before ==> pk in left && left[pk] == rows[pk])
      && (forall pk :: pk in kept ==> left[pk] == rows[pk])
  {
    var left := rows - Stale(order);
    var kept := TerminalOf(left, project);
    var newest := FirstOf(order, MAX_HISTORY);
    forall pk ensures pk in newest <==> pk in kept {
      if pk in order {
        var i :| 0 <= i < |order| && order[i] == pk;
        if i < MAX_HISTORY {
          assert newest[i] == pk;
          assert pk !in Stale(order);
        } else {
          assert pk in Stale(order);
        }
      }
    }
    DistinctCount(order, TerminalOf(rows, project));
    DistinctCount(newest, kept);
    forall pk, gone | pk in kept && gone in TerminalOf(rows, project) && gone !in kept
      ensures rows[pk].created >= rows[gone].created
    {
      var i :| 0 <= i < |newest| && newest[i] == pk;
      var j :| 0 <= j < |order| && order[j] == gone;
      assert order[i] == pk;
    }
  }

  // ---------------------------------------------------------------------------------------------
  // Stored verdicts
  // ---------------------------------------------------------------------------------------------

  /** The status the agent sends for a verdict. */
  function Sent(v: Diagnostics.Verdict): string {
    match v
    case Healthy => "healthy"
    case Unhealthy => "unhealthy"
    case Canceled => "canceled"
  }

  /** Only the literal "succeeded" is stored as success, which no verdict of the agent's run is: all of them
      are stored as failed, the healthy one under the code HEALTHY. */
  lemma VerdictsAreStoredAsFailures(row: Row, pk: nat, v: Diagnostics.Verdict, checks: seq<Check>)
    requires !Terminal(row.status)
    ensures forall status :: Mapped(status) == Succeeded <==> status == "succeeded"
    ensures var stored := Guarded(row, SaveResult(pk, Sent(v), checks));
      stored.status == Failed && stored.code == Reported(Sent(v)) && stored.summary == Checks(Kept(checks))
  {
  }

  // ---------------------------------------------------------------------------------------------
  // The service
  // ---------------------------------------------------------------------------------------------

  /** What the runtime answers when an operation is handed over. */
  datatype HandOver = Taken | Full | Unavailable

  class OperationsService {
    var rows: map<nat, Row>
    var next: nat
    ghost var dispatched: set<nat>
    ghost var selected: set<nat>

    ghost function View(): Store
      reads this
    {
      Store(rows, next, dispatched, selected)
    }

    ghost predicate Valid()
      reads this
    {
      Inv(View())
    }

    constructor ()
      ensures Valid() && View() == Store(map[], 0, {}, {})
    {
      rows, next, dispatched, selected := map[], 0, {}, {};
    }

    /** Replaces the row if it is there and active. */
    method UpdateActive(pk: nat, status: Status, summary: Summary, code: Code)
      modifies this`rows
      ensures rows == if pk in old(rows) && !Terminal(old(rows)[pk].status)
                      then old(rows)[pk := old(rows)[pk].(status := status, summary := summary, code := code)]
                      else old(rows)
    {
      if pk in rows && !Terminal(rows[pk].status) {
        rows := rows[pk := rows[pk].(status := status, summary := summary, code := code)];
      }
    }

    method SetRunning(pk: nat)
      requires Valid()
      modifies this`rows
      ensures Valid() && Next(old(View()), Step.SetRunning(pk), View())
    {
      if pk in rows && rows[pk].status == Pending {
        rows := rows[pk := rows[pk].(status := Running)];
      }
      assert Next(old(View()), Step.SetRunning(pk), View());
      NextInv(old(View()), Step.SetRunning(pk), View());
    }

    method SaveProgress(pk: nat, phase: string)
      requires Valid()
      modifies this`rows
      ensures Valid() && Next(old(View()), Step.SaveProgress(pk, phase), View())
    {
      if pk in rows { UpdateActive(pk, rows[pk].status, Progress(FirstOf(phase, 64)), rows[pk].code); }
      assert Next(old(View()), Step.SaveProgress(pk, phase), View());
      NextInv(old(View()), Step.SaveProgress(pk, phase), View());
    }

    method SaveError(pk: nat, ending: Ending)
      requires Valid()
      modifies this`rows
      ensures Valid() && Next(old(View()), Step.SaveError(pk, ending), View())
    {
      if pk in rows {
        var status, code;
        match ending {
          case TimesOut => status, code := Timeout, DiagnosticTimeout;
          case AgentMissing => status, code := Offline, AgentOffline;
          case NoRoom => status, code := Overloaded, OverloadedCode;
          case Crashes => status, code := Failed, DiagnosticFailed;
        }
        UpdateActive(pk, status, rows[pk].summary, code);
      }
      assert Next(old(View()), Step.SaveError(pk, ending), View());
      NextInv(old(View()), Step.SaveError(pk, ending), View());
    }

    method SaveResult(pk: nat, status: string, checks: seq<Check>)
      requires Valid()
      modifies this`rows
      ensures Valid() && Next(old(View()), Step.SaveResult(pk, status, checks), View())
    {
      var mapped;
      if status == "succeeded" {
        mapped := Succeeded;
      } else if status == "cancelled" {
        mapped := Cancelled;
      } else if status == "disconnected" {
        mapped := Disconnected;
      } else {
        mapped := Failed;
      }
      var code := if mapped == Succeeded then NoCode else Reported(FirstOf(status, 32));
      UpdateActive(pk, mapped, Checks(Kept(checks)), code);
      assert Next(old(View()), Step.SaveResult(pk, status, checks), View());
      NextInv(old(View()), Step.SaveResult(pk, status, checks), View());
    }

    /** A terminal operation is left alone and the agent is not asked; `outcome` is what asking gives. */
    method Cancel(pk: nat, outcome: CancelOutcome) returns (asked: bool)
      requires Valid() && pk in rows
      modifies this`rows
      ensures Valid() && Next(old(View()), SaveCancel(pk, outcome), View())
      ensures asked <==> !Terminal(old(rows)[pk].status)
    {
      asked := !Terminal(rows[pk].status);
      if asked {
        var status, code;
        match outcome {
          case TimedOut => status, code := Failed, CancelTimeout;
          case Broken => status, code := Failed, CancelFailed;
          case Accepted => status, code := Cancelled, NoCode;
          case Refused => status, code := Disconnected, CancelUnavailable;
        }
        UpdateActive(pk, status, rows[pk].summary, code);
      }
      assert Next(old(View()), SaveCancel(pk, outcome), View());
      NextInv(old(View()), SaveCancel(pk, outcome), View());
    }

    /** The terminal rows of a project, newest first; equally new ones in any order. */
    method NewestFirst(project: nat) returns (order: seq<nat>)
      ensures History(rows, project, order)
    {
      order := [];
      var left := TerminalOf(rows, project);
      while left != {}
        invariant left <= TerminalOf(rows, project)
        invariant Listing(rows, TerminalOf(rows, project), order, left)
        decreases |left|
      {
        ghost var one := SomeNewest(rows, left);
        var newest :| newest in left && Newest(rows, left, newest);
        ListingExtended(rows, TerminalOf(rows, project), order, left, newest);
        left := left - {newest};
        order := order + [newest];
      }
    }

    /** Deletes all but the 200 newest terminal rows of the project. */
    method TrimHistory(project: nat) returns (ghost order: seq<nat>)
      requires Valid()
      modifies this`rows, this`selected
      ensures Valid() && History(old(rows), project, order) && rows == old(rows) - Stale(order)
      ensures var mid := old(View()).(selected := old(selected) + Stale(order));
        Next(old(View()), SelectStale(project, order), mid) && Next(mid, DeleteStale(Stale(order)), View())
    {
      var newestFirst := NewestFirst(project);
      order := newestFirst;
      selected := selected + Stale(order);
      NextInv(old(View()), SelectStale(project, order), View());
      ghost var mid := View();
      var ids := set i | MAX_HISTORY <= i < |newestFirst| :: newestFirst[i];
      if ids != {} { rows := rows - ids; }
      assert rows == old(rows) - Stale(order);
      NextInv(mid, DeleteStale(Stale(order)), View());
    }

    /** Stores an operation, hands it over unless its agent is offline or the runtime refuses, and trims. */
    method Start(project: nat, created: int, connected: bool, handOver: HandOver)
      returns (pk: nat, ghost order: seq<nat>)
      requires Valid()
      modifies this
      ensures Valid() && pk == old(next) && next == pk + 1
      ensures dispatched == old(dispatched) + if connected && handOver == Taken then {pk} else {}
      ensures var stored := old(rows)[pk := StartedRow(project, created, connected, handOver)];
        History(stored, project, order) && rows == stored - Stale(order)
    {
      pk := next;
      rows := rows[pk := Row(project, created, Pending, Empty, NoCode)];
      next := next + 1;
      NextInv(old(View()), Create(project, created), View());
      if !connected {
        EarlyKeepsInv(View(), pk, AgentIsOffline);
        rows := rows[pk := rows[pk].(status := Offline, code := AgentOffline)];
      } else if handOver == Taken {
        NextInv(View(), Dispatch(pk), View().(dispatched := dispatched + {pk}));
        dispatched := dispatched + {pk};
      } else {
        var overloaded := handOver == Full;
        EarlyKeepsInv(View(), pk, if overloaded then NoCapacity else NoGateway);
        rows := rows[pk := rows[pk].(status := if overloaded then Overloaded else Failed,
                                     code := if overloaded then OverloadedCode else GatewayUnavailable)];
      }
      assert rows == old(rows)[pk := StartedRow(project, created, connected, handOver)];
      order := TrimHistory(project);
    }
  }

  function StartedRow(project: nat, created: int, connected: bool, handOver: HandOver): Row {
    var row := Row(project, created, Pending, Empty, NoCode);
    if !connected then EndedEarly(row, AgentIsOffline)
    else
      match handOver
      case Taken => row
      case Full => EndedEarly(row, NoCapacity)
      case Unavailable => EndedEarly(row, NoGateway)
  }

  /** An operation that was handed over waits as pending, with nothing stored yet; one that was not has ended
      already, as its cause says. */
  lemma StartedRowTells(project: nat, created: int, connected: bool, handOver: HandOver)
    ensures var row := StartedRow(project, created, connected, handOver);
      && row.project == project && row.created == created && row.summary == Empty
      && (row.status == Pending <==> connected && handOver == Taken)
      && (row.status == Pending ==> row.code == NoCode)
      && (!connected ==> Causes(EndEarly(0, AgentIsOffline), row.status, row.code))
      && (connected && handOver == Full ==> Causes(EndEarly(0, NoCapacity), row.status, row.code))
      && (connected && handOver == Unavailable ==> Causes(EndEarly(0, NoGateway), row.status, row.code))
  {
  }

  lemma EarlyKeepsInv(s: Store, pk: nat, early: Early)
    requires Inv(s) && pk in s.rows
    ensures Inv(s.(rows := s.rows[pk := EndedEarly(s.rows[pk], early)]))
  {
    var t := s.(rows := s.rows[pk := EndedEarly(s.rows[pk], early)]);
    forall k ensures Fit(t, k) { assert Fit(s, k); }
  }

  predicate Newest(rows: map<nat, Row>, ids: set<nat>, newest: nat)
    requires forall pk :: pk in ids ==> pk in rows
  {
    newest in ids && forall pk :: pk in ids ==> rows[newest].created >= rows[pk].created
  }

  /** The rows listed so far, newest first, none of them older than one that is left. */
  ghost predicate Listing(rows: map<nat, Row>, all: set<nat>, order: seq<nat>, left: set<nat>) {
    && (forall pk :: pk in all ==> pk in rows) && left <= all
    && (forall pk :: pk in order <==> pk in all && pk !in left)
    && (forall i :: 0 <= i < |order| ==> order[i] in rows)
    && (forall i, j :: 0 <= i < j < |order|
          ==> order[i] != order[j] && rows[order[i]].created >= rows[order[j]].created)
    && (forall i, pk :: 0 <= i < |order| && pk in left ==> rows[order[i]].created >= rows[pk].created)
  }

  lemma ListingExtended(rows: map<nat, Row>, all: set<nat>, order: seq<nat>, left: set<nat>, newest: nat)
    requires Listing(rows, all, order, left) && newest in left && Newest(rows, left, newest)
    ensures Listing(rows, all, order + [newest], left - {newest})
  {
    var more, rest := order + [newest], left - {newest};
    assert forall i :: 0 <= i < |order| ==> more[i] == order[i] && order[i] !in left;
    forall pk ensures pk in more <==> pk in all && pk !in rest {
      if pk in order { assert pk in more; }
      if pk == newest { assert more[|order|] == pk; }
    }
  }

  lemma NewestOfTwo(rows: map<nat, Row>, ids: set<nat>, some: nat, rest: nat)
    requires some in ids && forall pk :: pk in ids ==> pk in rows
    requires Newest(rows, ids - {some}, rest)
    ensures Newest(rows, ids, if rows[some].created >= rows[rest].created then some else rest)
  {
    forall pk | pk in ids ensures rows[rest].created >= rows[pk].created || pk == some {
      assert pk == some || pk in ids - {some};
    }
  }

  lemma {:induction false} SomeNewest(rows: map<nat, Row>, ids: set<nat>) returns (newest: nat)
    requires ids != {} && forall pk :: pk in ids ==> pk in rows
    ensures Newest(rows, ids, newest)
    decreases |ids|
  {
    newest :| newest in ids;
    if ids - {newest} != {} {
      var rest := SomeNewest(rows, ids - {newest});
      NewestOfTwo(rows, ids, newest, rest);
      if rows[newest].created < rows[rest].created { newest := rest; }
    } else {
      assert forall pk :: pk in ids ==> pk == newest || pk in ids - {newest};
    }
  }
}
