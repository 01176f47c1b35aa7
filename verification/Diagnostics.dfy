/** The agent's diagnostics of a running deployment: bounded capture of command output, the comparison of
    declared with running services, and the verdict. */
module Diagnostics {
  import Text

  const MAX_CAPTURED: nat := 8192

  type Byte = x: int | 0 <= x < 256

  // ---------------------------------------------------------------------------------------------
  // Captured output
  // ---------------------------------------------------------------------------------------------

  function First<T>(s: seq<T>, n: nat): seq<T> {
    if |s| <= n then s else s[..n]
  }

  function Written(b: seq<Byte>, p: seq<Byte>): seq<Byte> {
    if |b| >= MAX_CAPTURED then b else b + First(p, MAX_CAPTURED - |b|)
  }

  /** The buffer after a series of writes. */
  function WrittenAll(chunks: seq<seq<Byte>>): seq<Byte> {
    if chunks == [] then [] else Written(WrittenAll(chunks[..|chunks| - 1]), chunks[|chunks| - 1])
  }

  function Concat(chunks: seq<seq<Byte>>): seq<Byte> {
    if chunks == [] then [] else Concat(chunks[..|chunks| - 1]) + chunks[|chunks| - 1]
  }

  /** However the output is split into writes, the buffer holds its first 8192 bytes. */
  lemma {:induction false} CaptureIsPrefix(chunks: seq<seq<Byte>>)
    ensures WrittenAll(chunks) == First(Concat(chunks), MAX_CAPTURED)
  {
    if chunks != [] { CaptureIsPrefix(chunks[..|chunks| - 1]); }
  }

  class CappedBuffer {
    var b: seq<Byte>

    constructor ()
      ensures b == []
    {
      b := [];
    }

    /** Claims to have written everything, so the command never sees a short write. */
    method Write(p: seq<Byte>) returns (n: nat)
      modifies this
      ensures b == Written(old(b), p) && n == |p|
    {
      var remaining := MAX_CAPTURED - |b|;
      if remaining > 0 {
        if |p| > remaining { b := b + p[..remaining]; } else { b := b + p; }
      }
      n := |p|;
    }
  }

  // ---------------------------------------------------------------------------------------------
  // Order of strings
  // ---------------------------------------------------------------------------------------------

  predicate Less(a: string, b: string) {
    b != [] && (a == [] || a[0] < b[0] || (a[0] == b[0] && Less(a[1..], b[1..])))
  }

  lemma {:induction false} LessTotal(a: string, b: string)
    ensures a == b || Less(a, b) || Less(b, a)
  {
    if a != [] && b != [] && a[0] == b[0] {
      LessTotal(a[1..], b[1..]);
      if a[1..] == b[1..] { assert a == [a[0]] + a[1..] && b == [b[0]] + b[1..]; }
    }
  }

  lemma {:induction false} LessStrict(a: string, b: string)
    ensures Less(a, b) ==> a != b && !Less(b, a)
  {
    if a != [] && b != [] { LessStrict(a[1..], b[1..]); }
  }

  lemma {:induction false} LessTransitive(a: string, b: string, c: string)
    requires Less(a, b) && Less(b, c)
    ensures Less(a, c)
  {
    if a != [] && a[0] == b[0] == c[0] { LessTransitive(a[1..], b[1..], c[1..]); }
  }

  predicate Ascending(s: seq<string>) {
    forall i, j :: 0 <= i < j < |s| ==> Less(s[i], s[j])
  }

  /** Strictly ascending lists are equal exactly if they have the same elements. */
  lemma {:induction false} AscendingEqual(a: seq<string>, b: seq<string>)
    requires Ascending(a) && Ascending(b)
    ensures a == b <==> (forall x :: x in a <==> x in b)
  {
    if forall x :: x in a <==> x in b {
      if a == [] {
        assert b == [] || b[0] in a;
      } else {
        assert a[0] in b;
        SameFirst(a, b);
        forall x ensures x in a[1..] <==> x in b[1..] {
          SameRest(a, b, x);
          SameRest(b, a, x);
        }
        AscendingEqual(a[1..], b[1..]);
        assert a == [a[0]] + a[1..] && b == [b[0]] + b[1..];
      }
    }
  }

  lemma SameFirst(a: seq<string>, b: seq<string>)
    requires Ascending(a) && Ascending(b) && a != [] && b != []
    requires forall x :: x in a <==> x in b
    ensures a[0] == b[0]
  {
    assert a[0] in b && b[0] in a;
    var i :| 0 <= i < |b| && b[i] == a[0];
    var j :| 0 <= j < |a| && a[j] == b[0];
    LessStrict(a[0], b[0]);
  }

  lemma SameRest(a: seq<string>, b: seq<string>, x: string)
    requires Ascending(a) && a != [] && b != [] && a[0] == b[0]
    requires forall y :: y in a <==> y in b
    ensures x in a[1..] ==> x in b[1..]
  {
    if x in a[1..] {
      var i :| 0 <= i < |a[1..]| && a[1..][i] == x;
      LessStrict(a[0], a[i + 1]);
      assert x in a && x in b;
      var k :| 0 <= k < |b| && b[k] == x;
      assert b[1..][k - 1] == x;
    }
  }

  // ---------------------------------------------------------------------------------------------
  // Service names
  // ---------------------------------------------------------------------------------------------

  predicate Space(c: char) {
    c as int in {9, 10, 11, 12, 13, 32, 0x85, 0xA0, 0x1680, 0x2028, 0x2029, 0x202F, 0x205F, 0x3000}
    || 0x2000 <= c as int <= 0x200A
  }

  function Trim(s: string): string {
    Text.TrimRight(Text.TrimLeft(s, Space), Space)
  }

  /** One to eighty of [A-Za-z0-9_.+-]. */
  predicate Safe(s: string) {
    1 <= |s| <= 80 && forall i :: 0 <= i < |s| ==>
      'A' <= s[i] <= 'Z' || 'a' <= s[i] <= 'z' || '0' <= s[i] <= '9' || s[i] in "_.+-"
  }

  function Split(s: string, sep: char): (parts: seq<string>)
    ensures |parts| > 0
  {
    if s == [] then [[]]
    else
      var rest := Split(s[1..], sep);
      if s[0] == sep then [[]] + rest else [[s[0]] + rest[0]] + rest[1..]
  }

  function Join(parts: seq<string>, sep: char): string
    requires |parts| > 0
  {
    if |parts| == 1 then parts[0] else parts[0] + [sep] + Join(parts[1..], sep)
  }

  /** Splitting loses nothing and leaves no separator. */
  lemma {:induction false} SplitJoins(s: string, sep: char)
    ensures Join(Split(s, sep), sep) == s
    ensures forall i :: 0 <= i < |Split(s, sep)| ==> sep !in Split(s, sep)[i]
  {
    if s != [] {
      SplitJoins(s[1..], sep);
      var rest := Split(s[1..], sep);
      if s[0] == sep {
        assert ([[]] + rest)[1..] == rest;
      } else {
        assert ([[s[0]] + rest[0]] + rest[1..])[1..] == rest[1..];
      }
    }
  }

  /** The usable names of an output, one per line. */
  function Names(raw: string): set<string> {
    set i | 0 <= i < |Split(raw, '\n')| && Safe(Trim(Split(raw, '\n')[i])) :: Trim(Split(raw, '\n')[i])
  }

  function Insert(s: seq<string>, x: string): seq<string> {
    if s == [] || Less(x, s[0]) then [x] + s else [s[0]] + Insert(s[1..], x)
  }

  function Sort(s: seq<string>): seq<string> {
    if s == [] then [] else Insert(Sort(s[1..]), s[0])
  }

  lemma {:induction false} InsertAscends(s: seq<string>, x: string)
    requires Ascending(s) && x !in s
    ensures Ascending(Insert(s, x)) && forall y :: y in Insert(s, x) <==> y == x || y in s
  {
    if s == [] {
    } else if Less(x, s[0]) {
      forall j | 0 <= j < |s| ensures Less(x, s[j]) { if j > 0 { LessTransitive(x, s[0], s[j]); } }
    } else {
      LessTotal(x, s[0]);
      InsertAscends(s[1..], x);
      var t := Insert(s[1..], x);
      assert s == [s[0]] + s[1..];
      forall y | y in t ensures Less(s[0], y) {
        if y != x { var j :| 0 <= j < |s[1..]| && s[1..][j] == y; }
      }
    }
  }

  lemma {:induction false} SortAscends(s: seq<string>)
    requires forall i, j :: 0 <= i < j < |s| ==> s[i] != s[j]
    ensures Ascending(Sort(s)) && forall y :: y in Sort(s) <==> y in s
  {
    if s != [] {
      SortAscends(s[1..]);
      assert s == [s[0]] + s[1..];
      InsertAscends(Sort(s[1..]), s[0]);
    }
  }

  method SafeLines(raw: string) returns (seen: set<string>)
    ensures seen == Names(raw)
  {
    var lines := Split(raw, '\n');
    seen := {};
    var i := 0;
    while i < |lines|
      invariant 0 <= i <= |lines|
      invariant seen == set k | 0 <= k < i && Safe(Trim(lines[k])) :: Trim(lines[k])
    {
      var value := Trim(lines[i]);
      if value != "" && Safe(value) { seen := seen + {value}; }
      i := i + 1;
    }
  }

  /** The names of an output, each once, in ascending order. */
  method ParseServices(raw: string) returns (values: seq<string>)
    ensures Ascending(values) && forall x :: x in values <==> x in Names(raw)
  {
    var seen := SafeLines(raw);
    var found := [];
    var left := seen;
    while left != {}
      invariant left <= seen
      invariant forall x :: x in found <==> x in seen && x !in left
      invariant forall a, b :: 0 <= a < b < |found| ==> found[a] != found[b]
      decreases |left|
    {
      var value :| value in left;
      left := left - {value};
      found := found + [value];
    }
    SortAscends(found);
    values := Sort(found);
  }

  method SameSet(a: seq<string>, b: seq<string>) returns (same: bool)
    ensures same <==> a == b
  {
    if |a| != |b| { return false; }
    var i := 0;
    while i < |a|
      invariant 0 <= i <= |a| && a[..i] == b[..i]
    {
      if a[i] != b[i] { return false; }
      i := i + 1;
    }
    assert a == a[..i] && b == b[..i];
    same := true;
  }

  method Contains(values: seq<string>, wanted: string) returns (found: bool)
    ensures found <==> wanted in values
  {
    var i := 0;
    while i < |values|
      invariant 0 <= i <= |values| && wanted !in values[..i]
    {
      if values[i] == wanted { return true; }
      i := i + 1;
    }
    found := false;
  }

  // ---------------------------------------------------------------------------------------------
  // The verdict
  // ---------------------------------------------------------------------------------------------

  datatype CheckName =
    | ReleaseRoot | ComposeFile | ActiveRelease | ComposeServices | DjangoCheck | Database
    | PendingMigrations | Versions | Celery | CeleryBeat

  datatype Check = Check(name: CheckName, pass: bool)
  datatype Verdict = Healthy | Unhealthy | Canceled
  datatype Phase = ReleasePhase | ComposePhase | DjangoPhase | DatabasePhase | MigrationPhase | VersionPhase
  datatype Output = Output(text: string, ok: bool)

  /** What the run meets: whether the paths resolve, which progress frames can be sent, after which phases
      the cancellation is seen, and what the commands print. */
  datatype Environment = Environment(
    rootOk: bool,
    composeFileOk: bool,
    emits: set<Phase>,
    canceled: set<Phase>,
    declared: Output,
    running: Output,
    djangoOk: bool,
    database: Output,
    migrationsOk: bool,
    versions: Output)

  predicate Started(e: Environment) {
    e.rootOk && e.composeFileOk
  }

  predicate Goes(e: Environment, p: Phase) {
    p in e.emits && (p == ReleasePhase || p !in e.canceled)
  }

  predicate Interrupted(e: Environment) {
    !(Goes(e, ReleasePhase) && Goes(e, ComposePhase) && Goes(e, DjangoPhase)
      && Goes(e, DatabasePhase) && Goes(e, MigrationPhase) && Goes(e, VersionPhase))
  }

  const PHASES := {ReleasePhase, ComposePhase, DjangoPhase, DatabasePhase, MigrationPhase, VersionPhase}

  /** A run goes to its end if and only if every phase can be announced and no cancellation is seen after the
      commands of one; there are none in the first. */
  lemma InterruptedExactlyWhen(e: Environment)
    ensures !Interrupted(e) <==> PHASES <= e.emits && e.canceled <= {ReleasePhase}
  {
    if !Interrupted(e) {
      forall p | p in e.canceled ensures p == ReleasePhase {
        assert Goes(e, p) by {
          match p
          case ReleasePhase =>
          case ComposePhase =>
          case DjangoPhase =>
          case DatabasePhase =>
          case MigrationPhase =>
          case VersionPhase =>
        }
      }
    }
  }

  /** How many checks are made before the first phase that does not go. */
  function Reached(e: Environment): nat {
    if !Goes(e, ReleasePhase) then 0 else if !Goes(e, ComposePhase) then 1 else if !Goes(e, DjangoPhase) then 2
    else if !Goes(e, DatabasePhase) then 3 else if !Goes(e, MigrationPhase) then 4 else 5
  }

  predicate ServicesPass(e: Environment) {
    e.declared.ok && e.running.ok && Names(e.declared.text) != {} && Names(e.declared.text) == Names(e.running.text)
  }

  predicate DatabasePass(e: Environment) {
    e.database.ok && Safe(Trim(e.database.text))
  }

  predicate VersionsPass(e: Environment) {
    var parts := Split(Trim(e.versions.text), '|');
    e.versions.ok && |parts| == 2 && Safe(parts[0]) && Safe(parts[1])
  }

  function WorkerCheck(e: Environment, name: CheckName, service: string): seq<Check> {
    if service in Names(e.declared.text) then [Check(name, service in Names(e.running.text))] else []
  }

  function SixChecks(services: bool, django: bool, database: bool, migrations: bool, versions: bool): seq<Check> {
    [Check(ActiveRelease, true), Check(ComposeServices, services), Check(DjangoCheck, django),
     Check(Database, database), Check(PendingMigrations, migrations), Check(Versions, versions)]
  }

  function CommandChecks(e: Environment): seq<Check> {
    SixChecks(ServicesPass(e), e.djangoOk, DatabasePass(e), e.migrationsOk, VersionsPass(e))
  }

  /** The checks of a run that is not interrupted. */
  function Report(e: Environment): seq<Check> {
    CommandChecks(e) + WorkerCheck(e, Celery, "celery") + WorkerCheck(e, CeleryBeat, "celery_beat")
  }

  method CheckServices(e: Environment) returns (expected: seq<string>, running: seq<string>, check: Check)
    ensures forall x :: x in expected <==> x in Names(e.declared.text)
    ensures forall x :: x in running <==> x in Names(e.running.text)
    ensures check == Check(ComposeServices, ServicesPass(e))
  {
    expected := ParseServices(e.declared.text);
    running := ParseServices(e.running.text);
    var same := SameSet(expected, running);
    AscendingEqual(expected, running);
    assert |expected| == 0 <==> Names(e.declared.text) == {} by {
      if |expected| > 0 { assert expected[0] in expected; }
    }
    assert same <==> Names(e.declared.text) == Names(e.running.text);
    check := Check(ComposeServices, e.declared.ok && e.running.ok && |expected| != 0 && same);
  }

  method CheckDatabase(e: Environment) returns (check: Check)
    ensures check == Check(Database, DatabasePass(e))
  {
    var vendor := Trim(e.database.text);
    check := Check(Database, e.database.ok && Safe(vendor));
  }

  method CheckVersions(e: Environment) returns (check: Check)
    ensures check == Check(Versions, VersionsPass(e))
  {
    var parts := Split(Trim(e.versions.text), '|');
    check := Check(Versions, e.versions.ok && |parts| == 2 && Safe(parts[0]) && Safe(parts[1]));
  }

  method AppendWorker(checks: seq<Check>, expected: seq<string>, running: seq<string>, name: CheckName, service: string)
    returns (extended: seq<Check>)
    ensures extended == checks + if service in expected then [Check(name, service in running)] else []
  {
    extended := checks;
    var configured := Contains(expected, service);
    if configured {
      var up := Contains(running, service);
      extended := extended + [Check(name, up)];
    }
  }

  /** Whether any check failed. */
  method Conclude(checks: seq<Check>) returns (verdict: Verdict)
    ensures verdict == if forall i :: 0 <= i < |checks| ==> checks[i].pass then Healthy else Unhealthy
  {
    var i := 0;
    while i < |checks|
      invariant 0 <= i <= |checks| && forall k :: 0 <= k < i ==> checks[k].pass
    {
      if !checks[i].pass { return Unhealthy; }
      i := i + 1;
    }
    verdict := Healthy;
  }

  /** The last three of the phases below. */
  method RunInside(e: Environment) returns (checks: seq<Check>, finished: bool)
    ensures finished <==> Goes(e, DatabasePhase) && Goes(e, MigrationPhase) && Goes(e, VersionPhase)
    ensures checks <= CommandChecks(e)[3..] && (finished ==> checks == CommandChecks(e)[3..])
    ensures !finished && Goes(e, ReleasePhase) && Goes(e, ComposePhase) && Goes(e, DjangoPhase) ==>
              |checks| + 3 == Reached(e)
  {
    ghost var all := CommandChecks(e)[3..];
    checks, finished := [], false;
    if !Goes(e, DatabasePhase) { return; }
    var database := CheckDatabase(e);
    checks := [database];
    assert checks == all[..1];
    if !Goes(e, MigrationPhase) { return; }
    checks := checks + [Check(PendingMigrations, e.migrationsOk)];
    assert checks == all[..2];
    if !Goes(e, VersionPhase) { return; }
    var versions := CheckVersions(e);
    checks := checks + [versions];
    finished := true;
  }

  /** The phases in order, until one cannot be announced or the cancellation is seen after its commands. */
  method RunCommands(e: Environment)
    returns (checks: seq<Check>, expected: seq<string>, running: seq<string>, finished: bool)
    ensures finished <==> !Interrupted(e)
    ensures checks <= CommandChecks(e) && |checks| == if finished then 6 else Reached(e)
    ensures finished ==> forall x :: x in expected <==> x in Names(e.declared.text)
    ensures finished ==> forall x :: x in running <==> x in Names(e.running.text)
  {
    checks, expected, running, finished := [], [], [], false;
    if !Goes(e, ReleasePhase) { return; }
    checks := [Check(ActiveRelease, true)];
    if !Goes(e, ComposePhase) { return; }
    var services;
    expected, running, services := CheckServices(e);
    checks := checks + [services];
    if !Goes(e, DjangoPhase) { return; }
    checks := checks + [Check(DjangoCheck, e.djangoOk)];
    assert checks == CommandChecks(e)[..3];
    var rest;
    rest, finished := RunInside(e);
    checks := checks + rest;
  }

  /** The whole run. It is healthy exactly if it is not interrupted and the services, the Django checks,
      the database, the migrations and the versions are all well; the worker checks add nothing to that. An
      interrupted run reports the checks it made so far and is neither healthy nor unhealthy. */
  method Run(e: Environment) returns (checks: seq<Check>, verdict: Verdict)
    ensures verdict == Canceled <==> Started(e) && Interrupted(e)
    ensures verdict == Healthy <==> Started(e) && !Interrupted(e) && CommandsPass(e)
    ensures Started(e) ==> checks == if verdict == Canceled then Report(e)[..Reached(e)] else Report(e)
    ensures !Started(e) ==> checks == [Check(if !e.rootOk then ReleaseRoot else ComposeFile, false)]
    ensures verdict == Unhealthy ==> exists c :: c in checks && !c.pass
  {
    if !e.rootOk { return [Check(ReleaseRoot, false)], Unhealthy; }
    if !e.composeFileOk { return [Check(ComposeFile, false)], Unhealthy; }
    var expected, running, finished;
    checks, expected, running, finished := RunCommands(e);
    if !finished {
      assert CommandChecks(e) <= Report(e);
      assert checks == CommandChecks(e)[..Reached(e)] == Report(e)[..Reached(e)];
      return checks, Canceled;
    }
    assert checks == CommandChecks(e)[..6] == CommandChecks(e);
    checks := AppendWorker(checks, expected, running, Celery, "celery");
    checks := AppendWorker(checks, expected, running, CeleryBeat, "celery_beat");
    assert checks == Report(e);
    verdict := Conclude(checks);
    WorkersFollow(e);
  }

  predicate CommandsPass(e: Environment) {
    ServicesPass(e) && e.djangoOk && DatabasePass(e) && e.migrationsOk && VersionsPass(e)
  }

  predicate AllPass(checks: seq<Check>) {
    forall i :: 0 <= i < |checks| ==> checks[i].pass
  }

  /** A worker check can fail only if the service check fails as well. */
  lemma WorkersFollow(e: Environment)
    ensures AllPass(Report(e)) <==> CommandsPass(e)
  {
    var commands := CommandChecks(e);
    var workers := WorkerCheck(e, Celery, "celery") + WorkerCheck(e, CeleryBeat, "celery_beat");
    assert Report(e) == commands + workers;
    AllPassSix(ServicesPass(e), e.djangoOk, DatabasePass(e), e.migrationsOk, VersionsPass(e));
    if ServicesPass(e) { assert AllPass(workers); }
    if AllPass(Report(e)) {
      forall i | 0 <= i < |commands| ensures commands[i].pass { assert Report(e)[i] == commands[i]; }
    }
  }

  lemma AllPassSix(services: bool, django: bool, database: bool, migrations: bool, versions: bool)
    ensures AllPass(SixChecks(services, django, database, migrations, versions)) <==>
            services && django && database && migrations && versions
  {
    var c := SixChecks(services, django, database, migrations, versions);
    assert c[1].pass == services && c[2].pass == django && c[3].pass == database;
    assert c[4].pass == migrations && c[5].pass == versions;
  }
}
