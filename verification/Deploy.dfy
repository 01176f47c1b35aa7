/** One deployment over SSH. Every remote command, recovery and cleanup included, is a list of atomic
    effects; it may stop anywhere and still be reported as failed. */
module Deploy {
  datatype ReleaseId = ReleaseId(text: string)

  /** The names a deployment uses under the remote base directory, and everything else. */
  datatype Path =
    | Current
    | Release(id: ReleaseId)
    | Previous(id: ReleaseId)
    | Pending(id: ReleaseId)
    | Restore(id: ReleaseId)
    | Elsewhere(name: string)

  datatype Contents = Partial | Whole
  datatype Stack = Down | Mixed | Up(dir: Path)
  datatype Schema = Between | Of(id: ReleaseId)

  /** `detached` are the names elsewhere whose parent directory is missing, or is no directory. */
  datatype Host = Host(
    links: map<Path, Path>,
    dirs: map<Path, Contents>,
    detached: set<string>,
    stack: Stack,
    schema: Schema,
    sharedEnv: bool)

  datatype Effect =
    | MakeBase
    | Unlink(path: Path)
    | Symlink(path: Path, target: Path)
    | Rename(from: Path, to: Path)
    | Write(dir: Path, contents: Contents)
    | Remove(dir: Path)
    | Compose(stack: Stack)
    | Migrate(schema: Schema)

  datatype Command =
    | Upload | Capture | Start | Preflight | RunMigrations | Activate
    | RestoreOrStop | CleanupPending | CleanupPrevious | CleanupRelease

  /** What a command does to this host, and whether it can succeed on it. */
  datatype Script = Script(effects: seq<Effect>, completes: bool)

  /** The commands that fail for a reason outside the host, each after so many effects. */
  type Faults = map<Command, nat>

  datatype Outcome = Deployed | FailedAt(command: Command)

  // ---------------------------------------------------------------------------------------------
  // Links
  // ---------------------------------------------------------------------------------------------

  datatype Pointer = Nothing | Circle | Astray | To(path: Path)

  /** Follows links to the end, unless they go in a circle or to a path without a parent directory. The end
      itself need not exist. */
  function Resolve(links: map<Path, Path>, detached: set<string>, p: Path, seen: set<Path>): (end: Pointer)
    ensures end != Nothing
    decreases links.Keys - seen
  {
    if p !in links then if p.Elsewhere? && p.name in detached then Astray else To(p)
    else if p in seen then Circle
    else Resolve(links, detached, links[p], seen + {p})
  }

  predicate HasCurrent(h: Host) {
    Current in h.links || Current in h.dirs
  }

  /** What `current` stands for. */
  function Active(h: Host): Pointer {
    if HasCurrent(h) then Resolve(h.links, h.detached, Current, {}) else Nothing
  }

  /** Each path of the chain but the last is a link to the next one. */
  predicate Follows(links: map<Path, Path>, chain: seq<Path>) {
    && |chain| > 0
    && (forall i :: 0 <= i < |chain| - 1 ==> chain[i] in links && links[chain[i]] == chain[i + 1])
    && chain[|chain| - 1] !in links
  }

  lemma {:induction false} ResolveFollows(links: map<Path, Path>, detached: set<string>, p: Path, seen: set<Path>)
    returns (chain: seq<Path>)
    ensures Resolve(links, detached, p, seen) != Circle ==> Follows(links, chain) && chain[0] == p
    ensures match Resolve(links, detached, p, seen)
            case To(end) => chain != [] && chain[|chain| - 1] == end
            case Astray => chain != [] && chain[|chain| - 1].Elsewhere? && chain[|chain| - 1].name in detached
            case _ => true
    decreases links.Keys - seen
  {
    if p !in links {
      chain := [p];
    } else if p in seen {
      chain := [];
    } else {
      var rest := ResolveFollows(links, detached, links[p], seen + {p});
      chain := [p] + rest;
    }
  }

  /** `current` stands for nothing exactly if there is none, and unless it goes in a circle the links from it come
      to an end. */
  lemma ActiveComesToAnEnd(h: Host) returns (chain: seq<Path>)
    ensures Active(h) == Nothing <==> Current !in h.links && Current !in h.dirs
    ensures Active(h) != Nothing && Active(h) != Circle ==> Follows(h.links, chain) && chain[0] == Current
  {
    chain := ResolveFollows(h.links, h.detached, Current, {});
  }

  /** That end is what it stands for, so that it goes in a circle exactly if following it comes to no end. */
  lemma ActiveFollowsLinks(h: Host, chain: seq<Path>)
    requires Follows(h.links, chain) && chain[0] == Current && HasCurrent(h)
    ensures var end := chain[|chain| - 1];
      Active(h) == if end.Elsewhere? && end.name in h.detached then Astray else To(end)
  {
    FollowedToTheEnd(h.links, h.detached, chain, {}, 0);
  }

  /** Along a chain that ends no path comes twice, so that following it is never cut short. */
  lemma {:induction false} FollowedToTheEnd(links: map<Path, Path>, detached: set<string>, chain: seq<Path>,
                                            seen: set<Path>, n: nat)
    requires Follows(links, chain) && n < |chain|
    requires forall p :: p in seen ==> exists i :: 0 <= i < n && chain[i] == p
    ensures var end := chain[|chain| - 1];
      Resolve(links, detached, chain[n], seen) == if end.Elsewhere? && end.name in detached then Astray else To(end)
    decreases |chain| - n
  {
    if n < |chain| - 1 {
      if chain[n] in seen {
        var i :| 0 <= i < n && chain[i] == chain[n];
        SameTail(links, chain, i, n);
      }
      FollowedToTheEnd(links, detached, chain, seen + {chain[n]}, n + 1);
    }
  }

  /** From equal paths the same links follow, so that a chain cannot repeat one and come to an end. */
  lemma {:induction false} SameTail(links: map<Path, Path>, chain: seq<Path>, i: nat, n: nat)
    requires Follows(links, chain) && i < n < |chain| && chain[i] == chain[n]
    ensures false
    decreases |chain| - n
  {
    if n < |chain| - 1 { SameTail(links, chain, i + 1, n + 1); }
  }

  // ---------------------------------------------------------------------------------------------
  // Commands
  // ---------------------------------------------------------------------------------------------

  function Apply(h: Host, e: Effect): Host {
    match e
    case MakeBase => h
    case Unlink(p) => h.(links := h.links - {p})
    case Symlink(p, target) => h.(links := h.links[p := target])
    case Rename(a, b) => if a in h.links then h.(links := (h.links - {a})[b := h.links[a]]) else h
    case Write(d, contents) => h.(dirs := h.dirs[d := contents])
    case Remove(d) => h.(dirs := h.dirs - {d})
    case Compose(stack) => h.(stack := stack)
    case Migrate(schema) => h.(schema := schema)
  }

  /** The host after the first n effects. */
  function Run(h: Host, effects: seq<Effect>, n: nat): Host
    requires n <= |effects|
  {
    if n == 0 then h else Apply(Run(h, effects, n - 1), effects[n - 1])
  }

  function CaptureScript(h: Host, id: ReleaseId): Script {
    match Active(h)
    case Nothing => Script([Unlink(Previous(id))], true)
    case Circle => Script([], false)
    case Astray => Script([], false)
    case To(target) => Script([Unlink(Previous(id)), Symlink(Previous(id), target)], true)
  }

  function StartScript(h: Host, id: ReleaseId): Script {
    if !h.sharedEnv || Release(id) !in h.dirs then Script([], false)
    else Script([Write(Release(id), h.dirs[Release(id)]), Compose(Mixed), Compose(Up(Release(id)))], true)
  }

  /** A rename cannot replace a directory by a link. */
  function ActivateScript(h: Host, id: ReleaseId): Script {
    if Current in h.dirs then
      Script([MakeBase, Unlink(Pending(id)), Symlink(Pending(id), Release(id))], false)
    else
      Script([MakeBase, Unlink(Pending(id)), Symlink(Pending(id), Release(id)), Rename(Pending(id), Current)], true)
  }

  function RestoreScript(h: Host, id: ReleaseId, target: Path): Script {
    if Current in h.dirs then
      Script([Unlink(Restore(id)), Symlink(Restore(id), target)], false)
    else if target !in h.dirs then
      Script([Unlink(Restore(id)), Symlink(Restore(id), target), Rename(Restore(id), Current)], false)
    else
      Script([Unlink(Restore(id)), Symlink(Restore(id), target), Rename(Restore(id), Current),
              Compose(Mixed), Compose(Up(target))], true)
  }

  function StopScript(h: Host, id: ReleaseId): Script {
    var active := Current in h.links && h.links[Current] == Release(id);
    if Release(id) !in h.dirs then Script(if active then [Unlink(Current)] else [], false)
    else
      Script(if active then [Unlink(Current), Compose(Mixed), Compose(Down)] else [Compose(Mixed), Compose(Down)], true)
  }

  function ScriptOf(h: Host, id: ReleaseId, c: Command): Script {
    match c
    case Upload => Script([Write(Release(id), Partial), Write(Release(id), Whole)], true)
    case Capture => CaptureScript(h, id)
    case Start => StartScript(h, id)
    case Preflight => Script([], h.stack == Up(Release(id)))
    case RunMigrations =>
      if h.stack == Up(Release(id)) then Script([Migrate(Between), Migrate(Of(id))], true) else Script([], false)
    case Activate => ActivateScript(h, id)
    case RestoreOrStop =>
      if Previous(id) in h.links then RestoreScript(h, id, h.links[Previous(id)]) else StopScript(h, id)
    case CleanupPending => Script([Unlink(Pending(id))], true)
    case CleanupPrevious => Script([Unlink(Previous(id)), Unlink(Restore(id))], true)
    case CleanupRelease =>
      Script(if Release(id) in h.dirs then [Write(Release(id), Partial), Remove(Release(id))] else [], true)
  }

  function EffectsDone(effects: seq<Effect>, c: Command, f: Faults): (n: nat)
    ensures n <= |effects|
  {
    if c in f && f[c] < |effects| then f[c] else |effects|
  }

  /** The host after a command, whether or not it was reported as failed. */
  function Do(h: Host, id: ReleaseId, c: Command, f: Faults): Host {
    var effects := ScriptOf(h, id, c).effects;
    Run(h, effects, EffectsDone(effects, c, f))
  }

  predicate Succeeds(h: Host, id: ReleaseId, c: Command, f: Faults) {
    c !in f && ScriptOf(h, id, c).completes
  }

  // ---------------------------------------------------------------------------------------------
  // The deployment
  // ---------------------------------------------------------------------------------------------

  function Clean(h: Host, id: ReleaseId, f: Faults): Host {
    Do(Do(h, id, CleanupPrevious, f), id, CleanupRelease, f)
  }

  function RollBack(h: Host, id: ReleaseId, f: Faults): Host {
    Clean(Do(h, id, RestoreOrStop, f), id, f)
  }

  function Deactivate(h: Host, id: ReleaseId, f: Faults): Host {
    Clean(Do(Do(h, id, RestoreOrStop, f), id, CleanupPending, f), id, f)
  }

  /** The forward commands in order; the first one reported as failed starts the recovery that belongs to it. */
  function Deploy(h: Host, id: ReleaseId, f: Faults): (Host, Outcome) {
    var uploaded := Do(h, id, Upload, f);
    if !Succeeds(h, id, Upload, f) then (Do(uploaded, id, CleanupRelease, f), FailedAt(Upload))
    else
      var captured := Do(uploaded, id, Capture, f);
      if !Succeeds(uploaded, id, Capture, f) then (Do(captured, id, CleanupRelease, f), FailedAt(Capture))
      else Roll(captured, id, f)
  }

  function Roll(captured: Host, id: ReleaseId, f: Faults): (Host, Outcome) {
    var started := Do(captured, id, Start, f);
    if !Succeeds(captured, id, Start, f) then (RollBack(started, id, f), FailedAt(Start))
    else
      var checked := Do(started, id, Preflight, f);
      if !Succeeds(started, id, Preflight, f) then (RollBack(checked, id, f), FailedAt(Preflight))
      else
        var migrated := Do(checked, id, RunMigrations, f);
        if !Succeeds(checked, id, RunMigrations, f) then (RollBack(migrated, id, f), FailedAt(RunMigrations))
        else Switch(migrated, id, f)
  }

  function Switch(migrated: Host, id: ReleaseId, f: Faults): (Host, Outcome) {
    var activated := Do(migrated, id, Activate, f);
    if !Succeeds(migrated, id, Activate, f) then (Deactivate(activated, id, f), FailedAt(Activate))
    else (Do(activated, id, CleanupPrevious, f), Deployed)
  }

  /** The deployment as it is carried out: one command after the other against one host. */
  class Deployment {
    const id: ReleaseId
    const faults: Faults
    var host: Host

    constructor (release: ReleaseId, f: Faults, h: Host)
      ensures id == release && faults == f && host == h
    {
      id, faults, host := release, f, h;
    }

    method RunSsh(c: Command) returns (ok: bool)
      modifies this
      ensures host == Do(old(host), id, c, faults)
      ensures ok <==> Succeeds(old(host), id, c, faults)
    {
      var script := ScriptOf(host, id, c);
      var n := EffectsDone(script.effects, c, faults);
      var done := 0;
      while done < n
        invariant 0 <= done <= n
        invariant host == Run(old(host), script.effects, done)
      {
        host := Apply(host, script.effects[done]);
        done := done + 1;
      }
      ok := c !in faults && script.completes;
    }

    method CleanUp()
      modifies this
      ensures host == Clean(old(host), id, faults)
    {
      var _ := RunSsh(CleanupPrevious);
      var _ := RunSsh(CleanupRelease);
    }

    method RollBackStaged()
      modifies this
      ensures host == RollBack(old(host), id, faults)
    {
      var _ := RunSsh(RestoreOrStop);
      CleanUp();
    }

    method DeployProject() returns (outcome: Outcome)
      modifies this
      ensures (host, outcome) == Deploy(old(host), id, faults)
      ensures NewId(old(host), id) && outcome in {FailedAt(Upload), FailedAt(Capture)} ==>
                host.stack == old(host).stack && host.schema == old(host).schema
      ensures NewId(old(host), id) && Active(old(host)) != Nothing && old(host).stack != Down ==> host.stack != Down
    {
      ghost var before := host;
      if NewId(before, id) { StackOutcome(before, id, faults); }
      var ok := RunSsh(Upload);
      if !ok {
        var _ := RunSsh(CleanupRelease);
        return FailedAt(Upload);
      }
      ok := RunSsh(Capture);
      if !ok {
        var _ := RunSsh(CleanupRelease);
        return FailedAt(Capture);
      }
      ok := RunSsh(Start);
      if !ok {
        RollBackStaged();
        return FailedAt(Start);
      }
      ok := RunSsh(Preflight);
      if !ok {
        RollBackStaged();
        return FailedAt(Preflight);
      }
      ok := RunSsh(RunMigrations);
      if !ok {
        RollBackStaged();
        return FailedAt(RunMigrations);
      }
      ok := RunSsh(Activate);
      if !ok {
        var _ := RunSsh(RestoreOrStop);
        var _ := RunSsh(CleanupPending);
        CleanUp();
        return FailedAt(Activate);
      }
      var _ := RunSsh(CleanupPrevious);
      outcome := Deployed;
    }
  }

  // ---------------------------------------------------------------------------------------------
  // What commands leave alone
  // ---------------------------------------------------------------------------------------------

  predicate Own(p: Path, id: ReleaseId) {
    p == Release(id) || p == Previous(id) || p == Pending(id) || p == Restore(id)
  }

  /** The release ID is new: nothing has its names and no link leads to them. No name is a link and a
      directory at once. */
  ghost predicate NewId(h: Host, id: ReleaseId) {
    && (forall p :: Own(p, id) ==> p !in h.links && p !in h.dirs)
    && (forall p :: p in h.links ==> p !in h.dirs && !Own(h.links[p], id))
  }

  predicate SameLink(g: Host, h: Host, p: Path) {
    (p in g.links <==> p in h.links) && (p in g.links ==> g.links[p] == h.links[p])
  }

  predicate SameDir(g: Host, h: Host, p: Path) {
    (p in g.dirs <==> p in h.dirs) && (p in g.dirs ==> g.dirs[p] == h.dirs[p])
  }

  /** The links a command may change. */
  predicate MayLink(c: Command, id: ReleaseId, p: Path) {
    match c
    case Capture => p == Previous(id)
    case Activate => p == Pending(id) || p == Current
    case RestoreOrStop => p == Restore(id) || p == Current
    case CleanupPending => p == Pending(id)
    case CleanupPrevious => p == Previous(id) || p == Restore(id)
    case _ => false
  }

  predicate MayWrite(c: Command, id: ReleaseId, p: Path) {
    p == Release(id) && (c == Upload || c == Start || c == CleanupRelease)
  }

  /** Every effect of a command is one that it may have. */
  predicate Within(e: Effect, c: Command, id: ReleaseId) {
    match e
    case Unlink(p) => MayLink(c, id, p)
    case Symlink(p, _) => MayLink(c, id, p)
    case Rename(a, b) => MayLink(c, id, a) && MayLink(c, id, b)
    case Write(d, _) => MayWrite(c, id, d)
    case Remove(d) => MayWrite(c, id, d)
    case Compose(_) => c == Start || c == RestoreOrStop
    case Migrate(_) => c == RunMigrations
    case MakeBase => true
  }

  lemma ScriptWithin(h: Host, id: ReleaseId, c: Command)
    ensures forall e :: e in ScriptOf(h, id, c).effects ==> Within(e, c, id)
  {
    match c
    case Start =>
    case Activate =>
    case RestoreOrStop =>
    case _ =>
  }

  lemma {:induction false} RunWithin(h: Host, effects: seq<Effect>, n: nat, c: Command, id: ReleaseId, p: Path)
    requires n <= |effects| && forall e :: e in effects ==> Within(e, c, id)
    ensures var k := Run(h, effects, n);
      && (!MayLink(c, id, p) ==> SameLink(h, k, p))
      && (!MayWrite(c, id, p) ==> SameDir(h, k, p))
      && k.sharedEnv == h.sharedEnv && k.detached == h.detached
      && (c != Start && c != RestoreOrStop ==> k.stack == h.stack)
      && (c != RunMigrations ==> k.schema == h.schema)
  {
    if n > 0 {
      RunWithin(h, effects, n - 1, c, id, p);
      assert Within(effects[n - 1], c, id);
    }
  }

  lemma CommandKeeps(h: Host, id: ReleaseId, c: Command, f: Faults, p: Path)
    ensures var k := Do(h, id, c, f);
      && (!MayLink(c, id, p) ==> SameLink(h, k, p))
      && (!MayWrite(c, id, p) ==> SameDir(h, k, p))
      && k.sharedEnv == h.sharedEnv && k.detached == h.detached
      && (c != Start && c != RestoreOrStop ==> k.stack == h.stack)
      && (c != RunMigrations ==> k.schema == h.schema)
  {
    var effects := ScriptOf(h, id, c).effects;
    ScriptWithin(h, id, c);
    RunWithin(h, effects, EffectsDone(effects, c, f), c, id, p);
  }

  /** Everything but the deployment's own names and `current` is as it was. */
  ghost predicate Steady(g: Host, h: Host, id: ReleaseId) {
    && (forall p {:trigger SameLink(g, h, p)} :: !Own(p, id) && p != Current ==> SameLink(g, h, p))
    && (forall p {:trigger SameDir(g, h, p)} :: p != Release(id) ==> SameDir(g, h, p))
    && SameLink(g, h, Release(id))
    && g.sharedEnv == h.sharedEnv && g.detached == h.detached
  }

  lemma CommandSteady(g: Host, h: Host, id: ReleaseId, c: Command, f: Faults)
    requires Steady(g, h, id)
    ensures Steady(g, Do(h, id, c, f), id)
  {
    var k := Do(h, id, c, f);
    forall p | !Own(p, id) && p != Current ensures SameLink(g, k, p) {
      assert SameLink(g, h, p);
      CommandKeeps(h, id, c, f, p);
    }
    forall p | p != Release(id) ensures SameDir(g, k, p) {
      assert SameDir(g, h, p);
      CommandKeeps(h, id, c, f, p);
    }
    CommandKeeps(h, id, c, f, Release(id));
  }

  // ---------------------------------------------------------------------------------------------
  // Where `current` leads
  // ---------------------------------------------------------------------------------------------

  /** `current` is the link it was, or leads directly to where it led. */
  predicate Unswitched(g: Host, h: Host) {
    || SameLink(g, h, Current)
    || (Active(g).To? && Active(g).path != Current && Current in h.links && h.links[Current] == Active(g).path)
  }

  predicate Switched(h: Host, id: ReleaseId) {
    Current in h.links && h.links[Current] == Release(id)
  }

  lemma {:induction false} ResolveKept(g: Host, h: Host, id: ReleaseId, p: Path, seen: set<Path>)
    requires NewId(g, id) && Steady(g, h, id) && SameLink(g, h, Current) && !Own(p, id)
    ensures Resolve(h.links, h.detached, p, seen) == Resolve(g.links, g.detached, p, seen)
    ensures var r := Resolve(g.links, g.detached, p, seen); r.To? ==>
              r.path !in g.links && !Own(r.path, id) && !(r.path.Elsewhere? && r.path.name in g.detached)
    decreases g.links.Keys - seen
  {
    assert SameLink(g, h, p);
    if p in g.links && p !in seen { ResolveKept(g, h, id, g.links[p], seen + {p}); }
  }

  lemma ActiveKept(g: Host, h: Host, id: ReleaseId)
    requires NewId(g, id) && Steady(g, h, id) && Unswitched(g, h)
    ensures Active(h) == Active(g)
  {
    assert SameDir(g, h, Current);
    if SameLink(g, h, Current) {
      ResolveKept(g, h, id, Current, {});
    } else {
      ResolveKept(g, g, id, Current, {});
      assert SameLink(g, h, Active(g).path);
      assert Resolve(h.links, h.detached, Current, {}) == Resolve(h.links, h.detached, Active(g).path, {Current});
    }
  }

  lemma ActiveSwitched(g: Host, h: Host, id: ReleaseId)
    requires NewId(g, id) && Steady(g, h, id) && Switched(h, id)
    ensures Active(h) == To(Release(id))
  {
    assert Resolve(h.links, h.detached, Current, {}) == Resolve(h.links, h.detached, Release(id), {Current});
  }

  /** The link to the previous release, exactly if there is one. */
  predicate Noted(g: Host, h: Host, id: ReleaseId) {
    match Active(g)
    case Nothing => Previous(id) !in h.links
    case Circle => false
    case Astray => false
    case To(p) => Previous(id) in h.links && h.links[Previous(id)] == p
  }

  lemma CaptureNotes(g: Host, h: Host, id: ReleaseId, f: Faults)
    requires NewId(g, id) && Steady(g, h, id) && SameLink(g, h, Current) && Succeeds(h, id, Capture, f)
    ensures Noted(g, Do(h, id, Capture, f), id)
  {
    ActiveKept(g, h, id);
    var effects := CaptureScript(h, id).effects;
    assert Run(h, effects, 1) == Apply(h, effects[0]);
  }

  /** Whether the activation's rename took place, reported or not. */
  predicate Renamed(g: Host, f: Faults) {
    Current !in g.dirs && (Activate in f ==> f[Activate] >= 4)
  }

  lemma ActivateSwitches(g: Host, h: Host, id: ReleaseId, f: Faults)
    requires Steady(g, h, id) && SameLink(g, h, Current)
    ensures if Renamed(g, f) then Switched(Do(h, id, Activate, f), id) else SameLink(g, Do(h, id, Activate, f), Current)
  {
    assert SameDir(g, h, Current);
    var effects := ActivateScript(h, id).effects;
    var n := EffectsDone(effects, Activate, f);
    if n == 4 {
      assert Run(h, effects, 3).links[Pending(id)] == Release(id);
      assert Run(h, effects, 4) == Apply(Run(h, effects, 3), effects[3]);
    } else {
      RunKeepsCurrent(h, effects, n);
    }
  }

  predicate LeavesCurrent(e: Effect) {
    !e.Rename? && e != Unlink(Current) && !(e.Symlink? && e.path == Current)
  }

  lemma {:induction false} RunKeepsCurrent(h: Host, effects: seq<Effect>, n: nat)
    requires n <= |effects| && forall i :: 0 <= i < n ==> LeavesCurrent(effects[i])
    ensures SameLink(h, Run(h, effects, n), Current)
  {
    if n > 0 { RunKeepsCurrent(h, effects, n - 1); }
  }

  /** Whether the recovery came as far as putting `current` back. */
  predicate PutBack(g: Host, f: Faults) {
    RestoreOrStop in f ==> f[RestoreOrStop] >= if Active(g) == Nothing then 1 else 3
  }

  lemma {:induction false} ComposeKeepsLinks(h: Host, effects: seq<Effect>, m: nat, n: nat)
    requires m <= n <= |effects| && forall i :: m <= i < n ==> effects[i].Compose?
    ensures Run(h, effects, n).links == Run(h, effects, m).links
    decreases n
  {
    if m < n { ComposeKeepsLinks(h, effects, m, n - 1); }
  }

  lemma RestoreMoves(h: Host, id: ReleaseId, target: Path, n: nat)
    requires n <= |RestoreScript(h, id, target).effects|
    ensures var k := Run(h, RestoreScript(h, id, target).effects, n);
      if n >= 3 then Current in k.links && k.links[Current] == target else SameLink(h, k, Current)
  {
    var effects := RestoreScript(h, id, target).effects;
    if n >= 3 {
      assert Run(h, effects, 2).links[Restore(id)] == target;
      assert Run(h, effects, 3) == Apply(Run(h, effects, 2), effects[2]);
      ComposeKeepsLinks(h, effects, 3, n);
    } else {
      RunKeepsCurrent(h, effects, n);
    }
  }

  lemma StopDrops(h: Host, id: ReleaseId, n: nat)
    requires n <= |StopScript(h, id).effects|
    ensures var k := Run(h, StopScript(h, id).effects, n);
      if Switched(h, id) && n >= 1 then Current !in k.links else SameLink(h, k, Current)
  {
  }

  lemma TargetIsNotCurrent(g: Host, id: ReleaseId)
    requires NewId(g, id) && Active(g).To? && Current !in g.dirs
    ensures Active(g).path != Current && Active(g).path !in g.links && !Own(Active(g).path, id)
  {
    ResolveKept(g, g, id, Current, {});
  }

  /** Whatever happens to the recovery command: an untouched `current` stays, and a switched one is put
      back exactly if the command came that far. */
  lemma RecoveryPutsBack(g: Host, h: Host, id: ReleaseId, f: Faults)
    requires NewId(g, id) && Steady(g, h, id) && Noted(g, h, id)
    requires SameLink(g, h, Current) || (Switched(h, id) && Current !in g.dirs)
    ensures var k := Do(h, id, RestoreOrStop, f);
      if SameLink(g, h, Current) || PutBack(g, f) then Unswitched(g, k) else Switched(k, id)
  {
    assert SameDir(g, h, Current);
    var script := ScriptOf(h, id, RestoreOrStop);
    var n := EffectsDone(script.effects, RestoreOrStop, f);
    if Active(g).To? {
      RestoreMoves(h, id, Active(g).path, n);
      if Current !in g.dirs { TargetIsNotCurrent(g, id); }
    } else {
      StopDrops(h, id, n);
    }
  }

  /** A recovery command that is not cut short brings back the stack that belongs to `current`. */
  lemma RecoveryRestarts(g: Host, h: Host, id: ReleaseId, f: Faults)
    requires NewId(g, id) && Steady(g, h, id) && Noted(g, h, id)
    requires RestoreOrStop !in f && Release(id) in h.dirs
    ensures var k := Do(h, id, RestoreOrStop, f);
      && (Active(g) == Nothing ==> k.stack == Down)
      && (Active(g).To? && Current !in g.dirs && Active(g).path in g.dirs ==> k.stack == Up(Active(g).path))
  {
    assert SameDir(g, h, Current);
    var effects := ScriptOf(h, id, RestoreOrStop).effects;
    if Active(g).To? && Current !in g.dirs && Active(g).path in g.dirs {
      TargetIsNotCurrent(g, id);
      assert SameDir(g, h, Active(g).path);
      assert effects[4] == Compose(Up(Active(g).path));
    }
  }

  // ---------------------------------------------------------------------------------------------
  // The whole deployment
  // ---------------------------------------------------------------------------------------------

  /** After the capture and until the activation. */
  ghost predicate Ready(g: Host, h: Host, id: ReleaseId) {
    Steady(g, h, id) && Noted(g, h, id) && SameLink(g, h, Current) && Release(id) in h.dirs
  }

  lemma StaysReady(g: Host, h: Host, id: ReleaseId, c: Command, f: Faults)
    requires Ready(g, h, id) && (c == Start || c == Preflight || c == RunMigrations)
    ensures Ready(g, Do(h, id, c, f), id)
  {
    CommandSteady(g, h, id, c, f);
    CommandKeeps(h, id, c, f, Current);
    CommandKeeps(h, id, c, f, Previous(id));
    CommandKeeps(h, id, c, f, Release(id));
    if c == Start {
      var effects := StartScript(h, id).effects;
      if |effects| > 0 {
        assert Run(h, effects, 1) == Apply(Run(h, effects, 0), effects[0]);
        assert Run(h, effects, 2) == Apply(Run(h, effects, 1), effects[1]);
        assert Run(h, effects, 3) == Apply(Run(h, effects, 2), effects[2]);
      }
    }
  }

  /** What a failed deployment leaves: everything foreign as it was, `current` as told, and no release
      directory of its own unless the removal was cut short. */
  ghost predicate Landed(g: Host, k: Host, id: ReleaseId, f: Faults, switched: bool) {
    && Steady(g, k, id)
    && Active(k) == (if switched then To(Release(id)) else Active(g))
    && (CleanupRelease !in f ==> Release(id) !in k.dirs)
  }

  predicate Restarted(g: Host, k: Host) {
    && (Active(g) == Nothing ==> k.stack == Down)
    && (Active(g).To? && Current !in g.dirs && Active(g).path in g.dirs ==> k.stack == Up(Active(g).path))
  }

  lemma CleanKeeps(g: Host, h: Host, id: ReleaseId, f: Faults)
    requires Steady(g, h, id)
    ensures var k := Clean(h, id, f);
      && Steady(g, k, id) && SameLink(h, k, Current) && k.stack == h.stack && k.schema == h.schema
      && (CleanupRelease !in f ==> Release(id) !in k.dirs)
  {
    var m := Do(h, id, CleanupPrevious, f);
    CommandSteady(g, h, id, CleanupPrevious, f);
    CommandKeeps(h, id, CleanupPrevious, f, Current);
    CommandSteady(g, m, id, CleanupRelease, f);
    CommandKeeps(m, id, CleanupRelease, f, Current);
  }

  lemma CleanLands(g: Host, h: Host, id: ReleaseId, f: Faults, switched: bool)
    requires NewId(g, id) && Steady(g, h, id) && (if switched then Switched(h, id) else Unswitched(g, h))
    ensures Landed(g, Clean(h, id, f), id, f, switched)
    ensures Clean(h, id, f).stack == h.stack && Clean(h, id, f).schema == h.schema
  {
    CleanKeeps(g, h, id, f);
    if switched { ActiveSwitched(g, Clean(h, id, f), id); } else { ActiveKept(g, Clean(h, id, f), id); }
  }

  lemma RollBackLands(g: Host, h: Host, id: ReleaseId, f: Faults)
    requires NewId(g, id) && Ready(g, h, id)
    ensures Landed(g, RollBack(h, id, f), id, f, false)
    ensures RestoreOrStop !in f ==> Restarted(g, RollBack(h, id, f))
    ensures RollBack(h, id, f).schema == h.schema
  {
    CommandSteady(g, h, id, RestoreOrStop, f);
    CommandKeeps(h, id, RestoreOrStop, f, Current);
    RecoveryPutsBack(g, h, id, f);
    if RestoreOrStop !in f { RecoveryRestarts(g, h, id, f); }
    CleanLands(g, Do(h, id, RestoreOrStop, f), id, f, false);
  }

  lemma DeactivateLands(g: Host, h: Host, id: ReleaseId, f: Faults)
    requires NewId(g, id) && Steady(g, h, id) && Noted(g, h, id) && Release(id) in h.dirs
    requires if Renamed(g, f) then Switched(h, id) else SameLink(g, h, Current)
    ensures Landed(g, Deactivate(h, id, f), id, f, Renamed(g, f) && !PutBack(g, f))
    ensures RestoreOrStop !in f ==> Restarted(g, Deactivate(h, id, f))
    ensures Deactivate(h, id, f).schema == h.schema
  {
    var restored := Do(h, id, RestoreOrStop, f);
    CommandSteady(g, h, id, RestoreOrStop, f);
    CommandKeeps(h, id, RestoreOrStop, f, Current);
    RecoveryPutsBack(g, h, id, f);
    if RestoreOrStop !in f { RecoveryRestarts(g, h, id, f); }
    CommandSteady(g, restored, id, CleanupPending, f);
    CommandKeeps(restored, id, CleanupPending, f, Current);
    CleanLands(g, Do(restored, id, CleanupPending, f), id, f, Renamed(g, f) && !PutBack(g, f));
  }

  lemma SwitchLands(g: Host, h: Host, id: ReleaseId, f: Faults)
    requires NewId(g, id) && Ready(g, h, id) && Switch(h, id, f).1 != Deployed
    ensures Switch(h, id, f).1 == FailedAt(Activate)
    ensures Landed(g, Switch(h, id, f).0, id, f, Renamed(g, f) && !PutBack(g, f))
    ensures RestoreOrStop !in f ==> Restarted(g, Switch(h, id, f).0)
    ensures Switch(h, id, f).0.schema == h.schema
  {
    CommandSteady(g, h, id, Activate, f);
    CommandKeeps(h, id, Activate, f, Previous(id));
    CommandKeeps(h, id, Activate, f, Release(id));
    ActivateSwitches(g, h, id, f);
    DeactivateLands(g, Do(h, id, Activate, f), id, f);
  }

  lemma MigrationsRecorded(h: Host, id: ReleaseId, f: Faults)
    requires Succeeds(h, id, RunMigrations, f)
    ensures Do(h, id, RunMigrations, f).schema == Of(id)
  {
  }

  /** How far a migration comes that is made to fail. */
  function MigratedTo(g: Host, id: ReleaseId, f: Faults): Schema {
    if RunMigrations !in f || f[RunMigrations] >= 2 then Of(id)
    else if f[RunMigrations] == 1 then Between else g.schema
  }

  lemma MigrationsStop(h: Host, id: ReleaseId, f: Faults)
    requires h.stack == Up(Release(id))
    ensures Do(h, id, RunMigrations, f).schema == MigratedTo(h, id, f)
  {
    var effects := ScriptOf(h, id, RunMigrations).effects;
    assert Run(h, effects, 1) == Apply(Run(h, effects, 0), effects[0]);
  }

  lemma RollLands(g: Host, h: Host, id: ReleaseId, f: Faults)
    requires NewId(g, id) && Ready(g, h, id) && Roll(h, id, f).1 != Deployed && h.schema == g.schema
    ensures var k := Roll(h, id, f).0; var c := Roll(h, id, f).1.command;
      && c in {Start, Preflight, RunMigrations, Activate}
      && Landed(g, k, id, f, c == Activate && Renamed(g, f) && !PutBack(g, f))
      && (RestoreOrStop !in f ==> Restarted(g, k))
      && (c == Activate ==> k.schema == Of(id))
      && (c == RunMigrations ==> k.schema == MigratedTo(g, id, f))
      && (c == Start || c == Preflight ==> k.schema == g.schema)
  {
    var started := Do(h, id, Start, f);
    StaysReady(g, h, id, Start, f);
    CommandKeeps(h, id, Start, f, Current);
    var checked := Do(started, id, Preflight, f);
    StaysReady(g, started, id, Preflight, f);
    CommandKeeps(started, id, Preflight, f, Current);
    var migrated := Do(checked, id, RunMigrations, f);
    StaysReady(g, checked, id, RunMigrations, f);
    if !Succeeds(h, id, Start, f) {
      RollBackLands(g, started, id, f);
    } else if !Succeeds(started, id, Preflight, f) {
      RollBackLands(g, checked, id, f);
    } else if !Succeeds(checked, id, RunMigrations, f) {
      MigrationsStop(checked, id, f);
      RollBackLands(g, migrated, id, f);
    } else {
      MigrationsRecorded(checked, id, f);
      SwitchLands(g, migrated, id, f);
    }
  }

  lemma EarlyLands(g: Host, h: Host, id: ReleaseId, f: Faults)
    requires NewId(g, id) && Steady(g, h, id) && SameLink(g, h, Current) && h.schema == g.schema
    ensures Landed(g, Do(h, id, CleanupRelease, f), id, f, false)
    ensures Do(h, id, CleanupRelease, f).schema == g.schema
  {
    var k := Do(h, id, CleanupRelease, f);
    CommandSteady(g, h, id, CleanupRelease, f);
    CommandKeeps(h, id, CleanupRelease, f, Current);
    ActiveKept(g, k, id);
  }

  lemma BecomesReady(g: Host, id: ReleaseId, f: Faults)
    requires NewId(g, id)
    ensures var uploaded := Do(g, id, Upload, f); var captured := Do(uploaded, id, Capture, f);
      && Steady(g, uploaded, id) && SameLink(g, uploaded, Current) && uploaded.schema == g.schema
      && Steady(g, captured, id) && SameLink(g, captured, Current) && captured.schema == g.schema
      && (Succeeds(g, id, Upload, f) ==> Release(id) in captured.dirs && captured.dirs[Release(id)] == Whole)
      && (Succeeds(g, id, Upload, f) && Succeeds(uploaded, id, Capture, f) ==> Ready(g, captured, id))
  {
    var uploaded := Do(g, id, Upload, f);
    CommandSteady(g, g, id, Upload, f);
    CommandKeeps(g, id, Upload, f, Current);
    CommandSteady(g, uploaded, id, Capture, f);
    CommandKeeps(uploaded, id, Capture, f, Current);
    CommandKeeps(uploaded, id, Capture, f, Release(id));
    var effects := ScriptOf(g, id, Upload).effects;
    assert Run(g, effects, 2) == Apply(Run(g, effects, 1), effects[1]);
    if Succeeds(uploaded, id, Capture, f) { CaptureNotes(g, uploaded, id, f); }
  }

  /** Wherever a deployment fails, and however far every failed command and every recovery command came:
      nothing foreign is touched, and `current` stands for what it stood for before. The one exception is
      exact: the activation's rename took place, was reported as failed, and the recovery was cut short
      before it put `current` back. */
  lemma FailedDeployKeepsCurrent(g: Host, id: ReleaseId, f: Faults)
    requires NewId(g, id) && Deploy(g, id, f).1 != Deployed
    ensures var k := Deploy(g, id, f).0; var c := Deploy(g, id, f).1.command;
      && Steady(g, k, id)
      && Active(k) == (if c == Activate && Renamed(g, f) && !PutBack(g, f) then To(Release(id)) else Active(g))
      && (CleanupRelease !in f ==> Release(id) !in k.dirs)
  {
    var uploaded := Do(g, id, Upload, f);
    var captured := Do(uploaded, id, Capture, f);
    BecomesReady(g, id, f);
    if !Succeeds(g, id, Upload, f) {
      EarlyLands(g, uploaded, id, f);
    } else if !Succeeds(uploaded, id, Capture, f) {
      EarlyLands(g, captured, id, f);
    } else {
      RollLands(g, captured, id, f);
    }
  }

  /** A deployment that fails before it starts anything leaves the running stack and the schema alone. A failed
      upload changes no link at all, a failed capture none but the deployment's own pointer. */
  lemma EarlyFailureChangesNothing(g: Host, id: ReleaseId, f: Faults)
    requires NewId(g, id) && Deploy(g, id, f).1 in {FailedAt(Upload), FailedAt(Capture)}
    ensures var (k, outcome) := Deploy(g, id, f);
      && k.stack == g.stack && k.schema == g.schema
      && (outcome == FailedAt(Upload) ==> k.links == g.links)
      && (outcome == FailedAt(Upload) && f[Upload] < 2 && Release(id) in k.dirs ==> k.dirs[Release(id)] == Partial)
      && (forall p :: p != Previous(id) ==> SameLink(g, k, p))
  {
    var uploaded := Do(g, id, Upload, f);
    var captured := Do(uploaded, id, Capture, f);
    FilesOnly(g, id, Upload, f);
    FilesOnly(uploaded, id, CleanupRelease, f);
    FilesOnly(captured, id, CleanupRelease, f);
    CaptureTouches(uploaded, id, f);
    RollOutcome(captured, id, f);
    var (k, outcome) := Deploy(g, id, f);
    assert if outcome == FailedAt(Upload) then k.links == g.links else k.links == captured.links;
    forall p | p != Previous(id) ensures SameLink(g, k, p) {
      assert outcome == FailedAt(Capture) ==> SameLink(uploaded, captured, p);
    }
  }

  lemma FilesOnly(h: Host, id: ReleaseId, c: Command, f: Faults)
    requires c == Upload || c == CleanupRelease
    ensures var k := Do(h, id, c, f); k.links == h.links && k.stack == h.stack && k.schema == h.schema
  {
    var k := Do(h, id, c, f);
    forall p ensures (p in h.links <==> p in k.links) && (p in h.links ==> h.links[p] == k.links[p]) {
      CommandKeeps(h, id, c, f, p);
      assert SameLink(h, k, p);
    }
    CommandKeeps(h, id, c, f, Current);
  }

  lemma CaptureTouches(h: Host, id: ReleaseId, f: Faults)
    ensures var k := Do(h, id, Capture, f);
      k.stack == h.stack && k.schema == h.schema && forall p :: p != Previous(id) ==> SameLink(h, k, p)
  {
    var k := Do(h, id, Capture, f);
    forall p | p != Previous(id) ensures SameLink(h, k, p) { CommandKeeps(h, id, Capture, f, p); }
    CommandKeeps(h, id, Capture, f, Current);
  }

  lemma RollOutcome(h: Host, id: ReleaseId, f: Faults)
    ensures Roll(h, id, f).1 in {Deployed, FailedAt(Start), FailedAt(Preflight), FailedAt(RunMigrations),
                                 FailedAt(Activate)}
  {
  }

  /** A command that does not bring the stack down leaves one that is up, or half up, standing. */
  lemma {:induction false} StaysUp(h: Host, effects: seq<Effect>, n: nat)
    requires n <= |effects| && Compose(Down) !in effects && h.stack != Down
    ensures Run(h, effects, n).stack != Down
  {
    if n > 0 { StaysUp(h, effects, n - 1); }
  }

  lemma CommandStaysUp(h: Host, id: ReleaseId, c: Command, f: Faults)
    requires h.stack != Down && (c == RestoreOrStop ==> Previous(id) in h.links)
    ensures Do(h, id, c, f).stack != Down
  {
    var effects := ScriptOf(h, id, c).effects;
    StaysUp(h, effects, EffectsDone(effects, c, f));
  }

  lemma CleanStaysUp(h: Host, id: ReleaseId, f: Faults)
    requires h.stack != Down
    ensures Clean(h, id, f).stack != Down
  {
    CommandStaysUp(h, id, CleanupPrevious, f);
    CommandStaysUp(Do(h, id, CleanupPrevious, f), id, CleanupRelease, f);
  }

  lemma RollBackStaysUp(h: Host, id: ReleaseId, f: Faults)
    requires h.stack != Down && Previous(id) in h.links
    ensures RollBack(h, id, f).stack != Down
  {
    CommandStaysUp(h, id, RestoreOrStop, f);
    CleanStaysUp(Do(h, id, RestoreOrStop, f), id, f);
  }

  lemma SwitchStaysUp(h: Host, id: ReleaseId, f: Faults)
    requires h.stack != Down && Previous(id) in h.links
    ensures Switch(h, id, f).0.stack != Down
  {
    var activated := Do(h, id, Activate, f);
    CommandStaysUp(h, id, Activate, f);
    CommandKeeps(h, id, Activate, f, Previous(id));
    CommandStaysUp(activated, id, RestoreOrStop, f);
    var restored := Do(activated, id, RestoreOrStop, f);
    CommandStaysUp(restored, id, CleanupPending, f);
    CleanStaysUp(Do(restored, id, CleanupPending, f), id, f);
    CommandStaysUp(activated, id, CleanupPrevious, f);
  }

  lemma RollStaysUp(h: Host, id: ReleaseId, f: Faults)
    requires h.stack != Down && Previous(id) in h.links
    ensures Roll(h, id, f).0.stack != Down
  {
    var started := Do(h, id, Start, f);
    var checked := Do(started, id, Preflight, f);
    var migrated := Do(checked, id, RunMigrations, f);
    CommandStaysUp(h, id, Start, f);
    CommandKeeps(h, id, Start, f, Previous(id));
    CommandStaysUp(started, id, Preflight, f);
    CommandKeeps(started, id, Preflight, f, Previous(id));
    CommandStaysUp(checked, id, RunMigrations, f);
    CommandKeeps(checked, id, RunMigrations, f, Previous(id));
    RollBackStaysUp(started, id, f);
    RollBackStaysUp(checked, id, f);
    RollBackStaysUp(migrated, id, f);
    SwitchStaysUp(migrated, id, f);
  }

  /** Where `current` led to a release, no deployment takes the service down: whatever fails, and however far
      the failed commands and recoveries came, a stack that was not down is not down afterwards. */
  lemma ServiceIsNeverStopped(g: Host, id: ReleaseId, f: Faults)
    requires NewId(g, id) && Active(g) != Nothing && g.stack != Down
    ensures Deploy(g, id, f).0.stack != Down
  {
    var uploaded := Do(g, id, Upload, f);
    var captured := Do(uploaded, id, Capture, f);
    BecomesReady(g, id, f);
    CommandStaysUp(g, id, Upload, f);
    CommandStaysUp(uploaded, id, CleanupRelease, f);
    CommandStaysUp(uploaded, id, Capture, f);
    CommandStaysUp(captured, id, CleanupRelease, f);
    if Succeeds(g, id, Upload, f) && Succeeds(uploaded, id, Capture, f) { RollStaysUp(captured, id, f); }
  }

  /** What the two theorems above say of the stack. */
  lemma StackOutcome(g: Host, id: ReleaseId, f: Faults)
    requires NewId(g, id)
    ensures var (k, outcome) := Deploy(g, id, f);
      && (outcome in {FailedAt(Upload), FailedAt(Capture)} ==> k.stack == g.stack && k.schema == g.schema)
      && (Active(g) != Nothing && g.stack != Down ==> k.stack != Down)
  {
    if Deploy(g, id, f).1 in {FailedAt(Upload), FailedAt(Capture)} { EarlyFailureChangesNothing(g, id, f); }
    if Active(g) != Nothing && g.stack != Down { ServiceIsNeverStopped(g, id, f); }
  }

  /** After a failure from the start of the stack on, a recovery that is not cut short leaves the stack that
      ran from `current`, or none on a first deployment. It cannot do so if `current` is a directory itself
      or the release it names is gone. */
  lemma RecoveryRestoresService(g: Host, id: ReleaseId, f: Faults)
    requires NewId(g, id) && Deploy(g, id, f).1 != Deployed && RestoreOrStop !in f
    requires Deploy(g, id, f).1.command in {Start, Preflight, RunMigrations, Activate}
    ensures var k := Deploy(g, id, f).0;
      && Active(k) == Active(g)
      && (Active(g) == Nothing ==> k.stack == Down)
      && (Active(g).To? && Current !in g.dirs && Active(g).path in g.dirs ==> k.stack == Up(Active(g).path))
  {
    BecomesReady(g, id, f);
    RollLands(g, Do(Do(g, id, Upload, f), id, Capture, f), id, f);
  }

  /** The schema changes only from the migration on. A failed migration leaves it as far as it came, between
      two versions if it was cut short, and a failed activation leaves it migrated. */
  lemma SchemaChangesLate(g: Host, id: ReleaseId, f: Faults)
    requires NewId(g, id) && Deploy(g, id, f).1 != Deployed
    ensures var k := Deploy(g, id, f).0; var c := Deploy(g, id, f).1.command;
      && (c in {Upload, Capture, Start, Preflight} ==> k.schema == g.schema)
      && (c == RunMigrations ==> k.schema == MigratedTo(g, id, f))
      && (c == Activate ==> k.schema == Of(id))
  {
    var uploaded := Do(g, id, Upload, f);
    BecomesReady(g, id, f);
    if !Succeeds(g, id, Upload, f) {
      EarlyLands(g, uploaded, id, f);
    } else if !Succeeds(uploaded, id, Capture, f) {
      EarlyLands(g, Do(uploaded, id, Capture, f), id, f);
    } else {
      RollLands(g, Do(uploaded, id, Capture, f), id, f);
    }
  }

  // ---------------------------------------------------------------------------------------------
  // What a deployment leaves behind
  // ---------------------------------------------------------------------------------------------

  /** The pointers of the deployment are gone, as far as their removal was not made to fail. */
  predicate Tidy(k: Host, id: ReleaseId, f: Faults, activated: bool) {
    && (CleanupPrevious !in f ==> Previous(id) !in k.links && Restore(id) !in k.links)
    && (Pending(id) in k.links ==> activated && CleanupPending in f)
  }

  lemma PreviousTidied(h: Host, id: ReleaseId, f: Faults, activated: bool)
    requires Pending(id) in h.links ==> activated && CleanupPending in f
    ensures Tidy(Do(h, id, CleanupPrevious, f), id, f, activated)
    ensures Tidy(Clean(h, id, f), id, f, activated)
  {
    var k := Do(h, id, CleanupPrevious, f);
    var effects := ScriptOf(h, id, CleanupPrevious).effects;
    assert Run(h, effects, 1) == Apply(Run(h, effects, 0), effects[0]);
    assert Run(h, effects, 2) == Apply(Run(h, effects, 1), effects[1]);
    CommandKeeps(h, id, CleanupPrevious, f, Pending(id));
    CommandKeeps(k, id, CleanupRelease, f, Previous(id));
    CommandKeeps(k, id, CleanupRelease, f, Restore(id));
    CommandKeeps(k, id, CleanupRelease, f, Pending(id));
  }

  lemma RollBackTidies(h: Host, id: ReleaseId, f: Faults)
    requires Pending(id) !in h.links
    ensures Tidy(RollBack(h, id, f), id, f, false)
  {
    CommandKeeps(h, id, RestoreOrStop, f, Pending(id));
    PreviousTidied(Do(h, id, RestoreOrStop, f), id, f, false);
  }

  lemma PendingRemoved(h: Host, id: ReleaseId, f: Faults)
    ensures CleanupPending !in f ==> Pending(id) !in Do(h, id, CleanupPending, f).links
    ensures Succeeds(h, id, Activate, f) ==> Pending(id) !in Do(h, id, Activate, f).links
  {
    var effects := ActivateScript(h, id).effects;
    if Succeeds(h, id, Activate, f) {
      assert Run(h, effects, 3).links[Pending(id)] == Release(id);
      assert Run(h, effects, 4) == Apply(Run(h, effects, 3), effects[3]);
    }
    assert Run(h, [Unlink(Pending(id))], 1) == Apply(h, Unlink(Pending(id)));
  }

  lemma SwitchTidies(h: Host, id: ReleaseId, f: Faults)
    ensures Tidy(Switch(h, id, f).0, id, f, Switch(h, id, f).1 == FailedAt(Activate))
  {
    var activated := Do(h, id, Activate, f);
    PendingRemoved(h, id, f);
    if Succeeds(h, id, Activate, f) {
      PreviousTidied(activated, id, f, false);
    } else {
      var restored := Do(activated, id, RestoreOrStop, f);
      PendingRemoved(restored, id, f);
      PreviousTidied(Do(restored, id, CleanupPending, f), id, f, true);
    }
  }

  lemma RollTidies(h: Host, id: ReleaseId, f: Faults)
    requires Pending(id) !in h.links
    ensures Tidy(Roll(h, id, f).0, id, f, Roll(h, id, f).1 == FailedAt(Activate))
  {
    var started := Do(h, id, Start, f);
    var checked := Do(started, id, Preflight, f);
    var migrated := Do(checked, id, RunMigrations, f);
    CommandKeeps(h, id, Start, f, Pending(id));
    CommandKeeps(started, id, Preflight, f, Pending(id));
    CommandKeeps(checked, id, RunMigrations, f, Pending(id));
    RollBackTidies(started, id, f);
    RollBackTidies(checked, id, f);
    RollBackTidies(migrated, id, f);
    SwitchTidies(migrated, id, f);
  }

  /** After success, and after a failure from the start of the stack on, no pointer of the deployment is left
      unless its removal was made to fail. Only a failed capture has no cleanup for the pointer it may have
      made: it stays exactly if the capture had finished and was then reported as failed. */
  lemma PointersAreRemoved(g: Host, id: ReleaseId, f: Faults)
    requires NewId(g, id)
    ensures var (k, outcome) := Deploy(g, id, f);
      && (outcome !in {FailedAt(Upload), FailedAt(Capture)} ==> Tidy(k, id, f, outcome == FailedAt(Activate)))
      && (outcome == FailedAt(Capture) ==>
            (Previous(id) in k.links <==> Active(g).To? && Capture in f && f[Capture] >= 2))
  {
    var uploaded := Do(g, id, Upload, f);
    var captured := Do(uploaded, id, Capture, f);
    BecomesReady(g, id, f);
    CommandKeeps(g, id, Upload, f, Pending(id));
    CommandKeeps(g, id, Upload, f, Previous(id));
    CommandKeeps(uploaded, id, Capture, f, Pending(id));
    CommandKeeps(captured, id, CleanupRelease, f, Previous(id));
    ActiveKept(g, uploaded, id);
    CaptureLinks(uploaded, id, f);
    RollTidies(captured, id, f);
  }

  lemma CaptureLinks(h: Host, id: ReleaseId, f: Faults)
    requires Previous(id) !in h.links
    ensures Previous(id) in Do(h, id, Capture, f).links <==> Active(h).To? && (Capture in f ==> f[Capture] >= 2)
  {
    var effects := CaptureScript(h, id).effects;
    if |effects| > 0 { assert Run(h, effects, 1) == Apply(h, effects[0]); }
    if |effects| > 1 { assert Run(h, effects, 2) == Apply(Run(h, effects, 1), effects[1]); }
  }

  // ---------------------------------------------------------------------------------------------
  // When a deployment succeeds
  // ---------------------------------------------------------------------------------------------

  /** The new release is uploaded, runs, and its migrations are applied. */
  predicate Serving(h: Host, id: ReleaseId) {
    && Release(id) in h.dirs && h.dirs[Release(id)] == Whole
    && h.stack == Up(Release(id))
  }

  lemma StartServes(h: Host, id: ReleaseId, f: Faults)
    requires Release(id) in h.dirs && h.dirs[Release(id)] == Whole
    ensures Succeeds(h, id, Start, f) <==> Start !in f && h.sharedEnv
    ensures Succeeds(h, id, Start, f) ==> Serving(Do(h, id, Start, f), id)
  {
    if Succeeds(h, id, Start, f) {
      var effects := StartScript(h, id).effects;
      assert Run(h, effects, 1).dirs[Release(id)] == Whole;
      assert Run(h, effects, 2) == Apply(Run(h, effects, 1), effects[1]);
      assert Run(h, effects, 3) == Apply(Run(h, effects, 2), effects[2]);
    }
  }

  lemma StaysServing(h: Host, id: ReleaseId, c: Command, f: Faults)
    requires Serving(h, id) && c in {Preflight, RunMigrations, Activate, CleanupPrevious}
    ensures Serving(Do(h, id, c, f), id)
    ensures c == Preflight || c == RunMigrations ==> (Succeeds(h, id, c, f) <==> c !in f)
  {
    CommandKeeps(h, id, c, f, Release(id));
  }

  predicate NoForwardFault(f: Faults) {
    Upload !in f && Capture !in f && Start !in f && Preflight !in f && RunMigrations !in f && Activate !in f
  }

  function Migrated(captured: Host, id: ReleaseId, f: Faults): Host {
    Do(Do(Do(captured, id, Start, f), id, Preflight, f), id, RunMigrations, f)
  }

  predicate ReachesSwitch(g: Host, f: Faults) {
    Start !in f && Preflight !in f && RunMigrations !in f && g.sharedEnv
  }

  lemma RollReachesSwitch(g: Host, h: Host, id: ReleaseId, f: Faults)
    requires Ready(g, h, id) && h.dirs[Release(id)] == Whole
    ensures ReachesSwitch(g, f) ==>
              var m := Migrated(h, id, f);
              Roll(h, id, f) == Switch(m, id, f) && Ready(g, m, id) && Serving(m, id) && m.schema == Of(id)
    ensures !ReachesSwitch(g, f) ==>
              Roll(h, id, f).1 == FailedAt(if Start in f || !g.sharedEnv then Start
                                           else if Preflight in f then Preflight else RunMigrations)
  {
    StartServes(h, id, f);
    if Succeeds(h, id, Start, f) {
      var started := Do(h, id, Start, f);
      var checked := Do(started, id, Preflight, f);
      StaysReady(g, h, id, Start, f);
      StaysServing(started, id, Preflight, f);
      StaysReady(g, started, id, Preflight, f);
      StaysServing(checked, id, RunMigrations, f);
      StaysReady(g, checked, id, RunMigrations, f);
      if Succeeds(checked, id, RunMigrations, f) { MigrationsRecorded(checked, id, f); }
    }
  }

  lemma SwitchDeploysExactlyWhen(g: Host, h: Host, id: ReleaseId, f: Faults)
    requires Ready(g, h, id)
    ensures Switch(h, id, f).1 == Deployed <==> Activate !in f && Current !in g.dirs
  {
    assert SameDir(g, h, Current);
  }

  /** The release is deployed exactly if none of the six forward commands is made to fail, the shared
      environment file is there, and `current` is absent or a link that can be followed to its end. */
  lemma DeploysExactlyWhen(g: Host, id: ReleaseId, f: Faults)
    requires NewId(g, id)
    ensures Deploy(g, id, f).1 == Deployed <==>
            NoForwardFault(f) && g.sharedEnv && Current !in g.dirs && Active(g) != Circle && Active(g) != Astray
  {
    var uploaded := Do(g, id, Upload, f);
    var captured := Do(uploaded, id, Capture, f);
    BecomesReady(g, id, f);
    ActiveKept(g, uploaded, id);
    if Upload !in f && Succeeds(uploaded, id, Capture, f) {
      RollReachesSwitch(g, captured, id, f);
      if ReachesSwitch(g, f) { SwitchDeploysExactlyWhen(g, Migrated(captured, id, f), id, f); }
    }
  }

  /** This command of the deployment is made to fail, or cannot succeed on such a host. */
  predicate Fails(g: Host, f: Faults, c: Command) {
    || c in f
    || (c == Capture && Active(g) in {Circle, Astray})
    || (c == Start && !g.sharedEnv)
    || (c == Activate && Current in g.dirs)
  }

  /** A deployment fails at the first of its six commands that fails, and reports that one. */
  lemma FailsAtTheFirst(g: Host, id: ReleaseId, f: Faults)
    requires NewId(g, id)
    ensures Deploy(g, id, f).1
            == if Fails(g, f, Upload) then FailedAt(Upload)
               else if Fails(g, f, Capture) then FailedAt(Capture)
               else if Fails(g, f, Start) then FailedAt(Start)
               else if Fails(g, f, Preflight) then FailedAt(Preflight)
               else if Fails(g, f, RunMigrations) then FailedAt(RunMigrations)
               else if Fails(g, f, Activate) then FailedAt(Activate)
               else Deployed
  {
    var uploaded := Do(g, id, Upload, f);
    var captured := Do(uploaded, id, Capture, f);
    BecomesReady(g, id, f);
    ActiveKept(g, uploaded, id);
    if Succeeds(g, id, Upload, f) && Succeeds(uploaded, id, Capture, f) {
      RollReachesSwitch(g, captured, id, f);
      if ReachesSwitch(g, f) {
        SwitchDeploysExactlyWhen(g, Migrated(captured, id, f), id, f);
        SwitchOutcome(Migrated(captured, id, f), id, f);
      }
    }
  }

  lemma SwitchOutcome(h: Host, id: ReleaseId, f: Faults)
    ensures Switch(h, id, f).1 == Deployed || Switch(h, id, f).1 == FailedAt(Activate)
  {
  }

  /** A deployed release is what `current` stands for, complete, running and migrated. */
  lemma DeployedServes(g: Host, id: ReleaseId, f: Faults)
    requires NewId(g, id) && Deploy(g, id, f).1 == Deployed
    ensures var k := Deploy(g, id, f).0;
      Steady(g, k, id) && Active(k) == To(Release(id)) && Serving(k, id) && k.schema == Of(id)
  {
    DeploysExactlyWhen(g, id, f);
    BecomesReady(g, id, f);
    var captured := Do(Do(g, id, Upload, f), id, Capture, f);
    RollReachesSwitch(g, captured, id, f);
    SwitchServes(g, Migrated(captured, id, f), id, f);
  }

  lemma SwitchServes(g: Host, h: Host, id: ReleaseId, f: Faults)
    requires NewId(g, id) && Ready(g, h, id) && Serving(h, id)
    requires Renamed(g, f) && Switch(h, id, f).1 == Deployed
    ensures var k := Switch(h, id, f).0;
      Steady(g, k, id) && Active(k) == To(Release(id)) && Serving(k, id) && k.schema == h.schema
  {
    var activated := Do(h, id, Activate, f);
    CommandSteady(g, h, id, Activate, f);
    ActivateSwitches(g, h, id, f);
    CommandKeeps(h, id, Activate, f, Release(id));
    StaysServing(h, id, Activate, f);
    CommandSteady(g, activated, id, CleanupPrevious, f);
    CommandKeeps(activated, id, CleanupPrevious, f, Current);
    StaysServing(activated, id, CleanupPrevious, f);
    ActiveSwitched(g, Do(activated, id, CleanupPrevious, f), id);
  }

  const NO_FAULTS: Faults := map[]

  function MigratedFrom(g: Host, id: ReleaseId): Host {
    Migrated(Do(Do(g, id, Upload, NO_FAULTS), id, Capture, NO_FAULTS), id, NO_FAULTS)
  }

  lemma DirectoryReachesSwitch(g: Host, id: ReleaseId)
    requires NewId(g, id) && Current in g.dirs && g.sharedEnv
    ensures var m := MigratedFrom(g, id);
      && Deploy(g, id, NO_FAULTS) == Switch(m, id, NO_FAULTS)
      && Ready(g, m, id) && Serving(m, id) && m.schema == Of(id)
  {
    BecomesReady(g, id, NO_FAULTS);
    ActiveKept(g, Do(g, id, Upload, NO_FAULTS), id);
    RollReachesSwitch(g, Do(Do(g, id, Upload, NO_FAULTS), id, Capture, NO_FAULTS), id, NO_FAULTS);
  }

  /** If `current` is a real directory, a deployment without a single fault migrates the schema, cannot
      activate, cannot go back to the old stack either, and then removes the release that is running. */
  lemma DirectoryCurrentIsNotRecovered(g: Host, id: ReleaseId)
    requires NewId(g, id) && Current in g.dirs && g.sharedEnv
    ensures var (k, outcome) := Deploy(g, id, NO_FAULTS);
      && outcome == FailedAt(Activate) && Active(k) == To(Current)
      && k.schema == Of(id) && k.stack == Up(Release(id)) && Release(id) !in k.dirs
  {
    DeploysExactlyWhen(g, id, NO_FAULTS);
    FailedDeployKeepsCurrent(g, id, NO_FAULTS);
    DirectoryReachesSwitch(g, id);
    DirectorySwitchFails(g, MigratedFrom(g, id), id);
  }

  lemma DirectorySwitchFails(g: Host, h: Host, id: ReleaseId)
    requires NewId(g, id) && Ready(g, h, id) && Serving(h, id) && Current in g.dirs
    ensures var (k, outcome) := Switch(h, id, NO_FAULTS);
      outcome == FailedAt(Activate) && k.stack == h.stack && k.schema == h.schema
  {
    SwitchDeploysExactlyWhen(g, h, id, NO_FAULTS);
    SwitchLands(g, h, id, NO_FAULTS);
    var activated := Do(h, id, Activate, NO_FAULTS);
    CommandSteady(g, h, id, Activate, NO_FAULTS);
    CommandKeeps(h, id, Activate, NO_FAULTS, Previous(id));
    RestoreKeepsStack(g, activated, id);
    var restored := Do(activated, id, RestoreOrStop, NO_FAULTS);
    CommandSteady(g, activated, id, RestoreOrStop, NO_FAULTS);
    CommandSteady(g, restored, id, CleanupPending, NO_FAULTS);
    CommandKeeps(restored, id, CleanupPending, NO_FAULTS, Current);
    CleanKeeps(g, Do(restored, id, CleanupPending, NO_FAULTS), id, NO_FAULTS);
  }

  lemma RestoreKeepsStack(g: Host, h: Host, id: ReleaseId)
    requires Steady(g, h, id) && Noted(g, h, id) && Current in g.dirs
    ensures Do(h, id, RestoreOrStop, NO_FAULTS).stack == h.stack
  {
    assert SameDir(g, h, Current);
    var script := ScriptOf(h, id, RestoreOrStop);
    assert script == RestoreScript(h, id, h.links[Previous(id)]);
    assert |script.effects| == 2;
    assert Run(h, script.effects, 1).stack == h.stack;
    assert Run(h, script.effects, 2) == Apply(Run(h, script.effects, 1), script.effects[1]);
  }

  // ---------------------------------------------------------------------------------------------
  // Runs that end badly
  // ---------------------------------------------------------------------------------------------

  const UNNOTICED_RENAME: Faults := map[Activate := 4, RestoreOrStop := 0]

  /** The activation takes place and is reported as failed, and the recovery does not start: on every host
      that could be deployed to, `current` is left on the new release, whose directory is then removed. */
  lemma CurrentLeftDangling(g: Host, id: ReleaseId)
    requires NewId(g, id) && g.sharedEnv && Current !in g.dirs && Active(g) != Circle && Active(g) != Astray
    ensures var (k, outcome) := Deploy(g, id, UNNOTICED_RENAME);
      outcome == FailedAt(Activate) && Active(k) == To(Release(id)) && Release(id) !in k.dirs
  {
    var f := UNNOTICED_RENAME;
    var uploaded := Do(g, id, Upload, f);
    BecomesReady(g, id, f);
    ActiveKept(g, uploaded, id);
    RollReachesSwitch(g, Do(uploaded, id, Capture, f), id, f);
    DeploysExactlyWhen(g, id, f);
    SwitchLands(g, Migrated(Do(uploaded, id, Capture, f), id, f), id, f);
    FailedDeployKeepsCurrent(g, id, f);
  }

  /** The capture takes place and is reported as failed: its pointer stays on every host with a release. */
  lemma CapturePointerLeft(g: Host, id: ReleaseId)
    requires NewId(g, id) && Active(g).To?
    ensures var (k, outcome) := Deploy(g, id, map[Capture := 2]);
      outcome == FailedAt(Capture) && Previous(id) in k.links
  {
    PointersAreRemoved(g, id, map[Capture := 2]);
  }
}
