/** One job of the gateway: frames from the agent and the gateway's own failure frames on their way through
    a bounded queue to the job's consumer. A put on a full queue waits; a later put may overtake it. */
module GatewayJob {

  const MAX_EVENTS: nat := 32

  datatype Kind = Diagnostic | Kubernetes

  datatype Origin = FromAgent | OutOfOrder | Disconnected

  /** `stamp` is the moment the frame was accepted, or made by the gateway. No step reads it. */
  datatype Frame = Frame(origin: Origin, sequence: nat, terminal: bool, stamp: nat)

  /** Who waits in a blocked put: the reader of one session's stream, or the loop that fails a session's jobs. */
  datatype Owner = Reader(token: nat) | Failer(token: nat)

  datatype Phase = Open | Closing | Closed

  /** A frame of the agent was accepted while a disconnect's failure frame for the same job waited. Frames are
      named by their stamps. */
  datatype Crossing = Crossing(failure: nat, accepted: nat)

  /** The state of one job. The last four are histories: the frames the consumer has received, whether any
      put ever had to wait, whether a waiting frame of the agent was dropped, and which frames were accepted
      while which failures waited. */
  datatype Job = Job(
    agent: nat,
    session: nat,
    kind: Kind,
    queue: seq<Frame>,
    putters: map<Owner, Frame>,
    nextSequence: nat,
    cancelSent: bool,
    phase: Phase,
    delivered: seq<Frame>,
    waited: bool,
    dropped: bool,
    crossings: set<Crossing>)

  function NewJob(agent: nat, session: nat, kind: Kind): Job {
    Job(agent, session, kind, [], map[], 1, false, Open, [], false, false, {})
  }

  // ---------------------------------------------------------------------------------------------
  // Operations
  // ---------------------------------------------------------------------------------------------

  function Put(j: Job, owner: Owner, f: Frame): Job {
    if |j.queue| < MAX_EVENTS then j.(queue := j.queue + [f])
    else j.(putters := j.putters[owner := f], waited := true)
  }

  predicate Waits(j: Job) {
    |j.queue| >= MAX_EVENTS
  }

  /** The next number is taken, at a moment when these failures wait. */
  function Take(j: Job, now: nat): Job {
    j.(nextSequence := j.nextSequence + 1,
       crossings := j.crossings + set o | o in j.putters && o.Failer? :: Crossing(j.putters[o].stamp, now))
  }

  /** A frame from the agent: in sequence it is taken and counted, out of sequence it becomes a failure
      that carries the expected number. */
  function AcceptFrame(j: Job, reader: nat, sequence: nat, terminal: bool, now: nat): Job {
    if sequence != j.nextSequence
    then Put(j, Reader(reader), Frame(OutOfOrder, j.nextSequence, true, now))
    else Put(Take(j, now), Reader(reader), Frame(FromAgent, sequence, terminal, now))
  }

  function FailJob(j: Job, failer: nat, now: nat): Job {
    Put(j, Failer(failer), Frame(Disconnected, j.nextSequence, true, now))
  }

  function Wake(j: Job, owner: Owner): Job
    requires owner in j.putters
  {
    j.(queue := j.queue + [j.putters[owner]], putters := j.putters - {owner})
  }

  /** The reader's task was cancelled while it waited: its frame is lost. */
  function CancelPut(j: Job, owner: Owner): Job
    requires owner in j.putters
  {
    j.(putters := j.putters - {owner}, dropped := j.dropped || j.putters[owner].origin.FromAgent?)
  }

  function Deliver(j: Job): Job
    requires |j.queue| > 0
  {
    var f := j.queue[0];
    j.(queue := j.queue[1..], delivered := j.delivered + [f], phase := if f.terminal then Closing else j.phase)
  }

  // ---------------------------------------------------------------------------------------------
  // Invariant
  // ---------------------------------------------------------------------------------------------

  /** Everything that has entered the queue, in order. */
  function Stream(j: Job): seq<Frame> {
    j.delivered + j.queue
  }

  predicate FrameSound(f: Frame, j: Job, clock: nat) {
    && f.stamp < clock && 1 <= f.sequence
    && (if f.origin.FromAgent? then f.sequence < j.nextSequence else f.terminal && f.sequence <= j.nextSequence)
  }

  /** Numbers agree with the order of acceptance: later frames of the agent have larger numbers, and a
      failure has a larger number than exactly the frames accepted before it was made. */
  predicate Coherent(f: Frame, g: Frame) {
    && (f.origin.FromAgent? && g.origin.FromAgent? && f.stamp < g.stamp ==> f.sequence < g.sequence)
    && (f.origin.FromAgent? && !g.origin.FromAgent? ==> (f.sequence < g.sequence <==> f.stamp < g.stamp))
  }

  predicate BothCoherent(f: Frame, g: Frame) {
    Coherent(f, g) && Coherent(g, f) && f.stamp != g.stamp
  }

  /** What holds between a frame in the stream and one that still waits. */
  predicate Behind(f: Frame, waiting: Frame) {
    BothCoherent(f, waiting) && (f.origin.FromAgent? && waiting.origin.FromAgent? ==> f.stamp < waiting.stamp)
  }

  predicate NoTerminal(s: seq<Frame>) {
    forall i :: 0 <= i < |s| ==> !s[i].terminal
  }

  predicate InOrder(s: seq<Frame>) {
    forall i, k :: 0 <= i < k < |s| ==>
      BothCoherent(s[i], s[k]) && (s[i].origin.FromAgent? && s[k].origin.FromAgent? ==> s[i].stamp < s[k].stamp)
  }

  /** Number k + 1 at place k, up to the first terminal frame; the gateway's own frames count only if asked. */
  predicate Numbered(s: seq<Frame>, all: bool) {
    forall k :: 0 <= k < |s| && NoTerminal(s[..k]) && (all || s[k].origin.FromAgent?) ==> s[k].sequence == k + 1
  }

  function AgentPutters(j: Job): nat {
    if exists o :: o in j.putters && j.putters[o].origin.FromAgent? then 1 else 0
  }

  ghost predicate JobInv(j: Job, clock: nat) {
    Sound(j, clock) && Ordered(j)
  }

  ghost predicate Sound(j: Job, clock: nat) {
    && Consistent(j, clock)
    && Counted(j)
  }

  predicate Crossed(j: Job, failure: Frame, g: Frame) {
    failure.origin.Disconnected? && Crossing(failure.stamp, g.stamp) in j.crossings
  }

  /** A frame of the agent is in the stream ahead of an older one only if that one is a disconnect's failure,
      and it was accepted while the failure waited. */
  predicate Ordered(j: Job) {
    var s := Stream(j);
    && (forall c :: c in j.crossings ==> c.failure < c.accepted)
    && (forall i, k :: 0 <= i < k < |s| && s[i].origin.FromAgent? && s[i].stamp > s[k].stamp ==> Crossed(j, s[k], s[i]))
    && (forall i, o :: 0 <= i < |s| && o in j.putters && s[i].origin.FromAgent? && s[i].stamp > j.putters[o].stamp
          ==> Crossed(j, j.putters[o], s[i]))
    && (forall o, p :: o in j.putters && p in j.putters && j.putters[p].origin.FromAgent?
                       && j.putters[p].stamp > j.putters[o].stamp
          ==> Crossed(j, j.putters[o], j.putters[p]))
  }

  /** While nothing was dropped and no terminal frame is in, every number given out is in the stream or waits. */
  predicate Counted(j: Job) {
    !j.dropped && NoTerminal(Stream(j)) ==> |Stream(j)| + AgentPutters(j) == j.nextSequence - 1
  }

  ghost predicate Consistent(j: Job, clock: nat) {
    var s := Stream(j);
    && 1 <= j.nextSequence && |j.queue| <= MAX_EVENTS
    && (forall i :: 0 <= i < |s| ==> FrameSound(s[i], j, clock))
    && (forall o :: o in j.putters ==> FrameSound(j.putters[o], j, clock))
    && (forall o :: o in j.putters ==> (o.Failer? <==> j.putters[o].origin.Disconnected?))
    && (forall o :: o in j.putters && j.putters[o].origin.FromAgent? ==> j.putters[o].sequence == j.nextSequence - 1)
    && (forall o, p :: o in j.putters && p in j.putters && o.Reader? && p.Reader? ==> o == p)
    && (forall o, p :: o in j.putters && p in j.putters && o != p ==> BothCoherent(j.putters[o], j.putters[p]))
    && (forall i, o :: 0 <= i < |s| && o in j.putters ==> Behind(s[i], j.putters[o]))
    && InOrder(s)
    && (j.phase == Open ==> NoTerminal(j.delivered))
    && (forall i :: 0 <= i < |j.delivered| - 1 ==> !j.delivered[i].terminal)
    && (!j.waited ==> j.putters == map[] && Numbered(s, true))
    && (!j.dropped ==> Numbered(s, false))
    && (j.dropped ==> j.waited)
  }

  // ---------------------------------------------------------------------------------------------
  // What the consumer receives
  // ---------------------------------------------------------------------------------------------

  predicate StrictlyIncreasing(s: seq<Frame>) {
    forall i, k :: 0 <= i < k < |s| ==> s[i].sequence < s[k].sequence
  }

  /** The closing failure frame was overtaken: a frame accepted after it was made was delivered before it. */
  predicate Overtaken(s: seq<Frame>) {
    |s| > 0 && !s[|s| - 1].origin.FromAgent? && exists i :: 0 <= i < |s| - 1 && s[i].stamp > s[|s| - 1].stamp
  }

  /** The gateway's own frames and terminal frames come last. */
  predicate EndsAtTerminal(s: seq<Frame>) {
    forall i :: 0 <= i < |s| - 1 ==> !s[i].terminal && s[i].origin.FromAgent?
  }

  /** Numbers 1, 2, 3, ...; the gateway's own frames count only if asked. */
  predicate Contiguous(s: seq<Frame>, all: bool) {
    forall k :: 0 <= k < |s| && (all || s[k].origin.FromAgent?) ==> s[k].sequence == k + 1
  }

  lemma DeliveredPair(j: Job, clock: nat, i: nat, k: nat)
    requires Consistent(j, clock) && i < k < |j.delivered|
    ensures j.delivered[i].origin.FromAgent? && !j.delivered[i].terminal
    ensures j.delivered[k].origin.FromAgent? ==> j.delivered[i].sequence < j.delivered[k].sequence
    ensures !j.delivered[k].origin.FromAgent? ==>
              (j.delivered[i].sequence < j.delivered[k].sequence <==> !(j.delivered[i].stamp > j.delivered[k].stamp))
  {
    var d, s := j.delivered, Stream(j);
    assert d[i] == s[i] && d[k] == s[k];
    assert FrameSound(s[i], j, clock) && BothCoherent(s[i], s[k]);
  }

  /** For arbitrary frames from the agent: only the last frame delivered is terminal, and the agent's own
      frames before it strictly increase. All of them strictly increase exactly if no frame of the agent
      overtook the gateway's closing failure. */
  lemma DeliveredFrames(j: Job, clock: nat)
    requires Consistent(j, clock)
    ensures EndsAtTerminal(j.delivered)
    ensures StrictlyIncreasing(j.delivered) <==> !Overtaken(j.delivered)
    ensures |j.delivered| > 0 ==> StrictlyIncreasing(j.delivered[..|j.delivered| - 1])
  {
    var d := j.delivered;
    forall i, k | 0 <= i < k < |d|
      ensures d[i].origin.FromAgent? && !d[i].terminal
      ensures d[k].origin.FromAgent? ==> d[i].sequence < d[k].sequence
      ensures !d[k].origin.FromAgent? ==> (d[i].sequence < d[k].sequence <==> !(d[i].stamp > d[k].stamp))
    {
      DeliveredPair(j, clock, i, k);
    }
    forall i | 0 <= i < |d| - 1 ensures !d[i].terminal && d[i].origin.FromAgent? {
      DeliveredPair(j, clock, i, |d| - 1);
    }
  }

  /** A frame's number is its place, as long as nothing was dropped (for the agent's own frames) or no put
      had to wait (for all of them, the closing frame included). */
  lemma NothingMissing(j: Job, clock: nat, all: bool)
    requires Consistent(j, clock) && (if all then !j.waited else !j.dropped)
    ensures Contiguous(j.delivered, all)
  {
    var d, s := j.delivered, Stream(j);
    forall k | 0 <= k < |d| && (all || d[k].origin.FromAgent?) ensures d[k].sequence == k + 1 {
      assert forall i :: 0 <= i < k ==> s[..k][i] == d[i];
      assert s[k] == d[k];
    }
  }

  /** The frames delivered end with a disconnect's failure, and one of the others was accepted while that
      failure waited for a place in the queue. */
  predicate FailureCrossed(j: Job) {
    var d := j.delivered;
    && |d| > 0 && d[|d| - 1].origin.Disconnected?
    && exists i :: 0 <= i < |d| - 1 && Crossing(d[|d| - 1].stamp, d[i].stamp) in j.crossings
  }

  /** So a closing frame is overtaken exactly by an agent that goes on while a disconnect waits. */
  lemma OvertakenExactlyWhen(j: Job)
    requires Ordered(j) && EndsAtTerminal(j.delivered)
    ensures Overtaken(j.delivered) <==> FailureCrossed(j)
  {
    var d, s := j.delivered, Stream(j);
    if Overtaken(d) {
      var i :| 0 <= i < |d| - 1 && d[i].stamp > d[|d| - 1].stamp;
      assert s[i] == d[i] && s[|d| - 1] == d[|d| - 1];
      assert Crossed(j, d[|d| - 1], d[i]);
    }
    if FailureCrossed(j) {
      var i :| 0 <= i < |d| - 1 && Crossing(d[|d| - 1].stamp, d[i].stamp) in j.crossings;
      assert d[i].stamp > d[|d| - 1].stamp;
    }
  }

  lemma ConsumerReceives(j: Job, clock: nat)
    requires JobInv(j, clock)
    ensures EndsAtTerminal(j.delivered)
    ensures StrictlyIncreasing(j.delivered) <==> !FailureCrossed(j)
    ensures |j.delivered| > 0 ==> StrictlyIncreasing(j.delivered[..|j.delivered| - 1])
    ensures !j.dropped ==> Contiguous(j.delivered, false)
    ensures !j.waited ==> Contiguous(j.delivered, true)
  {
    DeliveredFrames(j, clock);
    OvertakenExactlyWhen(j);
    if !j.dropped { NothingMissing(j, clock, false); }
    if !j.waited { NothingMissing(j, clock, true); }
  }

  // ---------------------------------------------------------------------------------------------
  // Every operation keeps it
  // ---------------------------------------------------------------------------------------------

  lemma LaterSound(j: Job, clock: nat, later: nat)
    requires Sound(j, clock) && clock <= later
    ensures Sound(j, later)
  {
  }

  predicate NoReaderWaits(j: Job) {
    forall o :: o in j.putters ==> o.Failer?
  }

  lemma PrefixNoTerminal(s: seq<Frame>, f: Frame, k: nat)
    requires k <= |s|
    ensures NoTerminal((s + [f])[..k]) <==> NoTerminal(s[..k])
  {
    assert (s + [f])[..k] == s[..k];
  }

  lemma NumberedExtended(s: seq<Frame>, f: Frame, all: bool)
    requires Numbered(s, all)
    requires NoTerminal(s) && (all || f.origin.FromAgent?) ==> f.sequence == |s| + 1
    ensures Numbered(s + [f], all)
  {
    forall k | 0 <= k < |s| + 1 && NoTerminal((s + [f])[..k]) && (all || (s + [f])[k].origin.FromAgent?)
      ensures (s + [f])[k].sequence == k + 1
    {
      PrefixNoTerminal(s, f, k);
      assert k == |s| ==> s[..k] == s;
    }
  }

  /** A frame may enter the queue if it fits what is in the stream and what waits. */
  lemma EnterSound(j: Job, f: Frame, clock: nat)
    requires Consistent(j, clock) && |j.queue| < MAX_EVENTS && FrameSound(f, j, clock)
    requires forall i :: 0 <= i < |Stream(j)| ==> Behind(Stream(j)[i], f)
    requires forall o :: o in j.putters ==> Behind(f, j.putters[o])
    requires !j.waited && NoTerminal(Stream(j)) ==> f.sequence == |Stream(j)| + 1
    requires !j.dropped && NoTerminal(Stream(j)) && f.origin.FromAgent? ==> f.sequence == |Stream(j)| + 1
    ensures var k := j.(queue := j.queue + [f]);
      Stream(k) == Stream(j) + [f] && Consistent(k, clock)
  {
    var k := j.(queue := j.queue + [f]);
    var s := Stream(j);
    assert Stream(k) == s + [f];
    if !j.waited { NumberedExtended(s, f, true); }
    if !j.dropped { NumberedExtended(s, f, false); }
  }

  lemma EndsInTerminal(s: seq<Frame>, f: Frame)
    ensures NoTerminal(s + [f]) <==> NoTerminal(s) && !f.terminal
  {
    assert (s + [f])[|s|] == f;
    assert forall i :: 0 <= i < |s| ==> (s + [f])[i] == s[i];
  }

  /** A put that must wait leaves the stream alone. */
  lemma WaitSound(j: Job, owner: Owner, f: Frame, clock: nat)
    requires Consistent(j, clock) && owner !in j.putters && FrameSound(f, j, clock)
    requires owner.Failer? <==> f.origin.Disconnected?
    requires owner.Reader? ==> NoReaderWaits(j)
    requires f.origin.FromAgent? ==> f.sequence == j.nextSequence - 1
    requires forall i :: 0 <= i < |Stream(j)| ==> Behind(Stream(j)[i], f)
    requires forall o :: o in j.putters ==> BothCoherent(j.putters[o], f)
    ensures Consistent(j.(putters := j.putters[owner := f], waited := true), clock)
  {
  }

  /** Taking the next number: the job as it is counted, before its frame is put. */
  lemma CountedOn(j: Job, clock: nat)
    requires Sound(j, clock) && NoReaderWaits(j)
    ensures var c := Take(j, clock);
      Stream(c) == Stream(j) && Consistent(c, clock + 1) && AgentPutters(j) == 0
  {
    var c := Take(j, clock);
    assert Stream(c) == Stream(j);
  }

  lemma Taken(j: Job, reader: nat, terminal: bool, clock: nat)
    ensures var f := Frame(FromAgent, j.nextSequence, terminal, clock);
      var c := Take(j, clock);
      AcceptFrame(j, reader, j.nextSequence, terminal, clock) ==
        if Waits(j) then c.(putters := c.putters[Reader(reader) := f], waited := true)
        else c.(queue := c.queue + [f])
  {
  }

  lemma TakeSound(j: Job, reader: nat, terminal: bool, clock: nat)
    requires Sound(j, clock) && NoReaderWaits(j)
    ensures Sound(AcceptFrame(j, reader, j.nextSequence, terminal, clock), clock + 1)
  {
    var f := Frame(FromAgent, j.nextSequence, terminal, clock);
    var c := Take(j, clock);
    Taken(j, reader, terminal, clock);
    CountedOn(j, clock);
    assert FrameSound(f, c, clock + 1);
    if Waits(j) {
      TakeWaits(j, c, Reader(reader), f, clock);
    } else {
      TakeEnters(j, c, f, clock);
    }
  }

  lemma TakeEnters(j: Job, c: Job, f: Frame, clock: nat)
    requires Counted(j) && AgentPutters(j) == 0 && NoReaderWaits(j) && !Waits(j)
    requires c == Take(j, clock) && Stream(c) == Stream(j) && Consistent(c, clock + 1)
    requires FrameSound(f, c, clock + 1) && f.origin.FromAgent? && f.sequence == j.nextSequence
    requires forall i :: 0 <= i < |Stream(j)| ==> Behind(Stream(j)[i], f)
    requires forall o :: o in j.putters ==> BothCoherent(j.putters[o], f)
    ensures Sound(c.(queue := c.queue + [f]), clock + 1)
  {
    forall o | o in c.putters ensures Behind(f, c.putters[o]) {
      assert BothCoherent(j.putters[o], f);
    }
    EnterSound(c, f, clock + 1);
    EndsInTerminal(Stream(j), f);
  }

  lemma TakeWaits(j: Job, c: Job, owner: Owner, f: Frame, clock: nat)
    requires Counted(j) && NoReaderWaits(j) && AgentPutters(j) == 0 && owner.Reader?
    requires c == Take(j, clock) && Consistent(c, clock + 1)
    requires FrameSound(f, c, clock + 1) && f.origin.FromAgent? && f.sequence == j.nextSequence
    requires forall i :: 0 <= i < |Stream(j)| ==> Behind(Stream(j)[i], f)
    requires forall o :: o in j.putters ==> BothCoherent(j.putters[o], f)
    ensures Sound(c.(putters := c.putters[owner := f], waited := true), clock + 1)
  {
    assert Stream(c) == Stream(j);
    WaitSound(c, owner, f, clock + 1);
    var k := c.(putters := c.putters[owner := f], waited := true);
    assert k.putters[owner] == f;
    assert Stream(k) == Stream(j);
  }

  /** Putting a failure frame that carries the expected number. */
  lemma FailureSound(j: Job, owner: Owner, f: Frame, clock: nat)
    requires Sound(j, clock) && owner !in j.putters
    requires owner.Reader? ==> NoReaderWaits(j)
    requires f == Frame(if owner.Reader? then OutOfOrder else Disconnected, j.nextSequence, true, clock)
    ensures Sound(Put(j, owner, f), clock + 1)
  {
    LaterSound(j, clock, clock + 1);
    if Waits(j) {
      WaitSound(j, owner, f, clock + 1);
      SameAgentPutters(j, owner, f);
    } else {
      FailureEnters(j, f, clock);
    }
  }

  lemma SameAgentPutters(j: Job, owner: Owner, f: Frame)
    requires owner !in j.putters && !f.origin.FromAgent? && Counted(j)
    ensures Counted(j.(putters := j.putters[owner := f], waited := true))
  {
    var k := j.(putters := j.putters[owner := f], waited := true);
    assert Stream(k) == Stream(j);
    if o :| o in j.putters && j.putters[o].origin.FromAgent? { assert o in k.putters && k.putters[o] == j.putters[o]; }
  }

  lemma FailureEnters(j: Job, f: Frame, clock: nat)
    requires Sound(j, clock + 1) && !Waits(j) && FrameSound(f, j, clock + 1) && !f.origin.FromAgent?
    requires f.sequence == j.nextSequence
    requires forall i :: 0 <= i < |Stream(j)| ==> Behind(Stream(j)[i], f)
    requires forall o :: o in j.putters ==> BothCoherent(j.putters[o], f)
    ensures Sound(j.(queue := j.queue + [f]), clock + 1)
  {
    EnterSound(j, f, clock + 1);
    EndsInTerminal(Stream(j), f);
  }

  lemma AcceptSound(j: Job, reader: nat, sequence: nat, terminal: bool, clock: nat)
    requires Sound(j, clock) && NoReaderWaits(j)
    ensures Sound(AcceptFrame(j, reader, sequence, terminal, clock), clock + 1)
  {
    if sequence == j.nextSequence {
      TakeSound(j, reader, terminal, clock);
    } else {
      FailureSound(j, Reader(reader), Frame(OutOfOrder, j.nextSequence, true, clock), clock);
    }
  }

  lemma WithoutPutter(j: Job, owner: Owner, clock: nat)
    requires Consistent(j, clock) && owner in j.putters
    ensures var rest := j.(putters := j.putters - {owner});
      && Stream(rest) == Stream(j) && Consistent(rest, clock)
      && (forall o :: o in rest.putters ==> Behind(j.putters[owner], rest.putters[o]))
      && AgentPutters(rest) == (if j.putters[owner].origin.FromAgent? then 0 else AgentPutters(j))
      && (j.putters[owner].origin.FromAgent? ==> AgentPutters(j) == 1)
  {
    var rest := j.(putters := j.putters - {owner});
    assert Stream(rest) == Stream(j);
    forall o | o in rest.putters ensures Behind(j.putters[owner], rest.putters[o]) {
      assert o != owner && o in j.putters;
      assert BothCoherent(j.putters[owner], j.putters[o]);
    }
    if o :| o in j.putters && j.putters[o].origin.FromAgent? {
      if o != owner { assert o in rest.putters && rest.putters[o] == j.putters[o]; }
    }
  }

  lemma WakeSound(j: Job, owner: Owner, clock: nat)
    requires Sound(j, clock) && owner in j.putters && |j.queue| < MAX_EVENTS
    ensures Sound(Wake(j, owner), clock)
  {
    var f := j.putters[owner];
    var rest := j.(putters := j.putters - {owner});
    WithoutPutter(j, owner, clock);
    assert FrameSound(f, j, clock);
    assert forall i :: 0 <= i < |Stream(j)| ==> Behind(Stream(j)[i], f);
    EnterSound(rest, f, clock);
    EndsInTerminal(Stream(j), f);
  }

  lemma CancelSound(j: Job, owner: Owner, clock: nat)
    requires Sound(j, clock) && owner in j.putters && owner.Reader?
    ensures Sound(CancelPut(j, owner), clock)
  {
    WithoutPutter(j, owner, clock);
    assert Stream(CancelPut(j, owner)) == Stream(j);
  }

  lemma DeliverSound(j: Job, clock: nat)
    requires Sound(j, clock) && |j.queue| > 0 && j.phase == Open
    ensures Sound(Deliver(j), clock) && Stream(Deliver(j)) == Stream(j)
  {
    var k := Deliver(j);
    assert Stream(k) == Stream(j);
    EndsInTerminal(j.delivered, j.queue[0]);
  }

  // ---------------------------------------------------------------------------------------------
  // Every operation keeps the order as well
  // ---------------------------------------------------------------------------------------------

  lemma EnterOrdered(j: Job, f: Frame)
    requires Ordered(j)
    requires forall i :: 0 <= i < |Stream(j)| && Stream(j)[i].origin.FromAgent? && Stream(j)[i].stamp > f.stamp
               ==> Crossed(j, f, Stream(j)[i])
    requires forall o :: o in j.putters && f.origin.FromAgent? && f.stamp > j.putters[o].stamp
               ==> Crossed(j, j.putters[o], f)
    ensures Ordered(j.(queue := j.queue + [f]))
  {
    assert Stream(j.(queue := j.queue + [f])) == Stream(j) + [f];
  }

  lemma WaitOrdered(j: Job, owner: Owner, f: Frame)
    requires Ordered(j) && owner !in j.putters
    requires forall i :: 0 <= i < |Stream(j)| && Stream(j)[i].origin.FromAgent? && Stream(j)[i].stamp > f.stamp
               ==> Crossed(j, f, Stream(j)[i])
    requires forall o :: o in j.putters ==>
               && j.putters[o].stamp <= f.stamp
               && (f.origin.FromAgent? && f.stamp > j.putters[o].stamp ==> Crossed(j, j.putters[o], f))
    ensures Ordered(j.(putters := j.putters[owner := f], waited := true))
  {
    assert Stream(j.(putters := j.putters[owner := f], waited := true)) == Stream(j);
  }

  lemma PutOrdered(j: Job, owner: Owner, f: Frame)
    requires Ordered(j) && owner !in j.putters
    requires forall i :: 0 <= i < |Stream(j)| ==> Stream(j)[i].stamp <= f.stamp
    requires forall o :: o in j.putters ==> j.putters[o].stamp <= f.stamp
    requires f.origin.FromAgent? ==> forall o :: o in j.putters ==> Crossed(j, j.putters[o], f)
    ensures Ordered(Put(j, owner, f))
  {
    if Waits(j) { WaitOrdered(j, owner, f); } else { EnterOrdered(j, f); }
  }

  lemma TakeOrdered(j: Job, clock: nat)
    requires JobInv(j, clock) && NoReaderWaits(j)
    ensures Ordered(Take(j, clock))
    ensures forall o :: o in j.putters ==> Crossing(j.putters[o].stamp, clock) in Take(j, clock).crossings
  {
    assert Stream(Take(j, clock)) == Stream(j);
  }

  lemma LaterInv(j: Job, clock: nat, later: nat)
    requires JobInv(j, clock) && clock <= later
    ensures JobInv(j, later)
  {
    LaterSound(j, clock, later);
  }

  lemma AcceptInv(j: Job, reader: nat, sequence: nat, terminal: bool, clock: nat)
    requires JobInv(j, clock) && NoReaderWaits(j)
    ensures JobInv(AcceptFrame(j, reader, sequence, terminal, clock), clock + 1)
  {
    AcceptSound(j, reader, sequence, terminal, clock);
    if sequence == j.nextSequence {
      TakeOrdered(j, clock);
      assert Stream(Take(j, clock)) == Stream(j);
      PutOrdered(Take(j, clock), Reader(reader), Frame(FromAgent, sequence, terminal, clock));
    } else {
      PutOrdered(j, Reader(reader), Frame(OutOfOrder, j.nextSequence, true, clock));
    }
  }

  /** Putting a disconnect's failure. */
  lemma FailInv(j: Job, failer: nat, clock: nat)
    requires JobInv(j, clock) && Failer(failer) !in j.putters
    ensures JobInv(FailJob(j, failer, clock), clock + 1)
  {
    var f := Frame(Disconnected, j.nextSequence, true, clock);
    FailureSound(j, Failer(failer), f, clock);
    PutOrdered(j, Failer(failer), f);
  }

  lemma WithoutPutterOrdered(j: Job, owner: Owner, dropped: bool)
    requires Ordered(j)
    ensures Ordered(j.(putters := j.putters - {owner}, dropped := dropped))
  {
    assert Stream(j.(putters := j.putters - {owner}, dropped := dropped)) == Stream(j);
  }

  lemma WakeInv(j: Job, owner: Owner, clock: nat)
    requires JobInv(j, clock) && owner in j.putters && |j.queue| < MAX_EVENTS
    ensures JobInv(Wake(j, owner), clock)
  {
    var rest := j.(putters := j.putters - {owner});
    WakeSound(j, owner, clock);
    WithoutPutterOrdered(j, owner, j.dropped);
    assert Stream(rest) == Stream(j);
    EnterOrdered(rest, j.putters[owner]);
  }

  lemma CancelInv(j: Job, owner: Owner, clock: nat)
    requires JobInv(j, clock) && owner in j.putters && owner.Reader?
    ensures JobInv(CancelPut(j, owner), clock)
  {
    CancelSound(j, owner, clock);
    WithoutPutterOrdered(j, owner, CancelPut(j, owner).dropped);
  }

  /** A job may be closed, and its cancellation noted, without further ado. */
  lemma RestatedInv(j: Job, phase: Phase, cancelSent: bool, clock: nat)
    requires JobInv(j, clock) && (phase == j.phase || phase == Closed)
    ensures JobInv(j.(phase := phase, cancelSent := cancelSent), clock)
  {
    RestatedSound(j, phase, cancelSent, clock);
    RestatedOrdered(j, phase, cancelSent);
  }

  lemma RestatedOrdered(j: Job, phase: Phase, cancelSent: bool)
    requires Ordered(j)
    ensures Ordered(j.(phase := phase, cancelSent := cancelSent))
  {
    assert Stream(j.(phase := phase, cancelSent := cancelSent)) == Stream(j);
  }

  lemma RestatedSound(j: Job, phase: Phase, cancelSent: bool, clock: nat)
    requires Sound(j, clock) && (phase == j.phase || phase == Closed)
    ensures Sound(j.(phase := phase, cancelSent := cancelSent), clock)
  {
    assert Stream(j.(phase := phase, cancelSent := cancelSent)) == Stream(j);
  }

  lemma DeliverInv(j: Job, clock: nat)
    requires JobInv(j, clock) && |j.queue| > 0 && j.phase == Open
    ensures JobInv(Deliver(j), clock) && Stream(Deliver(j)) == Stream(j)
  {
    DeliverSound(j, clock);
    DeliverOrdered(j);
  }

  lemma DeliverOrdered(j: Job)
    requires Ordered(j) && |j.queue| > 0
    ensures Ordered(Deliver(j))
  {
    var k := Deliver(j);
    assert Stream(k) == Stream(j) by { assert [j.queue[0]] + j.queue[1..] == j.queue; }
    assert k.putters == j.putters && k.crossings == j.crossings;
  }
}
