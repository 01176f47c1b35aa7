/** Counters, the in-flight gauge, the bounded event buffer and the bounded export queue of the control
    plane. Calls of several threads interleave; each call below is one critical section. */
module Telemetry {

  const MAX_DURATION: nat := 86_400_000

  const COMPONENTS: set<string> := {"controlplane", "agent", "cli"}
  const KINDS: set<string> := {"diagnostic", "kubernetes_release", "deploy", "health", "backup", "restore", "graphql"}
  const OUTCOMES: set<string> :=
    {"pending", "running", "succeeded", "failed", "cancelled", "offline", "overloaded", "disconnected", "timeout",
     "rolled_back", "rollback_blocked", "recovery_required"}

  datatype Key = Key(component: string, kind: string)
  datatype Labels = Labels(key: Key, outcome: string)

  /** A duration in milliseconds, clamped to a day. */
  type Millis = n: nat | n <= MAX_DURATION

  datatype Event = Event(labels: Labels, duration: Millis, project: Project)
  datatype Project = NoProject | Of(id: int)

  function KeyOf(component: string, kind: string): Key {
    Key(if component in COMPONENTS then component else "controlplane", if kind in KINDS then kind else "diagnostic")
  }

  function LabelsOf(component: string, kind: string, outcome: string): Labels {
    Labels(KeyOf(component, kind), if outcome in OUTCOMES then outcome else "failed")
  }

  function Clamp(low: int, high: int, x: int): int {
    if x < low then low else if x > high then high else x
  }

  /** The values shared by all threads. `taken` is a history: what the export worker has removed. */
  datatype State = State(
    size: nat,
    exporting: bool,
    counts: map<Labels, nat>,
    durations: map<Labels, nat>,
    inflight: map<Key, nat>,
    events: seq<Event>,
    exports: seq<Event>,
    dropped: nat,
    taken: seq<Event>)

  /** `Enqueue` is the second half of an observation, after the counters were updated. */
  datatype Call =
    | Start(key: Key)
    | Observe(event: Event, finishes: bool)
    | Enqueue(event: Event)
    | Take

  function Initial(size: nat, exporting: bool): State {
    State(size, exporting, map[], map[], map[], [], [], 0, [])
  }

  function Get<K>(m: map<K, nat>, k: K): nat {
    if k in m then m[k] else 0
  }

  function LastOf<T>(s: seq<T>, n: nat): seq<T> {
    if |s| <= n then s else s[|s| - n..]
  }

  function Record(s: State, e: Event, finishes: bool): State {
    var key := e.labels.key;
    s.(counts := s.counts[e.labels := Get(s.counts, e.labels) + 1],
       durations := s.durations[e.labels := Get(s.durations, e.labels) + e.duration],
       inflight := if finishes then s.inflight[key := Clamp(0, Get(s.inflight, key), Get(s.inflight, key) - 1)]
                   else s.inflight,
       events := LastOf(s.events + [e], s.size))
  }

  function Apply(s: State, call: Call): State {
    match call
    case Start(key) => s.(inflight := s.inflight[key := Get(s.inflight, key) + 1])
    case Observe(e, finishes) => Record(s, e, finishes)
    case Enqueue(e) =>
      if !s.exporting then s
      else if |s.exports| >= s.size then s.(dropped := s.dropped + 1)
      else s.(exports := s.exports + [e])
    case Take => if s.exports == [] then s else s.(exports := s.exports[1..], taken := s.taken + [s.exports[0]])
  }

  function Run(s: State, calls: seq<Call>): State {
    if calls == [] then s else Apply(Run(s, calls[..|calls| - 1]), calls[|calls| - 1])
  }

  // ---------------------------------------------------------------------------------------------
  // The object
  // ---------------------------------------------------------------------------------------------

  class Recorder {
    const size: nat
    const exporting: bool
    var counts: map<Labels, nat>
    var durations: map<Labels, nat>
    var inflight: map<Key, nat>
    var events: seq<Event>
    var exports: seq<Event>
    var dropped: nat
    ghost var taken: seq<Event>

    ghost function View(): State
      reads this
    {
      State(size, exporting, counts, durations, inflight, events, exports, dropped, taken)
    }

    predicate Valid()
      reads this
    {
      0 < size && |events| <= size
    }

    constructor (maxBuffer: int, hasEndpoint: bool)
      ensures View() == Initial(Clamp(8, 1024, maxBuffer), hasEndpoint)
      ensures Valid() && 8 <= size <= 1024
    {
      size, exporting := Clamp(8, 1024, maxBuffer), hasEndpoint;
      counts, durations, inflight, events, exports, dropped, taken := map[], map[], map[], [], [], 0, [];
    }

    method Begin(component: string, kind: string)
      modifies this
      ensures events == old(events) && View() == Apply(old(View()), Start(KeyOf(component, kind)))
    {
      var key := KeyOf(component, kind);
      inflight := inflight[key := Get(inflight, key) + 1];
    }

    method AppendEvent(event: Event)
      requires Valid()
      modifies this`events
      ensures Valid() && events == LastOf(old(events) + [event], size)
    {
      if |events| == size { events := events[1..]; }
      events := events + [event];
    }

    method Store(event: Event, finishes: bool)
      requires Valid()
      modifies this
      ensures Valid() && View() == Apply(old(View()), Observe(event, finishes))
    {
      AppendEvent(event);
      counts := counts[event.labels := Get(counts, event.labels) + 1];
      durations := durations[event.labels := Get(durations, event.labels) + event.duration];
      if finishes {
        var current := Get(inflight, event.labels.key);
        inflight := inflight[event.labels.key := if current > 0 then current - 1 else 0];
      }
    }

    /** The part of an observation under the lock. */
    method Observation(component: string, kind: string, outcome: string, duration: int, project: Project,
                       finishes: bool)
      returns (event: Event)
      requires Valid()
      modifies this
      ensures event == Event(LabelsOf(component, kind, outcome), Clamp(0, MAX_DURATION, duration), project)
      ensures Valid() && View() == Apply(old(View()), Observe(event, finishes))
    {
      event := Event(LabelsOf(component, kind, outcome), Clamp(0, MAX_DURATION, duration), project);
      Store(event, finishes);
    }

    /** Finishing measures the time since the start, never less than nothing and at most a day. */
    method Finish(component: string, kind: string, outcome: string, elapsed: real, project: Project)
      returns (event: Event)
      requires Valid()
      modifies this
      ensures event.labels == LabelsOf(component, kind, outcome) && event.project == project
      ensures event.duration <= MAX_DURATION
      ensures 0.0 <= elapsed && elapsed * 1000.0 < 86_400_000.0 ==>
                event.duration as real <= elapsed * 1000.0 < event.duration as real + 1.0
      ensures Valid() && View() == Apply(old(View()), Observe(event, true))
    {
      var milliseconds := ((if elapsed < 0.0 then 0.0 else elapsed) * 1000.0).Floor;
      event := Observation(component, kind, outcome,
                           if milliseconds > MAX_DURATION then MAX_DURATION else milliseconds, project, true);
    }

    method EnqueueExport(event: Event)
      modifies this
      ensures events == old(events) && View() == Apply(old(View()), Enqueue(event))
    {
      if !exporting { return; }
      if |exports| >= size {
        dropped := dropped + 1;
        return;
      }
      exports := exports + [event];
    }

    method TakeExport() returns (event: Event)
      requires exports != []
      modifies this
      ensures events == old(events) && View() == Apply(old(View()), Take) && event == old(exports)[0]
    {
      event := exports[0];
      exports := exports[1..];
      taken := taken + [event];
    }

    /** The project's latest events still in the buffer: all of them, or as many as asked for, 1 to 50. */
    method RecentForProject(project: int, limit: int) returns (recent: seq<Event>)
      ensures recent == LastOf(OfProject(events, project), Clamp(1, 50, limit))
    {
      var values := [];
      var i := 0;
      while i < |events|
        invariant 0 <= i <= |events| && values == OfProject(events[..i], project)
      {
        assert events[..i + 1][..i] == events[..i];
        if events[i].project == Of(project) { values := values + [events[i]]; }
        i := i + 1;
      }
      assert events[..i] == events;
      recent := LastOf(values, Clamp(1, 50, limit));
    }
  }

  function OfProject(events: seq<Event>, project: int): seq<Event> {
    if events == [] then []
    else
      OfProject(events[..|events| - 1], project) +
      (if events[|events| - 1].project == Of(project) then [events[|events| - 1]] else [])
  }

  // ---------------------------------------------------------------------------------------------
  // Labels and projects
  // ---------------------------------------------------------------------------------------------

  /** A label that may be used is used, and any other becomes the default of its kind: no metric ever carries
      text from outside the allow lists. */
  lemma LabelsAreAllowed(component: string, kind: string, outcome: string)
    ensures var l := LabelsOf(component, kind, outcome);
      && l.key == KeyOf(component, kind)
      && l.key.component in COMPONENTS && l.key.kind in KINDS && l.outcome in OUTCOMES
      && (if component in COMPONENTS then l.key.component == component else l.key.component == "controlplane")
      && (if kind in KINDS then l.key.kind == kind else l.key.kind == "diagnostic")
      && (if outcome in OUTCOMES then l.outcome == outcome else l.outcome == "failed")
  {
  }

  /** The places of a project's events, in ascending order. */
  function PlacesOf(events: seq<Event>, project: int): (places: seq<nat>)
    ensures forall i :: 0 <= i < |places| ==> places[i] < |events| && events[places[i]].project == Of(project)
    ensures forall i, j :: 0 <= i < j < |places| ==> places[i] < places[j]
    ensures forall n :: 0 <= n < |events| && events[n].project == Of(project) ==> n in places
  {
    if events == [] then []
    else
      var last := |events| - 1;
      var earlier := PlacesOf(events[..last], project);
      if events[last].project == Of(project) then earlier + [last] else earlier
  }

  /** A project sees its own events, all of them, in their order, and nobody else's. */
  lemma {:induction false} OfProjectIsItsEvents(events: seq<Event>, project: int)
    ensures var own := OfProject(events, project); var places := PlacesOf(events, project);
      |own| == |places| && forall i :: 0 <= i < |own| ==> own[i] == events[places[i]]
  {
    if events != [] { OfProjectIsItsEvents(events[..|events| - 1], project); }
  }

  // ---------------------------------------------------------------------------------------------
  // The in-flight gauge
  // ---------------------------------------------------------------------------------------------

  function Change(call: Call, key: Key): int {
    match call
    case Start(k) => if k == key then 1 else 0
    case Observe(e, finishes) => if finishes && e.labels.key == key then -1 else 0
    case _ => 0
  }

  /** Starts minus finishes. */
  function Balance(calls: seq<Call>, key: Key): int {
    if calls == [] then 0 else Balance(calls[..|calls| - 1], key) + Change(calls[|calls| - 1], key)
  }

  function Gauge(s: State, key: Key): nat {
    Get(s.inflight, key)
  }

  lemma GaugeStep(s: State, call: Call, key: Key)
    ensures Gauge(Apply(s, call), key)
            == (if Gauge(s, key) + Change(call, key) < 0 then 0 else Gauge(s, key) + Change(call, key))
  {
  }

  lemma SuffixBalance(calls: seq<Call>, key: Key, i: nat)
    requires i < |calls|
    ensures Balance(calls[i..], key) == Balance(calls[..|calls| - 1][i..], key) + Change(calls[|calls| - 1], key)
  {
    assert calls[i..][..|calls| - i - 1] == calls[..|calls| - 1][i..];
  }

  /** The gauge is the largest balance over all suffixes of the history, the empty one included. */
  lemma {:induction false} GaugeIsLargestBalance(size: nat, exporting: bool, calls: seq<Call>, key: Key)
    ensures var gauge := Gauge(Run(Initial(size, exporting), calls), key);
      && (forall i :: 0 <= i <= |calls| ==> Balance(calls[i..], key) <= gauge)
      && (exists i :: 0 <= i <= |calls| && Balance(calls[i..], key) == gauge)
  {
    var n := |calls|;
    if n == 0 {
      assert Balance(calls[0..], key) == 0;
    } else {
      var earlier, last := calls[..n - 1], calls[n - 1];
      var before := Gauge(Run(Initial(size, exporting), earlier), key);
      GaugeIsLargestBalance(size, exporting, earlier, key);
      GaugeStep(Run(Initial(size, exporting), earlier), last, key);
      assert Balance(calls[n..], key) == 0;
      forall i | 0 <= i < n ensures Balance(calls[i..], key) <= before + Change(last, key) {
        SuffixBalance(calls, key, i);
      }
      var i :| 0 <= i <= n - 1 && Balance(earlier[i..], key) == before;
      SuffixBalance(calls, key, i);
    }
  }

  lemma {:induction false} BalanceSplits(calls: seq<Call>, key: Key, i: nat)
    requires i <= |calls|
    ensures Balance(calls, key) == Balance(calls[..i], key) + Balance(calls[i..], key)
  {
    if i == |calls| {
      assert calls[..i] == calls;
    } else {
      BalanceSplits(calls[..|calls| - 1], key, i);
      assert calls[..|calls| - 1][..i] == calls[..i];
      SuffixBalance(calls, key, i);
    }
  }

  /** The gauge is exact, the number of operations started and not finished, if and only if there were at no
      time more finishes than starts. */
  lemma GaugeIsExactWhen(size: nat, exporting: bool, calls: seq<Call>, key: Key)
    ensures Gauge(Run(Initial(size, exporting), calls), key) == Balance(calls, key) <==>
            forall i :: 0 <= i <= |calls| ==> Balance(calls[..i], key) >= 0
  {
    var gauge := Gauge(Run(Initial(size, exporting), calls), key);
    GaugeIsLargestBalance(size, exporting, calls, key);
    forall i | 0 <= i <= |calls| ensures Balance(calls, key) == Balance(calls[..i], key) + Balance(calls[i..], key) {
      BalanceSplits(calls, key, i);
    }
    assert calls[0..] == calls;
    var k :| 0 <= k <= |calls| && Balance(calls[k..], key) == gauge;
  }

  // ---------------------------------------------------------------------------------------------
  // Counters
  // ---------------------------------------------------------------------------------------------

  /** The events observed, in order. */
  function Observed(calls: seq<Call>): seq<Event> {
    if calls == [] then []
    else
      Observed(calls[..|calls| - 1]) + (if calls[|calls| - 1].Observe? then [calls[|calls| - 1].event] else [])
  }

  function Times(events: seq<Event>, labels: Labels): nat {
    if events == [] then 0
    else Times(events[..|events| - 1], labels) + if events[|events| - 1].labels == labels then 1 else 0
  }

  function Duration(events: seq<Event>, labels: Labels): nat {
    if events == [] then 0
    else
      Duration(events[..|events| - 1], labels) +
      if events[|events| - 1].labels == labels then events[|events| - 1].duration else 0
  }

  lemma CounterStep(s: State, call: Call, labels: Labels)
    ensures var t := Apply(s, call); var hit := call.Observe? && call.event.labels == labels;
      && Get(t.counts, labels) == Get(s.counts, labels) + (if hit then 1 else 0)
      && Get(t.durations, labels) == Get(s.durations, labels) + (if hit then call.event.duration else 0)
  {
  }

  /** Each counter is the number of observations with its labels, and each duration their total. */
  lemma {:induction false} CountersAreExact(size: nat, exporting: bool, calls: seq<Call>, labels: Labels)
    ensures var s := Run(Initial(size, exporting), calls);
      && Get(s.counts, labels) == Times(Observed(calls), labels)
      && Get(s.durations, labels) == Duration(Observed(calls), labels)
  {
    if calls != [] {
      var earlier, last := calls[..|calls| - 1], calls[|calls| - 1];
      CountersAreExact(size, exporting, earlier, labels);
      CounterStep(Run(Initial(size, exporting), earlier), last, labels);
      if !last.Observe? { assert Observed(earlier) + [] == Observed(earlier); }
    }
  }

  lemma {:induction false} EventsAreBounded(events: seq<Event>, labels: Labels)
    ensures Duration(events, labels) <= MAX_DURATION * Times(events, labels)
  {
    if events != [] { EventsAreBounded(events[..|events| - 1], labels); }
  }

  /** Every recorded total is at most a day for each observation that was counted. */
  lemma DurationIsBounded(size: nat, exporting: bool, calls: seq<Call>, labels: Labels)
    ensures var s := Run(Initial(size, exporting), calls);
      Get(s.durations, labels) <= MAX_DURATION * Get(s.counts, labels)
  {
    CountersAreExact(size, exporting, calls, labels);
    EventsAreBounded(Observed(calls), labels);
  }

  lemma BufferStep(s: State, call: Call)
    ensures var t := Apply(s, call);
      t.size == s.size && t.events == if call.Observe? then LastOf(s.events + [call.event], s.size) else s.events
  {
  }

  /** The buffer holds the latest events, as many as fit. */
  lemma {:induction false} BufferHoldsLatest(size: nat, exporting: bool, calls: seq<Call>)
    requires size > 0
    ensures var s := Run(Initial(size, exporting), calls); s.size == size && s.events == LastOf(Observed(calls), size)
  {
    if calls != [] {
      var earlier, last := calls[..|calls| - 1], calls[|calls| - 1];
      var before := Run(Initial(size, exporting), earlier);
      BufferHoldsLatest(size, exporting, earlier);
      BufferStep(before, last);
      if last.Observe? {
        LatestOfLatest(Observed(earlier), last.event, size);
        assert Observed(calls) == Observed(earlier) + [last.event];
      } else {
        assert Observed(calls) == Observed(earlier);
      }
    }
  }

  lemma LatestOfLatest(events: seq<Event>, e: Event, n: nat)
    requires n > 0
    ensures LastOf(LastOf(events, n) + [e], n) == LastOf(events + [e], n)
  {
  }

  /** The sum of all entries. */
  ghost function Sum(m: map<Labels, nat>): nat {
    if m == map[] then 0 else var k :| k in m; m[k] + Sum(m - {k})
  }

  lemma {:induction false} SumWithout(m: map<Labels, nat>, k: Labels)
    requires k in m
    ensures Sum(m) == m[k] + Sum(m - {k})
    decreases |m|
  {
    var j :| j in m && Sum(m) == m[j] + Sum(m - {j});
    if j != k {
      SumWithout(m - {j}, k);
      SumWithout(m - {k}, j);
      assert m - {j} - {k} == m - {k} - {j};
    }
  }

  lemma SumIncremented(m: map<Labels, nat>, k: Labels)
    ensures Sum(m[k := Get(m, k) + 1]) == Sum(m) + 1
  {
    var n := m[k := Get(m, k) + 1];
    SumWithout(n, k);
    assert n - {k} == m - {k};
    if k in m { SumWithout(m, k); } else { assert m - {k} == m; }
  }

  /** All counters together count every observation once. */
  lemma {:induction false} CountersSumToObservations(size: nat, exporting: bool, calls: seq<Call>)
    ensures Sum(Run(Initial(size, exporting), calls).counts) == |Observed(calls)|
  {
    if calls != [] {
      var earlier, last := calls[..|calls| - 1], calls[|calls| - 1];
      CountersSumToObservations(size, exporting, earlier);
      if last.Observe? { SumIncremented(Run(Initial(size, exporting), earlier).counts, last.event.labels); }
    }
  }

  // ---------------------------------------------------------------------------------------------
  // The export queue
  // ---------------------------------------------------------------------------------------------

  /** The enqueue attempts of a history, in order. */
  function Attempts(calls: seq<Call>): nat {
    if calls == [] then 0 else Attempts(calls[..|calls| - 1]) + if calls[|calls| - 1].Enqueue? then 1 else 0
  }

  /** The attempts that found room. */
  function Admitted(s: State, calls: seq<Call>): seq<Event> {
    if calls == [] then []
    else
      var earlier, last := calls[..|calls| - 1], calls[|calls| - 1];
      Admitted(s, earlier) + if last.Enqueue? && |Run(s, earlier).exports| < s.size then [last.event] else []
  }

  /** Nothing is lost unaccounted for: the events taken, followed by those still queued, are exactly those
      that found room, in order; all the others are counted as dropped; the queue never exceeds its size. */
  lemma {:induction false} ExportsAreAccounted(size: nat, calls: seq<Call>)
    ensures var s := Run(Initial(size, true), calls);
      && s.taken + s.exports == Admitted(Initial(size, true), calls)
      && Attempts(calls) == s.dropped + |s.taken| + |s.exports|
      && |s.exports| <= size && s.size == size && s.exporting
  {
    if calls != [] {
      var earlier, last := calls[..|calls| - 1], calls[|calls| - 1];
      ExportsAreAccounted(size, earlier);
      var s := Run(Initial(size, true), earlier);
      if last.Enqueue? {
        assert s.taken + (s.exports + [last.event]) == (s.taken + s.exports) + [last.event];
      }
      if last.Take? && s.exports != [] {
        assert (s.taken + [s.exports[0]]) + s.exports[1..] == s.taken + s.exports;
      }
    }
  }
}
