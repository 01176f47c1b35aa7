/** The bounded memory of identifiers, which the repository writes three times: for finished jobs in the
    gateway and in the agent, and for events already counted. */
module FifoMemory {

  // ---------------------------------------------------------------------------------------------
  // Specification
  // ---------------------------------------------------------------------------------------------

  /** The memory after one more identifier: known ones change nothing, new ones push out the oldest. */
  function Remember<T(==)>(order: seq<T>, id: T, cap: nat): seq<T>
    requires cap > 0
  {
    if id in order then order
    else (if |order| >= cap then order[1..] else order) + [id]
  }

  /** The memory after a series of calls, oldest call first. */
  function Run<T(==)>(calls: seq<T>, cap: nat): seq<T>
    requires cap > 0
  {
    if calls == [] then [] else Remember(Run(calls[..|calls| - 1], cap), calls[|calls| - 1], cap)
  }

  /** The calls of a series that found their identifier unknown, in order. */
  function Insertions<T(==)>(calls: seq<T>, cap: nat): seq<T>
    requires cap > 0
  {
    if calls == [] then []
    else
      var earlier, last := calls[..|calls| - 1], calls[|calls| - 1];
      Insertions(earlier, cap) + (if last in Run(earlier, cap) then [] else [last])
  }

  function Last<T>(s: seq<T>, n: nat): seq<T> {
    if |s| <= n then s else s[|s| - n..]
  }

  predicate Distinct<T(==)>(s: seq<T>) {
    forall i, j :: 0 <= i < j < |s| ==> s[i] != s[j]
  }

  // ---------------------------------------------------------------------------------------------
  // Theorems
  // ---------------------------------------------------------------------------------------------

  /** The memory is always the most recent insertions, as many as fit, and it holds no duplicates. */
  lemma {:induction false} MemoryIsRecentInsertions<T>(calls: seq<T>, cap: nat)
    requires cap > 0
    ensures Run(calls, cap) == Last(Insertions(calls, cap), cap)
    ensures Distinct(Run(calls, cap)) && |Run(calls, cap)| <= cap
  {
    if calls != [] {
      var earlier, last := calls[..|calls| - 1], calls[|calls| - 1];
      MemoryIsRecentInsertions(earlier, cap);
      var before := Insertions(earlier, cap);
      if last !in Run(earlier, cap) {
        LastShifts(before, last, cap);
      } else {
        assert before + [] == before;
      }
    }
  }

  lemma LastShifts<T>(s: seq<T>, x: T, n: nat)
    requires n > 0
    ensures Last(s + [x], n) == (if |Last(s, n)| >= n then Last(s, n)[1..] else Last(s, n)) + [x]
  {
  }

  /** An identifier is remembered exactly until `cap` others have been inserted after it. */
  lemma RememberedExactlyFor<T>(calls: seq<T>, cap: nat, k: nat)
    requires cap > 0 && k < |Insertions(calls, cap)|
    requires Insertions(calls, cap)[k] !in Insertions(calls, cap)[k + 1..]
    ensures Insertions(calls, cap)[k] in Run(calls, cap) <==> |Insertions(calls, cap)| - k - 1 < cap
  {
    MemoryIsRecentInsertions(calls, cap);
  }

  // ---------------------------------------------------------------------------------------------
  // The three memories as written
  // ---------------------------------------------------------------------------------------------

  /** A set for lookups and a queue for eviction, kept in step. */
  ghost predicate InStep<T>(known: set<T>, order: seq<T>, cap: nat) {
    && Distinct(order) && |order| <= cap
    && (forall id :: id in known ==> id in order)
    && (forall i :: 0 <= i < |order| ==> order[i] in known)
  }

  /** Job IDs the gateway will not open again for diagnostics. */
  class CompletedJobs<T(==)> {
    const cap: nat
    var known: set<T>
    var order: seq<T>

    ghost predicate Valid()
      reads this
    {
      cap > 0 && InStep(known, order, cap)
    }

    constructor (limit: nat)
      requires limit > 0
      ensures Valid() && cap == limit && order == []
    {
      cap := limit;
      known, order := {}, [];
    }

    method RememberCompleted(id: T)
      requires Valid()
      modifies this
      ensures Valid() && order == Remember(old(order), id, cap)
    {
      if id in known { return; }
      if |order| >= cap {
        known := known - {order[0]};
        order := order[1..];
      }
      order := order + [id];
      known := known + {id};
    }
  }

  /** Job IDs the agent has finished; the map is created on first use. */
  class AgentCompleted<T(==)> {
    const cap: nat := 256
    var completed: map<T, bool>
    var completedOrder: seq<T>

    ghost predicate Valid()
      reads this
    {
      && InStep(completed.Keys, completedOrder, cap)
      && forall id :: id in completed ==> completed[id]
    }

    constructor ()
      ensures Valid() && completedOrder == []
    {
      completed, completedOrder := map[], [];
    }

    predicate WasCompleted(id: T)
      reads this
    {
      id in completed && completed[id]
    }

    method MarkCompleted(id: T)
      requires Valid()
      modifies this
      ensures Valid() && completedOrder == Remember(old(completedOrder), id, cap)
      ensures WasCompleted(id)
    {
      if WasCompleted(id) { return; }
      if |completedOrder| >= cap {
        var evicted := completedOrder[0];
        completedOrder := completedOrder[1..];
        completed := completed - {evicted};
      }
      completed := completed[id := true];
      completedOrder := completedOrder + [id];
    }
  }

  /** Event keys already counted; the caller learns whether the key was new. */
  class SeenKeys<T(==)> {
    const cap: nat := 2048
    var seen: set<T>
    var seenOrder: seq<T>

    ghost predicate Valid()
      reads this
    {
      InStep(seen, seenOrder, cap)
    }

    constructor ()
      ensures Valid() && seenOrder == []
    {
      seen, seenOrder := {}, [];
    }

    method RememberKey(key: T) returns (isNew: bool)
      requires Valid()
      modifies this
      ensures Valid() && seenOrder == Remember(old(seenOrder), key, cap)
      ensures isNew <==> key !in old(seenOrder)
    {
      if key in seen { return false; }
      if |seenOrder| >= cap {
        seen := seen - {seenOrder[0]};
        seenOrder := seenOrder[1..];
      }
      seen := seen + {key};
      seenOrder := seenOrder + [key];
      isNew := true;
    }
  }
}
