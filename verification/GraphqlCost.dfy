/** The cost check of a GraphQL query: a walk through the fragment spreads that counts fields and nested
    selection sets, and comes to an end on fragments that spread each other. */
module GraphqlCost {
  import opened Wire

  type Name = string

  /** `NoSet` stands for a field without a selection set. */
  datatype Set = NoSet | Selections(items: seq<Selection>)

  datatype Selection =
    | Field(below: Set)
    | Spread(name: Name)
    | Inline(set_: Set)

  /** Type-system definitions have no selection set. */
  datatype Definition = Operation(set_: Set) | Fragment(name: Name, set_: Set) | TypeSystem

  type Fragments = map<Name, Set>

  /** The fragments by name; of several with one name the last counts. */
  function FragmentsOf(document: seq<Definition>): Fragments {
    if document == [] then map[]
    else
      var earlier, last := FragmentsOf(document[..|document| - 1]), document[|document| - 1];
      if last.Fragment? then earlier[last.name := last.set_] else earlier
  }

  // ---------------------------------------------------------------------------------------------
  // The query with its fragments written out
  // ---------------------------------------------------------------------------------------------

  /** Fields without fragments, each with the fields selected below it. */
  datatype Fields = End | Next(below: Below, rest: Fields)
  datatype Below = NoBelow | Fields(fields: Fields)

  function Append(a: Fields, b: Fields): Fields {
    if a.End? then b else Next(a.below, Append(a.rest, b))
  }

  /** One selection with every fragment in place; a spread of an unknown fragment, or of one inside itself,
      is left out. */
  function ExpandOne(fragments: Fragments, selection: Selection, active: set<Name>): Fields
    decreases fragments.Keys - active, selection, 0
  {
    match selection
    case Field(inner) => Next(ExpandBelow(fragments, inner, active), End)
    case Inline(inner) => Expand(fragments, inner, 0, active)
    case Spread(name) =>
      if name in fragments && name !in active then Expand(fragments, fragments[name], 0, active + {name}) else End
  }

  /** Selections i, i + 1, ... of a set. */
  function Expand(fragments: Fragments, s: Set, i: nat, active: set<Name>): Fields
    decreases fragments.Keys - active, s, if s.NoSet? then 0 else |s.items| - i
  {
    if s.NoSet? || i >= |s.items| then End
    else Append(ExpandOne(fragments, s.items[i], active), Expand(fragments, s, i + 1, active))
  }

  function ExpandBelow(fragments: Fragments, s: Set, active: set<Name>): Below
    decreases fragments.Keys - active, s, if s.NoSet? then 1 else |s.items| + 1
  {
    if s.NoSet? then NoBelow else Below.Fields(Expand(fragments, s, 0, active))
  }

  /** How many fields there are, at any level. */
  function Count(f: Fields): nat {
    match f
    case End => 0
    case Next(below, rest) => 1 + (if below.NoBelow? then 0 else Count(below.fields)) + Count(rest)
  }

  function Max(a: nat, b: nat): nat {
    if a >= b then a else b
  }

  /** How many selection sets are nested below these fields. */
  function Levels(f: Fields): nat {
    match f
    case End => 0
    case Next(below, rest) => Max(if below.NoBelow? then 0 else 1 + Levels(below.fields), Levels(rest))
  }

  /** Every field by the level it stands on, in the order of the query. */
  function LevelsOfFields(f: Fields, level: nat): seq<nat> {
    match f
    case End => []
    case Next(below, rest) =>
      [level] + (if below.NoBelow? then [] else LevelsOfFields(below.fields, level + 1)) + LevelsOfFields(rest, level)
  }

  /** A selection set is nested so many levels below these fields. */
  predicate NestedAt(f: Fields, level: nat) {
    match f
    case End => false
    case Next(below, rest) =>
      || NestedAt(rest, level)
      || (!below.NoBelow? && level >= 1 && (level == 1 || NestedAt(below.fields, level - 1)))
  }

  /** The count is the number of fields. */
  lemma {:induction false} CountCountsFields(f: Fields, level: nat)
    ensures Count(f) == |LevelsOfFields(f, level)|
  {
    if f.Next? {
      CountCountsFields(f.rest, level);
      if !f.below.NoBelow? { CountCountsFields(f.below.fields, level + 1); }
    }
  }

  /** The levels are those at which a selection set is nested: each of them, and no deeper one. */
  lemma {:induction false} LevelsAreNested(f: Fields, level: nat)
    ensures NestedAt(f, level) <==> 1 <= level <= Levels(f)
  {
    if f.Next? {
      LevelsAreNested(f.rest, level);
      if !f.below.NoBelow? && level > 1 { LevelsAreNested(f.below.fields, level - 1); }
    }
  }

  lemma {:induction false} AppendedCost(a: Fields, b: Fields)
    ensures Count(Append(a, b)) == Count(a) + Count(b)
    ensures Levels(Append(a, b)) == Max(Levels(a), Levels(b))
  {
    if a.Next? { AppendedCost(a.rest, b); }
  }

  function CountFrom(fragments: Fragments, s: Set, i: nat, active: set<Name>): nat {
    Count(Expand(fragments, s, i, active))
  }

  function LevelsFrom(fragments: Fragments, s: Set, i: nat, active: set<Name>): nat {
    Levels(Expand(fragments, s, i, active))
  }

  lemma FromSplits(fragments: Fragments, s: Set, i: nat, active: set<Name>)
    requires s.Selections? && i < |s.items|
    ensures var one := ExpandOne(fragments, s.items[i], active);
      && CountFrom(fragments, s, i, active) == Count(one) + CountFrom(fragments, s, i + 1, active)
      && LevelsFrom(fragments, s, i, active) == Max(Levels(one), LevelsFrom(fragments, s, i + 1, active))
  {
    AppendedCost(ExpandOne(fragments, s.items[i], active), Expand(fragments, s, i + 1, active));
  }

  // ---------------------------------------------------------------------------------------------
  // The walk
  // ---------------------------------------------------------------------------------------------

  class CostWalk {
    const fragments: Fragments
    var maxDepth: nat
    var fields: nat

    constructor (f: Fragments)
      ensures fragments == f && maxDepth == 0 && fields == 0
    {
      fragments, maxDepth, fields := f, 0, 0;
    }

    method WalkOne(selection: Selection, depth: nat, active: set<Name>)
      requires maxDepth >= depth
      modifies this
      ensures fields == old(fields) + Count(ExpandOne(fragments, selection, active))
      ensures maxDepth == Max(old(maxDepth), depth + Levels(ExpandOne(fragments, selection, active)))
      decreases fragments.Keys - active, selection, 0
    {
      match selection
      case Field(inner) =>
        fields := fields + 1;
        Walk(inner, depth + 1, active);
      case Inline(inner) =>
        Walk(inner, depth, active);
      case Spread(name) =>
        if name !in active && name in fragments {
          Walk(fragments[name], depth, active + {name});
        }
    }

    /** Adds the fields of the set, written out, and the depth they reach. */
    method Walk(s: Set, depth: nat, active: set<Name>)
      modifies this
      ensures fields == old(fields) + CountFrom(fragments, s, 0, active)
      ensures maxDepth == if s.NoSet? then old(maxDepth)
                          else Max(old(maxDepth), depth + LevelsFrom(fragments, s, 0, active))
      decreases fragments.Keys - active, s, 1
    {
      if s.NoSet? { return; }
      maxDepth := Max(maxDepth, depth);
      var i := 0;
      while i < |s.items|
        invariant 0 <= i <= |s.items| && depth <= maxDepth
        invariant fields + CountFrom(fragments, s, i, active) == old(fields) + CountFrom(fragments, s, 0, active)
        invariant Max(maxDepth, depth + LevelsFrom(fragments, s, i, active))
               == Max(old(maxDepth), depth + LevelsFrom(fragments, s, 0, active))
      {
        FromSplits(fragments, s, i, active);
        WalkOne(s.items[i], depth, active);
        i := i + 1;
      }
      assert CountFrom(fragments, s, i, active) == LevelsFrom(fragments, s, i, active) == 0;
    }
  }

  // ---------------------------------------------------------------------------------------------
  // The verdict
  // ---------------------------------------------------------------------------------------------

  datatype CostError = TooDeep | TooComplex | IntrospectionDisabled

  datatype Limits = Limits(maxDepth: nat, maxFields: nat, introspection: bool)

  function WrittenOut(fragments: Fragments, d: Definition): Below {
    if d.Operation? then ExpandBelow(fragments, d.set_, {}) else NoBelow
  }

  /** How many levels of selection sets an operation has, its own included. */
  function Depth(b: Below): nat {
    if b.NoBelow? then 0 else 1 + Levels(b.fields)
  }

  /** The fields of all operations together. */
  function TotalFields(fragments: Fragments, document: seq<Definition>): nat {
    if document == [] then 0
    else
      var b := WrittenOut(fragments, document[|document| - 1]);
      TotalFields(fragments, document[..|document| - 1]) + if b.NoBelow? then 0 else Count(b.fields)
  }

  predicate DeeperThan(fragments: Fragments, document: seq<Definition>, limit: nat) {
    exists i :: 0 <= i < |document| && Depth(WrittenOut(fragments, document[i])) > limit
  }

  /** Walks every operation. A query is rejected exactly if an operation, written out, is deeper than
      allowed, or else if all of them have more fields than allowed, or else if it names introspection
      fields where that is off. */
  method ResourceError(document: seq<Definition>, limits: Limits, namesIntrospection: bool)
    returns (error: Option<CostError>)
    ensures var fragments := FragmentsOf(document);
      var deep := DeeperThan(fragments, document, limits.maxDepth);
      var complex := TotalFields(fragments, document) > limits.maxFields;
      && (error == Some(TooDeep) <==> deep)
      && (error == Some(TooComplex) <==> !deep && complex)
      && (error == Some(IntrospectionDisabled) <==> !deep && !complex && !limits.introspection && namesIntrospection)
  {
    var fragments := FragmentsOf(document);
    var walk := new CostWalk(fragments);
    var i := 0;
    while i < |document|
      invariant 0 <= i <= |document| && walk.fragments == fragments
      invariant walk.fields == TotalFields(fragments, document[..i])
      invariant forall k :: 0 <= k < i ==> Depth(WrittenOut(fragments, document[k])) <= walk.maxDepth
      invariant walk.maxDepth == 0
                || exists k :: 0 <= k < i && Depth(WrittenOut(fragments, document[k])) == walk.maxDepth
    {
      assert document[..i + 1][..i] == document[..i];
      if document[i].Operation? { walk.Walk(document[i].set_, 1, {}); }
      i := i + 1;
    }
    assert document[..i] == document;
    if walk.maxDepth > limits.maxDepth { return Some(TooDeep); }
    if walk.fields > limits.maxFields { return Some(TooComplex); }
    if !limits.introspection && namesIntrospection { return Some(IntrospectionDisabled); }
    error := None;
  }

  /** The definition of a fragment that counts is the last one with its name. */
  lemma {:induction false} LastDefinitionCounts(document: seq<Definition>, k: nat)
    requires k < |document| && document[k].Fragment?
    requires forall j :: k < j < |document| ==> !(document[j].Fragment? && document[j].name == document[k].name)
    ensures document[k].name in FragmentsOf(document) && FragmentsOf(document)[document[k].name] == document[k].set_
  {
    if k < |document| - 1 { LastDefinitionCounts(document[..|document| - 1], k); }
  }

  // ---------------------------------------------------------------------------------------------
  // Fragments without cycles
  // ---------------------------------------------------------------------------------------------

  /** The names spread anywhere in a selection. */
  function SpreadsOne(selection: Selection): set<Name>
    decreases selection, 0
  {
    match selection
    case Field(inner) => Spreads(inner, 0)
    case Inline(inner) => Spreads(inner, 0)
    case Spread(name) => {name}
  }

  function Spreads(s: Set, i: nat): set<Name>
    decreases s, if s.NoSet? then 0 else |s.items| - i
  {
    if s.NoSet? || i >= |s.items| then {} else SpreadsOne(s.items[i]) + Spreads(s, i + 1)
  }

  predicate RanksBelow(fragments: Fragments, rank: map<Name, nat>, names: set<Name>, bound: nat) {
    forall name :: name in names && name in fragments ==> name in rank && rank[name] < bound
  }

  /** No fragment spreads itself, directly or through others: fragments have ranks, and each spreads only
      fragments of lower rank. */
  predicate Acyclic(fragments: Fragments, rank: map<Name, nat>) {
    forall name :: name in fragments ==>
      name in rank && RanksBelow(fragments, rank, Spreads(fragments[name], 0), rank[name])
  }

  /** One selection with every known fragment in place, without exception. */
  function InlineOne(fragments: Fragments, rank: map<Name, nat>, selection: Selection, bound: nat): Fields
    requires Acyclic(fragments, rank) && RanksBelow(fragments, rank, SpreadsOne(selection), bound)
    decreases bound, selection, 0
  {
    match selection
    case Field(inner) =>
      Next(if inner.NoSet? then NoBelow else Below.Fields(InlineAll(fragments, rank, inner, 0, bound)), End)
    case Inline(inner) => InlineAll(fragments, rank, inner, 0, bound)
    case Spread(name) => if name in fragments then InlineAll(fragments, rank, fragments[name], 0, rank[name]) else End
  }

  function InlineAll(fragments: Fragments, rank: map<Name, nat>, s: Set, i: nat, bound: nat): Fields
    requires Acyclic(fragments, rank) && RanksBelow(fragments, rank, Spreads(s, i), bound)
    decreases bound, s, if s.NoSet? then 0 else |s.items| - i
  {
    if s.NoSet? || i >= |s.items| then End
    else Append(InlineOne(fragments, rank, s.items[i], bound), InlineAll(fragments, rank, s, i + 1, bound))
  }

  lemma {:induction false} NothingCutOne(fragments: Fragments, rank: map<Name, nat>, selection: Selection,
                                         bound: nat, active: set<Name>)
    requires Acyclic(fragments, rank) && RanksBelow(fragments, rank, SpreadsOne(selection), bound)
    requires forall name :: name in active && name in fragments ==> rank[name] >= bound
    ensures ExpandOne(fragments, selection, active) == InlineOne(fragments, rank, selection, bound)
    decreases bound, selection, 0
  {
    match selection
    case Field(inner) => if inner.Selections? { NothingCut(fragments, rank, inner, 0, bound, active); }
    case Inline(inner) => NothingCut(fragments, rank, inner, 0, bound, active);
    case Spread(name) =>
      if name in fragments { NothingCut(fragments, rank, fragments[name], 0, rank[name], active + {name}); }
  }

  /** For fragments without cycles, the only ones the GraphQL specification allows (section 5.5.2.2), nothing
      is cut: the walk measures the query with all its fragments in place. */
  lemma {:induction false} NothingCut(fragments: Fragments, rank: map<Name, nat>, s: Set, i: nat,
                                      bound: nat, active: set<Name>)
    requires Acyclic(fragments, rank) && RanksBelow(fragments, rank, Spreads(s, i), bound)
    requires forall name :: name in active && name in fragments ==> rank[name] >= bound
    ensures Expand(fragments, s, i, active) == InlineAll(fragments, rank, s, i, bound)
    decreases bound, s, if s.NoSet? then 0 else |s.items| - i
  {
    if s.Selections? && i < |s.items| {
      NothingCutOne(fragments, rank, s.items[i], bound, active);
      NothingCut(fragments, rank, s, i + 1, bound, active);
    }
  }

  /** An accepted query is within both limits once it is written out in full. */
  lemma AcceptedFitsInFull(document: seq<Definition>, rank: map<Name, nat>, limits: Limits, i: nat, bound: nat)
    requires Acyclic(FragmentsOf(document), rank)
    requires !DeeperThan(FragmentsOf(document), document, limits.maxDepth)
    requires TotalFields(FragmentsOf(document), document) <= limits.maxFields
    requires i < |document| && document[i].Operation? && document[i].set_.Selections?
    requires RanksBelow(FragmentsOf(document), rank, Spreads(document[i].set_, 0), bound)
    ensures var full := InlineAll(FragmentsOf(document), rank, document[i].set_, 0, bound);
      1 + Levels(full) <= limits.maxDepth && Count(full) <= limits.maxFields
  {
    var fragments := FragmentsOf(document);
    NothingCut(fragments, rank, document[i].set_, 0, bound, {});
    assert Depth(WrittenOut(fragments, document[i])) <= limits.maxDepth;
    PartOfTotal(fragments, document, i);
  }

  lemma {:induction false} PartOfTotal(fragments: Fragments, document: seq<Definition>, i: nat)
    requires i < |document| && WrittenOut(fragments, document[i]).Fields?
    ensures Count(WrittenOut(fragments, document[i]).fields) <= TotalFields(fragments, document)
  {
    if i < |document| - 1 { PartOfTotal(fragments, document[..|document| - 1], i); }
  }
}
