/** The parameter store (BaseParameterValues): a mapping from parameter names
    to values, built from a base mapping with an optional mapping laid over
    it, updated in place, and used to process expression trees. */
module ParameterValues {
  import opened Symbols
  import Substitution

  /** Lays `overrides` over `m`: the keys of both, with the value from
      `overrides` wherever a key is in both. */
  function Overlay(m: map<string, real>, overrides: map<string, real>): (r: map<string, real>)
    ensures r.Keys == m.Keys + overrides.Keys
    ensures forall k :: k in overrides ==> r[k] == overrides[k]
    ensures forall k :: k in m && k !in overrides ==> r[k] == m[k]
  {
    m + overrides
  }

  /** Laying a mapping over the empty mapping gives that mapping back: the
      first step of construction leaves exactly the base mapping. */
  lemma OverlayOnEmpty(overrides: map<string, real>)
    ensures Overlay(map[], overrides) == overrides
  {
  }

  /** Laying the empty mapping over a mapping leaves it as it is: a store
      built from one mapping holds exactly that mapping. */
  lemma OverlayNothing(m: map<string, real>)
    ensures Overlay(m, map[]) == m
  {
  }

  /** Laying the same mapping over twice is the same as laying it over once. */
  lemma OverlayIdempotent(m: map<string, real>, overrides: map<string, real>)
    ensures Overlay(Overlay(m, overrides), overrides) == Overlay(m, overrides)
  {
  }

  /** Two overlays in a row are one overlay of the second over the first. */
  lemma OverlayTwice(m: map<string, real>, u1: map<string, real>, u2: map<string, real>)
    ensures Overlay(Overlay(m, u1), u2) == Overlay(m, Overlay(u1, u2))
  {
  }

  /** After an update, processing a tree whose parameters the update does not
      touch gives the same tree as before the update. */
  lemma UpdateKeepsUntouchedProcessing(m: map<string, real>, u: map<string, real>, s: Symbol)
    requires Parameters(s) <= m.Keys
    requires Parameters(s) !! u.Keys
    ensures Parameters(s) <= Overlay(m, u).Keys
    ensures Substitution.Process(Overlay(m, u), s) == Substitution.Process(m, s)
  {
    Substitution.ProcessDependsOnlyOnParameters(Overlay(m, u), m, s);
  }

  /** After an update, a Parameter the update names is processed into a
      Scalar carrying the new value. */
  lemma UpdateReachesProcessing(m: map<string, real>, u: map<string, real>, n: string)
    requires n in u
    ensures n in Overlay(m, u)
    ensures Substitution.Process(Overlay(m, u), Parameter(n)) == Scalar(u[n])
  {
  }

  class BaseParameterValues {
    /** The store's mapping from names to values. */
    var values: map<string, real>

    /** Starts from the empty mapping, adds `base`, then lays `optional` over
        it, so an optional value wins over a base value of the same name. */
    constructor (base: map<string, real> := map[], optional: map<string, real> := map[])
      ensures values == Overlay(base, optional)
      ensures optional == map[] ==> values == base
      ensures forall k :: k in optional ==> k in values && values[k] == optional[k]
      ensures forall k :: k in base && k !in optional ==> k in values && values[k] == base[k]
    {
      values := map[];
      new;
      Update(base);
      OverlayOnEmpty(base);
      Update(optional);
      OverlayNothing(base);
    }

    /** Lays `newValues` over the stored mapping in place: names in
        `newValues` take their new value, every other name is unchanged. */
    method Update(newValues: map<string, real>)
      modifies this
      ensures values == Overlay(old(values), newValues)
      ensures forall k :: k in newValues ==> k in values && values[k] == newValues[k]
      ensures forall k :: k in old(values) && k !in newValues ==> k in values && values[k] == old(values)[k]
    {
      values := values + newValues;
    }

    /** Indexed lookup; the name must be in the store. */
    method Get(name: string) returns (v: real)
      requires name in values
      ensures v == values[name]
    {
      v := values[name];
    }

    /** The value stored for a Parameter node is the lookup of its name. */
    method GetParameterValue(p: Symbol) returns (v: real)
      requires p.Parameter? && p.name in values
      ensures v == values[p.name]
      ensures v == Substitution.ParameterValue(values, p)
    {
      v := Get(p.name);
    }

    /** Processes an expression tree against the stored mapping: the result
        has no Parameter left, keeps the kind of every operator and leaf
        (a Parameter becomes a Scalar) and the order of every child. */
    method ProcessSymbol(s: Symbol) returns (r: Symbol)
      requires Parameters(s) <= values.Keys
      ensures r == Substitution.Process(values, s)
      ensures Parameters(r) == {}
      ensures KindOf(r) == if s.Parameter? then ScalarKind else KindOf(s)
    {
      r := Substitution.Process(values, s);
    }
  }
}
