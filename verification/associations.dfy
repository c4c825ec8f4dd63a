/** Keeping a sound fragment's brand associations in step with the list of
    brands it should be represented in (SoundFragmentBrandAssociationHandler).
    The statements the handler issues are values; the association table,
    restricted to the one fragment, is the set of brand ids it holds. */
module Associations {
  import opened Common
  import opened HlsTypes

  /** `xs.stream().filter(x -> !ys.contains(x)).toList()`. */
  function Without(xs: seq<Uuid>, ys: seq<Uuid>): seq<Uuid> {
    if xs == [] then []
    else (if xs[0] in ys then [] else [xs[0]]) + Without(xs[1..], ys)
  }

  /** The filter keeps exactly the elements not in `ys`. */
  lemma {:induction false} WithoutMembers(xs: seq<Uuid>, ys: seq<Uuid>, x: Uuid)
    ensures x in Without(xs, ys) <==> x in xs && x !in ys
    decreases |xs|
  {
    if xs != [] {
      WithoutMembers(xs[1..], ys, x);
      assert x in xs <==> x == xs[0] || x in xs[1..];
    }
  }

  /** It keeps each such element as often as `xs` holds it. */
  lemma {:induction false} WithoutCount(xs: seq<Uuid>, ys: seq<Uuid>, x: Uuid)
    ensures multiset(Without(xs, ys))[x] == if x in ys then 0 else multiset(xs)[x]
    decreases |xs|
  {
    if xs != [] {
      WithoutCount(xs[1..], ys, x);
      assert xs == [xs[0]] + xs[1..];
      var head: seq<Uuid> := if xs[0] in ys then [] else [xs[0]];
      assert multiset(Without(xs, ys)) == multiset(head) + multiset(Without(xs[1..], ys));
    }
  }

  /** It keeps them in `xs`'s order: filtering distributes over
      concatenation. */
  lemma {:induction false} WithoutAppend(xs: seq<Uuid>, zs: seq<Uuid>, ys: seq<Uuid>)
    ensures Without(xs + zs, ys) == Without(xs, ys) + Without(zs, ys)
    decreases |xs|
  {
    if xs == [] {
      assert xs + zs == zs;
    } else {
      WithoutAppend(xs[1..], zs, ys);
      assert (xs + zs)[1..] == xs[1..] + zs;
      var head: seq<Uuid> := if xs[0] in ys then [] else [xs[0]];
      assert head + Without(xs[1..], ys) + Without(zs, ys) == head + (Without(xs[1..], ys) + Without(zs, ys));
    }
  }

  /** Element sets of both filters. */
  lemma WithoutElements(xs: seq<Uuid>, ys: seq<Uuid>)
    ensures Elements(Without(xs, ys)) == Elements(xs) - Elements(ys)
  {
    forall x ensures x in Elements(Without(xs, ys)) <==> x in Elements(xs) - Elements(ys) {
      WithoutMembers(xs, ys, x);
    }
  }

  datatype Statement =
    | DeleteBrands(fragment: Uuid, brands: seq<Uuid>)  // one DELETE ... brand_id = ANY($2)
    | InsertBrands(fragment: Uuid, brands: seq<Uuid>)  // one batch INSERT, a tuple per brand

  /** removeBrands: nothing for an empty list. */
  function RemoveStatements(fragment: Uuid, brands: seq<Uuid>): seq<Statement> {
    if brands == [] then [] else [DeleteBrands(fragment, brands)]
  }

  /** addBrands: nothing for an empty list. */
  function AddStatements(fragment: Uuid, brands: seq<Uuid>): seq<Statement> {
    if brands == [] then [] else [InsertBrands(fragment, brands)]
  }

  /** updateBrandAssociations: nothing when the list is null; otherwise
      delete the current brands no longer requested and insert the
      requested brands not yet current. */
  function UpdateStatements(fragment: Uuid, requested: Option<seq<Uuid>>, current: seq<Uuid>): seq<Statement> {
    if requested.None? then []
    else RemoveStatements(fragment, Without(current, requested.value))
         + AddStatements(fragment, Without(requested.value, current))
  }

  /** insertBrandAssociations: nothing when the list is null or empty;
      otherwise insert every requested brand. */
  function InsertStatements(fragment: Uuid, requested: Option<seq<Uuid>>): (r: seq<Statement>)
    ensures requested.None? || requested.value == [] <==> r == []
    ensures r != [] ==> r == [InsertBrands(fragment, requested.value)]
  {
    if requested.None? || requested.value == [] then [] else AddStatements(fragment, requested.value)
  }

  /** The fragment's associated brands after one statement. */
  function Apply(s: Statement, fragment: Uuid, brands: set<Uuid>): set<Uuid> {
    if s.fragment != fragment then brands
    else match s
      case DeleteBrands(_, ids) => brands - Elements(ids)
      case InsertBrands(_, ids) => brands + Elements(ids)
  }

  function ApplyAll(ss: seq<Statement>, fragment: Uuid, brands: set<Uuid>): set<Uuid> {
    if ss == [] then brands else ApplyAll(ss[1..], fragment, Apply(ss[0], fragment, brands))
  }

  /** The statements touch only the one fragment, and never carry an empty
      list. */
  lemma UpdateStatementsShape(fragment: Uuid, requested: Option<seq<Uuid>>, current: seq<Uuid>)
    ensures forall s :: s in UpdateStatements(fragment, requested, current) ==> s.fragment == fragment && s.brands != []
    ensures |UpdateStatements(fragment, requested, current)| <= 2
  {
  }

  lemma ElementsEmpty(xs: seq<Uuid>)
    ensures Elements(xs) == {} <==> xs == []
  {
    if xs != [] {
      assert xs[0] in Elements(xs);
    }
  }

  /** Issuing `ss` then `ts` is issuing `ss + ts`. */
  lemma {:induction false} ApplyAppend(ss: seq<Statement>, ts: seq<Statement>, fragment: Uuid, brands: set<Uuid>)
    ensures ApplyAll(ss + ts, fragment, brands) == ApplyAll(ts, fragment, ApplyAll(ss, fragment, brands))
    decreases |ss|
  {
    if ss == [] {
      assert ss + ts == ts;
    } else {
      assert (ss + ts)[1..] == ss[1..] + ts;
      ApplyAppend(ss[1..], ts, fragment, Apply(ss[0], fragment, brands));
    }
  }

  /** After the update the fragment is associated with exactly the requested
      brands. */
  lemma UpdateReachesRequested(fragment: Uuid, requested: seq<Uuid>, current: seq<Uuid>)
    ensures ApplyAll(UpdateStatements(fragment, Some(requested), current), fragment, Elements(current)) == Elements(requested)
  {
    WithoutElements(current, requested);
    WithoutElements(requested, current);
    var removed := Without(current, requested);
    var added := Without(requested, current);
    var del := RemoveStatements(fragment, removed);
    var ins := AddStatements(fragment, added);
    ApplyAppend(del, ins, fragment, Elements(current));
    var afterRemove := ApplyAll(del, fragment, Elements(current));
    if removed != [] {
      assert del[1..] == [];
    }
    assert afterRemove == Elements(current) - Elements(removed);
    if added != [] {
      assert ins[1..] == [];
    }
    assert ApplyAll(ins, fragment, afterRemove) == afterRemove + Elements(added);
  }

  /** The delete and the insert carry disjoint brand lists, so issuing them
      concurrently, in either order, ends in the same associations. */
  lemma UpdateOrderIrrelevant(fragment: Uuid, requested: seq<Uuid>, current: seq<Uuid>, brands: set<Uuid>)
    ensures var removed := Without(current, requested);
            var added := Without(requested, current);
            Elements(removed) !! Elements(added)
            && Apply(InsertBrands(fragment, added), fragment, Apply(DeleteBrands(fragment, removed), fragment, brands))
               == Apply(DeleteBrands(fragment, removed), fragment, Apply(InsertBrands(fragment, added), fragment, brands))
  {
    WithoutElements(current, requested);
    WithoutElements(requested, current);
  }

  /** Nothing is issued exactly when the requested list is null or names the
      same brands as the current ones. */
  lemma UpdateIdle(fragment: Uuid, requested: Option<seq<Uuid>>, current: seq<Uuid>)
    ensures UpdateStatements(fragment, requested, current) == []
            <==> requested.None? || Elements(requested.value) == Elements(current)
  {
    if requested.Some? {
      WithoutElements(current, requested.value);
      WithoutElements(requested.value, current);
      var removed := Without(current, requested.value);
      var added := Without(requested.value, current);
      ElementsEmpty(removed);
      ElementsEmpty(added);
    }
  }

  /** A requested brand that is not yet current is inserted once for every
      time the list names it. */
  lemma InsertMultiplicity(requested: seq<Uuid>, current: seq<Uuid>, brand: Uuid)
    requires brand !in current
    ensures multiset(Without(requested, current))[brand] == multiset(requested)[brand]
  {
    WithoutCount(requested, current, brand);
  }

  /** A fresh fragment ends up associated with every requested brand. */
  lemma InsertReachesRequested(fragment: Uuid, requested: Option<seq<Uuid>>)
    ensures ApplyAll(InsertStatements(fragment, requested), fragment, {}) == if requested.None? then {} else Elements(requested.value)
  {
    if requested.Some? && requested.value != [] {
      assert InsertStatements(fragment, requested)[1..] == [];
    }
  }
}
