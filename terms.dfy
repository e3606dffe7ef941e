/** com.kesoftware.imu.Terms: a search expression, an AND or OR list of
    terms where a term is either [name, value, operator] or a nested Terms.
    `addTerms` hands the caller the nested list it has just appended, and
    the caller keeps adding to it after the parent holds it, so parent and
    caller share one object. The model makes that sharing explicit: every
    Terms object lives in one store and is known by its index there; a
    nested term holds the index of its list. A nested list is always
    created after its parent, so its index is larger, which is what makes
    `toArray`'s recursion end. */
module TermsLists {
  import opened Values

  /** TermsKind; `name()` gives "AND" or "OR". */
  datatype Kind = And | Or

  function KindName(k: Kind): string
  {
    match k
    case And => "AND"
    case Or => "OR"
  }

  /** One element of a list: an added term or a nested list (by index). */
  datatype Term =
    | Plain(name: Option<string>, value: Option<string>, op: Option<string>)
    | Nested(child: nat)

  /** Every Terms object created so far: its kind and its list. */
  datatype Store = Store(kinds: seq<Kind>, lists: seq<seq<Term>>)

  /** Each object has a kind and a list, and a nested term refers to a list
      created after the one holding it. */
  ghost predicate WellFormed(s: Store)
  {
    && |s.lists| == |s.kinds|
    && forall p, i :: 0 <= p < |s.lists| && 0 <= i < |s.lists[p]| && s.lists[p][i].Nested? ==>
         p < s.lists[p][i].child < |s.kinds|
  }

  /** `new Terms(kind)`. */
  function Created(s: Store, kind: Kind): (r: Store)
    requires WellFormed(s)
    ensures WellFormed(r)
    ensures |r.kinds| == |s.kinds| + 1 && r.kinds[|s.kinds|] == kind && r.lists[|s.kinds|] == []
    ensures forall y :: 0 <= y < |s.kinds| ==> r.kinds[y] == s.kinds[y] && r.lists[y] == s.lists[y]
  {
    Store(s.kinds + [kind], s.lists + [[]])
  }

  /** `add(name, value, operator)` on object `t`. */
  function Added(s: Store, t: nat, term: Term): (r: Store)
    requires WellFormed(s) && t < |s.kinds| && !term.Nested?
    ensures WellFormed(r)
    ensures r.kinds == s.kinds && |r.lists| == |s.lists| && r.lists[t] == s.lists[t] + [term]
    ensures forall y :: 0 <= y < |s.lists| && y != t ==> r.lists[y] == s.lists[y]
  {
    Store(s.kinds, s.lists[t := s.lists[t] + [term]])
  }

  /** `addTerms(kind)` on object `t`: a new empty object, appended to `t`'s
      list. The new object's index is the old number of objects. */
  function AddedTerms(s: Store, t: nat, kind: Kind): (r: Store)
    requires WellFormed(s) && t < |s.kinds|
    ensures WellFormed(r)
    ensures r.kinds == s.kinds + [kind] && |r.lists| == |s.lists| + 1
    ensures r.lists[t] == s.lists[t] + [Nested(|s.kinds|)] && r.lists[|s.kinds|] == []
    ensures forall y :: 0 <= y < |s.lists| && y != t ==> r.lists[y] == s.lists[y]
  {
    var c := |s.kinds|;
    var r := Store(s.kinds + [kind], s.lists[t := s.lists[t] + [Nested(c)]] + [[]]);
    assert forall p, i :: 0 <= p < |r.lists| && 0 <= i < |r.lists[p]| && r.lists[p][i].Nested? ==>
      p < r.lists[p][i].child < |r.kinds| by {
      forall p, i | 0 <= p < |r.lists| && 0 <= i < |r.lists[p]| && r.lists[p][i].Nested?
        ensures p < r.lists[p][i].child < |r.kinds|
      {
        if p != t && p < c {
          assert r.lists[p][i] == s.lists[p][i];
        } else if p == t && i < |s.lists[t]| {
          assert r.lists[p][i] == s.lists[t][i];
        }
      }
    }
    r
  }

  /** One added term as `toArray` leaves it: the three-element array. */
  function TermArray(term: Term): Value
    requires term.Plain?
  {
    Arr([StrOrNull(term.name), StrOrNull(term.value), StrOrNull(term.op)])
  }

  /** `toArray` of object `t`: [kind name, list], nested lists converted. */
  function Render(s: Store, t: nat): Value
    requires WellFormed(s) && t < |s.kinds|
    decreases |s.kinds| - t, 1
  {
    Arr([Str(KindName(s.kinds[t])), Arr(Rendered(s, t, |s.lists[t]|))])
  }

  /** The first `n` elements of `t`'s converted list. */
  function Rendered(s: Store, t: nat, n: nat): seq<Value>
    requires WellFormed(s) && t < |s.kinds| && n <= |s.lists[t]|
    decreases |s.kinds| - t, 0, n
  {
    if n == 0 then []
    else
      var x := s.lists[t][n - 1];
      Rendered(s, t, n - 1) + [if x.Plain? then TermArray(x) else Render(s, x.child)]
  }

  /** The store of all Terms objects. */
  class Heap {
    var kinds: seq<Kind>
    var lists: seq<seq<Term>>

    function Contents(): Store
      reads this
    {
      Store(kinds, lists)
    }

    ghost predicate Valid()
      reads this
    {
      WellFormed(Contents())
    }

    constructor ()
      ensures Contents() == Store([], []) && Valid()
    {
      kinds := [];
      lists := [];
    }

    /** `new Terms(kind)`. */
    method New(kind: Kind) returns (t: nat)
      requires Valid()
      modifies this
      ensures Valid() && t == |old(kinds)| && Contents() == Created(old(Contents()), kind)
    {
      t := |kinds|;
      kinds := kinds + [kind];
      lists := lists + [[]];
    }

    /** `new Terms()`: an AND list. */
    method NewAnd() returns (t: nat)
      requires Valid()
      modifies this
      ensures Valid() && t == |old(kinds)| && Contents() == Created(old(Contents()), And)
      ensures kinds[t] == And && lists[t] == []
    {
      t := New(And);
    }

    /** `add(name, value, operator)`. */
    method Add(t: nat, name: Option<string>, value: Option<string>, op: Option<string>)
      requires Valid() && t < |kinds|
      modifies this
      ensures Valid() && Contents() == Added(old(Contents()), t, Plain(name, value, op))
    {
      lists := lists[t := lists[t] + [Plain(name, value, op)]];
    }

    /** `add(name, value)`: a null operator. */
    method AddWithoutOp(t: nat, name: Option<string>, value: Option<string>)
      requires Valid() && t < |kinds|
      modifies this
      ensures Valid() && Contents() == Added(old(Contents()), t, Plain(name, value, None))
    {
      Add(t, name, value, None);
    }

    /** `addTerms(kind)`: returns the new nested object. */
    method AddTerms(t: nat, kind: Kind) returns (c: nat)
      requires Valid() && t < |kinds|
      modifies this
      ensures Valid() && c == |old(kinds)| && Contents() == AddedTerms(old(Contents()), t, kind)
    {
      c := |kinds|;
      lists := lists[t := lists[t] + [Nested(c)]] + [[]];
      kinds := kinds + [kind];
    }

    method AddAnd(t: nat) returns (c: nat)
      requires Valid() && t < |kinds|
      modifies this
      ensures Valid() && c == |old(kinds)| && Contents() == AddedTerms(old(Contents()), t, And)
    {
      c := AddTerms(t, And);
    }

    method AddOr(t: nat) returns (c: nat)
      requires Valid() && t < |kinds|
      modifies this
      ensures Valid() && c == |old(kinds)| && Contents() == AddedTerms(old(Contents()), t, Or)
    {
      c := AddTerms(t, Or);
    }

    /** `getList`: the elements as stored, nested lists by reference. */
    function GetList(t: nat): seq<Term>
      reads this
      requires t < |lists|
    {
      lists[t]
    }

    /** `toArray`: fills the list array element by element, converting
      nested lists recursively. */
    method ToArray(t: nat) returns (r: Value)
      requires Valid() && t < |kinds|
      ensures r == Render(Contents(), t)
      decreases |kinds| - t
    {
      var terms := lists[t];
      var list: seq<Value> := [];
      var i := 0;
      while i < |terms|
        invariant 0 <= i <= |terms|
        invariant list == Rendered(Contents(), t, i)
      {
        var term := terms[i];
        if term.Nested? {
          var sub := ToArray(term.child);
          list := list + [sub];
        } else {
          list := list + [TermArray(term)];
        }
        i := i + 1;
      }
      r := Arr([Str(KindName(kinds[t])), Arr(list)]);
    }
  }

  /** Adding several terms one by one. */
  function AddedAll(s: Store, t: nat, terms: seq<Term>): (r: Store)
    requires WellFormed(s) && t < |s.kinds|
    requires forall i :: 0 <= i < |terms| ==> !terms[i].Nested?
    ensures WellFormed(r) && |r.kinds| == |s.kinds|
    decreases |terms|
  {
    if terms == [] then s else AddedAll(Added(s, t, terms[0]), t, terms[1..])
  }

  // ---------------------------------------------------------------------
  // Properties

  /** `getList` gives the terms back in the order they were added, after
      whatever the list held; no other list and no kind changes. */
  lemma {:induction false} AddKeepsOrder(s: Store, t: nat, terms: seq<Term>)
    requires WellFormed(s) && t < |s.kinds|
    requires forall i :: 0 <= i < |terms| ==> !terms[i].Nested?
    ensures AddedAll(s, t, terms).lists[t] == s.lists[t] + terms
    ensures AddedAll(s, t, terms).kinds == s.kinds
    ensures forall y :: 0 <= y < |s.lists| && y != t ==> AddedAll(s, t, terms).lists[y] == s.lists[y]
    decreases |terms|
  {
    if terms != [] {
      var s1 := Added(s, t, terms[0]);
      AddKeepsOrder(s1, t, terms[1..]);
      assert s.lists[t] + terms == s.lists[t] + [terms[0]] + terms[1..];
    }
  }

  /** The i-th element of the converted list is the i-th term converted. */
  lemma {:induction false} RenderedAt(s: Store, t: nat, n: nat, i: nat)
    requires WellFormed(s) && t < |s.kinds| && n <= |s.lists[t]| && i < n
    ensures |Rendered(s, t, n)| == n
    ensures Rendered(s, t, n)[i] ==
      var x := s.lists[t][i];
      if x.Plain? then TermArray(x) else Render(s, x.child)
    decreases n
  {
    RenderedLength(s, t, n);
    if i < n - 1 {
      RenderedAt(s, t, n - 1, i);
    }
  }

  lemma {:induction false} RenderedLength(s: Store, t: nat, n: nat)
    requires WellFormed(s) && t < |s.kinds| && n <= |s.lists[t]|
    ensures |Rendered(s, t, n)| == n
    decreases n
  {
    if n > 0 {
      RenderedLength(s, t, n - 1);
    }
  }

  /** `toArray` is [kind name, list] with the list as long as the terms and
      in their order: added terms are kept as they are, nested lists are
      converted themselves. */
  lemma RenderShape(s: Store, t: nat, i: nat)
    requires WellFormed(s) && t < |s.kinds| && i < |s.lists[t]|
    ensures Render(s, t).Arr? && |Render(s, t).items| == 2
    ensures Render(s, t).items[0] == Str(KindName(s.kinds[t]))
    ensures Render(s, t).items[1].Arr? && |Render(s, t).items[1].items| == |s.lists[t]|
    ensures Render(s, t).items[1].items[i] ==
      var x := s.lists[t][i];
      if x.Plain? then TermArray(x) else Render(s, x.child)
  {
    RenderedAt(s, t, |s.lists[t]|, i);
  }

  /** The conversion of an object depends only on that object and the ones
      created after it. */
  lemma {:induction false} RenderAgrees(s: Store, s': Store, t: nat)
    requires WellFormed(s) && WellFormed(s') && t < |s.kinds| <= |s'.kinds|
    requires forall y :: t <= y < |s.kinds| ==> s.kinds[y] == s'.kinds[y] && s.lists[y] == s'.lists[y]
    ensures Render(s, t) == Render(s', t)
    decreases |s.kinds| - t, 1
  {
    RenderedAgrees(s, s', t, |s.lists[t]|);
  }

  lemma {:induction false} RenderedAgrees(s: Store, s': Store, t: nat, n: nat)
    requires WellFormed(s) && WellFormed(s') && t < |s.kinds| <= |s'.kinds|
    requires n <= |s.lists[t]| && n <= |s'.lists[t]| && s.lists[t][..n] == s'.lists[t][..n]
    requires forall y :: t < y < |s.kinds| ==> s.kinds[y] == s'.kinds[y] && s.lists[y] == s'.lists[y]
    ensures Rendered(s, t, n) == Rendered(s', t, n)
    decreases |s.kinds| - t, 0, n
  {
    if n > 0 {
      assert s.lists[t][..n - 1] == s.lists[t][..n][..n - 1];
      assert s'.lists[t][..n - 1] == s'.lists[t][..n][..n - 1];
      RenderedAgrees(s, s', t, n - 1);
      var x := s.lists[t][n - 1];
      assert x == s.lists[t][..n][n - 1] == s'.lists[t][n - 1];
      if x.Nested? {
        RenderAgrees(s, s', x.child);
      }
    }
  }

  /** What is added to a nested list after `addTerms` returned it shows up
      in the parent's `toArray`: the parent's conversion ends with the
      child's, which holds the new term, and its earlier elements are
      converted as before. */
  lemma ChildAdditionsVisible(s: Store, t: nat, kind: Kind, term: Term)
    requires WellFormed(s) && t < |s.kinds| && term.Plain?
    ensures
      var c := |s.kinds|;
      var s2 := Added(AddedTerms(s, t, kind), c, term);
      && Render(s2, c) == Arr([Str(KindName(kind)), Arr([TermArray(term)])])
      && Render(s2, t) == Arr([Str(KindName(s.kinds[t])),
           Arr(Rendered(s, t, |s.lists[t]|) + [Render(s2, c)])])
  {
    var c := |s.kinds|;
    var s1 := AddedTerms(s, t, kind);
    var s2 := Added(s1, c, term);
    var n := |s.lists[t]|;
    assert s2.lists[t] == s.lists[t] + [Nested(c)];
    assert s2.lists[c] == [term] && s2.kinds[c] == kind;
    assert Render(s2, c) == Arr([Str(KindName(kind)), Arr(Rendered(s2, c, 1))]);
    assert Rendered(s2, c, 1) == [TermArray(term)];
    assert Render(s2, c) == Arr([Str(KindName(kind)), Arr([TermArray(term)])]);
    assert s2.lists[t][..n] == s.lists[t][..n];
    RenderedAgrees(s, s2, t, n);
  }
}
