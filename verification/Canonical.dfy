// Canonical names: stripped, sorted, without repetition (scripts/bundle_lifecycle.py:342-382).

module Canonical {
  import opened Common
  import opened LeanText

  // --- String order -----------------------------------------------------------

  /** Lexicographic order by code point. */
  predicate Before(a: string, b: string) {
    b != "" && (a == "" || a[0] < b[0] || (a[0] == b[0] && Before(a[1..], b[1..])))
  }

  lemma {:induction false} BeforeTotal(a: string, b: string)
    ensures Before(a, b) || a == b || Before(b, a)
    ensures !(Before(a, b) && Before(b, a)) && !Before(a, a)
  {
    if a != "" && b != "" && a[0] == b[0] {
      BeforeTotal(a[1..], b[1..]);
      assert a == [a[0]] + a[1..] && b == [b[0]] + b[1..];
    }
    if a != "" {
      BeforeTotal(a[1..], a[1..]);
    }
  }

  lemma {:induction false} BeforeTransitive(a: string, b: string, c: string)
    requires Before(a, b) && Before(b, c)
    ensures Before(a, c)
  {
    if a != "" && a[0] == b[0] && b[0] == c[0] {
      BeforeTransitive(a[1..], b[1..], c[1..]);
    }
  }

  predicate Sorted(xs: seq<string>) {
    forall i, j | 0 <= i < j < |xs| :: Before(xs[i], xs[j])
  }

  /** Sorted insertion without repetition. */
  function Insert(x: string, xs: seq<string>): seq<string> {
    if xs == [] then [x]
    else if x == xs[0] then xs
    else if Before(x, xs[0]) then [x] + xs
    else [xs[0]] + Insert(x, xs[1..])
  }

  lemma {:induction false} InsertElements(x: string, xs: seq<string>)
    ensures forall y :: y in Insert(x, xs) <==> y == x || y in xs
  {
    if xs != [] && x != xs[0] && !Before(x, xs[0]) {
      InsertElements(x, xs[1..]);
      assert xs == [xs[0]] + xs[1..];
    }
  }

  lemma {:induction false} InsertSorted(x: string, xs: seq<string>)
    requires Sorted(xs)
    ensures Sorted(Insert(x, xs))
  {
    if xs != [] && x != xs[0] {
      BeforeTotal(x, xs[0]);
      if Before(x, xs[0]) {
        forall i | 0 <= i < |xs| ensures Before(x, xs[i]) {
          if i > 0 {
            BeforeTransitive(x, xs[0], xs[i]);
          }
        }
      } else {
        var rest := Insert(x, xs[1..]);
        InsertSorted(x, xs[1..]);
        InsertElements(x, xs[1..]);
        forall i | 0 <= i < |rest| ensures Before(xs[0], rest[i]) {
          assert rest[i] in rest;
        }
      }
    }
  }

  lemma HeadOnce(xs: seq<string>)
    requires Sorted(xs) && xs != []
    ensures xs[0] !in xs[1..]
  {
    BeforeTotal(xs[0], xs[0]);
    forall i | 0 <= i < |xs[1..]| ensures xs[1..][i] != xs[0] {
      assert Before(xs[0], xs[i + 1]);
    }
  }

  lemma SameEmpty(xs: seq<string>, ys: seq<string>)
    requires forall x :: x in xs <==> x in ys
    ensures xs == [] <==> ys == []
  {
    if xs != [] {
      assert xs[0] in xs;
    }
    if ys != [] {
      assert ys[0] in ys;
    }
  }

  /** A sorted list is determined by its elements. */
  lemma {:induction false} SortedUnique(xs: seq<string>, ys: seq<string>)
    requires Sorted(xs) && Sorted(ys) && forall x :: x in xs <==> x in ys
    ensures xs == ys
  {
    SameEmpty(xs, ys);
    if xs != [] {
      assert xs[0] in ys && ys[0] in xs;
      BeforeTotal(xs[0], ys[0]);
      assert xs[0] == ys[0];
      HeadOnce(xs);
      HeadOnce(ys);
      assert xs == [xs[0]] + xs[1..] && ys == [ys[0]] + ys[1..];
      forall x ensures x in xs[1..] <==> x in ys[1..] {
        assert x in xs <==> x == xs[0] || x in xs[1..];
        assert x in ys <==> x == ys[0] || x in ys[1..];
      }
      SortedUnique(xs[1..], ys[1..]);
      assert xs == [xs[0]] + xs[1..] && ys == [ys[0]] + ys[1..];
    }
  }

  // --- Resource identities ----------------------------------------------------

  predicate Blank(s: string) {
    Trim(s) == ""
  }

  /** The canonical identities, or none when one of them is blank. */
  function Ids(resources: seq<string>): Option<seq<string>> {
    if resources == [] then Some([])
    else
      var n := |resources| - 1;
      match Ids(resources[..n])
      case None => None
      case Some(r) => if Blank(resources[n]) then None else Some(Insert(Trim(resources[n]), r))
  }

  /** `canonical_resource_ids` */
  method CanonicalResourceIds(resources: seq<string>) returns (r: Option<seq<string>>)
    ensures r == Ids(resources)
  {
    var normalized := [];
    var i := 0;
    while i < |resources|
      invariant 0 <= i <= |resources|
      invariant Ids(resources[..i]) == Some(normalized)
    {
      assert resources[..i + 1][..i] == resources[..i];
      if Trim(resources[i]) == "" {
        NoneStays(resources, i + 1);
        return None;
      }
      normalized := Insert(Trim(resources[i]), normalized);
      i := i + 1;
    }
    assert resources[..i] == resources;
    r := Some(normalized);
  }

  lemma {:induction false} NoneStays(resources: seq<string>, n: nat)
    requires n <= |resources| && Ids(resources[..n]).None?
    ensures Ids(resources).None?
  {
    if n == |resources| {
      assert resources[..n] == resources;
    } else {
      var m := |resources| - 1;
      assert resources[..m][..n] == resources[..n];
      NoneStays(resources[..m], n);
    }
  }

  /** Refused exactly when an identity is blank; else sorted, and exactly the stripped identities. */
  lemma {:induction false} IdsMeaning(resources: seq<string>)
    ensures Ids(resources).None? <==> exists x :: x in resources && Blank(x)
    ensures Ids(resources).Some? ==> Sorted(Ids(resources).value)
    ensures Ids(resources).Some? ==>
              forall y :: y in Ids(resources).value <==> exists x :: x in resources && Trim(x) == y
  {
    if resources != [] {
      var n := |resources| - 1;
      var before := resources[..n];
      IdsMeaning(before);
      assert resources == before + [resources[n]];
      assert forall x :: x in resources <==> x in before || x == resources[n];
      if Ids(before).Some? && !Blank(resources[n]) {
        InsertElements(Trim(resources[n]), Ids(before).value);
        InsertSorted(Trim(resources[n]), Ids(before).value);
      }
    }
  }

  lemma TrimTrim(s: string)
    ensures Trim(Trim(s)) == Trim(s)
  {
    var t := s[Indent(s)..];
    var r := TrimRight(t);
    if r != "" {
      assert t != "" && !IsSpace(t[0]) && r[0] == t[0];
    }
    TrimSolid(r);
  }

  /** Canonical identities are their own canonical form. */
  lemma IdsIdempotent(resources: seq<string>, r: seq<string>)
    requires Ids(resources) == Some(r)
    ensures Ids(r) == Some(r)
  {
    IdsMeaning(resources);
    IdsMeaning(r);
    forall x | x in r ensures Trim(x) == x && x != "" {
      var z :| z in resources && Trim(z) == x;
      TrimTrim(z);
      assert !Blank(z);
    }
    forall y ensures y in Ids(r).value <==> y in r {
      if y in r {
        assert Trim(y) == y;
      }
    }
    SortedUnique(Ids(r).value, r);
  }

  predicate Strips(resources: seq<string>, y: string) {
    exists x :: x in resources && Trim(x) == y
  }

  /** Order, repetition and surrounding blanks do not matter. */
  lemma IdsOrderFree(a: seq<string>, b: seq<string>)
    requires forall y :: Strips(a, y) <==> Strips(b, y)
    ensures Ids(a) == Ids(b)
  {
    IdsMeaning(a);
    IdsMeaning(b);
    assert Strips(a, "") <==> Strips(b, "");
    assert Strips(a, "") <==> exists x :: x in a && Blank(x);
    assert Strips(b, "") <==> exists x :: x in b && Blank(x);
    if Ids(a).Some? {
      forall y ensures y in Ids(a).value <==> y in Ids(b).value {
        assert Strips(a, y) <==> Strips(b, y);
      }
      SortedUnique(Ids(a).value, Ids(b).value);
    }
  }

  // --- Group transitions ------------------------------------------------------

  /** Stripped names with their last state, blank names skipped: the sorted names and the dictionary. */
  function Named<T>(ts: seq<(string, T)>): (r: (seq<string>, map<string, T>))
    ensures forall y :: y in r.0 <==> y in r.1
  {
    if ts == [] then ([], map[])
    else
      var n := |ts| - 1;
      var before := Named(ts[..n]);
      var name := Trim(ts[n].0);
      InsertElements(name, before.0);
      if name == "" then before else (Insert(name, before.0), before.1[name := ts[n].1])
  }

  function Pairs<T>(names: seq<string>, m: map<string, T>): (r: seq<(string, T)>)
    requires forall y | y in names :: y in m
    ensures |r| == |names| && forall i | 0 <= i < |r| :: r[i] == (names[i], m[names[i]])
  {
    seq(|names|, i requires 0 <= i < |names| => (names[i], m[names[i]]))
  }

  function Transitions<T>(ts: seq<(string, T)>): seq<(string, T)> {
    Pairs(Named(ts).0, Named(ts).1)
  }

  /** `_normalize_group_transitions` */
  method NormalizeGroupTransitions<T>(ts: seq<(string, T)>) returns (r: seq<(string, T)>)
    ensures r == Transitions(ts)
  {
    var names: seq<string>, normalized: map<string, T> := [], map[];
    var i := 0;
    while i < |ts|
      invariant 0 <= i <= |ts|
      invariant Named(ts[..i]) == (names, normalized)
    {
      assert ts[..i + 1][..i] == ts[..i];
      var name := Trim(ts[i].0);
      if name != "" {
        names := Insert(name, names);
        normalized := normalized[name := ts[i].1];
      }
      i := i + 1;
    }
    assert ts[..i] == ts;
    r := Pairs(names, normalized);
  }

  /** The last mention of a name decides. */
  predicate IsLast<T>(ts: seq<(string, T)>, name: string, i: nat) {
    i < |ts| && Trim(ts[i].0) == name && forall j | i < j < |ts| :: Trim(ts[j].0) != name
  }

  lemma {:induction false} NamedSorted<T>(ts: seq<(string, T)>)
    ensures Sorted(Named(ts).0) && "" !in Named(ts).0
    ensures forall i | 0 <= i < |ts| && Trim(ts[i].0) != "" :: Trim(ts[i].0) in Named(ts).1
  {
    hide Insert, Trim, Sorted;
    if ts == [] {
      NothingSorted();
    } else {
      var n := |ts| - 1;
      NamedSorted(ts[..n]);
      InsertSorted(Trim(ts[n].0), Named(ts[..n]).0);
      InsertElements(Trim(ts[n].0), Named(ts[..n]).0);
    }
  }

  lemma NothingSorted()
    ensures Sorted([])
  {
  }

  lemma {:induction false} NamedLast<T>(ts: seq<(string, T)>, name: string) returns (i: nat)
    requires name in Named(ts).1
    ensures IsLast(ts, name, i) && Named(ts).1[name] == ts[i].1
  {
    hide Insert, Trim;
    NamedSorted(ts);
    var n := |ts| - 1;
    if Trim(ts[n].0) == name {
      i := n;
    } else {
      i := NamedLast(ts[..n], name);
    }
  }

  /** The group names every non-blank bundle once, in order, with the state last asked for. */
  lemma TransitionsMeaning<T>(ts: seq<(string, T)>)
    ensures var r := Transitions(ts);
      && (forall i, j | 0 <= i < j < |r| :: Before(r[i].0, r[j].0))
      && (forall k | 0 <= k < |r| :: r[k].0 != "" && exists i: nat :: IsLast(ts, r[k].0, i) && r[k].1 == ts[i].1)
      && (forall i | 0 <= i < |ts| && Trim(ts[i].0) != "" :: exists k :: 0 <= k < |r| && r[k].0 == Trim(ts[i].0))
  {
    NamedSorted(ts);
    var names, r := Named(ts).0, Transitions(ts);
    forall k | 0 <= k < |r| ensures r[k].0 != "" && exists i: nat :: IsLast(ts, r[k].0, i) && r[k].1 == ts[i].1 {
      assert names[k] in names;
      var i := NamedLast(ts, names[k]);
    }
    forall i | 0 <= i < |ts| && Trim(ts[i].0) != "" ensures exists k :: 0 <= k < |r| && r[k].0 == Trim(ts[i].0) {
      assert Trim(ts[i].0) in names;
      var k :| 0 <= k < |names| && names[k] == Trim(ts[i].0);
      assert r[k].0 == names[k];
    }
  }
}
