// The GPUs of a bundle and of everything linked to it (scripts/runtime_controller.py:38-68).

module LinkClosure {
  import opened Common

  /** An entry of a list: a text, or another value by its text. */
  datatype Item = Name(name: string) | Other(text: string)

  /** What a link field can hold; an absent or empty one is an empty list. */
  datatype Field = Listed(items: seq<Item>) | Text(text: string) | Keyed(keys: set<string>)

  /** A registered bundle: a mapping, an empty value, or a value that is no mapping at all. */
  datatype Bundle =
    | Bundle(linkedTo: Field, linkedFrom: Field, linkedBundles: Field, gpu: string)
    | Blank
    | Junk

  type Bundles = map<string, Bundle>

  // --- The link relation ------------------------------------------------------

  predicate Within(s: string, t: string) {
    s <= t || (t != "" && Within(s, t[1..]))
  }

  function TextOf(i: Item): string {
    match i case Name(n) => n case Other(t) => t
  }

  /** A list lists the texts of its items; nothing else lists anything. */
  predicate FieldLists(f: Field, name: string) {
    f.Listed? && exists i | 0 <= i < |f.items| :: TextOf(f.items[i]) == name
  }

  /** The membership test: of an item, of a part of a text, or of a key. */
  predicate FieldHas(f: Field, name: string) {
    match f
    case Listed(items) => Name(name) in items
    case Text(t) => Within(name, t)
    case Keyed(keys) => name in keys
  }

  predicate Lists(b: Bundle, name: string) {
    b.Bundle? && (FieldLists(b.linkedTo, name) || FieldLists(b.linkedFrom, name) || FieldLists(b.linkedBundles, name))
  }

  predicate Mentions(b: Bundle, name: string) {
    b.Bundle? && (FieldHas(b.linkedTo, name) || FieldHas(b.linkedFrom, name) || FieldHas(b.linkedBundles, name))
  }

  /** The bundle names the other as a text in one of its lists. */
  predicate Names(b: Bundle, name: string) {
    b.Bundle? && exists f | f in [b.linkedTo, b.linkedFrom, b.linkedBundles] :: f.Listed? && Name(name) in f.items
  }

  /** From a bundle the search sees what it lists and what mentions it. */
  predicate Linked(bs: Bundles, a: string, b: string) {
    (a in bs && Lists(bs[a], b)) || (b in bs && Mentions(bs[b], a))
  }

  predicate IsJunk(bs: Bundles, a: string) {
    a in bs && bs[a].Junk?
  }

  /** One step of the search: to a registered neighbour, but not out of a value that is no mapping. */
  predicate Step(bs: Bundles, a: string, b: string) {
    !IsJunk(bs, a) && b in bs && Linked(bs, a, b)
  }

  predicate Path(bs: Bundles, p: seq<string>) {
    p != [] && forall i | 0 < i < |p| :: Step(bs, p[i - 1], p[i])
  }

  ghost predicate Joins(bs: Bundles, p: seq<string>, a: string, b: string) {
    Path(bs, p) && p[0] == a && p[|p| - 1] == b
  }

  ghost predicate Connected(bs: Bundles, a: string, b: string) {
    exists p :: Joins(bs, p, a, b)
  }

  /** The component of a bundle. */
  ghost function Component(bs: Bundles, start: string): set<string> {
    set b | b in bs.Keys + {start} && Connected(bs, start, b)
  }

  function GpuOf(bs: Bundles, name: string): string {
    if name in bs && bs[name].Bundle? then bs[name].gpu else ""
  }

  function GpusOf(bs: Bundles, names: set<string>): set<string> {
    set name | name in names && GpuOf(bs, name) != "" :: GpuOf(bs, name)
  }

  /** The GPU ids, or a failure when the component holds a value that is no mapping. */
  ghost function GpuIds(bs: Bundles, start: string): Option<set<string>> {
    var c := Component(bs, start);
    if exists j :: j in c && IsJunk(bs, j) then None else Some(GpusOf(bs, c))
  }

  // --- The worklist -----------------------------------------------------------

  function Neighbours(bs: Bundles, current: string): set<string> {
    set b | b in bs && Linked(bs, current, b)
  }

  lemma {:induction false} PathStays(bs: Bundles, p: seq<string>, closed: set<string>)
    requires Path(bs, p) && p[0] in closed
    requires forall a, b | a in closed && Step(bs, a, b) :: b in closed
    ensures p[|p| - 1] in closed
  {
    if |p| > 1 {
      var q := p[..|p| - 1];
      PathStays(bs, q, closed);
      assert Step(bs, p[|p| - 2], p[|p| - 1]);
    }
  }

  lemma StepConnected(bs: Bundles, start: string, a: string, b: string)
    requires Connected(bs, start, a) && Step(bs, a, b)
    ensures Connected(bs, start, b)
  {
    var p :| Joins(bs, p, start, a);
    assert Joins(bs, p + [b], start, b);
  }

  lemma SelfConnected(bs: Bundles, a: string)
    ensures Connected(bs, a, a)
  {
    assert Joins(bs, [a], a, a);
  }

  /** Mark the new neighbours and put them on the worklist. */
  method Visit(connected: set<string>, pending: seq<string>, found: set<string>)
    returns (marked: set<string>, work: seq<string>)
    ensures marked == connected + found
    ensures forall a :: a in work <==> a in pending || a in found
    ensures |work| == |pending| + |found|
  {
    marked, work := connected, pending;
    var rest := found;
    while rest != {}
      invariant rest <= found && marked == connected + (found - rest)
      invariant forall a :: a in work <==> a in pending || a in found - rest
      invariant |work| + |rest| == |pending| + |found|
      decreases |rest|
    {
      var b :| b in rest;
      marked := marked + {b};
      work := work + [b];
      rest := rest - {b};
    }
  }

  /** What the search knows: only connected bundles are marked, and those worked off have all their
      neighbours marked. */
  ghost predicate Known(bs: Bundles, start: string, connected: set<string>, pending: seq<string>) {
    && start in connected && connected <= bs.Keys + {start}
    && (forall a | a in pending :: a in connected)
    && (forall a | a in connected :: Connected(bs, start, a))
    && (forall a, b | a in connected && a !in pending && Step(bs, a, b) :: b in connected)
  }

  lemma KnownNext(bs: Bundles, start: string, connected: set<string>, pending: seq<string>, current: string,
                  found: set<string>, work: seq<string>)
    requires Known(bs, start, connected, pending + [current])
    requires found == (if IsJunk(bs, current) then {} else Neighbours(bs, current) - connected)
    requires forall a :: a in work <==> a in pending || a in found
    ensures Known(bs, start, connected + found, work)
  {
    hide Connected;
    forall a | a in found ensures Connected(bs, start, a) {
      assert current in pending + [current];
      StepConnected(bs, start, current, a);
    }
  }

  lemma KnownDone(bs: Bundles, start: string, connected: set<string>)
    requires Known(bs, start, connected, [])
    ensures connected == Component(bs, start)
  {
    forall b | b in bs.Keys + {start} && Connected(bs, start, b) ensures b in connected {
      var p :| Joins(bs, p, start, b);
      PathStays(bs, p, connected);
    }
  }

  /** `_bundle_gpu_ids`: ends, and visits exactly the component. */
  method BundleGpuIds(bs: Bundles, start: string) returns (connected: set<string>, r: Option<set<string>>)
    ensures connected == Component(bs, start)
    ensures r == GpuIds(bs, start)
  {
    hide Known, Neighbours;
    connected := {start};
    var pending := [start];
    KnownStart(bs, start);
    while pending != []
      invariant Known(bs, start, connected, pending) && connected <= bs.Keys + {start}
      decreases |bs.Keys + {start} - connected|, |pending|
    {
      var current := pending[|pending| - 1];
      var rest := pending[..|pending| - 1];
      assert pending == rest + [current];
      if IsJunk(bs, current) {
        KnownNext(bs, start, connected, rest, current, {}, rest);
        assert connected + {} == connected;
        pending := rest;
      } else {
        var found := Neighbours(bs, current) - connected;
        ghost var before := connected;
        var work;
        connected, work := Visit(connected, rest, found);
        KnownNext(bs, start, before, rest, current, found, work);
        InUniverse(bs, start, connected, work);
        if found != {} {
          Shrinks(bs.Keys + {start}, before, found);
        } else {
          assert connected == before;
        }
        pending := work;
      }
    }
    KnownDone(bs, start, connected);
    r := if exists j | j in connected :: IsJunk(bs, j) then None else Some(GpusOf(bs, connected));
  }

  lemma KnownStart(bs: Bundles, start: string)
    ensures Known(bs, start, {start}, [start])
  {
    SelfConnected(bs, start);
  }

  lemma InUniverse(bs: Bundles, start: string, connected: set<string>, pending: seq<string>)
    requires Known(bs, start, connected, pending)
    ensures connected <= bs.Keys + {start}
  {
  }

  lemma Shrinks(universe: set<string>, before: set<string>, all: set<string>)
    requires all <= universe && all != {} && all !! before
    ensures |universe - (before + all)| < |universe - before|
  {
    var a :| a in all;
    assert universe - (before + all) < universe - before;
    Smaller(universe - (before + all), universe - before);
  }

  lemma Smaller(a: set<string>, b: set<string>)
    requires a < b
    ensures |a| < |b|
  {
    assert b == a + (b - a);
  }

  // --- What is reported -------------------------------------------------------

  /** A registered mapping that the search reaches and that names this GPU. */
  ghost predicate Reports(bs: Bundles, start: string, b: string, gpu: string) {
    b in bs && bs[b].Bundle? && bs[b].gpu == gpu && Connected(bs, start, b)
  }

  /** The call fails exactly when the search reaches a value that is no mapping; otherwise the ids are those that some
      reached bundle names, and an empty one is none. */
  lemma GpusMeaning(bs: Bundles, start: string)
    ensures GpuIds(bs, start).None? <==> exists b :: b in bs && bs[b].Junk? && Connected(bs, start, b)
    ensures GpuIds(bs, start).Some? ==>
      forall gpu: string :: gpu in GpuIds(bs, start).value <==> gpu != "" && exists b :: Reports(bs, start, b, gpu)
  {
    hide Connected;
    var c := Component(bs, start);
    forall b | b in bs && Connected(bs, start, b) ensures b in c {
    }
    if GpuIds(bs, start).Some? {
      forall gpu: string | gpu in GpusOf(bs, c) ensures exists b :: Reports(bs, start, b, gpu) {
        var b :| b in c && GpuOf(bs, b) != "" && GpuOf(bs, b) == gpu;
        assert Reports(bs, start, b, gpu);
      }
      forall b, gpu: string | gpu != "" && Reports(bs, start, b, gpu) ensures gpu in GpusOf(bs, c) {
        assert GpuOf(bs, b) == gpu;
      }
    }
  }

  // --- Linked bundles share their GPUs ----------------------------------------

  /** One of the two registered bundles names the other in a list. */
  predicate Tied(bs: Bundles, a: string, b: string) {
    a in bs && b in bs && (Names(bs[a], b) || Names(bs[b], a))
  }

  lemma NamesBoth(b: Bundle, name: string)
    requires Names(b, name)
    ensures Lists(b, name) && Mentions(b, name)
  {
    var f :| f in [b.linkedTo, b.linkedFrom, b.linkedBundles] && f.Listed? && Name(name) in f.items;
    var i :| 0 <= i < |f.items| && f.items[i] == Name(name);
    assert TextOf(f.items[i]) == name;
  }

  /** A name in a list is seen from both sides. */
  lemma TiedSteps(bs: Bundles, a: string, b: string)
    requires Tied(bs, a, b) && !IsJunk(bs, a)
    ensures Step(bs, a, b)
  {
    hide Names, Lists, Mentions;
    if Names(bs[a], b) {
      NamesBoth(bs[a], b);
    } else {
      NamesBoth(bs[b], a);
    }
  }

  lemma ConnectedFrom(bs: Bundles, a: string, b: string, x: string)
    requires Step(bs, b, a) && Connected(bs, a, x)
    ensures Connected(bs, b, x)
  {
    var p :| Joins(bs, p, a, x);
    assert Joins(bs, [b] + p, b, x);
  }

  lemma {:induction false} ConnectedThrough(bs: Bundles, p: seq<string>, x: string)
    requires Path(bs, p) && Connected(bs, p[|p| - 1], x)
    ensures Connected(bs, p[0], x)
  {
    hide Connected;
    if |p| > 1 {
      var q := p[..|p| - 1];
      assert Step(bs, p[|p| - 2], p[|p| - 1]);
      ConnectedFrom(bs, p[|p| - 1], p[|p| - 2], x);
      ConnectedThrough(bs, q, x);
    }
  }

  lemma Inside(bs: Bundles, a: string, b: string)
    requires Connected(bs, a, b) && b in bs
    ensures Component(bs, b) <= Component(bs, a)
  {
    var p :| Joins(bs, p, a, b);
    forall x | x in Component(bs, b) ensures x in Component(bs, a) {
      ConnectedThrough(bs, p, x);
    }
  }

  lemma SelfInside(bs: Bundles, a: string)
    ensures a in Component(bs, a)
  {
    SelfConnected(bs, a);
  }

  lemma OneStep(bs: Bundles, a: string, b: string)
    requires Step(bs, a, b)
    ensures Connected(bs, a, b)
  {
    SelfConnected(bs, a);
    StepConnected(bs, a, a, b);
  }

  /** What the search sees of a link field that is no list: a name in a text, as any part of it, and a key of a mapping,
      each from the side of the name only; in a list, an item that is a text from both sides, and any other item from the
      side of the list. */
  lemma FieldSeenIff(f: Field, name: string)
    ensures f.Text? ==> !FieldLists(f, name) && (FieldHas(f, name) <==> exists i, j :: Cut(f.text, i, j, name))
    ensures f.Keyed? ==> !FieldLists(f, name) && (FieldHas(f, name) <==> name in f.keys)
    ensures f.Listed? ==>
      && (FieldHas(f, name) <==> Name(name) in f.items)
      && (FieldLists(f, name) <==> Name(name) in f.items || Other(name) in f.items)
  {
    if f.Text? {
      WithinIff(name, f.text);
    }
  }

  predicate Cut(text: string, i: int, j: int, part: string) {
    0 <= i <= j <= |text| && text[i..j] == part
  }

  lemma {:induction false} WithinIff(s: string, t: string)
    ensures Within(s, t) <==> exists i, j :: Cut(t, i, j, s)
  {
    if s <= t {
      assert Cut(t, 0, |s|, s);
    } else if t == "" {
      assert forall i, j :: Cut(t, i, j, s) ==> s == "";
    } else {
      WithinIff(s, t[1..]);
      if i, j :| Cut(t[1..], i, j, s) {
        assert t[1..][i..j] == t[i + 1..j + 1];
        assert Cut(t, i + 1, j + 1, s);
      }
      assert forall j :: Cut(t, 0, j, s) ==> s <= t;
      if i, j :| Cut(t, i, j, s) && i > 0 {
        assert t[1..][i - 1..j - 1] == t[i..j];
        assert Cut(t[1..], i - 1, j - 1, s);
      }
    }
  }

  /** Registered bundles of which one names the other in a list get the same answer, failure included. */
  lemma LinkedShareGpus(bs: Bundles, a: string, b: string)
    requires Tied(bs, a, b)
    ensures GpuIds(bs, a) == GpuIds(bs, b)
  {
    hide Tied, Component, Connected;
    SelfInside(bs, a);
    SelfInside(bs, b);
    InBundles(bs, a, b);
    JunkInside(bs);
    if !IsJunk(bs, a) {
      TiedSteps(bs, a, b);
      OneStep(bs, a, b);
      Inside(bs, a, b);
    }
    if !IsJunk(bs, b) {
      TiedSteps(bs, b, a);
      OneStep(bs, b, a);
      Inside(bs, b, a);
    }
    if !IsJunk(bs, a) && !IsJunk(bs, b) {
      assert Component(bs, a) == Component(bs, b);
    }
  }

  lemma JunkInside(bs: Bundles)
    ensures forall start: string, j: string {:trigger j in Component(bs, start), IsJunk(bs, j)} ::
      j in Component(bs, start) && IsJunk(bs, j) ==> GpuIds(bs, start) == None
  {
    hide Component;
  }

  lemma InBundles(bs: Bundles, a: string, b: string)
    requires Tied(bs, a, b)
    ensures a in bs && b in bs && Tied(bs, b, a)
  {
  }

  /** Whatever the names reach, however far, shares its GPUs. */
  lemma {:induction false} ComponentSharesGpus(bs: Bundles, p: seq<string>)
    requires p != [] && forall i | 0 < i < |p| :: Tied(bs, p[i - 1], p[i])
    ensures GpuIds(bs, p[0]) == GpuIds(bs, p[|p| - 1])
  {
    if |p| > 1 {
      ComponentSharesGpus(bs, p[..|p| - 1]);
      LinkedShareGpus(bs, p[|p| - 2], p[|p| - 1]);
    }
  }

  // --- Links seen from one side -----------------------------------------------

  /** The same links with other GPUs. */
  function WithGpus(bs: Bundles, g: map<string, string>): Bundles {
    map n | n in bs :: if bs[n].Bundle? then bs[n].(gpu := if n in g then g[n] else "") else bs[n]
  }

  lemma SamePaths(bs: Bundles, g: map<string, string>, p: seq<string>, a: string, b: string)
    ensures Joins(WithGpus(bs, g), p, a, b) == Joins(bs, p, a, b)
  {
    forall x, y ensures Step(WithGpus(bs, g), x, y) == Step(bs, x, y) {
      SameStep(bs, g, x, y);
    }
  }

  lemma SameStep(bs: Bundles, g: map<string, string>, x: string, y: string)
    ensures Step(WithGpus(bs, g), x, y) == Step(bs, x, y)
  {
  }

  lemma SameComponent(bs: Bundles, g: map<string, string>, start: string)
    ensures Component(WithGpus(bs, g), start) == Component(bs, start)
    ensures forall j :: IsJunk(WithGpus(bs, g), j) == IsJunk(bs, j)
  {
    forall b ensures Connected(WithGpus(bs, g), start, b) == Connected(bs, start, b) {
      SameConnected(bs, g, start, b);
    }
    assert WithGpus(bs, g).Keys == bs.Keys;
  }

  lemma SameConnected(bs: Bundles, g: map<string, string>, a: string, b: string)
    ensures Connected(WithGpus(bs, g), a, b) == Connected(bs, a, b)
  {
    if p :| Joins(bs, p, a, b) {
      SamePaths(bs, g, p, a, b);
      assert Joins(WithGpus(bs, g), p, a, b);
    }
    if p :| Joins(WithGpus(bs, g), p, a, b) {
      SamePaths(bs, g, p, a, b);
      assert Joins(bs, p, a, b);
    }
  }

  /** The two bundles get the same answer whatever the GPUs are. */
  ghost predicate Agree(bs: Bundles, a: string, b: string) {
    forall g: map<string, string> :: GpuIds(WithGpus(bs, g), a) == GpuIds(WithGpus(bs, g), b)
  }

  /** A text field can be seen from one side only. When the search gets from a to b, they agree exactly
      when it also gets back, or fails from b. */
  lemma AgreeIff(bs: Bundles, a: string, b: string)
    requires b in bs && a in bs && bs[a].Bundle? && Step(bs, a, b)
    ensures Agree(bs, a, b) <==> Connected(bs, b, a) || exists j :: j in Component(bs, b) && IsJunk(bs, j)
  {
    hide Component, Connected, Step;
    OneStep(bs, a, b);
    Inside(bs, a, b);
    if Connected(bs, b, a) {
      Inside(bs, b, a);
    }
    if j :| j in Component(bs, b) && IsJunk(bs, j) {
      BothFail(bs, a, b, j);
    } else if Connected(bs, b, a) {
      SameNames(bs, a, b);
    } else {
      OnlyA(bs, a, b);
    }
  }

  lemma BothFail(bs: Bundles, a: string, b: string, j: string)
    requires j in Component(bs, a) && j in Component(bs, b) && IsJunk(bs, j)
    ensures Agree(bs, a, b)
  {
    hide Component;
    forall g: map<string, string> ensures GpuIds(WithGpus(bs, g), a) == GpuIds(WithGpus(bs, g), b) {
      SameComponent(bs, g, a);
      SameComponent(bs, g, b);
      assert IsJunk(WithGpus(bs, g), j);
    }
  }

  lemma SameNames(bs: Bundles, a: string, b: string)
    requires Component(bs, a) == Component(bs, b)
    ensures Agree(bs, a, b)
  {
    hide Component;
    forall g: map<string, string> ensures GpuIds(WithGpus(bs, g), a) == GpuIds(WithGpus(bs, g), b) {
      SameComponent(bs, g, a);
      SameComponent(bs, g, b);
    }
  }

  lemma OnlyA(bs: Bundles, a: string, b: string)
    requires a in bs && bs[a].Bundle? && !Connected(bs, b, a)
    requires forall j :: j in Component(bs, b) ==> !IsJunk(bs, j)
    ensures !Agree(bs, a, b)
  {
    var g := map[a := "gpu"];
    var cs := WithGpus(bs, g);
    SameComponent(bs, g, a);
    SameComponent(bs, g, b);
    SelfInside(bs, a);
    assert a !in Component(bs, b);
    assert GpuIds(cs, b) == Some(GpusOf(cs, Component(bs, b)));
    assert "gpu" !in GpusOf(cs, Component(bs, b));
    assert GpuOf(cs, a) == "gpu";
    assert GpuIds(cs, a) != GpuIds(cs, b);
  }

  /** A text that names the other bundle is seen from there, and not from here. */
  lemma TextLinkIsOneWay(a: string, b: string, gpuA: string, gpuB: string)
    requires a != b && !Within(a, b) && gpuA != "" && gpuB != "" && gpuA != gpuB
    ensures var none := Listed([]);
      var bs := map[a := Bundle(Text(b), none, none, gpuA), b := Bundle(none, none, none, gpuB)];
      GpuIds(bs, a) == Some({gpuA}) && GpuIds(bs, b) == Some({gpuA, gpuB})
  {
    var none := Listed([]);
    var bs := map[a := Bundle(Text(b), none, none, gpuA), b := Bundle(none, none, none, gpuB)];
    assert Within(b, b);
    assert Step(bs, b, a);
    OneStep(bs, b, a);
    SelfInside(bs, a);
    SelfInside(bs, b);
    forall y | Step(bs, a, y) ensures y == a {
      assert y == b ==> !Lists(bs[a], b) && !Mentions(bs[b], a);
    }
    forall x | x in Component(bs, a) ensures x == a {
      var p :| Joins(bs, p, a, x);
      PathStays(bs, p, {a});
    }
    assert Component(bs, a) == {a};
    assert Component(bs, b) == {a, b};
    OneGpu(bs, a);
    TwoGpus(bs, a, b);
  }

  lemma OneGpu(bs: Bundles, a: string)
    requires GpuOf(bs, a) != ""
    ensures GpusOf(bs, {a}) == {GpuOf(bs, a)}
  {
    assert a in {a};
  }

  lemma TwoGpus(bs: Bundles, a: string, b: string)
    requires GpuOf(bs, a) != "" && GpuOf(bs, b) != ""
    ensures GpusOf(bs, {a, b}) == {GpuOf(bs, a), GpuOf(bs, b)}
  {
    assert a in {a, b} && b in {a, b};
  }
}
