/** Which values of a result are readings, and which are a vendor's way of saying that there is none. */
module NoReading {
  import opened Base

  /** A collection item: the metric name it publishes, and the placeholder its column declares. */
  datatype Item = Item(metric: string, marker: Option<real>)

  datatype Markers = Markers(byMetric: map<string, real>, values: seq<real>) {

    /** A value that is nobody's placeholder is passed without looking its metric up. */
    predicate IsMarker(s: Sample) {
      s.value in values && s.metric in byMetric && byMetric[s.metric] == s.value
    }
  }

  datatype Sample = Sample(metric: string, row: Option<nat>, value: real)

  predicate Publishes(items: seq<Item>, name: string) {
    exists i :: 0 <= i < |items| && items[i].metric == name
  }

  /** Every item publishing the name declares the same marker. */
  predicate Unanimous(items: seq<Item>, name: string, marker: Option<real>) {
    forall i :: 0 <= i < |items| && items[i].metric == name ==> items[i].marker == marker
  }

  predicate Declares(items: seq<Item>, name: string) {
    exists i :: 0 <= i < |items| && items[i].metric == name && items[i].marker.Some?
  }

  predicate Maps(m: map<string, real>, name: string, v: real) {
    name in m && m[name] == v
  }

  ghost predicate HasValue(m: map<string, real>, v: real) {
    exists name :: Maps(m, name, v)
  }

  /** A name has a marker exactly when every item publishing it declares it, and somebody does. */
  ghost predicate IsTable(items: seq<Item>, t: Markers) {
    && (forall name: string, m: real ::
          Maps(t.byMetric, name, m) <==> Publishes(items, name) && Unanimous(items, name, Some(m)))
    && (forall v: real :: v in t.values <==> HasValue(t.byMetric, v))
  }

  /** Per name, the marker all items up to here share, or `None` after a disagreement. */
  ghost predicate Agreed(items: seq<Item>, agreed: map<string, Option<real>>) {
    && (forall name: string :: name in agreed <==> Publishes(items, name))
    && (forall name: string, m: real :: name in agreed ==>
        (agreed[name] == Some(m) <==> Unanimous(items, name, Some(m))))
  }

  ghost predicate Declared(items: seq<Item>, declared: seq<string>) {
    forall name: string :: name in declared <==> Declares(items, name)
  }

  function AgreedWith(agreed: map<string, Option<real>>, item: Item): map<string, Option<real>> {
    if item.metric !in agreed then agreed[item.metric := item.marker]
    else if agreed[item.metric] != item.marker then agreed[item.metric := None]
    else agreed
  }

  lemma PublishesOneMore(items: seq<Item>, item: Item, name: string)
    ensures Publishes(items + [item], name) <==> Publishes(items, name) || item.metric == name
  {
    var all := items + [item];
    assert all[|items|] == item;
    if i :| 0 <= i < |items| && items[i].metric == name {
      assert all[i].metric == name;
    }
  }

  lemma UnanimousOneMore(items: seq<Item>, item: Item, name: string, marker: Option<real>)
    ensures Unanimous(items + [item], name, marker) <==>
            Unanimous(items, name, marker) && (item.metric == name ==> item.marker == marker)
  {
    var all := items + [item];
    assert all[|items|] == item;
    assert forall i :: 0 <= i < |items| ==> all[i] == items[i];
  }

  lemma AgreedOneMore(items: seq<Item>, item: Item, agreed: map<string, Option<real>>)
    requires Agreed(items, agreed)
    ensures Agreed(items + [item], AgreedWith(agreed, item))
  {
    var now := AgreedWith(agreed, item);
    forall name: string
      ensures name in now <==> Publishes(items + [item], name)
    {
      PublishesOneMore(items, item, name);
    }
    forall name: string, m: real | name in now
      ensures now[name] == Some(m) <==> Unanimous(items + [item], name, Some(m))
    {
      UnanimousOneMore(items, item, name, Some(m));
      if name !in agreed {
        assert !Publishes(items, name);
      }
    }
  }

  lemma DeclaredOneMore(items: seq<Item>, item: Item, declared: seq<string>)
    requires Declared(items, declared)
    ensures Declared(items + [item],
                     if item.marker.Some? && item.metric !in declared then declared + [item.metric] else declared)
  {
    var all := items + [item];
    assert all[|items|] == item;
    forall name: string
      ensures Declares(all, name) <==> Declares(items, name) || (item.metric == name && item.marker.Some?)
    {
      if i :| 0 <= i < |items| && items[i].metric == name && items[i].marker.Some? {
        assert all[i] == items[i];
      }
    }
  }

  /** The table for the items a deployment knows. */
  method FromItems(items: seq<Item>) returns (t: Markers)
    ensures IsTable(items, t)
  {
    var agreed: map<string, Option<real>> := map[];
    var declared: seq<string> := [];
    for i := 0 to |items|
      invariant Agreed(items[..i], agreed) && Declared(items[..i], declared)
    {
      var item := items[i];
      AgreedOneMore(items[..i], item, agreed);
      DeclaredOneMore(items[..i], item, declared);
      PrefixPush(items, i);
      if item.marker.Some? && item.metric !in declared {
        declared := declared + [item.metric];
      }
      agreed := AgreedWith(agreed, item);
    }
    assert items[..|items|] == items;
    t := Tabulate(items, declared, agreed);
  }

  lemma PrefixPush<T>(q: seq<T>, i: nat)
    requires i < |q|
    ensures q[..i + 1] == q[..i] + [q[i]]
  {
  }

  /** The names whose declared marker nobody disagrees with, and the distinct markers among them. */
  method Tabulate(ghost items: seq<Item>, declared: seq<string>, agreed: map<string, Option<real>>) returns (t: Markers)
    requires Agreed(items, agreed) && Declared(items, declared)
    ensures IsTable(items, t)
  {
    var byMetric: map<string, real> := map[];
    var values: seq<real> := [];
    for i := 0 to |declared|
      invariant Tabulated(declared[..i], agreed, byMetric)
      invariant forall v: real :: v in values <==> HasValue(byMetric, v)
    {
      var name := declared[i];
      TabulatedOneMore(declared, i, agreed, byMetric);
      if name in agreed && agreed[name].Some? {
        var marker := agreed[name].value;
        ValuesOneMore(byMetric, name, marker);
        byMetric := byMetric[name := marker];
        if marker !in values {
          values := values + [marker];
        }
      }
    }
    assert declared[..|declared|] == declared;
    t := Markers(byMetric, values);
    TabulatedIsATable(items, declared, agreed, byMetric);
  }

  /** The agreed markers of some names. */
  ghost predicate Tabulated(names: seq<string>, agreed: map<string, Option<real>>, byMetric: map<string, real>) {
    && (forall name: string :: name in byMetric <==> name in names && name in agreed && agreed[name].Some?)
    && (forall name: string :: name in byMetric ==> agreed[name] == Some(byMetric[name]))
  }

  lemma TabulatedOneMore(declared: seq<string>, i: nat, agreed: map<string, Option<real>>, byMetric: map<string, real>)
    requires i < |declared| && Tabulated(declared[..i], agreed, byMetric)
    ensures var name := declared[i];
            Tabulated(declared[..i + 1], agreed,
                      if name in agreed && agreed[name].Some? then byMetric[name := agreed[name].value] else byMetric)
  {
    assert declared[..i + 1] == declared[..i] + [declared[i]];
  }

  lemma TabulatedIsATable(items: seq<Item>, declared: seq<string>, agreed: map<string, Option<real>>,
                          byMetric: map<string, real>)
    requires Agreed(items, agreed) && Declared(items, declared) && Tabulated(declared, agreed, byMetric)
    ensures forall name: string, m: real ::
              Maps(byMetric, name, m) <==> Publishes(items, name) && Unanimous(items, name, Some(m))
  {
    forall name: string, m: real
      ensures Maps(byMetric, name, m) <==> Publishes(items, name) && Unanimous(items, name, Some(m))
    {
      if Publishes(items, name) && Unanimous(items, name, Some(m)) {
        UnanimousIsDeclared(items, name, m);
      }
    }
  }

  lemma UnanimousIsDeclared(items: seq<Item>, name: string, m: real)
    requires Publishes(items, name) && Unanimous(items, name, Some(m))
    ensures Declares(items, name)
  {
    var i :| 0 <= i < |items| && items[i].metric == name;
    assert items[i].marker.Some?;
  }

  lemma ValuesOneMore(m: map<string, real>, name: string, v: real)
    requires name in m ==> m[name] == v
    ensures forall x: real :: HasValue(m[name := v], x) <==> HasValue(m, x) || x == v
  {
    var m' := m[name := v];
    assert Maps(m', name, v);
    forall x: real
      ensures HasValue(m', x) <==> HasValue(m, x) || x == v
    {
      if k :| Maps(m, k, x) {
        assert Maps(m', k, x);
      }
      if k :| Maps(m', k, x) {
        assert k != name ==> Maps(m, k, x);
      }
    }
  }

  // ------------------------------------------------------------------------------------------
  // What the table does not depend on.

  /** The order in which the items are listed does not matter, nor does listing one twice. */
  lemma OrderDoesNotMatter(a: seq<Item>, b: seq<Item>, t: Markers, u: Markers)
    requires IsTable(a, t) && IsTable(b, u) && forall item :: item in a <==> item in b
    ensures t.byMetric == u.byMetric && forall s :: t.IsMarker(s) <==> u.IsMarker(s)
  {
    forall name: string, m: real
      ensures Maps(t.byMetric, name, m) <==> Maps(u.byMetric, name, m)
    {
      SameSay(a, b, name, m);
      SameSay(b, a, name, m);
    }
    assert forall name: string :: name in t.byMetric ==> Maps(t.byMetric, name, t.byMetric[name]);
    assert forall name: string :: name in u.byMetric ==> Maps(u.byMetric, name, u.byMetric[name]);
    assert t.byMetric == u.byMetric;
    forall s: Sample
      ensures t.IsMarker(s) <==> u.IsMarker(s)
    {
      TheFastPathNeverDecides(a, t, s);
      TheFastPathNeverDecides(b, u, s);
    }
  }

  lemma SameSay(a: seq<Item>, b: seq<Item>, name: string, m: real)
    requires forall item :: item in a <==> item in b
    ensures Publishes(a, name) && Unanimous(a, name, Some(m)) ==> Publishes(b, name) && Unanimous(b, name, Some(m))
  {
    if Publishes(a, name) && Unanimous(a, name, Some(m)) {
      var i :| 0 <= i < |a| && a[i].metric == name;
      assert a[i] in b;
      forall j | 0 <= j < |b| && b[j].metric == name
        ensures b[j].marker == Some(m)
      {
        assert b[j] in a;
      }
    }
  }

  /** Looking at the distinct values first never changes the answer. */
  lemma TheFastPathNeverDecides(items: seq<Item>, t: Markers, s: Sample)
    requires IsTable(items, t)
    ensures t.IsMarker(s) <==> Maps(t.byMetric, s.metric, s.value)
  {
    assert Maps(t.byMetric, s.metric, s.value) ==> HasValue(t.byMetric, s.value);
  }

  // ------------------------------------------------------------------------------------------
  // Admitting a result.

  function Readings(t: Markers, samples: seq<Sample>): seq<Sample> {
    if samples == [] then []
    else
      var last := samples[|samples| - 1];
      Readings(t, samples[..|samples| - 1]) + if t.IsMarker(last) then [] else [last]
  }

  function Placeholders(t: Markers, samples: seq<Sample>): seq<Sample> {
    if samples == [] then []
    else
      var last := samples[|samples| - 1];
      Placeholders(t, samples[..|samples| - 1]) + if t.IsMarker(last) then [last] else []
  }

  /** The readings of a result and its placeholders, apart. */
  method Admit(t: Markers, samples: seq<Sample>) returns (readings: seq<Sample>, placeholders: seq<Sample>)
    ensures readings == Readings(t, samples) && placeholders == Placeholders(t, samples)
  {
    readings, placeholders := samples, [];
    if |t.byMetric| != 0 && exists i :: 0 <= i < |samples| && t.IsMarker(samples[i]) {
      readings := [];
      for i := 0 to |samples|
        invariant readings == Readings(t, samples[..i]) && placeholders == Placeholders(t, samples[..i])
      {
        assert samples[..i + 1][..i] == samples[..i];
        if t.IsMarker(samples[i]) {
          placeholders := placeholders + [samples[i]];
        } else {
          readings := readings + [samples[i]];
        }
      }
      assert samples[..|samples|] == samples;
    } else {
      NothingToTakeOut(t, samples);
    }
  }

  lemma {:induction false} NothingToTakeOut(t: Markers, samples: seq<Sample>)
    requires forall i :: 0 <= i < |samples| ==> !t.IsMarker(samples[i])
    ensures Readings(t, samples) == samples && Placeholders(t, samples) == []
  {
    if samples != [] {
      NothingToTakeOut(t, samples[..|samples| - 1]);
    }
  }

  /** Two sequences merged back: where the mask says so, the next one comes from the second. */
  function Merge(mask: seq<bool>, a: seq<Sample>, b: seq<Sample>): seq<Sample>
    requires |a| + |b| == |mask|
  {
    if mask == [] then []
    else if mask[|mask| - 1] then
      if b == [] then [] else Merge(mask[..|mask| - 1], a, b[..|b| - 1]) + [b[|b| - 1]]
    else
      if a == [] then [] else Merge(mask[..|mask| - 1], a[..|a| - 1], b) + [a[|a| - 1]]
  }

  function MaskOf(t: Markers, samples: seq<Sample>): seq<bool> {
    if samples == [] then [] else MaskOf(t, samples[..|samples| - 1]) + [t.IsMarker(samples[|samples| - 1])]
  }

  lemma MergeOneMore(mask: seq<bool>, a: seq<Sample>, b: seq<Sample>, s: Sample)
    requires |a| + |b| == |mask|
    ensures Merge(mask + [true], a, b + [s]) == Merge(mask, a, b) + [s]
    ensures Merge(mask + [false], a + [s], b) == Merge(mask, a, b) + [s]
  {
    assert (mask + [true])[..|mask|] == mask && (mask + [false])[..|mask|] == mask;
    assert (a + [s])[..|a|] == a && (b + [s])[..|b|] == b;
  }

  lemma {:induction false} SplitSizes(t: Markers, samples: seq<Sample>)
    ensures |MaskOf(t, samples)| == |samples| == |Readings(t, samples)| + |Placeholders(t, samples)|
  {
    if samples != [] {
      SplitSizes(t, samples[..|samples| - 1]);
    }
  }

  /** The two halves of a result, merged back. */
  function Merged(t: Markers, samples: seq<Sample>): seq<Sample> {
    SplitSizes(t, samples);
    Merge(MaskOf(t, samples), Readings(t, samples), Placeholders(t, samples))
  }

  lemma MergedOneMore(t: Markers, init: seq<Sample>, s: Sample)
    ensures Merged(t, init + [s]) == Merged(t, init) + [s]
  {
    var mask, a, b, all := MaskOf(t, init), Readings(t, init), Placeholders(t, init), init + [s];
    assert all[..|init|] == init;
    SplitSizes(t, init);
    MergeOneMore(mask, a, b, s);
    if t.IsMarker(s) {
      assert Readings(t, all) == a;
    } else {
      assert Placeholders(t, all) == b;
    }
  }

  /** The two halves lose nothing, duplicate nothing and keep their order: merged they are the result. */
  lemma {:induction false} SplitLosesNothing(t: Markers, samples: seq<Sample>)
    ensures Merged(t, samples) == samples
  {
    if samples != [] {
      var init, last := samples[..|samples| - 1], samples[|samples| - 1];
      SplitLosesNothing(t, init);
      MergedOneMore(t, init, last);
      LastApart(samples);
    } else {
      MergedNothing(t);
    }
  }

  lemma MergedNothing(t: Markers)
    ensures Merged(t, []) == []
  {
  }

  lemma LastApart<T>(q: seq<T>)
    requires q != []
    ensures q == q[..|q| - 1] + [q[|q| - 1]]
  {
  }

  /** One half holds no placeholder, and the other nothing else. */
  lemma {:induction false} HalvesArePure(t: Markers, samples: seq<Sample>)
    ensures forall s :: s in Readings(t, samples) ==> !t.IsMarker(s)
    ensures forall s :: s in Placeholders(t, samples) ==> t.IsMarker(s)
  {
    if samples != [] {
      HalvesArePure(t, samples[..|samples| - 1]);
    }
  }
}
