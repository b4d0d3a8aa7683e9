/** A pass over the held notifications, seen as the single releases it is made of. */
module Releases {
  import opened Base
  import opened Lanes
  import opened Engine
  import opened Runs

  lemma SameLanesSameState(a: State, b: State)
    requires SameBeside(a, b) && forall x: Check :: LaneOf(a, x) == LaneOf(b, x)
    ensures a == b
  {
    forall x: Check
      ensures Lookup(a.states, x) == Lookup(b.states, x) && Lookup(a.active, x) == Lookup(b.active, x)
      ensures Lookup(a.sidePending, x) == Lookup(b.sidePending, x) && Lookup(a.releasing, x) == Lookup(b.releasing, x)
      ensures Lookup(a.held, x) == Lookup(b.held, x)
    {
      assert LaneOf(a, x) == LaneOf(b, x);
    }
    SameLookupsSameMap(a.states, b.states);
    SameLookupsSameMap(a.active, b.active);
    SameLookupsSameMap(a.sidePending, b.sidePending);
    SameLookupsSameMap(a.releasing, b.releasing);
    SameLookupsSameMap(a.held, b.held);
  }

  lemma SameLookupsSameMap<V>(a: map<Check, V>, b: map<Check, V>)
    requires forall x: Check :: Lookup(a, x) == Lookup(b, x)
    ensures a == b
  {
    assert forall x: Check :: x in a <==> Lookup(a, x).Some?;
    assert forall x: Check :: x in b <==> Lookup(b, x).Some?;
    assert forall x: Check :: x in a ==> Lookup(a, x) == Some(a[x]) && Lookup(b, x) == Some(b[x]);
  }

  function Put<V>(m: map<Check, V>, c: Check, v: Option<V>): map<Check, V> {
    if v.Some? then m[c := v.value] else m - {c}
  }

  /** `s'` with one check put back as `s` has it. */
  function PutBack(s: State, s': State, c: Check): State {
    s'.(active := Put(s'.active, c, Lookup(s.active, c)), held := Put(s'.held, c, Lookup(s.held, c)))
  }

  lemma PutThere<V>(m: map<Check, V>, c: Check, v: Option<V>, x: Check)
    ensures Lookup(Put(m, c, v), x) == if x == c then v else Lookup(m, x)
  {
  }

  lemma PutBackLanes(s: State, s': State, c: Check, x: Check)
    requires LaneOf(s', c) == LetGo(LaneOf(s, c))
    ensures LaneOf(PutBack(s, s', c), x) == if x == c then LaneOf(s, c) else LaneOf(s', x)
  {
    PutThere(s'.active, c, Lookup(s.active, c), x);
    PutThere(s'.held, c, Lookup(s.held, c), x);
    LetGoMovesTwo(LaneOf(s, c));
  }

  lemma LetGoMovesTwo(l: Lane)
    ensures LetGo(l) == l.(alert := LetGo(l).alert, hold := LetGo(l).hold)
  {
  }

  /** The part of an emission about one check. */
  function Own(em: Emission, c: Check): Emission {
    if c in em then map[c := em[c]] else map[]
  }

  /** Taking one release back out of a set of them. */
  lemma AllButOne(s: State, s': State, gone: set<Check>, em: Emission, c: Check)
    requires ReleasedSoFar(s, s', gone, em) && c in gone
    ensures ReleasedSoFar(s, PutBack(s, s', c), gone - {c}, em - {c})
  {
    var mid := PutBack(s, s', c);
    assert LetGoTo(s, s', c, em);
    forall x: Check
      ensures if x in gone - {c} then LetGoTo(s, mid, x, em - {c}) else LaneOf(mid, x) == LaneOf(s, x) && x !in em - {c}
    {
      PutBackLanes(s, s', c, x);
      assert x in gone ==> LetGoTo(s, s', x, em);
    }
  }

  lemma TheOneReleased(s: State, s': State, gone: set<Check>, em: Emission, c: Check)
    requires ReleasedSoFar(s, s', gone, em) && c in gone
    ensures LetGoStep(PutBack(s, s', c), s', c, Own(em, c))
  {
    assert LetGoTo(s, s', c, em);
    forall x: Check
      ensures LaneOf(PutBack(s, s', c), x) == if x == c then LaneOf(s, c) else LaneOf(s', x)
    {
      PutBackLanes(s, s', c, x);
    }
  }

  function Front(acts: seq<Action>): seq<Action> {
    if acts == [] then [] else acts[..|acts| - 1]
  }

  function Back(acts: seq<Action>): seq<Action> {
    if acts == [] then [] else [acts[|acts| - 1]]
  }

  lemma SplitListing(acts: seq<Action>, em: Emission, c: Check)
    requires Lists(acts, em) && if acts == [] then c !in em else acts[|acts| - 1].alert.check == c
    ensures Lists(Front(acts), em - {c}) && Lists(Back(acts), Own(em, c)) && acts == Front(acts) + Back(acts)
  {
    FrontListing(acts, em, c);
    BackListing(acts, em, c);
  }

  lemma FrontListing(acts: seq<Action>, em: Emission, c: Check)
    requires Lists(acts, em) && if acts == [] then c !in em else acts[|acts| - 1].alert.check == c
    ensures Lists(Front(acts), em - {c})
  {
    var front := Front(acts);
    forall x | x in em && x != c
      ensures em[x] in front
    {
      var i :| 0 <= i < |acts| && acts[i] == em[x];
      assert front[i] == em[x];
    }
    forall i | 0 <= i < |front|
      ensures front[i].alert.check in em - {c} && (em - {c})[front[i].alert.check] == front[i]
    {
      assert front[i] == acts[i];
    }
  }

  lemma BackListing(acts: seq<Action>, em: Emission, c: Check)
    requires Lists(acts, em) && if acts == [] then c !in em else acts[|acts| - 1].alert.check == c
    ensures Lists(Back(acts), Own(em, c)) && acts == Front(acts) + Back(acts)
  {
    if acts != [] {
      assert Back(acts)[0] == acts[|acts| - 1];
    }
  }

  predicate OnlyLetsGo(run: seq<Entry>) {
    forall i :: 0 <= i < |run| ==> run[i].step.LettingGo?
  }

  /** A run from `s` to `here` that does nothing but let held notifications go. */
  ghost predicate LetsGo(s: State, retired: set<NodeId>, run: seq<Entry>, here: State) {
    IsRun(s, retired, run) && EndState(s, run) == here && EndRetired(s, retired, run) == retired && OnlyLetsGo(run)
  }

  lemma ListedIsEmitted(acts: seq<Action>, em: Emission)
    requires Lists(acts, em)
    ensures acts != [] ==> em != map[]
  {
    if acts != [] {
      assert acts[0].alert.check in em;
    }
  }

  lemma NothingReleased(s: State, s': State, acts: seq<Action>, em: Emission)
    requires ReleasedSoFar(s, s', {}, em) && Lists(acts, em)
    ensures s' == s && acts == []
  {
    SameLanesSameState(s, s');
    assert forall c: Check :: LaneOf(s', c) == LaneOf(s, c) && c !in em;
    assert em == map[];
    ListedIsEmitted(acts, em);
  }

  lemma OneMoreRelease(env: Env, s: State, mid: State, s': State, retired: set<NodeId>, init: seq<Entry>, c: Check,
                       em: Emission, acts: seq<Action>)
    requires LetsGo(s, retired, init, mid) && LetGoStep(mid, s', c, em) && Lists(acts, em)
    ensures var run := init + [Entry(env, LettingGo(c), em, acts, s')];
            LetsGo(s, retired, run, s') && Log(run) == Log(init) + acts
  {
    RunOneMore(s, retired, init, Entry(env, LettingGo(c), em, acts, s'));
  }

  /** The release delivered last, or any of them when none is delivered. */
  lemma SomeLastRelease(s: State, s': State, gone: set<Check>, acts: seq<Action>, em: Emission) returns (c: Check)
    requires ReleasedSoFar(s, s', gone, em) && Lists(acts, em) && gone != {}
    ensures c in gone && if acts == [] then c !in em else acts[|acts| - 1].alert.check == c
  {
    if acts == [] {
      c :| c in gone;
    } else {
      c := acts[|acts| - 1].alert.check;
    }
  }

  /**
   * A pass that releases some held notifications is a run of single releases, one after the other, in
   * the order it delivers them. So everything proved of runs, where any step may come between two
   * releases, covers the pass.
   */
  lemma {:induction false} ReleasePassIsARun(env: Env, s: State, s': State, gone: set<Check>, acts: seq<Action>,
                                             em: Emission, retired: set<NodeId>)
    returns (run: seq<Entry>)
    requires ReleasedSoFar(s, s', gone, em) && Lists(acts, em)
    ensures LetsGo(s, retired, run, s') && Log(run) == acts
    decreases gone
  {
    if gone == {} {
      NothingReleased(s, s', acts, em);
      run := [];
    } else {
      var c := SomeLastRelease(s, s', gone, acts, em);
      var mid := PutBack(s, s', c);
      AllButOne(s, s', gone, em, c);
      TheOneReleased(s, s', gone, em, c);
      SplitListing(acts, em, c);
      var init := ReleasePassIsARun(env, s, mid, gone - {c}, Front(acts), em - {c}, retired);
      OneMoreRelease(env, s, mid, s', retired, init, c, Own(em, c), Back(acts));
      run := init + [Entry(env, LettingGo(c), Own(em, c), Back(acts), s')];
    }
  }
}
