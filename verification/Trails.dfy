/** Runs under one configuration, as a method that takes several steps leaves them behind. */
module Trails {
  import opened Base
  import opened Lanes
  import opened Engine
  import opened Runs

  /** The steps a run takes. */
  function Steps(run: seq<Entry>): seq<Step> {
    if run == [] then [] else Steps(run[..|run| - 1]) + [run[|run| - 1].step]
  }

  lemma StepsOneMore(run: seq<Entry>, e: Entry)
    ensures Steps(run + [e]) == Steps(run) + [e.step]
  {
    assert (run + [e])[..|run|] == run;
  }

  /** A run on the way: where it started, and which node ids were retired then. */
  datatype Trail = Trail(start: State, retired: set<NodeId>, run: seq<Entry>)

  /** The run led from its start to here under one configuration, and delivered `acts`. */
  ghost predicate LeadsTo(env: Env, t: Trail, here: State, acts: seq<Action>) {
    && IsRun(t.start, t.retired, t.run) && EndRetired(t.start, t.retired, t.run) == t.retired
    && EndState(t.start, t.run) == here && Log(t.run) == acts
    && forall i :: 0 <= i < |t.run| ==> t.run[i].env == env
  }

  /** One trail goes on from another by these steps. */
  ghost predicate Continues(t0: Trail, t: Trail, steps: seq<Step>) {
    t.start == t0.start && t.retired == t0.retired && t0.run <= t.run && Steps(t.run) == Steps(t0.run) + steps
  }

  lemma ContinuesOn(t0: Trail, t1: Trail, t2: Trail, a: seq<Step>, b: seq<Step>)
    requires Continues(t0, t1, a) && Continues(t1, t2, b)
    ensures Continues(t0, t2, a + b)
  {
    assert (Steps(t0.run) + a) + b == Steps(t0.run) + (a + b);
  }

  lemma ContinuesFourTimes(t0: Trail, t1: Trail, t2: Trail, t3: Trail, t: Trail, a: seq<Step>, b: seq<Step>,
                           f: seq<Step>, w: seq<Step>)
    requires Continues(t0, t1, a) && Continues(t1, t2, b) && Continues(t2, t3, f) && Continues(t3, t, w)
    ensures Continues(t0, t, a + (b + f + w))
  {
    ContinuesOn(t1, t2, t3, b, f);
    ContinuesOn(t1, t3, t, b + f, w);
    ContinuesOn(t0, t1, t, a, b + f + w);
  }

  /** One more step. */
  lemma Extends(env: Env, t: Trail, here: State, acts: seq<Action>, e: Entry)
    requires LeadsTo(env, t, here, acts) && e.env == env
    requires Legal(e.step, t.retired) && !e.step.Forgetting?
    requires Takes(env, here, e.post, e.step, e.em) && Lists(e.acts, e.em)
    ensures LeadsTo(env, t.(run := t.run + [e]), e.post, acts + e.acts)
    ensures Continues(t, t.(run := t.run + [e]), [e.step])
  {
    RunOneMore(t.start, t.retired, t.run, e);
    StepsOneMore(t.run, e);
  }
}
