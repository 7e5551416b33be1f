/** Runs by what they show. */
module Traces {
  import opened CacheServer
  import opened CacheSystem

  /** Some run leads from `s` to `t` and shows `trace`. */
  ghost predicate Displays(cfg: Config, s: State, trace: seq<Event>, t: State) {
    exists steps :: Run(cfg, s, steps, t) && Trace(cfg, s, steps, t) == trace
  }

  /** Some run from `s` shows `trace`. */
  ghost predicate CanShow(cfg: Config, s: State, trace: seq<Event>) {
    exists t :: Displays(cfg, s, trace, t)
  }

  lemma {:induction false} TraceAppend(cfg: Config, s: State, a: seq<Step>, t: State, b: seq<Step>, u: State)
    requires Run(cfg, s, a, t) && Run(cfg, t, b, u)
    ensures Run(cfg, s, a + b, u)
    ensures Trace(cfg, s, a + b, u) == Trace(cfg, s, a, t) + Trace(cfg, t, b, u)
    decreases |a|
  {
    if a == [] {
      assert a + b == b;
    } else {
      var s1 := Do(cfg, s, a[0]);
      assert (a + b)[0] == a[0] && (a + b)[1..] == a[1..] + b;
      TraceAppend(cfg, s1, a[1..], t, b, u);
      Regroup(Shows(cfg, s, a[0]), Trace(cfg, s1, a[1..], t), Trace(cfg, t, b, u));
    }
  }

  lemma Regroup(x: seq<Event>, y: seq<Event>, z: seq<Event>)
    ensures (x + y) + z == x + (y + z)
  {
  }

  lemma DisplaysNothing(cfg: Config, s: State)
    ensures Displays(cfg, s, [], s)
  {
    assert Run(cfg, s, [], s);
  }

  lemma DisplaysStep(cfg: Config, s: State, e: Step)
    requires CanStep(cfg, s, e)
    ensures Displays(cfg, s, Shows(cfg, s, e), Do(cfg, s, e))
  {
    assert [e][1..] == [];
    assert Run(cfg, s, [e], Do(cfg, s, e));
    assert Trace(cfg, s, [e], Do(cfg, s, e)) == Shows(cfg, s, e);
  }

  lemma DisplaysThen(cfg: Config, s: State, a: seq<Event>, t: State, b: seq<Event>, u: State)
    requires Displays(cfg, s, a, t) && Displays(cfg, t, b, u)
    ensures Displays(cfg, s, a + b, u)
  {
    var x :| Run(cfg, s, x, t) && Trace(cfg, s, x, t) == a;
    var y :| Run(cfg, t, y, u) && Trace(cfg, t, y, u) == b;
    TraceAppend(cfg, s, x, t, y, u);
  }

  /** One more step that shows nothing. */
  lemma ThenSilently(cfg: Config, s: State, a: seq<Event>, t: State, e: Step)
    requires Displays(cfg, s, a, t) && CanStep(cfg, t, e) && Shows(cfg, t, e) == []
    ensures Displays(cfg, s, a, Do(cfg, t, e))
  {
    DisplaysStep(cfg, t, e);
    DisplaysThen(cfg, s, a, t, [], Do(cfg, t, e));
    assert a + [] == a;
  }
}
