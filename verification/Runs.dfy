/** Runs of a machine, given the relation between a state and the next one. */
module Runs {

  /** The states of a run, one step apart. */
  ghost predicate IsRun<S(!new)>(next: (S, S) -> bool, path: seq<S>) {
    path != [] && forall i, j :: 0 <= i < |path| && 0 <= j < |path| && j == i + 1 ==> next(path[i], path[j])
  }

  /** Some run leads from one state to the other. */
  ghost predicate Leads<S(!new)>(next: (S, S) -> bool, start: S, end: S) {
    exists path :: IsRun(next, path) && path[0] == start && path[|path| - 1] == end
  }

  lemma LeadsNowhere<S(!new)>(next: (S, S) -> bool, s: S)
    ensures Leads(next, s, s)
  {
    assert IsRun(next, [s]);
  }

  /** A run may go on with any step from where it has come to. */
  lemma LeadsOn<S(!new)>(next: (S, S) -> bool, start: S, s: S, s': S)
    requires Leads(next, start, s) && next(s, s')
    ensures Leads(next, start, s')
  {
    var path :| IsRun(next, path) && path[0] == start && path[|path| - 1] == s;
    var longer := path + [s'];
    assert IsRun(next, longer) && longer[0] == start && longer[|longer| - 1] == s';
  }

  /** Runs join up. */
  lemma LeadsThrough<S(!new)>(next: (S, S) -> bool, a: S, b: S, c: S)
    requires Leads(next, a, b) && Leads(next, b, c)
    ensures Leads(next, a, c)
  {
    var p :| IsRun(next, p) && p[0] == a && p[|p| - 1] == b;
    var q :| IsRun(next, q) && q[0] == b && q[|q| - 1] == c;
    var joined := p + q[1..];
    assert forall i :: 0 <= i < |q| ==> joined[|p| - 1 + i] == q[i];
    forall i, j | 0 <= i < |joined| && 0 <= j < |joined| && j == i + 1
      ensures next(joined[i], joined[j])
    {
      if i < |p| - 1 {
        assert joined[i] == p[i] && joined[j] == p[j];
      } else {
        var k := i - (|p| - 1);
        assert joined[i] == q[k] && joined[j] == q[k + 1];
      }
    }
    assert IsRun(next, joined);
  }

  lemma {:induction false} KeptAlong<S(!new)>(next: (S, S) -> bool, keeps: S -> bool, path: seq<S>, n: nat)
    requires forall s, s' :: keeps(s) && next(s, s') ==> keeps(s')
    requires IsRun(next, path) && keeps(path[0]) && n < |path|
    ensures keeps(path[n])
  {
    if n > 0 {
      KeptAlong(next, keeps, path, n - 1);
      assert next(path[n - 1], path[n]);
    }
  }

  /** What every step keeps, every run keeps. */
  lemma KeptLeads<S(!new)>(next: (S, S) -> bool, keeps: S -> bool, start: S, end: S)
    requires forall s, s' :: keeps(s) && next(s, s') ==> keeps(s')
    requires keeps(start) && Leads(next, start, end)
    ensures keeps(end)
  {
    var path :| IsRun(next, path) && path[0] == start && path[|path| - 1] == end;
    KeptAlong(next, keeps, path, |path| - 1);
  }
}
