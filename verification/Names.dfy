/** Container names: when they identify the profile and the job. */
module Names {
  import opened ScalerModel

  /** One profile name followed by a dash begins another. */
  predicate Ambiguous(profiles: set<string>) {
    exists p, q | p in profiles && q in profiles :: p + "-" <= q
  }

  ghost predicate Injective(profiles: set<string>) {
    forall p, q, i, j | p in profiles && q in profiles && RunnerName(p, i) == RunnerName(q, j) :: p == q && i == j
  }

  /** Runner names identify profile and job, for arbitrary job IDs, exactly when no profile name is ambiguous. */
  lemma InjectiveExactly(profiles: set<string>)
    ensures Injective(profiles) <==> !Ambiguous(profiles)
  {
    if p, q :| p in profiles && q in profiles && p + "-" <= q {
      var rest := q[|p| + 1..];
      Collision(p, q, rest, "");
      assert RunnerName(p, rest + "-") == RunnerName(q, "");
    } else {
      forall p, q, i, j | p in profiles && q in profiles && RunnerName(p, i) == RunnerName(q, j)
        ensures p == q && i == j
      {
        SameName(p, i, q, j);
        SameName(q, j, p, i);
      }
    }
  }

  lemma Collision(p: string, q: string, rest: string, j: string)
    requires p + "-" <= q && rest == q[|p| + 1..]
    ensures RunnerName(p, rest + "-" + j) == RunnerName(q, j) && p != q
  {
    assert q == p + "-" + rest;
  }

  lemma SameName(p: string, i: string, q: string, j: string)
    requires RunnerName(p, i) == RunnerName(q, j)
    ensures |p| < |q| ==> p + "-" <= q
    ensures |p| == |q| ==> p == q && i == j
  {
    var a, b := RunnerName(p, i), RunnerName(q, j);
    var n := |"runner-"|;
    assert a[n..n + |p|] == p && a[n + |p|] == '-' && a[n + |p| + 1..] == i;
    assert b[n..n + |q|] == q && b[n + |q|] == '-' && b[n + |q| + 1..] == j;
    if |p| < |q| {
      assert q[..|p|] == b[n..n + |p|];
      assert q[|p|] == b[n + |p|];
      assert q[..|p| + 1] == p + "-";
    }
  }
}
