/** From votes to file trees: what the replicas of a run look like. */
module EndToEnd {
  import opened Names
  import opened Messages
  import opened Replication
  import opened ReplicationInvariant
  import opened ReplicationSteps
  import opened ReplicationSafety
  import opened ReplicationTheorems
  import M = Mirror
  import opened Convergence

  /** Step k of the run is a Mirror call at host h. */
  predicate Mirrors(r: Run, k: nat, h: Name)
    requires k < |r.steps|
  {
    r.steps[k].MirrorReturns? && r.steps[k].host == h
  }

  /** The transactions host h mirrored in the first k steps, in order. */
  ghost function MirroredTids(r: Run, k: nat, h: Name): seq<Tid>
    requires IsRun(r) && k <= |r.steps|
  {
    if k == 0 then []
    else
      assert Taken(r.states[k - 1], r.steps[k - 1], r.states[k]);
      MirroredTids(r, k - 1, h) +
      if Mirrors(r, k - 1, h) then [r.states[k - 1].hosts[h].txs[r.steps[k - 1].inc].data.tid] else []
  }

  /** The requests it handed to Mirror, in order. */
  ghost function MirroredRequests(r: Run, k: nat, h: Name): seq<Request>
    requires IsRun(r) && k <= |r.steps|
  {
    if k == 0 then []
    else
      assert Taken(r.states[k - 1], r.steps[k - 1], r.states[k]);
      MirroredRequests(r, k - 1, h) +
      if Mirrors(r, k - 1, h) then [r.states[k - 1].hosts[h].txs[r.steps[k - 1].inc].data.request.value] else []
  }

  function Issue(log: Log, ts: seq<Tid>): seq<Request>
    requires forall t :: t in ts ==> t in log
  {
    seq(|ts|, i requires 0 <= i < |ts| => log[ts[i]].request)
  }

  // ---------------------------------------------------------------- what a Mirror call says

  /** A transaction that host h has mirrored is committed there and was issued. */
  lemma {:induction false} MirroredIsCommitted(r: Run, k: nat, h: Name, t: Tid) returns (i: nat)
    requires IsRun(r) && k <= |r.steps| && t in MirroredTids(r, k, h)
    ensures HasTx(r.states[k], h, i) && r.states[k].hosts[h].txs[i].data.tid == t
    ensures EndedWith(r.states[k].hosts[h].txs[i], Success)
  {
    hide Inv, Grows, Initial, EndedWith, Enabled, Apply;
    if k == 0 {
    } else {
      var s, step := r.states[k - 1], r.steps[k - 1];
      assert Taken(s, step, r.states[k]);
      if t in MirroredTids(r, k - 1, h) {
        i := MirroredIsCommitted(r, k - 1, h, t);
        RunInv(r, k - 1);
        StepGrows(s, step);
        GrownTx(s, r.states[k], h, i);
      } else {
        i := step.inc;
        MirrorEnds(s, step);
      }
    }
  }

  lemma MirrorEnds(s: State, step: Step)
    requires Enabled(s, step) && step.MirrorReturns?
    ensures HasTx(s, step.host, step.inc) && s.hosts[step.host].txs[step.inc].data.request.Some?
    ensures s.hosts[step.host].txs[step.inc].phase.Mirroring?
    ensures HasTx(Apply(s, step), step.host, step.inc)
    ensures Apply(s, step).hosts[step.host].txs[step.inc].data == s.hosts[step.host].txs[step.inc].data
    ensures EndedWith(Apply(s, step).hosts[step.host].txs[step.inc], Success)
  {
  }

  /** No host mirrors a transaction twice. */
  lemma {:induction false} MirroredOnce(r: Run, k: nat, h: Name)
    requires IsRun(r) && k <= |r.steps|
    ensures NoRepeats(MirroredTids(r, k, h))
  {
    hide Inv, Apply, Initial, Grows;
    if k == 0 {
    } else {
      MirroredOnce(r, k - 1, h);
      var s, step := r.states[k - 1], r.steps[k - 1];
      assert Taken(s, step, r.states[k]);
      if Mirrors(r, k - 1, h) {
        var t := s.hosts[h].txs[step.inc].data.tid;
        if t in MirroredTids(r, k - 1, h) {
          var i := MirroredIsCommitted(r, k - 1, h, t);
          CommitsOnce(r, k - 1, h, i, step.inc);
        }
      }
    }
  }

  /** Every Mirror call gets the request as its initiator issued it. */
  lemma {:induction false} MirroredAsIssued(r: Run, k: nat, h: Name, m: nat)
    requires IsRun(r) && k <= |r.steps| && k <= m < |r.states|
    ensures forall t :: t in MirroredTids(r, k, h) ==> t in r.states[m].started
    ensures MirroredRequests(r, k, h) == Issue(r.states[m].started, MirroredTids(r, k, h))
    decreases k
  {
    hide Inv, Enabled, Apply, Initial, Grows, IsRun, TxInv, TxLink;
    if k == 0 {
    } else {
      MirroredAsIssued(r, k - 1, h, m);
      if Mirrors(r, k - 1, h) {
        MirrorCall(r, k - 1, h, m);
      }
    }
  }

  /** The one call that step k adds. */
  lemma MirrorCall(r: Run, k: nat, h: Name, m: nat)
    requires IsRun(r) && k < |r.steps| && k < m < |r.states| && Mirrors(r, k, h)
    ensures var s := r.states[k];
            && HasTx(s, h, r.steps[k].inc)
            && var d := s.hosts[h].txs[r.steps[k].inc].data;
            d.request.Some? && d.tid in r.states[m].started && r.states[m].started[d.tid].request == d.request.value
  {
    hide Inv, Enabled, Apply, Initial, Grows, TxInv;
    var s, step := r.states[k], r.steps[k];
    assert Taken(s, step, r.states[k + 1]);
    MirrorEnds(s, step);
    RunInv(r, k);
    TxFacts(s, h, step.inc);
    RunGrows(r, k, m);
    StartedStays(s, r.states[m], s.hosts[h].txs[step.inc].data.tid);
  }

  lemma StartedStays(s: State, s': State, t: Tid)
    requires Grows(s, s') && t in s.started
    ensures t in s'.started && s'.started[t] == s.started[t]
  {
    hide HostGrows;
  }

  // ---------------------------------------------------------------- replicas

  ghost predicate NoRepeats(ts: seq<Tid>) {
    forall a, b :: 0 <= a < b < |ts| ==> ts[a] != ts[b]
  }

  lemma WithoutMembers(ts: seq<Tid>, k: nat)
    requires k < |ts| && NoRepeats(ts)
    ensures NoRepeats(Without(ts, k))
    ensures forall t :: t in Without(ts, k) <==> t in ts && t != ts[k]
  {
    var rest := Without(ts, k);
    forall t | t in ts && t != ts[k]
      ensures t in rest
    {
      var b :| 0 <= b < |ts| && ts[b] == t;
      assert rest[if b < k then b else b - 1] == t;
    }
    forall t | t in rest
      ensures t in ts && t != ts[k]
    {
      var b :| 0 <= b < |rest| && rest[b] == t;
      assert ts[if b < k then b else b + 1] == t;
    }
  }

  lemma IssueWithout(log: Log, ts: seq<Tid>, k: nat)
    requires k < |ts| && forall t :: t in ts ==> t in log
    ensures forall t :: t in Without(ts, k) ==> t in log
    ensures multiset(Issue(log, ts)) == multiset(Issue(log, Without(ts, k))) + multiset{log[ts[k]].request}
  {
    var rs := Issue(log, ts);
    assert Issue(log, Without(ts, k)) == rs[..k] + rs[k + 1..];
    assert rs == rs[..k] + [rs[k]] + rs[k + 1..];
  }

  lemma Inhabited(ts: seq<Tid>)
    ensures ts == [] || exists t :: t in ts
  {
    assert ts == [] || ts[0] in ts;
  }

  lemma {:induction false} SameRequests(log: Log, ts: seq<Tid>, us: seq<Tid>)
    requires (forall t :: t in ts ==> t in log) && (forall u :: u in us ==> u in log)
    requires NoRepeats(ts) && NoRepeats(us)
    requires forall t :: t in ts <==> t in us
    ensures multiset(Issue(log, ts)) == multiset(Issue(log, us))
    decreases |ts|
  {
    hide Without;
    Inhabited(us);
    if ts == [] {
      assert us == [];
    } else {
      assert ts[0] in us;
      var k :| 0 <= k < |us| && us[k] == ts[0];
      WithoutMembers(ts, 0);
      WithoutMembers(us, k);
      IssueWithout(log, ts, 0);
      IssueWithout(log, us, k);
      WithoutLength(ts, 0);
      hide NoRepeats, Issue;
      SameRequests(log, Without(ts, 0), Without(us, k));
    }
  }

  lemma WithoutLength<T>(s: seq<T>, k: nat)
    requires k < |s|
    ensures |Without(s, k)| == |s| - 1
  {
  }

  /** Two hosts that have mirrored the same transactions of a run, in whatever order,
      hold the same tree, if those transactions touch disjoint paths. */
  lemma ReplicasConverge(r: Run, h: Name, g: Name, umask: bv32, t: M.Tree)
    requires IsRun(r)
    requires var n := |r.steps|;
             && (forall x :: x in MirroredTids(r, n, h) <==> x in MirroredTids(r, n, g))
             && (forall q :: q in MirroredRequests(r, n, h) || q in MirroredRequests(r, n, g) ==> M.LinkFree(q))
             && PairwiseDisjoint(MirroredRequests(r, n, h))
    ensures var n := |r.steps|;
            ApplyAll(umask, t, MirroredRequests(r, n, h)) == ApplyAll(umask, t, MirroredRequests(r, n, g))
  {
    hide IsRun, MirroredTids, MirroredRequests, PairwiseDisjoint;
    var n := |r.steps|;
    RunLength(r);
    MirroredOnce(r, n, h);
    MirroredOnce(r, n, g);
    MirroredAsIssued(r, n, h, n);
    MirroredAsIssued(r, n, g, n);
    SameRequests(r.states[n].started, MirroredTids(r, n, h), MirroredTids(r, n, g));
    Converge(umask, t, MirroredRequests(r, n, h), MirroredRequests(r, n, g));
  }

  lemma RunLength(r: Run)
    requires IsRun(r)
    ensures |r.states| == |r.steps| + 1
  {
  }
}
