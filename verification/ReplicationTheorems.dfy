/** The guarantees of the commit protocol, run by run.

A run is any interleaving of the steps in `Replication`, from two or more hosts
with arbitrary clocks, with arbitrary loss and reordering, arbitrary timeouts and
arbitrary answers from Consult.
*/
module ReplicationTheorems {
  import opened Names
  import opened Messages
  import opened Registry
  import opened Conflicts
  import opened Responses
  import opened Sets
  import opened Replication
  import opened ReplicationInvariant
  import opened ReplicationSteps
  import opened ReplicationSafety

  // ---------------------------------------------------------------- unanimity

  /** If any owner reaches the commit branch, every host but the initiator voted ACK. */
  lemma Unanimity(r: Run, k: nat, h: Name, i: nat)
    requires IsRun(r) && k < |r.states|
    requires HasTx(r.states[k], h, i) && Committed(r.states[k].hosts[h].txs[i])
    ensures AllVotedAck(r.states[k], r.states[k].hosts[h].txs[i].data.tid)
  {
    hide Inv, IsRun, Committed, AllVotedAck;
    RunInv(r, k);
    CommitIsUnanimous(r.states[k], h, i);
  }

  /** Exactly when an owner commits: it is done, it took a message from every other
      host, and every host but the initiator voted ACK. */
  lemma CommitsExactly(r: Run, k: nat, h: Name, i: nat)
    requires IsRun(r) && k < |r.states| && HasTx(r.states[k], h, i)
    requires var phase := r.states[k].hosts[h].txs[i].phase; phase.Mirroring? || phase.Returned? || phase.Deleted?
    ensures var s := r.states[k]; var tx := s.hosts[h].txs[i];
            Committed(tx) <==> AllVotedAck(s, tx.data.tid) && tx.consumed == |s.hosts| - 1
  {
    hide Inv, IsRun, AllVotedAck, TxLink, AbsorbAll;
    var s := r.states[k];
    var tx := s.hosts[h].txs[i];
    RunInv(r, k);
    TxFacts(s, h, i);
    if Committed(tx) {
      Unanimity(r, k, h, i);
    } else if EndedWith(tx, NotPermitted) {
      RefusalHasANack(s, h, i);
    } else if EndedWith(tx, Conflict) {
      ConflictIsNoAck(s, h, i);
    } else {
      FiveOutcomes(tx);
    }
  }

  lemma FiveOutcomes(tx: Tx)
    requires tx.phase.Returned? || tx.phase.Deleted?
    ensures
      || EndedWith(tx, Success) || EndedWith(tx, NotPermitted) || EndedWith(tx, Conflict)
      || EndedWith(tx, TimedOut) || EndedWith(tx, SendError)
  {
    match tx.phase.outcome
    case Success =>
    case NotPermitted =>
    case Conflict =>
    case TimedOut =>
    case SendError =>
  }

  lemma ConflictIsNoAck(s: State, h: Name, i: nat)
    requires Inv(s) && HasTx(s, h, i) && EndedWith(s.hosts[h].txs[i], Conflict)
    ensures !AllVotedAck(s, s.hosts[h].txs[i].data.tid)
  {
    hide Inv, EndedWith;
    var t := s.hosts[h].txs[i].data.tid;
    if AllVotedAck(s, t) {
      var x := Bystander(s, s.started[t].initiator);
      ConflictIsSilent(s, h, i, x);
    }
  }

  /** What an owner heard decides between the outcomes a commit elsewhere leaves it. */
  lemma EndedShort(r: Run, k: nat, h: Name, i: nat)
    requires IsRun(r) && k < |r.states| && HasTx(r.states[k], h, i)
    ensures var tx := r.states[k].hosts[h].txs[i];
            && (Committed(tx) ==> tx.consumed == |r.states[k].hosts| - 1)
            && (EndedWith(tx, TimedOut) || EndedWith(tx, SendError) ==> tx.consumed < |r.states[k].hosts| - 1)
  {
    hide Inv, IsRun, TxLink, AbsorbAll;
    RunInv(r, k);
    TxFacts(r.states[k], h, i);
  }

  /** No split decision: once one owner commits, no owner of that transaction, at
      any host and at any time before or after, is refused. It ends in success if and
      only if it took a message from every other host; short of that it timed out or
      could not send. */
  lemma NoSplitDecision(r: Run, j: nat, h: Name, i: nat, k: nat, g: Name, m: nat, o: Outcome)
    requires IsRun(r) && j < |r.states| && k < |r.states|
    requires HasTx(r.states[j], h, i) && Committed(r.states[j].hosts[h].txs[i])
    requires HasTx(r.states[k], g, m) && EndedWith(r.states[k].hosts[g].txs[m], o)
    requires r.states[k].hosts[g].txs[m].data.tid == r.states[j].hosts[h].txs[i].data.tid
    ensures o == Success || o == TimedOut || o == SendError
    ensures o == Success <==> r.states[k].hosts[g].txs[m].consumed == |r.states[k].hosts| - 1
  {
    EndedShort(r, k, g, m);
    hide Inv, IsRun, Committed, EndedWith, Grows;
    var l := if j < k then k else j;
    RunInv(r, l);
    RunGrows(r, j, l);
    RunGrows(r, k, l);
    GrownTx(r.states[j], r.states[l], h, i);
    GrownTx(r.states[k], r.states[l], g, m);
    NoSplitInState(r.states[l], h, i, g, m);
  }

  lemma GrownTx(s: State, s': State, h: Name, i: nat)
    requires Grows(s, s') && HasTx(s, h, i)
    ensures HasTx(s', h, i) && TxGrows(s.hosts[h].txs[i], s'.hosts[h].txs[i])
    ensures Committed(s.hosts[h].txs[i]) ==> Committed(s'.hosts[h].txs[i])
    ensures s'.hosts[h].txs[i].data.tid == s.hosts[h].txs[i].data.tid
    ensures forall o :: EndedWith(s.hosts[h].txs[i], o) ==> EndedWith(s'.hosts[h].txs[i], o)
  {
    assert HostGrows(s.hosts[h], s'.hosts[h]);
  }

  lemma NoSplitInState(s: State, h: Name, i: nat, g: Name, m: nat)
    requires Inv(s) && HasTx(s, h, i) && Committed(s.hosts[h].txs[i])
    requires HasTx(s, g, m) && s.hosts[g].txs[m].data.tid == s.hosts[h].txs[i].data.tid
    ensures !EndedWith(s.hosts[g].txs[m], NotPermitted) && !EndedWith(s.hosts[g].txs[m], Conflict)
  {
    hide Inv, Committed, EndedWith;
    var t := s.hosts[h].txs[i].data.tid;
    CommitIsUnanimous(s, h, i);
    if EndedWith(s.hosts[g].txs[m], NotPermitted) {
      RefusalHasANack(s, g, m);
    }
    if EndedWith(s.hosts[g].txs[m], Conflict) {
      ConflictIsNoAck(s, g, m);
    }
  }

  lemma Bystander(s: State, h: Name) returns (x: Name)
    requires Inv(s)
    ensures x in s.hosts && x != h
  {
    hide HostInv, HostLink, NetInv;
    assert s.hosts.Keys - {h} != {} by {
      if s.hosts.Keys <= {h} {
        SubsetSize(s.hosts.Keys, {h});
      }
    }
    x :| x in s.hosts.Keys - {h};
  }

  // ---------------------------------------------------------------- what a full loop saw

  /** A handler away from the initiator that finishes its loop took exactly one
      message from each other host within its own incarnation: the initiator's
      request and everybody else's vote. So Mirror gets the request as issued. */
  lemma CompleteMessageSet(r: Run, k: nat, h: Name, i: nat)
    requires IsRun(r) && k < |r.states| && HasTx(r.states[k], h, i)
    requires var s := r.states[k]; var tx := s.hosts[h].txs[i];
             && tx.owner.Handler? && tx.consumed == |s.hosts| - 1
             && (tx.data.tid in s.started ==> s.started[tx.data.tid].initiator != h)
    ensures var s := r.states[k]; var tx := s.hosts[h].txs[i];
            && tx.data.tid in s.started
            && |tx.arrived| == |s.hosts| - 1 && Senders(tx.arrived) == s.hosts.Keys - {h}
            && tx.data.request == Some(s.started[tx.data.tid].request)
            && |tx.data.responses| == |s.hosts| - 2
            && (forall x :: x in s.hosts && x != h && x != s.started[tx.data.tid].initiator ==>
                  tx.data.tid in s.hosts[x].votes && s.hosts[x].votes[tx.data.tid] in tx.data.responses)
  {
    hide Inv, IsRun, AbsorbAll;
    var s := r.states[k];
    var tx := s.hosts[h].txs[i];
    RunInv(r, k);
    TxFacts(s, h, i);
    FullLoop(s, h, i);
    var t := tx.data.tid;
    InitiatorExists(s, t);
    var q := MessageFrom(s, h, i, s.started[t].initiator);
    forall j | 0 <= j < |tx.arrived| && j != q
      ensures tx.arrived[j].body.Resp?
    {
      if j < q { OneMessagePerSender(s, h, i, j, q); } else { OneMessagePerSender(s, h, i, q, j); }
    }
    AbsorbedCount(Fresh(t), tx.arrived, q);
    forall x | x in s.hosts && x != h && x != s.started[t].initiator
      ensures t in s.hosts[x].votes && s.hosts[x].votes[t] in tx.data.responses
    {
      var j := MessageFrom(s, h, i, x);
      AbsorbedResponses(Fresh(t), tx.arrived, j);
    }
  }

  /** Mirror is called without a request exactly at the initiator itself, whose own
      Replicate call gave up before the responses came. */
  lemma MirroredRequest(r: Run, k: nat, h: Name, i: nat)
    requires IsRun(r) && k < |r.states| && HasTx(r.states[k], h, i)
    requires r.states[k].hosts[h].txs[i].owner.Handler? && Committed(r.states[k].hosts[h].txs[i])
    ensures var s := r.states[k]; var tx := s.hosts[h].txs[i];
            && tx.data.tid in s.started
            && (tx.data.request.Some? <==> s.started[tx.data.tid].initiator != h)
            && (tx.data.request.Some? ==> tx.data.request.value == s.started[tx.data.tid].request)
  {
    hide Inv, IsRun;
    RunInv(r, k);
    TxFacts(r.states[k], h, i);
    if r.states[k].started[r.states[k].hosts[h].txs[i].data.tid].initiator != h {
      CompleteMessageSet(r, k, h, i);
    }
  }

  /** A host commits a transaction in at most one incarnation. */
  lemma CommitsOnce(r: Run, k: nat, h: Name, i: nat, j: nat)
    requires IsRun(r) && k < |r.states| && HasTx(r.states[k], h, i) && HasTx(r.states[k], h, j)
    requires var txs := r.states[k].hosts[h].txs;
             txs[i].data.tid == txs[j].data.tid && Committed(txs[i]) && Committed(txs[j])
    ensures i == j
  {
    hide Inv, IsRun;
    var s := r.states[k];
    RunInv(r, k);
    TxFacts(s, h, i);
    TxFacts(s, h, j);
    FullLoop(s, h, i);
    FullLoop(s, h, j);
    var x := Bystander(s, h);
    var a := MessageFrom(s, h, i, x);
    var b := MessageFrom(s, h, j, x);
    hide TxInv, TxLink;
    OneIncarnation(s, h, i, j, s.hosts[h].txs[i].arrived[a]);
  }

  lemma OneIncarnation(s: State, h: Name, i: nat, j: nat, m: Message)
    requires Inv(s) && HasTx(s, h, i) && HasTx(s, h, j)
    requires m in s.hosts[h].txs[i].arrived && m in s.hosts[h].txs[j].arrived
    ensures i == j
  {
    hide HostInv, NetInv, TxLink, VotesLink, Heard;
  }

  // ---------------------------------------------------------------- partial delivery

  /** If one peer has not received the request, no owner anywhere holds more than
      n - 2 messages, so none has decided and none has committed. */
  lemma PartialDeliveryAborts(r: Run, k: nat, t: Tid, x: Name, h: Name, i: nat)
    requires IsRun(r) && k < |r.states| && HasTx(r.states[k], h, i)
    requires t in r.states[k].started && r.states[k].hosts[h].txs[i].data.tid == t
    requires x in r.states[k].hosts && x != r.states[k].started[t].initiator
    requires !Heard(r.states[k].hosts[x], RequestMessage(r.states[k].started, t))
    ensures |r.states[k].hosts[h].txs[i].arrived| <= |r.states[k].hosts| - 2
    ensures !Committed(r.states[k].hosts[h].txs[i])
  {
    hide Inv, IsRun, Heard;
    var s := r.states[k];
    var tx := s.hosts[h].txs[i];
    RunInv(r, k);
    TxFacts(s, h, i);
    SendersCount(s, h, i);
    InitiatorExists(s, t);
    var missing := if h == x then s.started[t].initiator else x;
    if missing in Senders(tx.arrived) {
      var j := MessageFrom(s, h, i, missing);
      if h == x {
        assert tx.arrived[j] in tx.arrived;
        HeardHere(s.hosts[h], i, tx.arrived[j]);
      } else {
        VoterIsNotInitiator(s, x, t);
      }
    }
    SubsetSize(Senders(tx.arrived), s.hosts.Keys - {h} - {missing});
    assert |s.hosts.Keys - {h} - {missing}| == |s.hosts| - 2;
  }

  lemma HeardHere(host: Host, i: nat, m: Message)
    requires i < |host.txs| && m in host.txs[i].arrived
    ensures Heard(host, m)
  {
  }

  // ---------------------------------------------------------------- registry ownership

  /** Entries and unfinished owners correspond one to one, the entry an owner
      deletes is its own incarnation, and an empty registry means that every owner
      has decided, mirrored and deleted. */
  lemma RegistryOwnership(r: Run, k: nat, h: Name)
    requires IsRun(r) && k < |r.states| && h in r.states[k].hosts
    ensures Owned(r.states[k].hosts[h])
    ensures var host := r.states[k].hosts[h];
            forall i :: 0 <= i < |host.txs| && host.txs[i].phase.Returned? ==>
              host.txs[i].data.tid in host.registry && host.registry[host.txs[i].data.tid] == i
    ensures var host := r.states[k].hosts[h];
            host.registry == map[] <==> forall i :: 0 <= i < |host.txs| ==> host.txs[i].phase.Deleted?
  {
    hide IsRun, TxInv, ListenerInv, HostLink, NetInv;
    RunInv(r, k);
    var host := r.states[k].hosts[h];
    assert Owned(host);
    if forall i :: 0 <= i < |host.txs| ==> host.txs[i].phase.Deleted? {
      assert forall t :: t !in host.registry;
      assert host.registry.Keys == {};
      assert host.registry == map[];
    }
  }

  /** The registry of the step system moves exactly as `Put` and `Delete` do. */
  lemma StoreIsPut(host: Host, msg: Message, peers: nat)
    requires Owned(host)
    ensures ViewOf(Store(host, msg, peers)) == PutView(ViewOf(host), msg)
  {
    hide Absorb;
    var host' := Store(host, msg, peers);
    if msg.tid in host.registry {
      assert host'.registry == host.registry;
    }
    ViewPointwise(host', PutView(ViewOf(host), msg));
  }

  /** And so does a Replicate call that registers its own request. */
  lemma RegisterIsPut(host: Host, msg: Message)
    requires Owned(host) && msg.tid !in host.registry
    ensures ViewOf(RegisterOwn(host, msg)) == PutView(ViewOf(host), msg)
  {
    hide Absorb;
    ViewPointwise(RegisterOwn(host, msg), PutView(ViewOf(host), msg));
  }

  lemma ViewPointwise(host: Host, v: View)
    requires forall t :: t in host.registry ==> host.registry[t] < |host.txs|
    requires host.registry.Keys == v.Keys
    requires forall t :: t in v ==> v[t] == host.txs[host.registry[t]].data
    ensures ViewOf(host) == v
  {
  }

  lemma DeleteIsDelete(s: State, h: Name, i: nat)
    requires Inv(s) && Enabled(s, Step.Delete(h, i))
    ensures ViewOf(Apply(s, Step.Delete(h, i)).hosts[h]) == ViewOf(s.hosts[h]) - {s.hosts[h].txs[i].data.tid}
  {
    hide TxInv, ListenerInv, HostLink, NetInv;
    assert Owned(s.hosts[h]);
  }

  // ---------------------------------------------------------------- clocks

  /** The step changes the clock of its host. */
  predicate RaisesClock(s: State, step: Step) {
    && (step.Check? || step.Decide?) && HasTx(s, step.host, step.inc)
    && Enabled(s, step) && step.host in Apply(s, step).hosts
    && Apply(s, step).hosts[step.host].clock != s.hosts[step.host].clock
  }

  /** A clock only ever rises by one, at its own host, by a Replicate call that loses:
      the local check finds a conflict, or the tally finds conflicts only. */
  lemma ClockRises(s: State, step: Step, h: Name)
    requires Inv(s) && Enabled(s, step) && h in s.hosts && h in Apply(s, step).hosts
    requires Apply(s, step).hosts[h].clock != s.hosts[h].clock
    ensures RaisesClock(s, step) && step.host == h
    ensures Apply(s, step).hosts[h].clock == Bump(s.hosts[h].clock)
    ensures s.hosts[h].txs[step.inc].owner.Replicator?
    ensures s.hosts[h].txs[step.inc].phase.Checking? || s.hosts[h].txs[step.inc].phase.Awaiting?
    ensures HasTx(Apply(s, step), h, step.inc)
    ensures var tx := Apply(s, step).hosts[h].txs[step.inc];
            || EndedWith(tx, Conflict)
            || (EndedWith(tx, NotPermitted) && OnlyConflicts(tx.data.responses))
  {
    hide Inv, InConflict, HasNack;
    if step.Check? {
      CheckerOwns(s, step.host, step.inc);
    }
    if step.Decide? {
      ClockRule(s.hosts[step.host].txs[step.inc].data.responses, s.hosts[step.host].clock);
    }
  }

  lemma CheckerOwns(s: State, h: Name, i: nat)
    requires Inv(s) && HasTx(s, h, i) && s.hosts[h].txs[i].phase.Checking?
    ensures s.hosts[h].txs[i].owner.Replicator?
  {
    hide Inv, AbsorbAll;
    TxFacts(s, h, i);
  }

  /** And every such loss does raise it. */
  lemma LossRaisesClock(s: State, step: Step)
    requires Inv(s) && Enabled(s, step) && (step.Check? || step.Decide?)
    requires HasTx(Apply(s, step), step.host, step.inc)
    requires var tx := Apply(s, step).hosts[step.host].txs[step.inc];
             && tx.owner.Replicator?
             && (EndedWith(tx, Conflict) || (EndedWith(tx, NotPermitted) && OnlyConflicts(tx.data.responses)))
    ensures RaisesClock(s, step)
    ensures Apply(s, step).hosts[step.host].clock == Bump(s.hosts[step.host].clock)
  {
    hide Inv, InConflict, HasNack;
    if step.Decide? {
      ClockRule(s.hosts[step.host].txs[step.inc].data.responses, s.hosts[step.host].clock);
    }
  }

  /** One Replicate call raises the clock at most once. */
  lemma ClockRisesOnce(r: Run, j: nat, k: nat)
    requires IsRun(r) && j < k < |r.steps|
    requires RaisesClock(r.states[j], r.steps[j]) && RaisesClock(r.states[k], r.steps[k])
    ensures r.steps[j].host != r.steps[k].host || r.steps[j].inc != r.steps[k].inc
  {
    hide Inv, Enabled, Apply, Grows, Initial, OnlyConflicts;
    var h, i := r.steps[j].host, r.steps[j].inc;
    assert Taken(r.states[j], r.steps[j], r.states[j + 1]);
    RunInv(r, j);
    RunInv(r, k);
    ClockRises(r.states[j], r.steps[j], h);
    ClockRises(r.states[k], r.steps[k], r.steps[k].host);
    RunGrows(r, j + 1, k);
    GrownTx(r.states[j + 1], r.states[k], h, i);
  }

  /** A Replicate call that raised the clock never succeeds, before or after. */
  lemma ClockRisesOnLossOnly(r: Run, j: nat, m: nat)
    requires IsRun(r) && j < |r.steps| && m < |r.states| && RaisesClock(r.states[j], r.steps[j])
    requires HasTx(r.states[m], r.steps[j].host, r.steps[j].inc)
    ensures !Committed(r.states[m].hosts[r.steps[j].host].txs[r.steps[j].inc])
  {
    hide Inv, Enabled, Apply, Grows, Initial, OnlyConflicts;
    var h, i := r.steps[j].host, r.steps[j].inc;
    assert Taken(r.states[j], r.steps[j], r.states[j + 1]);
    RunInv(r, j);
    ClockRises(r.states[j], r.steps[j], h);
    if m <= j {
      RunGrows(r, m, j);
      GrownTx(r.states[m], r.states[j], h, i);
    } else {
      RunGrows(r, j + 1, m);
      GrownTx(r.states[j + 1], r.states[m], h, i);
    }
  }
}
