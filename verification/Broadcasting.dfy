/** Sending to every peer and counting what failed (`Broadcast` in
connection/pool.go, `MultiErr` in connection/errors.go, the start of `Replicate`
in p2p/host.go). */
module Broadcasting {
  import opened Names
  import opened Messages
  import opened Sets
  import R = Replication

  class MultiErr {
    var errs: map<Name, string>

    constructor ()
      ensures errs == map[]
    {
      errs := map[];
    }

    method Append(peer: Name, err: string)
      modifies this
      ensures errs == old(errs)[peer := err]
    {
      errs := errs[peer := err];
    }

    predicate Empty()
      reads this
    {
      |errs| == 0
    }
  }

  /** Which peers' sends fail. */
  function Failed(sends: map<Name, Option<string>>): set<Name> {
    set n | n in sends && sends[n].Some?
  }

  function Succeeded(sends: map<Name, Option<string>>): set<Name> {
    set n | n in sends && sends[n].None?
  }

  /** What Broadcast returns: nothing sent, or the errors of the sends. */
  datatype Report = PeerIsDown | Sent(errs: map<Name, string>)

  /** `sends` is the outcome of each connection's Send. The sending goroutines finish
      in any order, and so does the loop choose. */
  method Broadcast(active: int, sends: map<Name, Option<string>>) returns (report: Report)
    ensures report.PeerIsDown? <==> active != |sends|
    ensures report.Sent? ==>
              && report.errs.Keys == Failed(sends)
              && (forall n :: n in report.errs <==> n in sends && sends[n].Some?)
              && forall n :: n in report.errs ==> sends[n] == Some(report.errs[n])
  {
    var mErr := new MultiErr();
    if active != |sends| {
      return PeerIsDown;
    }
    var running := sends.Keys;
    while running != {}
      invariant running <= sends.Keys
      invariant mErr.errs.Keys == Failed(sends) - running
      invariant forall n :: n in mErr.errs ==> sends[n] == Some(mErr.errs[n])
      decreases |running|
    {
      var n :| n in running;
      running := running - {n};
      if sends[n].Some? {
        mErr.Append(n, sends[n].value);
      }
    }
    if !mErr.Empty() {
      return Sent(mErr.errs);
    }
    return Sent(map[]);
  }

  /** How many responses Replicate waits for; None when it returns at once. */
  method AwaitedResponses(peers: seq<Name>, report: Report) returns (count: Option<nat>)
    requires report.Sent? ==> |report.errs| <= |peers|
    ensures count.None? <==> report.PeerIsDown? || (report.errs != map[] && |report.errs| == |peers|)
    ensures count.Some? ==> count.value == |peers| - |report.errs|
  {
    var sent := |peers|;
    if report.PeerIsDown? {
      return None;
    }
    if report.errs != map[] {
      if |report.errs| == |peers| {
        return None;
      }
      sent := |peers| - |report.errs|;
    } else {
      assert |report.errs| == 0;
    }
    return Some(sent);
  }

  /** With unique peer names, the count is exactly the number of successful sends. */
  lemma AwaitedIsExact(peers: seq<Name>, sends: map<Name, Option<string>>)
    requires forall i, j :: 0 <= i < j < |peers| ==> peers[i] != peers[j]
    requires sends.Keys == Members(peers)
    ensures |peers| - |Failed(sends)| == |Succeeded(sends)| == |set n | n in sends && sends[n] == None|
  {
    DistinctSeqSize(peers);
    assert sends.Keys == Failed(sends) + Succeeded(sends);
    assert Failed(sends) !! Succeeded(sends);
    assert Succeeded(sends) == set n | n in sends && sends[n] == None;
    hide Failed, Succeeded;
  }

  /** It is the count the step system of the protocol waits for. */
  lemma AwaitedInProtocol(peers: seq<Name>, sends: map<Name, Option<string>>)
    requires forall i, j :: 0 <= i < j < |peers| ==> peers[i] != peers[j]
    requires sends.Keys == Members(peers)
    ensures var phase := R.AfterBroadcast(R.Tried(Failed(sends)), |peers|);
            if Failed(sends) == {} then phase == R.Awaiting(|peers|, false)
            else if |Failed(sends)| == |peers| then phase == R.Returned(R.SendError)
            else phase == R.Awaiting(|Succeeded(sends)|, true)
  {
    AwaitedIsExact(peers, sends);
    hide Failed, Succeeded, Members;
  }
}
