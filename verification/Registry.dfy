/** The registry of running transactions (p2p/transaction.go).

`TxData` is the value of one transaction object and `Absorb` what storing one
message in it does; the replication step system uses the same two.
*/
module Registry {
  import opened Names
  import opened Messages

  datatype TxData = TxData(
    tid: Tid,
    initiatorName: Name,
    request: Option<Request>,
    responses: seq<Response>)

  /** The contents of the registry, object by object. */
  type View = map<Tid, TxData>

  function Fresh(tid: Tid): TxData {
    TxData(tid, "", None, [])
  }

  /** Store a message: a request (re)places the request, a response is appended. */
  function Absorb(d: TxData, msg: Message): TxData {
    match msg.body
    case Req(r) => d.(request := Some(r), initiatorName := msg.peer)
    case Resp(r) => d.(responses := d.responses + [r])
  }

  function AbsorbAll(d: TxData, msgs: seq<Message>): TxData {
    if msgs == [] then d else Absorb(AbsorbAll(d, msgs[..|msgs| - 1]), msgs[|msgs| - 1])
  }

  function PutView(v: View, msg: Message): View {
    v[msg.tid := Absorb(if msg.tid in v then v[msg.tid] else Fresh(msg.tid), msg)]
  }

  /** A stored NACK is one that arrived, and every NACK that arrived is stored. */
  lemma {:induction false} AbsorbedNacks(d: TxData, msgs: seq<Message>)
    requires d.responses == []
    ensures (exists r :: r in AbsorbAll(d, msgs).responses && r.NACK?) <==>
            (exists k :: 0 <= k < |msgs| && msgs[k].body.Resp? && msgs[k].body.response.NACK?)
    decreases |msgs|
  {
    if msgs == [] {
    } else {
      var front, last := msgs[..|msgs| - 1], msgs[|msgs| - 1];
      AbsorbedNacks(d, front);
      var before := AbsorbAll(d, front);
      var after := AbsorbAll(d, msgs);
      if k :| 0 <= k < |msgs| && msgs[k].body.Resp? && msgs[k].body.response.NACK? {
        if k < |msgs| - 1 {
          assert front[k] == msgs[k];
          var r :| r in before.responses && r.NACK?;
          assert r in after.responses;
        } else {
          assert last.body.response in after.responses;
        }
      }
      if r :| r in after.responses && r.NACK? {
        if r in before.responses {
          var k :| 0 <= k < |front| && front[k].body.Resp? && front[k].body.response.NACK?;
          assert msgs[k] == front[k];
        } else {
          assert msgs[|msgs| - 1].body == Resp(r);
        }
      }
    }
  }

  /** Every response that arrived is stored. */
  lemma {:induction false} AbsorbedResponses(d: TxData, msgs: seq<Message>, k: nat)
    requires k < |msgs| && msgs[k].body.Resp?
    ensures msgs[k].body.response in AbsorbAll(d, msgs).responses
    decreases |msgs|
  {
    if k == |msgs| - 1 {
    } else {
      AbsorbedResponses(d, msgs[..|msgs| - 1], k);
    }
  }

  /** Every stored response arrived. */
  lemma {:induction false} StoredArrived(d: TxData, msgs: seq<Message>, r: Response) returns (k: nat)
    requires d.responses == [] && r in AbsorbAll(d, msgs).responses
    ensures k < |msgs| && msgs[k].body == Resp(r)
    decreases |msgs|
  {
    if msgs == [] {
      assert false;
    } else {
      var front, last := msgs[..|msgs| - 1], msgs[|msgs| - 1];
      if last.body == Resp(r) {
        k := |msgs| - 1;
      } else {
        k := StoredArrived(d, front, r);
      }
    }
  }

  lemma {:induction false} AbsorbedCount(d: TxData, msgs: seq<Message>, k: nat)
    requires k < |msgs| && msgs[k].body.Req?
    requires forall j :: 0 <= j < |msgs| && j != k ==> msgs[j].body.Resp?
    ensures |AbsorbAll(d, msgs).responses| == |d.responses| + |msgs| - 1
    ensures AbsorbAll(d, msgs).request == Some(msgs[k].body.request)
    ensures AbsorbAll(d, msgs).initiatorName == msgs[k].peer
    decreases |msgs|
  {
    var front := msgs[..|msgs| - 1];
    if k < |msgs| - 1 {
      AbsorbedCount(d, front, k);
    } else {
      AbsorbedOnlyResponses(d, front);
    }
  }

  lemma {:induction false} AbsorbedOnlyResponses(d: TxData, msgs: seq<Message>)
    requires forall j :: 0 <= j < |msgs| ==> msgs[j].body.Resp?
    ensures |AbsorbAll(d, msgs).responses| == |d.responses| + |msgs|
    ensures d.responses <= AbsorbAll(d, msgs).responses
    ensures forall j :: 0 <= j < |msgs| ==> AbsorbAll(d, msgs).responses[|d.responses| + j] == msgs[j].body.response
    ensures AbsorbAll(d, msgs).request == d.request
    ensures AbsorbAll(d, msgs).initiatorName == d.initiatorName
    decreases |msgs|
  {
    if msgs == [] {
    } else {
      AbsorbedOnlyResponses(d, msgs[..|msgs| - 1]);
    }
  }

  class Transaction {
    const tid: Tid
    var initiatorName: Name
    var request: Option<Request>
    var responses: seq<Response>

    constructor (tid: Tid)
      ensures this.tid == tid
      ensures Data() == Fresh(tid)
    {
      this.tid := tid;
      initiatorName, request, responses := "", None, [];
    }

    ghost function Data(): TxData
      reads this
    {
      TxData(tid, initiatorName, request, responses)
    }
  }

  class Transactions {
    var ts: map<Tid, Transaction>

    /** Every object is filed under its own id, so no two ids share one. */
    ghost predicate Valid()
      reads this
    {
      forall t :: t in ts ==> ts[t].tid == t
    }

    ghost function View(): View
      reads this, ts.Values
    {
      map t | t in ts :: ts[t].Data()
    }

    constructor ()
      ensures Valid() && View() == map[]
    {
      ts := map[];
    }

    method Put(msg: Message) returns (trans: Transaction, created: bool)
      requires Valid()
      modifies this, if msg.tid in ts then {ts[msg.tid]} else {}
      ensures Valid()
      ensures created == (msg.tid !in old(ts))
      ensures created ==> fresh(trans)
      ensures !created ==> trans == old(ts)[msg.tid]
      ensures ts == old(ts)[msg.tid := trans]
      ensures View() == PutView(old(View()), msg)
    {
      created := false;
      ghost var before := View();
      if msg.tid !in ts {
        created := true;
        var t := new Transaction(msg.tid);
        ts := ts[msg.tid := t];
      }
      trans := ts[msg.tid];
      match msg.body {
        case Req(r) =>
          trans.request := Some(r);
          trans.initiatorName := msg.peer;
        case Resp(r) =>
          trans.responses := trans.responses + [r];
      }
      assert forall t :: t in ts && t != msg.tid ==> ts[t] != trans;
      assert trans.Data() == Absorb(if msg.tid in before then before[msg.tid] else Fresh(msg.tid), msg);
      assert View() == PutView(before, msg);
    }

    method Delete(tid: Tid)
      requires Valid()
      modifies this
      ensures Valid()
      ensures ts == old(ts) - {tid}
      ensures View() == old(View()) - {tid}
    {
      ts := ts - {tid};
    }
  }
}
