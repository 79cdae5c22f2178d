/** Tallying the responses of one transaction (`processResponses` in p2p/host.go). */
module Responses {
  import opened Messages
  import opened Conflicts

  predicate HasNack(rs: seq<Response>) {
    exists r :: r in rs && r.NACK?
  }

  /** The initiator lost, and nothing but conflicts stood in its way. */
  predicate OnlyConflicts(rs: seq<Response>) {
    && HasNack(rs)
    && forall r :: r in rs && r.NACK? ==> r.error == ERR_TRANSACTION_CONFLICT
  }

  function ClockAfter(rs: seq<Response>, clock: Uint64): Uint64 {
    if OnlyConflicts(rs) then Bump(clock) else clock
  }

  /** How many responses among `rs` are NACKs carrying `e`. */
  function Count(rs: seq<Response>, e: ResponseError): nat {
    if rs == [] then 0
    else Count(rs[..|rs| - 1], e) + if rs[|rs| - 1] == NACK(e) then 1 else 0
  }

  lemma {:induction false} CountPositive(rs: seq<Response>, e: ResponseError)
    ensures Count(rs, e) > 0 <==> NACK(e) in rs
    decreases |rs|
  {
    if rs == [] {
    } else {
      CountPositive(rs[..|rs| - 1], e);
      assert rs == rs[..|rs| - 1] + [rs[|rs| - 1]];
    }
  }

  /** The error counters `processResponses` builds. */
  ghost predicate Counted(rs: seq<Response>, ctr: map<ResponseError, nat>) {
    && (forall e :: e in ctr <==> Count(rs, e) > 0)
    && (forall e :: e in ctr ==> ctr[e] == Count(rs, e))
  }

  method CountErrors(rs: seq<Response>) returns (ctr: map<ResponseError, nat>, rejected: bool)
    ensures Counted(rs, ctr)
    ensures rejected <==> HasNack(rs)
  {
    ctr, rejected := map[], false;
    for i := 0 to |rs|
      invariant Counted(rs[..i], ctr)
      invariant rejected <==> HasNack(rs[..i])
    {
      var resp := rs[i];
      assert rs[..i + 1][..i] == rs[..i] && rs[..i + 1] == rs[..i] + [resp];
      if resp.NACK? {
        var old_ := if resp.error in ctr then ctr[resp.error] else 0;
        ctr := ctr[resp.error := old_ + 1];
        rejected := true;
      }
    }
    assert rs[..|rs|] == rs;
  }

  /** Sum the counters of everything that is not a conflict, in any order. */
  method CountOthers(ctr: map<ResponseError, nat>) returns (others: nat)
    requires forall e :: e in ctr ==> ctr[e] > 0
    ensures others == 0 <==> forall e :: e in ctr ==> e == ERR_TRANSACTION_CONFLICT
  {
    others := 0;
    var todo := ctr.Keys;
    while todo != {}
      invariant todo <= ctr.Keys
      invariant others == 0 <==> forall e :: e in ctr && e !in todo ==> e == ERR_TRANSACTION_CONFLICT
      decreases |todo|
    {
      var e :| e in todo;
      todo := todo - {e};
      if e == ERR_TRANSACTION_CONFLICT {
        continue;
      }
      others := others + ctr[e];
    }
  }

  /** The error is ErrNotPermitted exactly when some response is a NACK; the clock
      rises exactly when there is a NACK and all NACKs are conflicts. */
  method ProcessResponses(conflicts: ConflictsResolver, rs: seq<Response>) returns (permitted: bool)
    modifies conflicts
    ensures permitted <==> forall r :: r in rs ==> r == ACK
    ensures conflicts.clock == ClockAfter(rs, old(conflicts.clock))
    ensures conflicts.clock ==
            if LostToConflictsOnly(rs) then
              if old(conflicts.clock) == UINT64_SIZE - 1 then 0 else old(conflicts.clock) + 1
            else old(conflicts.clock)
  {
    OnlyConflictsCounted(rs);
    hide LostToConflictsOnly;
    var ctr, rejected := CountErrors(rs);
    forall e ensures e in ctr <==> NACK(e) in rs {
      CountPositive(rs, e);
    }
    var others := CountOthers(ctr);
    if ERR_TRANSACTION_CONFLICT in ctr && others == 0 {
      assert NACK(ERR_TRANSACTION_CONFLICT) in rs;
      assert forall r :: r in rs && r.NACK? ==> r.error in ctr;
      conflicts.IncrementClock();
    } else if HasNack(rs) {
      var r :| r in rs && r.NACK?;
      assert r == NACK(r.error);
      if ERR_TRANSACTION_CONFLICT in ctr {
        var e :| e in ctr && e != ERR_TRANSACTION_CONFLICT;
        assert NACK(e) in rs;
      }
    }
    permitted := !rejected;
  }

  /** By the counts: there is a conflict, and no NACK with any other error. */
  ghost predicate LostToConflictsOnly(rs: seq<Response>) {
    Count(rs, ERR_TRANSACTION_CONFLICT) > 0 && forall e :: e != ERR_TRANSACTION_CONFLICT ==> Count(rs, e) == 0
  }

  lemma OnlyConflictsCounted(rs: seq<Response>)
    ensures OnlyConflicts(rs) <==> LostToConflictsOnly(rs)
  {
    hide Count;
    forall e {
      CountPositive(rs, e);
    }
    forall r | r in rs && r.NACK?
      ensures r == NACK(r.error)
    {
    }
    if LostToConflictsOnly(rs) {
      assert NACK(ERR_TRANSACTION_CONFLICT) in rs;
    }
  }

  /** A call that succeeds leaves the clock alone, and no call raises it twice. */
  lemma ClockRule(rs: seq<Response>, clock: Uint64)
    ensures ClockAfter(rs, clock) == clock || ClockAfter(rs, clock) == Bump(clock)
    ensures ClockAfter(rs, clock) != clock <==> OnlyConflicts(rs)
    ensures !HasNack(rs) ==> ClockAfter(rs, clock) == clock
  {
  }
}
