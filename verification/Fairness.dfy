/** The clocks of peers that contend round after round, and how long each waits.

Peers are numbered; `names` are their names and `clocks` their conflict clocks. In
a round the greatest (clock, name) wins and every other clock rises by one;
`Rounds` shows that this is what contending Replicate calls do.
*/
module Fairness {
  import opened Names
  import opened Messages
  import opened Conflicts
  import opened Sets
  import opened Exclusion

  // ---------------------------------------------------------------- one round

  predicate Distinct(names: seq<Name>) {
    forall i, j :: 0 <= i < j < |names| ==> names[i] != names[j]
  }

  /** (clock, name) priority of peer j over peer i. */
  predicate Over(names: seq<Name>, clocks: seq<Uint64>, j: nat, i: nat)
    requires |clocks| == |names| && i < |names| && j < |names|
  {
    clocks[i] < clocks[j] || (clocks[i] == clocks[j] && Less(names[i], names[j]))
  }

  predicate IsTop(names: seq<Name>, clocks: seq<Uint64>, i: nat)
    requires |clocks| == |names| && i < |names|
  {
    forall j :: 0 <= j < |names| ==> !Over(names, clocks, j, i)
  }

  /** Nobody among the contenders is over peer i, who contends too. */
  predicate TopAmong(names: seq<Name>, clocks: seq<Uint64>, who: set<nat>, i: nat)
    requires |clocks| == |names| && i < |names|
  {
    i in who && forall j :: j in who && j < |names| ==> !Over(names, clocks, j, i)
  }

  /** A request that stands for peer i. */
  function Bid(names: seq<Name>, clocks: seq<Uint64>, i: nat): Issued
    requires |clocks| == |names| && i < |names|
  {
    Issued(names[i], Request(CREATE, Metadata("", "", 0, 0, 0, 0), clocks[i], []))
  }

  lemma BidOrder(names: seq<Name>, clocks: seq<Uint64>, j: nat, i: nat)
    requires |clocks| == |names| && i < |names| && j < |names|
    ensures Higher(Bid(names, clocks, j), Bid(names, clocks, i)) <==> Over(names, clocks, j, i)
  {
    hide Less;
  }

  lemma OverOrUnder(names: seq<Name>, clocks: seq<Uint64>, j: nat, i: nat)
    requires |clocks| == |names| && Distinct(names) && i < |names| && j < |names| && i != j
    ensures Over(names, clocks, j, i) != Over(names, clocks, i, j)
  {
    hide Less;
    LessTotal(names[i], names[j]);
  }

  /** Of every set of contenders one is on top, and over all the others. */
  lemma TopAmongExists(names: seq<Name>, clocks: seq<Uint64>, who: set<nat>) returns (w: nat)
    requires |clocks| == |names| && Distinct(names)
    requires who != {} && forall j :: j in who ==> j < |names|
    ensures w in who && w < |names| && TopAmong(names, clocks, who, w)
    ensures forall j :: j in who && j != w ==> Over(names, clocks, w, j)
  {
    hide Over, Higher, Bid;
    var log := map i | i in who :: names[i] := Bid(names, clocks, i);
    var first :| first in who;
    assert names[first] in log;
    var t := GreatestExists(log, log.Keys);
    w :| w in who && names[w] == t && log[t] == Bid(names, clocks, w);
    forall j | j in who
      ensures !Over(names, clocks, j, w)
      ensures j != w ==> Over(names, clocks, w, j)
    {
      assert names[j] in log && log[names[j]] == Bid(names, clocks, j);
      BidOrder(names, clocks, j, w);
      if j != w {
        OverOrUnder(names, clocks, j, w);
      }
    }
  }

  lemma OneTopAmong(names: seq<Name>, clocks: seq<Uint64>, who: set<nat>, k: nat, i: nat)
    requires |clocks| == |names| && Distinct(names) && forall j :: j in who ==> j < |names|
    requires k < |names| && TopAmong(names, clocks, who, k) && i in who
    ensures TopAmong(names, clocks, who, i) <==> i == k
  {
    hide Less;
    var w := TopAmongExists(names, clocks, who);
    assert !Over(names, clocks, w, k) && k == w;
    assert i != w ==> Over(names, clocks, w, i);
  }

  /** The greatest (clock, name) exists, is unique, and outranks everybody else. */
  lemma TopExists(names: seq<Name>, clocks: seq<Uint64>) returns (w: nat)
    requires |clocks| == |names| > 0 && Distinct(names)
    ensures w < |names| && IsTop(names, clocks, w)
    ensures forall j :: 0 <= j < |names| && j != w ==> Over(names, clocks, w, j)
  {
    hide Over;
    assert 0 in Below(|names|);
    w := TopAmongExists(names, clocks, Below(|names|));
  }

  // ---------------------------------------------------------------- many rounds

  /** The clocks after one fully contended round. */
  function Next(names: seq<Name>, clocks: seq<Uint64>): (next: seq<Uint64>)
    requires |clocks| == |names|
    ensures |next| == |names|
  {
    seq(|names|, i requires 0 <= i < |names| => if IsTop(names, clocks, i) then clocks[i] else Bump(clocks[i]))
  }

  /** The clocks after a round among the contenders `who`. */
  function NextAmong(names: seq<Name>, clocks: seq<Uint64>, who: set<nat>): (next: seq<Uint64>)
    requires |clocks| == |names|
    ensures |next| == |names|
  {
    seq(|names|, i requires 0 <= i < |names| =>
      if i in who && !TopAmong(names, clocks, who, i) then Bump(clocks[i]) else clocks[i])
  }

  /** ... and after m rounds, each among contenders of its own. */
  function AfterAmong(names: seq<Name>, clocks: seq<Uint64>, who: seq<set<nat>>, m: nat): (after: seq<Uint64>)
    requires |clocks| == |names| && m <= |who|
    ensures |after| == |names|
  {
    if m == 0 then clocks else NextAmong(names, AfterAmong(names, clocks, who, m - 1), who[m - 1])
  }

  lemma FullTop(names: seq<Name>, clocks: seq<Uint64>, i: nat)
    requires |clocks| == |names| && i < |names|
    ensures TopAmong(names, clocks, Below(|names|), i) <==> IsTop(names, clocks, i)
  {
    hide Over;
  }

  lemma FullNext(names: seq<Name>, clocks: seq<Uint64>)
    requires |clocks| == |names|
    ensures NextAmong(names, clocks, Below(|names|)) == Next(names, clocks)
  {
    hide TopAmong, IsTop;
    forall i | 0 <= i < |names|
      ensures NextAmong(names, clocks, Below(|names|))[i] == Next(names, clocks)[i]
    {
      FullTop(names, clocks, i);
    }
  }

  /** When everybody contends, the rounds follow `After`. */
  lemma {:induction false} FullAfter(names: seq<Name>, clocks: seq<Uint64>, who: seq<set<nat>>, m: nat)
    requires |clocks| == |names| && m <= |who| && forall j :: 0 <= j < |who| ==> who[j] == Below(|names|)
    ensures AfterAmong(names, clocks, who, m) == After(names, clocks, m)
    decreases m
  {
    hide NextAmong, Next;
    if m == 0 {
    } else {
      FullAfter(names, clocks, who, m - 1);
      FullNext(names, After(names, clocks, m - 1));
    }
  }

  function After(names: seq<Name>, clocks: seq<Uint64>, rounds: nat): (after: seq<Uint64>)
    requires |clocks| == |names|
    ensures |after| == |names|
  {
    if rounds == 0 then clocks else Next(names, After(names, clocks, rounds - 1))
  }

  lemma {:induction false} AfterFirst(names: seq<Name>, clocks: seq<Uint64>, rounds: nat)
    requires |clocks| == |names|
    ensures After(names, clocks, rounds + 1) == After(names, Next(names, clocks), rounds)
  {
    hide Next;
    if rounds == 0 {
    } else {
      AfterFirst(names, clocks, rounds - 1);
    }
  }

  predicate WinsRound(names: seq<Name>, clocks: seq<Uint64>, i: nat, round: nat)
    requires |clocks| == |names| && i < |names|
  {
    IsTop(names, After(names, clocks, round), i)
  }

  /** How many rounds peer j stands before peer i. */
  function Gap(names: seq<Name>, clocks: seq<Uint64>, i: nat, j: nat): nat
    requires |clocks| == |names| && i < |names| && j < |names|
  {
    var d := clocks[j] as int - clocks[i] as int + if Less(names[i], names[j]) then 1 else 0;
    if j == i || d < 0 then 0 else d
  }

  function Gaps(names: seq<Name>, clocks: seq<Uint64>, i: nat): (gaps: seq<nat>)
    requires |clocks| == |names| && i < |names|
    ensures |gaps| == |names|
  {
    seq(|names|, j requires 0 <= j < |names| => Gap(names, clocks, i, j))
  }

  function Sum(s: seq<nat>): nat {
    if s == [] then 0 else Sum(s[..|s| - 1]) + s[|s| - 1]
  }

  function Wait(names: seq<Name>, clocks: seq<Uint64>, i: nat): nat
    requires |clocks| == |names| && i < |names|
  {
    Sum(Gaps(names, clocks, i))
  }

  lemma {:induction false} SumUpdate(s: seq<nat>, w: nat)
    requires w < |s| && s[w] > 0
    ensures Sum(s[w := s[w] - 1]) == Sum(s) - 1
  {
    var s' := s[w := s[w] - 1];
    if w == |s| - 1 {
      assert s'[..|s| - 1] == s[..|s| - 1];
    } else {
      SumUpdate(s[..|s| - 1], w);
      assert s'[..|s| - 1] == s[..|s| - 1][w := s[w] - 1];
    }
  }

  lemma {:induction false} SumZero(s: seq<nat>)
    ensures Sum(s) == 0 <==> forall j :: 0 <= j < |s| ==> s[j] == 0
  {
    if s == [] {
    } else {
      SumZero(s[..|s| - 1]);
      assert forall j :: 0 <= j < |s| - 1 ==> s[j] == s[..|s| - 1][j];
    }
  }

  /** The wait is over exactly when the peer is on top. */
  lemma WaitIsOver(names: seq<Name>, clocks: seq<Uint64>, i: nat)
    requires |clocks| == |names| && i < |names|
    ensures Wait(names, clocks, i) == 0 <==> IsTop(names, clocks, i)
  {
    var gaps := Gaps(names, clocks, i);
    SumZero(gaps);
    LessIrreflexive(names[i]);
    forall j | 0 <= j < |names|
      ensures gaps[j] == 0 <==> !Over(names, clocks, j, i)
    {
    }
  }

  /** Some loser of the round stands at the largest clock, which wraps around. */
  predicate LoserWraps(names: seq<Name>, clocks: seq<Uint64>)
    requires |clocks| == |names|
  {
    exists j :: 0 <= j < |names| && !IsTop(names, clocks, j) && clocks[j] == UINT64_SIZE - 1
  }

  /** What one round, won by w, does to the rounds peer j stands before the loser i. */
  lemma NextGap(names: seq<Name>, clocks: seq<Uint64>, w: nat, i: nat, j: nat)
    requires |clocks| == |names| && w < |names| && i < |names| && j < |names| && i != w
    requires IsTop(names, clocks, w) && forall k :: 0 <= k < |names| && k != w ==> Over(names, clocks, w, k)
    ensures !IsTop(names, clocks, i) && Gap(names, clocks, i, w) > 0
    ensures var gap, gap' := Gap(names, clocks, i, j), Gap(names, Next(names, clocks), i, j);
            if clocks[i] == UINT64_SIZE - 1 then gap' >= gap
            else if j == w then gap' == gap - 1
            else if clocks[j] == UINT64_SIZE - 1 then gap' < gap
            else gap' == gap
  {
    hide Less;
    assert Over(names, clocks, w, i);
    assert j != w ==> Over(names, clocks, w, j) && !IsTop(names, clocks, j);
  }

  /** A lost round shortens the wait by exactly one, if and only if no loser's clock
      wraps around. */
  lemma WaitShrinks(names: seq<Name>, clocks: seq<Uint64>, i: nat)
    requires |clocks| == |names| && Distinct(names) && i < |names| && !IsTop(names, clocks, i)
    ensures Wait(names, Next(names, clocks), i) == Wait(names, clocks, i) - 1 <==> !LoserWraps(names, clocks)
  {
    hide Sum, Gap, Over, IsTop, Next;
    var w := TopExists(names, clocks);
    var gaps, gaps' := Gaps(names, clocks, i), Gaps(names, Next(names, clocks), i);
    forall j | 0 <= j < |names| {
      NextGap(names, clocks, w, i, j);
    }
    if clocks[i] == UINT64_SIZE - 1 {
      SumMonotone(gaps, gaps');
    } else {
      var fewer := gaps[w := gaps[w] - 1];
      SumUpdate(gaps, w);
      if j :| 0 <= j < |names| && !IsTop(names, clocks, j) && clocks[j] == UINT64_SIZE - 1 {
        SumUpdate(fewer, j);
        SumMonotone(gaps', fewer[j := fewer[j] - 1]);
      } else {
        forall j | 0 <= j < |names| && j != w
          ensures gaps'[j] == gaps[j]
        {
          NextGap(names, clocks, w, j, j);
        }
        assert gaps' == fewer;
      }
    }
  }

  lemma {:induction false} SumMonotone(a: seq<nat>, b: seq<nat>)
    requires |a| == |b| && forall j :: 0 <= j < |a| ==> a[j] <= b[j]
    ensures Sum(a) <= Sum(b)
    decreases |a|
  {
    if a == [] {
    } else {
      SumMonotone(a[..|a| - 1], b[..|b| - 1]);
    }
  }

  /** No clock wraps around in the first rounds. */
  ghost predicate NoWrap(names: seq<Name>, clocks: seq<Uint64>, rounds: nat)
    requires |clocks| == |names|
  {
    forall r: nat :: r < rounds ==> !LoserWraps(names, After(names, clocks, r))
  }

  /** Clocks far enough from the largest do not wrap. */
  lemma SmallClocks(names: seq<Name>, clocks: seq<Uint64>, rounds: nat)
    requires |clocks| == |names| && forall j :: 0 <= j < |names| ==> clocks[j] + rounds < UINT64_SIZE
    ensures NoWrap(names, clocks, rounds)
  {
    hide IsTop;
    forall r: nat | r < rounds
      ensures !LoserWraps(names, After(names, clocks, r))
    {
      forall j | 0 <= j < |names|
        ensures After(names, clocks, r)[j] + 1 < UINT64_SIZE
      {
        AtMostOneEach(names, clocks, r, j);
      }
    }
  }

  lemma {:induction false} AtMostOneEach(names: seq<Name>, clocks: seq<Uint64>, r: nat, j: nat)
    requires |clocks| == |names| && j < |names|
    ensures After(names, clocks, r)[j] <= clocks[j] + r
  {
    hide IsTop;
    if r == 0 {
    } else {
      AtMostOneEach(names, clocks, r - 1, j);
    }
  }

  /** Exact fairness: peer i loses every round before round `Wait` and wins that one. */
  lemma {:induction false} ExactWait(names: seq<Name>, clocks: seq<Uint64>, i: nat)
    requires |clocks| == |names| && Distinct(names) && i < |names|
    requires NoWrap(names, clocks, Wait(names, clocks, i))
    ensures WinsRound(names, clocks, i, Wait(names, clocks, i))
    ensures forall r :: 0 <= r < Wait(names, clocks, i) ==> !WinsRound(names, clocks, i, r)
    decreases Wait(names, clocks, i)
  {
    hide IsTop, Wait, LoserWraps, Next;
    WaitIsOver(names, clocks, i);
    var n := Wait(names, clocks, i);
    if n == 0 {
    } else {
      var next := Next(names, clocks);
      assert After(names, clocks, 0) == clocks;
      WaitShrinks(names, clocks, i);
      forall r: nat
        ensures After(names, next, r) == After(names, clocks, r + 1)
      {
        AfterFirst(names, clocks, r);
      }
      assert NoWrap(names, next, n - 1);
      ExactWait(names, next, i);
      forall r | 0 <= r < n
        ensures !WinsRound(names, clocks, i, r)
      {
        if r > 0 {
          assert !WinsRound(names, next, i, r - 1);
        }
      }
    }
  }

  // ---------------------------------------------------------------- rotation

  /** The peers with a greater name. */
  function Greater(names: seq<Name>, i: nat): set<nat>
    requires i < |names|
  {
    set j: nat | j < |names| && Less(names[i], names[j])
  }

  function Rank(names: seq<Name>, i: nat): nat
    requires i < |names|
  {
    |Greater(names, i)|
  }

  lemma RankOrder(names: seq<Name>, i: nat, j: nat)
    requires i < |names| && j < |names| && Less(names[i], names[j])
    ensures Rank(names, j) < Rank(names, i)
  {
    LessIrreflexive(names[j]);
    forall k | k in Greater(names, j)
      ensures k in Greater(names, i)
    {
      LessTransitive(names[i], names[j], names[k]);
    }
    assert j in Greater(names, i) && j !in Greater(names, j);
    SubsetSize(Greater(names, j) + {j}, Greater(names, i));
  }

  lemma RankDistinct(names: seq<Name>, i: nat, j: nat)
    requires Distinct(names) && i < |names| && j < |names| && i != j
    ensures Rank(names, i) != Rank(names, j)
  {
    hide Rank;
    LessTotal(names[i], names[j]);
    if Less(names[i], names[j]) { RankOrder(names, i, j); } else { RankOrder(names, j, i); }
  }

  /** The numbers below n. */
  function Below(n: nat): (s: set<nat>)
    ensures forall k :: k in s <==> 0 <= k < n
    ensures |s| == n
  {
    if n == 0 then {} else Below(n - 1) + {n - 1}
  }

  lemma RankBelow(names: seq<Name>, i: nat)
    requires i < |names|
    ensures Rank(names, i) < |names|
  {
    LessIrreflexive(names[i]);
    SubsetSize(Greater(names, i) + {i}, Below(|names|));
  }

  /** Ranks are the numbers below n, each taken once. */
  lemma RankTaken(names: seq<Name>, r: nat) returns (i: nat)
    requires Distinct(names) && r < |names|
    ensures i < |names| && Rank(names, i) == r
  {
    hide Rank;
    var ranks := seq(|names|, k requires 0 <= k < |names| => Rank(names, k));
    forall j, k | 0 <= j < k < |names|
      ensures ranks[j] != ranks[k]
    {
      RankDistinct(names, j, k);
    }
    DistinctSeqSize(ranks);
    var taken := Members(ranks);
    forall x | x in taken
      ensures x in Below(|names|)
    {
      var k :| 0 <= k < |names| && ranks[k] == x;
      RankBelow(names, k);
    }
    SubsetSize(taken, Below(|names|));
    assert r in Below(|names|) && r in taken;
    i :| 0 <= i < |names| && ranks[i] == r;
  }

  lemma {:induction false} SumOfFlags(s: seq<nat>, ones: set<nat>)
    requires forall j :: 0 <= j < |s| ==> s[j] == if j in ones then 1 else 0
    requires forall j :: j in ones ==> j < |s|
    ensures Sum(s) == |ones|
    decreases |s|
  {
    if s == [] {
      assert ones == {};
    } else {
      var last := |s| - 1;
      SumOfFlags(s[..last], ones - {last});
      if last in ones {
        assert ones == (ones - {last}) + {last};
      } else {
        assert ones == ones - {last};
      }
    }
  }

  /** From equal clocks a peer waits for exactly the peers with greater names. */
  lemma EqualWait(names: seq<Name>, clocks: seq<Uint64>, c: Uint64, i: nat)
    requires |clocks| == |names| && i < |names|
    requires forall j :: 0 <= j < |names| ==> clocks[j] == c
    ensures Wait(names, clocks, i) == Rank(names, i)
  {
    LessIrreflexive(names[i]);
    SumOfFlags(Gaps(names, clocks, i), Greater(names, i));
  }

  /** From equal clocks, round r < n is won by the peer of rank r and by no other. */
  lemma RotationWinner(names: seq<Name>, clocks: seq<Uint64>, c: Uint64, r: nat, i: nat)
    requires |clocks| == |names| && Distinct(names) && i < |names| && r < |names|
    requires forall j :: 0 <= j < |names| ==> clocks[j] == c
    requires c + |names| <= UINT64_SIZE
    ensures WinsRound(names, clocks, i, r) <==> Rank(names, i) == r
  {
    hide IsTop, Wait, Rank, After;
    var k := RankTaken(names, r);
    EqualWait(names, clocks, c, k);
    SmallClocks(names, clocks, r);
    ExactWait(names, clocks, k);
    var w := TopExists(names, After(names, clocks, r));
    OneTop(names, After(names, clocks, r), k, i);
    if i != k {
      RankDistinct(names, i, k);
    }
  }

  lemma OneTop(names: seq<Name>, clocks: seq<Uint64>, k: nat, i: nat)
    requires |clocks| == |names| && Distinct(names) && i < |names| && k < |names|
    requires IsTop(names, clocks, k)
    ensures IsTop(names, clocks, i) <==> i == k
  {
    var w := TopExists(names, clocks);
    assert !Over(names, clocks, w, k);
    assert k == w;
    assert Over(names, clocks, w, i) || i == w;
  }

  /** From equal clocks, after r <= n rounds a peer has lost every round but the one
      of its rank. */
  lemma {:induction false} RotationClocks(names: seq<Name>, clocks: seq<Uint64>, c: Uint64, r: nat, i: nat)
    requires |clocks| == |names| && Distinct(names) && i < |names| && r <= |names|
    requires forall j :: 0 <= j < |names| ==> clocks[j] == c
    requires c + |names| <= UINT64_SIZE
    ensures After(names, clocks, r)[i] == c + r - if Rank(names, i) < r then 1 else 0
    decreases r
  {
    hide IsTop, Rank;
    if r == 0 {
    } else {
      RotationClocks(names, clocks, c, r - 1, i);
      RotationWinner(names, clocks, c, r - 1, i);
      RankBelow(names, i);
    }
  }

  /** n rounds from equal clocks: every peer wins exactly once, the clocks are equal
      again, and the rotation starts over. */
  lemma Rotation(names: seq<Name>, clocks: seq<Uint64>, c: Uint64)
    requires |clocks| == |names| > 0 && Distinct(names)
    requires forall j :: 0 <= j < |names| ==> clocks[j] == c
    requires c + |names| <= UINT64_SIZE
    ensures forall i :: 0 <= i < |names| ==> After(names, clocks, |names|)[i] == c + |names| - 1
    ensures forall i, r :: 0 <= i < |names| && 0 <= r < |names| ==>
              (WinsRound(names, clocks, i, r) <==> Rank(names, i) == r)
  {
    hide WinsRound, After, Rank;
    forall i | 0 <= i < |names|
      ensures After(names, clocks, |names|)[i] == c + |names| - 1
    {
      RankBelow(names, i);
      RotationClocks(names, clocks, c, |names|, i);
    }
    forall i, r | 0 <= i < |names| && 0 <= r < |names|
      ensures WinsRound(names, clocks, i, r) <==> Rank(names, i) == r
    {
      RotationWinner(names, clocks, c, r, i);
    }
  }
}
