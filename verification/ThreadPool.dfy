/** EventLoopThreadPool's choice of loops. */
module ThreadPoolObject {
  import opened Bytes

  predicate Distinct(loops: seq<nat>) {
    forall i, j :: 0 <= i < j < |loops| ==> loops[i] != loops[j]
  }

  /** A loop is named by a number. */
  class EventLoopThreadPool {
    const baseLoop: nat
    const loops: seq<nat>       // filled once, by start()
    var next: nat

    ghost predicate Valid()
      reads this
    {
      next == 0 || next < |loops|
    }

    constructor (baseLoop: nat, loops: seq<nat>)
      ensures Valid() && this.baseLoop == baseLoop && this.loops == loops && next == 0
    {
      this.baseLoop, this.loops, next := baseLoop, loops, 0;
    }

    method GetNextLoop() returns (loop: nat)
      requires Valid()
      modifies `next
      ensures Valid()
      ensures loops == [] ==> loop == baseLoop && next == old(next)
      ensures loops != [] ==> loop == loops[old(next)] && next == if old(next) + 1 == |loops| then 0 else old(next) + 1
    {
      loop := baseLoop;
      if loops != [] {
        loop := loops[next];
        next := next + 1;
        if next >= |loops| {
          next := 0;
        }
      }
    }

    function GetLoopForHash(hashCode: nat): nat {
      if loops != [] then loops[hashCode % |loops|] else baseLoop
    }

    /**
     What a caller gets from hashing: hashes that agree modulo the number of loops share a loop,
     distinct loops are told apart by the others, and every loop is some hash's.
     */
    lemma HashesShareLoops(a: nat, b: nat, j: nat)
      requires loops != [] && j < |loops|
      ensures a % |loops| == b % |loops| ==> GetLoopForHash(a) == GetLoopForHash(b)
      ensures Distinct(loops) && GetLoopForHash(a) == GetLoopForHash(b) ==> a % |loops| == b % |loops|
      ensures exists h: nat :: h < |loops| && GetLoopForHash(h) == loops[j]
    {
      Unique(j / |loops|, j % |loops|, 0, j, |loops|);
      assert GetLoopForHash(j) == loops[j];
    }

    /**
     Any number of calls on a fresh pool: the k-th, from 0, gets loop k mod n, and each loop is
     chosen floor(count / n) times, the first count mod n of them once more.
     */
    method GetMany(count: nat) returns (chosen: seq<nat>)
      requires Valid() && next == 0
      modifies `next
      ensures Valid() && |chosen| == count
      ensures loops == [] ==> forall k :: 0 <= k < count ==> chosen[k] == baseLoop
      ensures loops != [] ==> InTurn(loops, chosen)
      ensures loops != [] && Distinct(loops) ==>
        forall j :: 0 <= j < |loops| ==> multiset(chosen)[loops[j]] == Share(count, |loops|, j)
    {
      chosen := [];
      for i := 0 to count
        invariant Valid() && |chosen| == i
        invariant next == if loops == [] then 0 else i % |loops|
        invariant loops == [] ==> forall k :: 0 <= k < i ==> chosen[k] == baseLoop
        invariant loops != [] ==> InTurn(loops, chosen)
      {
        if loops != [] {
          CountOn(i, |loops|);
          InTurnNext(loops, chosen, loops[i % |loops|]);
        }
        var loop := GetNextLoop();
        chosen := chosen + [loop];
      }
      if loops != [] && Distinct(loops) {
        AllAreFair(loops, chosen);
      }
    }
  }

  /** The k-th of the loops chosen, from 0, is loop k mod n. */
  predicate InTurn(loops: seq<nat>, chosen: seq<nat>)
    requires loops != []
  {
    forall k :: 0 <= k < |chosen| ==> chosen[k] == loops[k % |loops|]
  }

  /** Counting one further moves the remainder on, round the end. */
  lemma CountOn(k: nat, n: nat)
    requires n > 0
    ensures k % n + 1 < n ==> (k + 1) / n == k / n && (k + 1) % n == k % n + 1
    ensures k % n + 1 == n ==> (k + 1) / n == k / n + 1 && (k + 1) % n == 0
  {
    var q, r := k / n, k % n;
    assert k == q * n + r && k + 1 == ((k + 1) / n) * n + (k + 1) % n;
    if r + 1 < n {
      Unique(q, r + 1, (k + 1) / n, (k + 1) % n, n);
    } else {
      assert (q + 1) * n == q * n + n;
      Unique(q + 1, 0, (k + 1) / n, (k + 1) % n, n);
    }
  }

  lemma InTurnNext(loops: seq<nat>, chosen: seq<nat>, loop: nat)
    requires loops != [] && InTurn(loops, chosen) && loop == loops[|chosen| % |loops|]
    ensures InTurn(loops, chosen + [loop])
  {
  }

  /** Loop j's share of k calls on n loops. */
  function Share(k: nat, n: nat, j: nat): nat
    requires n > 0
  {
    k / n + if j < k % n then 1 else 0
  }

  lemma AllAreFair(loops: seq<nat>, chosen: seq<nat>)
    requires loops != [] && Distinct(loops) && InTurn(loops, chosen)
    ensures forall j :: 0 <= j < |loops| ==> multiset(chosen)[loops[j]] == Share(|chosen|, |loops|, j)
  {
    forall j | 0 <= j < |loops|
      ensures multiset(chosen)[loops[j]] == Share(|chosen|, |loops|, j)
    {
      RoundRobinIsFair(loops, chosen, j);
    }
  }

  /** Taking turns, each of n distinct loops is chosen floor(k/n) times, and the first k mod n of them once more. */
  lemma {:induction false} RoundRobinIsFair(loops: seq<nat>, chosen: seq<nat>, j: nat)
    requires loops != [] && Distinct(loops) && InTurn(loops, chosen) && j < |loops|
    ensures multiset(chosen)[loops[j]] == |chosen| / |loops| + if j < |chosen| % |loops| then 1 else 0
    decreases |chosen|
  {
    if chosen == [] {
      Unique(0 / |loops|, 0 % |loops|, 0, 0, |loops|);
    } else {
      var front, last := chosen[..|chosen| - 1], chosen[|chosen| - 1];
      assert chosen == front + [last];
      assert InTurn(loops, front);
      RoundRobinIsFair(loops, front, j);
      CountOn(|front|, |loops|);
      var turn := |front| % |loops|;
      assert last == loops[turn];
      assert last == loops[j] <==> turn == j;
    }
  }
}
