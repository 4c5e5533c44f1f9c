/**
 Completing a ticket: the numbers 1..45 that were not picked form a pool,
 the pool is shuffled in place, and the first `6 - |picks|` numbers of it
 are added to the picks; the combined list is sorted ascending.
 */
module Draw {
  import opened Sorting

  /** Smallest and largest number on a ticket, and the size of a ticket. */
  const MinNumber := 1
  const MaxNumber := 45
  const TicketSize := 6

  /** The picks that lie in 1..hi. */
  ghost function PicksUpTo(picks: set<int>, hi: int): set<int>
  {
    set x | x in picks && MinNumber <= x <= hi
  }

  /** Every pick is a number of 1..45 (the number picker's bounds). */
  ghost predicate InRange(picks: set<int>)
  {
    forall p :: p in picks ==> MinNumber <= p <= MaxNumber
  }

  /** A finished ticket for the picks `picks`: six distinct numbers of
      1..45 in strictly ascending order that include every pick. */
  ghost predicate IsTicket(picks: set<int>, r: seq<int>)
  {
    && |r| == TicketSize
    && StrictlyAscending(r)
    && NoDuplicates(r)
    && (forall p :: p in picks ==> p in r)
    && (forall x :: x in r ==> MinNumber <= x <= MaxNumber)
  }

  /** Going one number further adds that number to the picks seen so far
      exactly when it is a pick. */
  lemma PicksSeenStep(picks: set<int>, i: int)
    requires 1 <= i
    ensures |PicksUpTo(picks, i)| == |PicksUpTo(picks, i - 1)| + (if i in picks then 1 else 0)
  {
    if i in picks {
      assert PicksUpTo(picks, i) == PicksUpTo(picks, i - 1) + {i};
    } else {
      assert PicksUpTo(picks, i) == PicksUpTo(picks, i - 1);
    }
  }

  /** The pool: every number of 1..45 that is not a pick, in ascending order. */
  method BuildPool(picks: set<int>) returns (pool: seq<int>)
    ensures forall x :: x in pool <==> MinNumber <= x <= MaxNumber && x !in picks
    ensures StrictlyAscending(pool) && NoDuplicates(pool)
    ensures |pool| == MaxNumber - |PicksUpTo(picks, MaxNumber)|
    ensures InRange(picks) ==> |pool| == MaxNumber - |picks|
  {
    pool := [];
    for i := MinNumber to MaxNumber + 1
      invariant forall x :: x in pool <==> MinNumber <= x < i && x !in picks
      invariant forall k :: 0 <= k < |pool| ==> pool[k] < i
      invariant StrictlyAscending(pool)
      invariant |pool| + |PicksUpTo(picks, i - 1)| == i - 1
    {
      PicksSeenStep(picks, i);
      if i in picks {
        continue;
      }
      pool := pool + [i];
    }
    if InRange(picks) {
      assert PicksUpTo(picks, MaxNumber) == picks;
    }
  }

  /** The platform's shuffle: from the last index down to 1, swap the
      element at index `i` with one at a random index `j <= i`. The random
      indices come from `rolls`; where `rolls` runs out, no swap is made.
      All a caller may rely on is that the result is a permutation. */
  method Shuffle(a: array<int>, rolls: seq<nat>)
    modifies a
    ensures multiset(a[..]) == old(multiset(a[..]))
  {
    var i := a.Length;
    while i > 1
      invariant 0 <= i <= a.Length
      invariant multiset(a[..]) == old(multiset(a[..]))
    {
      var j := if i - 1 < |rolls| then rolls[i - 1] % i else i - 1;
      a[i - 1], a[j] := a[j], a[i - 1];
      i := i - 1;
    }
  }

  /** The picks as a list. The set's own iteration order is not modelled:
      this visits 1..45 in turn, and nothing downstream depends on the
      order. */
  method ListOfPicks(picks: set<int>) returns (r: seq<int>)
    requires InRange(picks)
    ensures forall x :: x in r <==> x in picks
    ensures NoDuplicates(r)
    ensures |r| == |picks|
  {
    r := [];
    for i := MinNumber to MaxNumber + 1
      invariant forall x :: x in r <==> x in picks && x < i
      invariant forall k :: 0 <= k < |r| ==> r[k] < i
      invariant NoDuplicates(r)
      invariant |r| == |PicksUpTo(picks, i - 1)|
    {
      PicksSeenStep(picks, i);
      if i in picks {
        r := r + [i];
      }
    }
    assert PicksUpTo(picks, MaxNumber) == picks;
  }

  /** The listed picks followed by the first `6 - |picked|` numbers of the
      shuffled pool, sorted ascending. */
  function Complete(picked: seq<int>, shuffled: seq<int>): (r: seq<int>)
    requires |picked| <= TicketSize
    requires TicketSize - |picked| <= |shuffled|
    ensures |r| == TicketSize
    ensures Ascending(r)
    ensures forall x :: x in r <==> x in picked || x in shuffled[..TicketSize - |picked|]
  {
    var combined := picked + shuffled[..TicketSize - |picked|];
    var r := Sort(combined);
    assert forall x :: x in combined <==> x in multiset(combined);
    assert forall x :: x in r <==> x in multiset(r);
    r
  }

  /** Whichever order the set lists the picks in and whichever order the
      shuffle leaves the pool in, completing the picks from it gives a
      ticket. */
  lemma CompleteIsTicket(picks: set<int>, picked: seq<int>, shuffled: seq<int>)
    requires InRange(picks)
    requires forall x :: x in picked <==> x in picks
    requires NoDuplicates(picked)
    requires |picked| <= TicketSize
    requires TicketSize - |picked| <= |shuffled|
    requires NoDuplicates(shuffled)
    requires forall k :: 0 <= k < |shuffled| ==> MinNumber <= shuffled[k] <= MaxNumber && shuffled[k] !in picks
    ensures IsTicket(picks, Complete(picked, shuffled))
  {
    var fill := shuffled[..TicketSize - |picked|];
    var combined := picked + fill;
    forall i, j | 0 <= i < j < |combined|
      ensures combined[i] != combined[j]
    {
      if j < |picked| {
      } else if i < |picked| {
        assert combined[i] == picked[i] && picked[i] in picked;
        assert combined[j] == shuffled[j - |picked|];
      } else {
        assert combined[i] == shuffled[i - |picked|];
        assert combined[j] == shuffled[j - |picked|];
      }
    }
    var r := Complete(picked, shuffled);
    forall x | x in r
      ensures MinNumber <= x <= MaxNumber
    {
      if x in fill {
        var k :| 0 <= k < |fill| && fill[k] == x;
        assert shuffled[k] == x;
      }
    }
    SortDistinctIsStrict(combined);
    PermutationKeepsNoDuplicates(combined, Sort(combined));
  }

  /** Draws a ticket for `picks`: builds the pool, shuffles it with the
      random indices `rolls`, takes what is missing and sorts. Besides the
      picks' range, the only demand is the one `subList(0, 6 - |picks|)`
      makes: at most six picks. */
  method GetRandomNumber(picks: set<int>, rolls: seq<nat>) returns (result: seq<int>)
    requires InRange(picks)
    requires |picks| <= TicketSize
    ensures IsTicket(picks, result)
  {
    var pool := BuildPool(picks);
    var numberList := new int[|pool|](k requires 0 <= k < |pool| => pool[k]);
    assert numberList[..] == pool;
    Shuffle(numberList, rolls);
    var shuffled := numberList[..];
    forall k | 0 <= k < |shuffled|
      ensures MinNumber <= shuffled[k] <= MaxNumber && shuffled[k] !in picks
    {
      assert shuffled[k] in multiset(shuffled);
      assert shuffled[k] in pool;
    }
    PermutationKeepsNoDuplicates(pool, shuffled);
    var picked := ListOfPicks(picks);
    CompleteIsTicket(picks, picked, shuffled);
    result := Complete(picked, shuffled);
  }
}
