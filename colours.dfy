/**
 The circle colour under a displayed number: the ranges 1-10, 11-20, 21-30
 and 31-40 get yellow, blue, red and gray, and every other value falls
 through to green.
 */
module Colours {

  datatype Colour = Yellow | Blue | Red | Gray | Green

  /** The background chosen for a number, tested range by range. Within
      1..40 the colour is the number's decade; everything else is green. */
  function Bucket(number: int): (c: Colour)
    ensures 1 <= number <= 40 ==> Rank(c) == (number - 1) / 10
    ensures c == Green <==> number < 1 || number > 40
  {
    if 1 <= number <= 10 then Yellow
    else if 11 <= number <= 20 then Blue
    else if 21 <= number <= 30 then Red
    else if 31 <= number <= 40 then Gray
    else Green
  }

  /** Position of a colour in the order of the ranges it stands for. */
  function Rank(c: Colour): nat
  {
    match c
    case Yellow => 0
    case Blue => 1
    case Red => 2
    case Gray => 3
    case Green => 4
  }

  /** Each colour is chosen for exactly the numbers of its range. */
  lemma BucketExactRanges(n: int)
    ensures Bucket(n) == Yellow <==> 1 <= n <= 10
    ensures Bucket(n) == Blue <==> 11 <= n <= 20
    ensures Bucket(n) == Red <==> 21 <= n <= 30
    ensures Bucket(n) == Gray <==> 31 <= n <= 40
    ensures Bucket(n) == Green <==> n < 1 || n > 40
  {
  }

  /** On the numbers a ticket can hold, the colour is the decade of the
      number, with 41-45 joining the last bucket. */
  lemma BucketIsDecade(n: int)
    requires 1 <= n <= 45
    ensures Rank(Bucket(n)) == if n <= 40 then (n - 1) / 10 else 4
  {
  }

  /** Over 1..45 the buckets are consecutive, non-overlapping intervals:
      a larger number never gets an earlier colour. */
  lemma BucketMonotone(n: int, m: int)
    requires 1 <= n <= m
    ensures Rank(Bucket(n)) <= Rank(Bucket(m))
  {
  }
}
