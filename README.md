# Lotto number session

A Dafny model of the logic behind the lotto screen of `MainActivity`.
The user picks up to five numbers from 1..45 by hand. The run button then
fills the remaining places of a six-number ticket with numbers from the rest
of 1..45, chosen by a shuffle, and shows the ticket sorted ascending. The
clear button starts over. Every displayed number gets a circle colour from
its range.

Modules, one per part of `MainActivity.kt`:

- `Session` (`session.dfy`): the class `LottoSession` with the two fields
  the screen updates in place, `didRun` and `picks`. It has one method per
  button: `TryPick` (add), `Clear` and `Run`. Its invariant `Valid()` says
  there are at most five picks, all in 1..45. The constructor establishes it
  and every method keeps it, so it holds after every sequence of button
  presses. Four client methods replay typical button sequences and state
  what they produce.
- `Draw` (`draw.dfy`): `getRandomNumber`. The pool is built by a `for`
  loop over 1..45 (`BuildPool`). It is copied into an array and shuffled
  in place (`Shuffle`). The picks are listed (`ListOfPicks`) and completed
  to six numbers (`Complete`). `CompleteIsTicket` proves that the result
  is a ticket whatever permutation the shuffle produced.
- `Sorting` (`sorting.dfy`): the ascending sort of the combined list. It
  also proves that a permutation of a duplicate-free list is duplicate-free,
  which is how the sorted ticket comes out strictly ascending.
- `Colours` (`colours.dfy`): the range-by-range colour choice for a number.

The randomness is a parameter. `Shuffle` walks from the last index down to
index 1 and swaps each element with one at an index taken from `rolls`.
This is the walk the platform's shuffle makes. The contract promises only a
permutation, so nothing proved depends on the values in `rolls`.

## Model

| member | source | states |
|---|---|---|
| `Session.LottoSession.constructor` | app/src/main/java/shop/sorayeon/android/lotto/MainActivity.kt:48-52 | a new screen has no picks and has not run, and satisfies the session invariant |
| `Session.LottoSession.TryPick` | app/src/main/java/shop/sorayeon/android/lotto/MainActivity.kt:74-106 | the guards run in order: already run, then five or more picks, then duplicate. The first that fails decides the refusal and nothing changes. Otherwise exactly the candidate is added, `didRun` is untouched, and the display slot is the old pick count, which is below 5. At most five picks in 1..45 stays true |
| `Session.LottoSession.Clear` | app/src/main/java/shop/sorayeon/android/lotto/MainActivity.kt:112-118 | from any state, leaves no picks and `didRun` false |
| `Session.LottoSession.Run` | app/src/main/java/shop/sorayeon/android/lotto/MainActivity.kt:124-128 | returns a ticket for the current picks, leaves the picks unchanged and sets `didRun` |
| `Session.PicksThenRun` | app/src/main/java/shop/sorayeon/android/lotto/MainActivity.kt:74-128 | picking 7, 23 and 45 fills slots 0, 1 and 2; the following draw is six strictly ascending numbers containing all three |
| `Session.SixthPickRefused` | app/src/main/java/shop/sorayeon/android/lotto/MainActivity.kt:84-87 | after picking 1..5, a sixth pick is refused as selection full; the draw then holds 1..5 plus one more number |
| `Session.PickAfterRunNeedsClear` | app/src/main/java/shop/sorayeon/android/lotto/MainActivity.kt:77-82 | after a draw, any candidate is refused as already run; after clearing, picking 10 is accepted into slot 0 |
| `Session.SamePickTwice` | app/src/main/java/shop/sorayeon/android/lotto/MainActivity.kt:89-92 | picking 9 twice is accepted once and then refused as a duplicate |
| `Draw.BuildPool` | app/src/main/java/shop/sorayeon/android/lotto/MainActivity.kt:160-171 | the pool holds exactly the numbers of 1..45 that are not picks. It is strictly ascending with no duplicates, and its length is 45 minus the number of picks in 1..45 (45 minus the number of picks when every pick is in range) |
| `Draw.Shuffle` | app/src/main/java/shop/sorayeon/android/lotto/MainActivity.kt:174 | the array after the shuffle is a permutation of the array before |
| `Draw.ListOfPicks` | app/src/main/java/shop/sorayeon/android/lotto/MainActivity.kt:178 | the list holds exactly the picks, once each |
| `Draw.Complete` | app/src/main/java/shop/sorayeon/android/lotto/MainActivity.kt:178-180 | the result has six elements and is ascending. Its members are exactly the listed picks and the first shuffled numbers, as many as six minus the number of listed picks |
| `Draw.CompleteIsTicket` | app/src/main/java/shop/sorayeon/android/lotto/MainActivity.kt:174-180 | for any listing of the picks and any duplicate-free arrangement of non-picks from 1..45 (so for every permutation of the pool), the completed list has six elements. It is strictly ascending, has no duplicates, lies in 1..45 and contains every pick |
| `Draw.GetRandomNumber` | app/src/main/java/shop/sorayeon/android/lotto/MainActivity.kt:157-181 | for at most six picks in 1..45 and any random input, the result is a ticket: six distinct numbers of 1..45, strictly ascending, containing every pick |
| `Sorting.Insert` | app/src/main/java/shop/sorayeon/android/lotto/MainActivity.kt:180 | inserting into an ascending list keeps it ascending and adds exactly the one element |
| `Sorting.Sort` | app/src/main/java/shop/sorayeon/android/lotto/MainActivity.kt:180 | the result is ascending, has the same length and is a permutation of the input |
| `Sorting.PermutationKeepsNoDuplicates` | app/src/main/java/shop/sorayeon/android/lotto/MainActivity.kt:174 | a permutation of a duplicate-free list is duplicate-free, so the shuffled pool has no repeats |
| `Sorting.SortDistinctIsStrict` | app/src/main/java/shop/sorayeon/android/lotto/MainActivity.kt:180 | sorting a duplicate-free list gives a strictly ascending one |
| `Colours.Bucket` | app/src/main/java/shop/sorayeon/android/lotto/MainActivity.kt:146-153 | the `when` over the four ranges with green as the fallback. On 1..40 the colour's position is the number's decade `(n - 1) / 10`, and green is chosen exactly outside 1..40. Its lemmas add that each colour holds exactly on its range and that the buckets are consecutive and do not overlap |
| `Colours.BucketExactRanges` | app/src/main/java/shop/sorayeon/android/lotto/MainActivity.kt:146-153 | each colour is chosen for exactly its range (in both directions): 1-10 yellow, 11-20 blue, 21-30 red, 31-40 gray, and every other integer green |
| `Colours.BucketIsDecade` | app/src/main/java/shop/sorayeon/android/lotto/MainActivity.kt:146-153 | on 1..45 the colour's position is the decade `(n - 1) / 10`, with 41..45 in the last bucket |
| `Colours.BucketMonotone` | app/src/main/java/shop/sorayeon/android/lotto/MainActivity.kt:146-153 | from 1 upward a larger number never gets an earlier colour, so the five buckets are consecutive and do not overlap |

## Left out

- The Android plumbing is not modelled. This covers the lazily looked-up
  views, `onCreate` and the click-listener wiring, text-view visibility and
  text, the toasts and their messages, the log line and the drawable
  lookup. These are foreign UI calls. The model keeps only which outcome
  each button produces, which slot an accepted pick uses, and which colour a
  number gets.
- The number picker widget is not modelled. Its bounds 1..45 appear as the
  precondition of `TryPick` and as the `InRange` part of the session
  invariant.
- Draw.Shuffle: promises only a permutation. The random choice and the
  uniformity of the platform's shuffle cannot be stated here. The random
  indices are the parameter `rolls`; where `rolls` is too short, that step
  makes no swap.
- Draw.ListOfPicks: does not model the hash set's own iteration order. It
  lists the picks in ascending order instead. `CompleteIsTicket` holds for
  every listing order, and the order is erased by the sort anyway.
- Draw.GetRandomNumber: requires the picks to lie in 1..45. The widget
  guarantees this, but the code does not check it.
- Draw.GetRandomNumber: requires at most six picks. `subList(0, 6 - size)`
  (MainActivity.kt:178) fails only for more than six, and the code has no
  check of its own. The session never holds more than five.
- The run handler colours and shows the six numbers one by one. The model
  returns the ticket and leaves that display loop to the UI; each number's
  colour is `Colours.Bucket` of it.
