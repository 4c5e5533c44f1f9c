/**
 The screen's session state: the numbers picked by hand and whether a draw
 has been made. The add, clear and run buttons are the three methods of
 `LottoSession`; the widgets they update are not modelled.
 */
module Session {
  import opened Sorting
  import opened Draw

  /** At most this many numbers can be picked by hand. */
  const MaxPicks := 5

  /** What the add button does with a candidate: accept it into a display
      slot, or refuse it for one of three reasons. */
  datatype PickOutcome =
    | Accepted(slot: nat)
    | AlreadyRun
    | SelectionFull
    | DuplicatePick

  class LottoSession {
    var didRun: bool
    var picks: set<int>

    /** The session invariant: at most five picks, all from 1..45. */
    ghost predicate Valid()
      reads this
    {
      |picks| <= MaxPicks && InRange(picks)
    }

    /** A fresh screen: nothing picked, no draw made. */
    constructor ()
      ensures Valid()
      ensures !didRun && picks == {}
    {
      didRun := false;
      picks := {};
    }

    /** The add button. The guards run in order and the first that fails
        decides; a refusal changes nothing. An accepted candidate goes into
        the slot whose index is the old number of picks. */
    method TryPick(candidate: int) returns (outcome: PickOutcome)
      requires Valid()
      requires MinNumber <= candidate <= MaxNumber
      modifies this
      ensures Valid()
      ensures old(didRun) ==> outcome == AlreadyRun
      ensures !old(didRun) && |old(picks)| >= MaxPicks ==> outcome == SelectionFull
      ensures !old(didRun) && |old(picks)| < MaxPicks && candidate in old(picks) ==> outcome == DuplicatePick
      ensures !old(didRun) && |old(picks)| < MaxPicks && candidate !in old(picks) ==> outcome == Accepted(|old(picks)|)
      ensures outcome.Accepted? ==> outcome.slot < MaxPicks
      ensures picks == if outcome.Accepted? then old(picks) + {candidate} else old(picks)
      ensures didRun == old(didRun)
    {
      if didRun {
        return AlreadyRun;
      }
      if |picks| >= MaxPicks {
        return SelectionFull;
      }
      if candidate in picks {
        return DuplicatePick;
      }
      outcome := Accepted(|picks|);
      picks := picks + {candidate};
    }

    /** The clear button: from any state, back to a fresh screen. */
    method Clear()
      modifies this
      ensures Valid()
      ensures !didRun && picks == {}
    {
      picks := {};
      didRun := false;
    }

    /** The run button: completes the picks to a ticket and marks the
        session as run. It has no guard; pressing it again draws again. */
    method Run(rolls: seq<nat>) returns (ticket: seq<int>)
      requires Valid()
      modifies this
      ensures Valid()
      ensures didRun
      ensures picks == old(picks)
      ensures IsTicket(picks, ticket)
    {
      ticket := GetRandomNumber(picks, rolls);
      didRun := true;
    }
  }

  /** Three picks, then a draw: the ticket keeps all three. */
  method PicksThenRun(rolls: seq<nat>) returns (outcomes: seq<PickOutcome>, ticket: seq<int>)
    ensures outcomes == [Accepted(0), Accepted(1), Accepted(2)]
    ensures |ticket| == TicketSize && StrictlyAscending(ticket)
    ensures 7 in ticket && 23 in ticket && 45 in ticket
  {
    var s := new LottoSession();
    var a := s.TryPick(7);
    var b := s.TryPick(23);
    var c := s.TryPick(45);
    outcomes := [a, b, c];
    ticket := s.Run(rolls);
  }

  /** Five picks fill the selection; a sixth is refused, and the draw adds
      exactly one number to the five. */
  method SixthPickRefused(rolls: seq<nat>) returns (sixth: PickOutcome, ticket: seq<int>)
    ensures sixth == SelectionFull
    ensures |ticket| == TicketSize && StrictlyAscending(ticket)
    ensures forall n :: 1 <= n <= 5 ==> n in ticket
  {
    var s := new LottoSession();
    var o := s.TryPick(1);
    o := s.TryPick(2);
    o := s.TryPick(3);
    o := s.TryPick(4);
    o := s.TryPick(5);
    assert s.picks == {1, 2, 3, 4, 5};
    sixth := s.TryPick(6);
    ticket := s.Run(rolls);
  }

  /** After a draw every pick is refused until the screen is cleared. */
  method PickAfterRunNeedsClear(rolls: seq<nat>, candidate: int) returns (before: PickOutcome, after: PickOutcome)
    requires MinNumber <= candidate <= MaxNumber
    ensures before == AlreadyRun
    ensures after == Accepted(0)
  {
    var s := new LottoSession();
    var ticket := s.Run(rolls);
    before := s.TryPick(candidate);
    s.Clear();
    after := s.TryPick(10);
  }

  /** Picking the same number twice is refused the second time. */
  method SamePickTwice() returns (first: PickOutcome, second: PickOutcome)
    ensures first == Accepted(0) && second == DuplicatePick
  {
    var s := new LottoSession();
    first := s.TryPick(9);
    second := s.TryPick(9);
  }
}
