/** Which participant of a two-party call a turn is attributed to, and the
    placeholder gender every turn carries (main.py:26-33). */
module Sides {

  /** The two sides of the call. The report uses `Label` as the key. */
  datatype Side = Receiver | Transmitter {

    function Label(): string {
      match this
      case Receiver => "receiver"
      case Transmitter => "transmitter"
    }

    /** The other participant. */
    function Other(): Side {
      match this
      case Receiver => Transmitter
      case Transmitter => Receiver
    }
  }

  /** The gender reported for a turn. The source draws it at random, so the
      model treats it as an arbitrary value supplied from outside. */
  datatype Gender = Male | Female {

    function Label(): string {
      match this
      case Male => "male"
      case Female => "female"
    }
  }

  /** The side of the turn with the given index: even turns belong to the
      receiver, odd turns to the transmitter. */
  function AssignSide(index: nat): Side {
    if index % 2 == 0 then Receiver else Transmitter
  }

  /** Independent reference: strict turn-taking that starts with the
      receiver and hands the floor over at every turn. */
  function TurnTaking(index: nat): Side {
    if index == 0 then Receiver else TurnTaking(index - 1).Other()
  }

  /** The even/odd rule is exactly strict turn-taking from the receiver. */
  lemma {:induction false} AssignSideIsTurnTaking(index: nat)
    ensures AssignSide(index) == TurnTaking(index)
  {
    if index > 0 {
      AssignSideIsTurnTaking(index - 1);
    }
  }

  /** The first turn is the receiver's, consecutive turns alternate, and the
      side is the receiver exactly for even indices. */
  lemma AssignSideAlternates(index: nat)
    ensures AssignSide(0) == Receiver
    ensures AssignSide(index + 1) == AssignSide(index).Other()
    ensures AssignSide(index + 1) != AssignSide(index)
    ensures AssignSide(index) == Receiver <==> index % 2 == 0
    ensures AssignSide(index) == Transmitter <==> index % 2 == 1
  {
  }

  /** The labels written into the report tell the two sides apart. */
  lemma SideLabelsDistinct(a: Side, b: Side)
    ensures a.Label() == b.Label() <==> a == b
  {
  }
}
