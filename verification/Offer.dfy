/** Handing a reloaded schedule to the maintenance loop through a channel that holds one: the
    producer never waits, and a newer schedule replaces one not taken yet. */
module Offer {
  import opened Wrappers

  /** The channel, with what its consumer has received. */
  class Channel<S> {
    var slot: Option<S>
    ghost var received: seq<S>

    constructor ()
      ensures slot == None && received == []
    {
      slot, received := None, [];
    }

    // Everything handed over and not replaced, in order.
    ghost function Line(): seq<S>
      reads this
    {
      received + if slot.Some? then [slot.value] else []
    }

    // What the consumer may do at any moment.
    method Consumer(takes: bool)
      modifies this
      ensures Line() == old(Line()) && old(received) <= received
      ensures slot == if takes then None else old(slot)
    {
      if takes && slot.Some? {
        received := received + [slot.value];
        slot := None;
      }
    }

    /** Hands over s without waiting, whatever the consumer does in between: at most two rounds,
        and nothing but a schedule that was not taken yet is replaced. */
    method Offer(s: S, takes: nat -> bool) returns (rounds: nat)
      modifies this
      ensures rounds <= 2
      ensures Line() == old(Line()) + [s] || (old(slot).Some? && Line() == old(received) + [s])
      ensures old(received) <= received
    {
      rounds := 0;
      while true
        invariant rounds <= 1 && (rounds == 1 ==> slot == None)
        invariant Line() == old(Line()) || (old(slot).Some? && slot == None && Line() == old(received))
        invariant old(received) <= received
        decreases 2 - rounds
      {
        rounds := rounds + 1;
        if slot == None {
          slot := Some(s);
          Consumer(takes(3 * rounds));
          return;
        }
        Consumer(takes(3 * rounds + 1));
        ghost var line := Line();
        if slot.Some? {
          slot := None;
          assert line == Line() + [line[|line| - 1]];
        }
        Consumer(takes(3 * rounds + 2));
      }
    }
  }

  // ---------- one producer and its consumer, step by step ----------

  datatype Producer = Idle | Sending(round: nat) | Draining(round: nat)

  // Offers are named by their position; the newest one may still be on its way.
  datatype State = State(offers: int, producer: Producer, slot: Option<int>, received: seq<int>)

  datatype Step = Begin | Send | Drain | Take

  predicate Enabled(s: State, a: Step) {
    match a
    case Begin => s.producer.Idle?
    case Send => s.producer.Sending?
    case Drain => s.producer.Draining?
    case Take => s.slot.Some?
  }

  function Next(s: State, a: Step): State {
    if !Enabled(s, a) then s else
    match a
    case Begin => s.(offers := s.offers + 1, producer := Sending(1))
    case Send =>
      if s.slot.None? then s.(slot := Some(s.offers - 1), producer := Idle)
      else s.(producer := Draining(s.producer.round))
    case Drain => s.(slot := None, producer := Sending(s.producer.round + 1))
    case Take => s.(slot := None, received := s.received + [s.slot.value])
  }

  // What any interleaving of producer and consumer leads to; a step that is not enabled does not happen.
  function After(steps: seq<Step>): State {
    if steps == [] then State(0, Idle, None, []) else Next(After(steps[..|steps| - 1]), steps[|steps| - 1])
  }

  // The received offers come in the order they were made, and before the one in the channel.
  ghost predicate Ordered(s: State) {
    && (forall i, j :: 0 <= i < j < |s.received| ==> s.received[i] < s.received[j])
    && (forall i :: 0 <= i < |s.received| ==>
          s.received[i] < if s.slot.Some? then s.slot.value else HandedOver(s))
    && (s.slot.Some? ==> s.slot.value < HandedOver(s))
  }

  // The offer on its way is not handed over yet.
  function HandedOver(s: State): int { if s.producer.Idle? then s.offers else s.offers - 1 }

  predicate LastReceived(s: State, offer: int) { s.received != [] && s.received[|s.received| - 1] == offer }

  ghost predicate Inv(s: State) {
    && s.offers >= 0 && Ordered(s)
    && (s.producer.Sending? ==> 1 <= s.producer.round <= 2 && (s.producer.round == 2 ==> s.slot == None))
    && (s.producer.Draining? ==> s.producer.round == 1)
    // The newest offer, or the one before it while that is on its way.
    && (s.producer.Idle? && s.offers > 0 ==> s.slot == Some(s.offers - 1)
                                             || (s.slot == None && LastReceived(s, s.offers - 1)))
  }

  lemma StepKeeps(s: State, a: Step)
    requires Inv(s)
    ensures Inv(Next(s, a))
  {
  }

  /** Latest-wins and non-blocking, with any consumer or none: an offer is over within two
      rounds; the consumer receives a subsequence of the offers in the order they were made; and
      once an offer is over, the newest one is in the channel or was received last. */
  lemma {:induction false} HandOver(steps: seq<Step>)
    ensures Inv(After(steps))
    ensures var s := After(steps);
            && (forall i, j :: 0 <= i < j < |s.received| ==> s.received[i] < s.received[j] < s.offers)
            && (!s.producer.Idle? ==> s.producer.round <= 2)
            && (s.producer.Idle? && s.offers > 0 ==>
                  s.slot == Some(s.offers - 1) || (s.slot == None && LastReceived(s, s.offers - 1)))
  {
    if steps != [] {
      HandOver(steps[..|steps| - 1]);
      StepKeeps(After(steps[..|steps| - 1]), steps[|steps| - 1]);
    }
  }

  /** The producer is never stuck: whatever it is doing, its next step is enabled, and in its
      second round the send succeeds. */
  lemma NeverWaits(steps: seq<Step>)
    ensures var s := After(steps);
            && (!s.producer.Idle? ==> Enabled(s, if s.producer.Sending? then Send else Drain))
            && (s.producer == Sending(2) ==> Next(s, Send).producer == Idle)
  {
    HandOver(steps);
  }
}
