/** Waiting for the network to go quiet, in discrete time: steps of the loop take none, and what
    the loop reads is given as functions of time. */
module Settle {
  import opened Wrappers
  import opened Observation
  import opened Hops

  // The period of the poll, in milliseconds.
  const POLL := 250

  datatype Why = CapReached | WentQuiet | ContextEnded

  // The k-th poll of a wait that began at start.
  function PollAt(start: nat, k: nat): nat { start + POLL * k }

  // Nothing is active from calm on, and the idle signal is not raised after it.
  ghost predicate CalmFrom(active: nat -> int, signal: nat -> bool, calm: nat) {
    && (forall t :: calm <= t ==> active(t) == 0)
    && (forall t :: calm < t ==> !signal(t))
  }

  // A cap was reached by since, and caps are never lifted.
  ghost predicate CappedFrom(capped: nat -> bool, since: nat) { forall t :: since <= t ==> capped(t) }

  // From after began until before end the signal is not raised and no poll sees activity.
  ghost predicate QuietBetween(active: nat -> int, signal: nat -> bool, start: nat, began: nat, end: nat) {
    && (forall t :: began < t < end ==> !signal(t))
    && (forall k: nat :: began < PollAt(start, k) < end && k > 0 ==> active(PollAt(start, k)) <= 0)
  }

  // From after began to now the signal was raised only now, as the token says.
  ghost predicate NoSignal(signal: nat -> bool, began: nat, now: nat, token: bool) {
    forall t :: began < t <= now && signal(t) ==> t == now && token
  }

  // None of the polls so far saw activity after began.
  ghost predicate PollsIdle(active: nat -> int, start: nat, began: nat, polls: nat) {
    forall k: nat :: 0 < k < polls && began < PollAt(start, k) ==> active(PollAt(start, k)) <= 0
  }

  // The network had not calmed down before began, or before the wait.
  ghost predicate BusyUntil(active: nat -> int, signal: nat -> bool, start: nat, began: nat) {
    forall calm: nat :: CalmFrom(active, signal, calm) ==> began <= (if start <= calm then calm else start)
  }

  ghost predicate CapsWithin(capped: nat -> bool, start: nat, now: nat) {
    forall since: nat :: CappedFrom(capped, since) ==> now <= (if start <= since then since else start) + POLL
  }

  // This is between two polls, or at one.
  predicate BetweenPolls(start: nat, polls: nat, now: nat) {
    polls > 0 && PollAt(start, polls - 1) <= now <= PollAt(start, polls)
  }

  // A network that is active, or has just said that it went quiet, had not calmed down before.
  lemma WindowOpens(active: nat -> int, signal: nat -> bool, start: nat, now: nat, polls: nat, token: bool)
    requires (active(now) != 0 || signal(now) || now == start) && BetweenPolls(start, polls, now)
    ensures BusyUntil(active, signal, start, now) && NoSignal(signal, now, now, token)
    ensures PollsIdle(active, start, now, polls)
    ensures now == PollAt(start, polls) ==> PollsIdle(active, start, now, polls + 1)
  {
  }

  lemma PollSeesNothing(active: nat -> int, start: nat, began: nat, polls: nat, now: nat)
    requires PollsIdle(active, start, began, polls) && now == PollAt(start, polls) && active(now) <= 0
    ensures PollsIdle(active, start, began, polls + 1)
  {
  }

  lemma WindowWasQuiet(active: nat -> int, signal: nat -> bool, start: nat, began: nat, now: nat, polls: nat,
                       token: bool)
    requires NoSignal(signal, began, now, token) && PollsIdle(active, start, began, polls)
    requires BetweenPolls(start, polls, now)
    ensures QuietBetween(active, signal, start, began, now)
  {
  }

  lemma EndsSoonAfterCalm(active: nat -> int, signal: nat -> bool, start: nat, began: nat, end: nat, idleQuiet: nat)
    requires BusyUntil(active, signal, start, began) && end <= began + idleQuiet
    ensures forall calm: nat :: CalmFrom(active, signal, calm) ==>
              end <= (if start <= calm then calm else start) + idleQuiet
  {
  }

  // No cap was reached by now, so a poll later is soon enough.
  lemma CapComesLater(capped: nat -> bool, start: nat, now: nat, polls: nat, later: nat)
    requires !capped(now) && BetweenPolls(start, polls, now) && later <= PollAt(start, polls)
    ensures CapsWithin(capped, start, later)
  {
  }

  // Nothing to receive: time passes, until the deadline, a signal, the next poll or the end of the window.
  method PassTime(start: nat, deadline: nat, poll: nat, quietAt: nat, signal: nat -> bool, now: nat, token: bool,
                  ghost began: nat) returns (later: nat, raised: bool)
    requires start <= began <= now <= quietAt && now <= poll && now <= (if start <= deadline then deadline else start)
    requires (token ==> signal(now) || now == start) && NoSignal(signal, began, now, token)
    ensures now <= later <= quietAt && later <= poll && later <= (if start <= deadline then deadline else start)
    ensures (later == now ==> raised == token) && (raised ==> signal(later) || later == start)
    ensures NoSignal(signal, began, later, raised)
    ensures later >= deadline || raised || later == poll || later == quietAt
  {
    later, raised := now, token;
    while !(later >= deadline || raised || later == poll || later == quietAt)
      invariant now <= later <= quietAt && later <= poll && later <= (if start <= deadline then deadline else start)
      invariant (later == now ==> raised == token) && (raised ==> signal(later) || later == start)
      invariant NoSignal(signal, began, later, raised)
      decreases deadline - later
    {
      later := later + 1;
      raised := signal(later);
    }
  }

  /** The wait for a quiet network, which a cap and the deadline of its context cut short.

      It always ends by the deadline; it ends within one poll of a cap; it ends no later than
      idleQuiet after the network calmed down, whenever that was; and it calls the network quiet
      only when nothing is active and idleQuiet has passed in which neither a signal nor a poll
      said otherwise. */
  method Wait(start: nat, deadline: nat, idleQuiet: nat, active: nat -> int, capped: nat -> bool,
              signal: nat -> bool, stale: bool) returns (end: nat, why: Why, ghost began: nat)
    requires idleQuiet > 0
    ensures start <= end <= (if start <= deadline then deadline else start)
    ensures forall calm: nat :: CalmFrom(active, signal, calm) ==>
              end <= (if start <= calm then calm else start) + idleQuiet
    ensures why == CapReached ==> capped(end)
    ensures forall since: nat :: CappedFrom(capped, since) ==> end <= (if start <= since then since else start) + POLL
    ensures why == ContextEnded ==> end >= deadline
    ensures why == WentQuiet ==>
              active(end) == 0 && start <= began && began + idleQuiet <= end
              && QuietBetween(active, signal, start, began, end)
  {
    hide CalmFrom, CappedFrom, BusyUntil, NoSignal, PollsIdle, QuietBetween;
    var now, token := start, stale || signal(start);
    var quietAt := start + idleQuiet;
    var polls: nat := 1;
    began := start;
    WindowOpens(active, signal, start, start, 1, token);
    while true
      invariant start <= began <= now <= quietAt == began + idleQuiet
      invariant now <= (if start <= deadline then deadline else start)
      invariant BetweenPolls(start, polls, now) && CapsWithin(capped, start, now)
      invariant NoSignal(signal, began, now, token) && PollsIdle(active, start, began, polls)
      invariant BusyUntil(active, signal, start, began)
      invariant token ==> signal(now) || now == start
      decreases if now <= deadline then deadline - now else 0,
                Ready(token, now == PollAt(start, polls), now == quietAt)
    {
      EndsSoonAfterCalm(active, signal, start, began, now, idleQuiet);
      if capped(now) {
        return now, CapReached, began;
      }
      ghost var before := now;
      if active(now) == 0 && now == quietAt {
        WindowWasQuiet(active, signal, start, began, now, polls, token);
        return now, WentQuiet, began;
      }
      now, token := PassTime(start, deadline, PollAt(start, polls), quietAt, signal, now, token, began);
      CapComesLater(capped, start, before, polls, now);
      EndsSoonAfterCalm(active, signal, start, began, now, idleQuiet);
      if token || active(now) != 0 {
        WindowOpens(active, signal, start, now, polls, token);
        WindowOpens(active, signal, start, now, polls, false);
      }
      if {
        case now >= deadline =>
          return now, ContextEnded, began;
        case token =>
          // The network just went quiet; the window begins again.
          token, began, quietAt := false, now, now + idleQuiet;
        case now == PollAt(start, polls) =>
          if active(now) > 0 {
            began, quietAt := now, now + idleQuiet;
          } else {
            PollSeesNothing(active, start, began, polls, now);
          }
          polls := polls + 1;
        case now == quietAt =>
          if active(now) == 0 {
            WindowWasQuiet(active, signal, start, began, now, polls, token);
            return now, WentQuiet, began;
          }
          began, quietAt := now, now + idleQuiet;
      }
    }
  }

  function Ready(token: bool, poll: bool, quiet: bool): nat { One(token) + One(poll) + One(quiet) }

  // The recorder's state at each time: no event after last, and every request seen by then.
  ghost predicate NothingAfter(history: nat -> State, signal: nat -> bool, last: nat) {
    && (forall t :: last <= t ==> history(t) == history(last))
    && (forall t :: last < t ==> !signal(t))
    && (forall i :: 0 <= i < |history(last).records| ==> history(last).records[i].observedAt <= last)
  }

  // What the recorder reports as active at each time.
  function ActiveAt(history: nat -> State, stallAfter: int): nat -> int {
    (t: nat) => Active(history(t), t, stallAfter)
  }

  // When the recorder says that a cap was reached.
  function CappedAt(history: nat -> State): nat -> bool { (t: nat) => history(t).exceeded != NoCap }

  /** Once every request is stallAfter old nothing is active, finished or not, beacon or not. */
  lemma CalmAfterStall(history: nat -> State, signal: nat -> bool, stallAfter: nat, last: nat)
    requires NothingAfter(history, signal, last) && stallAfter > 0
    ensures CalmFrom(ActiveAt(history, stallAfter), signal, last + stallAfter)
  {
    forall t | last + stallAfter <= t ensures ActiveAt(history, stallAfter)(t) == 0 {
      assert history(t) == history(last);
      StalledDoNotWait(history(last).records, t, stallAfter);
    }
  }

  /** The wait over a recorder: if no event arrives after last, it returns no later than
      max(start, last + stallAfter) + idleQuiet, so no beacon and no request that never
      completes can hold it open. */
  method Settle(start: nat, deadline: nat, idleQuiet: nat, stallAfter: nat, history: nat -> State,
                signal: nat -> bool, stale: bool) returns (end: nat, why: Why)
    requires idleQuiet > 0 && stallAfter > 0
    ensures start <= end <= (if start <= deadline then deadline else start)
    ensures forall last: nat :: NothingAfter(history, signal, last) ==>
              end <= (if start <= last + stallAfter then last + stallAfter else start) + idleQuiet
    ensures why == CapReached ==> history(end).exceeded != NoCap
    ensures forall since: nat :: CappedFrom(CappedAt(history), since) ==>
              end <= (if start <= since then since else start) + POLL
    ensures why == ContextEnded ==> end >= deadline
    ensures why == WentQuiet ==> Active(history(end), end, stallAfter) == 0
    ensures why == WentQuiet ==> exists began: nat ::
              start <= began && began + idleQuiet <= end
              && QuietBetween(ActiveAt(history, stallAfter), signal, start, began, end)
  {
    ghost var began;
    end, why, began := Wait(start, deadline, idleQuiet, ActiveAt(history, stallAfter),
                            CappedAt(history), signal, stale);
    forall last: nat | NothingAfter(history, signal, last)
      ensures end <= (if start <= last + stallAfter then last + stallAfter else start) + idleQuiet
    {
      CalmAfterStall(history, signal, stallAfter, last);
    }
  }
}
