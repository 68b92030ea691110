/** What is polled from outside, a clock or a stop token, as a function of the poll's number. */
module Signals {

  /** One of the first `polls` looks found the signal raised. */
  ghost predicate Struck(signal: nat -> bool, polls: nat) {
    exists n :: 0 <= n < polls && signal(n)
  }

  lemma {:induction false} OneMorePoll(signal: nat -> bool, polls: nat)
    ensures Struck(signal, polls + 1) <==> Struck(signal, polls) || signal(polls)
  {
  }

  /** What was struck stays struck. */
  lemma {:induction false} LaterPolls(signal: nat -> bool, polls: nat, more: nat)
    requires Struck(signal, polls) && polls <= more
    ensures Struck(signal, more)
  {
  }

  /** The stop token and the deadline of a campaign. */
  datatype Interrupts = Interrupts(stop: nat -> bool, late: nat -> bool)

  /** How often each was looked at. */
  datatype Polls = Polls(stops: nat, looks: nat)

  /** Neither was found raised so far. */
  ghost predicate Undisturbed(interrupts: Interrupts, polls: Polls) {
    !Struck(interrupts.stop, polls.stops) && !Struck(interrupts.late, polls.looks)
  }

  /** What a look at the token, and then at the clock unless the token was raised, finds. */
  method LookBoth(interrupts: Interrupts, polls: Polls) returns (cancelled: bool, late: bool, after: Polls)
    ensures cancelled == interrupts.stop(polls.stops) && after.stops == polls.stops + 1
    ensures late == (!cancelled && interrupts.late(polls.looks)) && after.looks == polls.looks + (if cancelled then 0 else 1)
    ensures Struck(interrupts.stop, after.stops) <==> Struck(interrupts.stop, polls.stops) || cancelled
    ensures Struck(interrupts.late, after.looks) <==> Struck(interrupts.late, polls.looks) || late
  {
    hide Struck;
    OneMorePoll(interrupts.stop, polls.stops);
    OneMorePoll(interrupts.late, polls.looks);
    cancelled, late, after := interrupts.stop(polls.stops), false, Polls(polls.stops + 1, polls.looks);
    if !cancelled { late, after := interrupts.late(polls.looks), Polls(polls.stops + 1, polls.looks + 1); }
  }
}
