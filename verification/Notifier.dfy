// backend/app/service.go: the channel every waiting long poll sleeps on.
module Notifier {
  class Channel {
    var closed: bool

    constructor ()
      ensures !closed
    {
      closed := false;
    }

    /** Closing a channel twice would panic. */
    method Close()
      requires !closed
      modifies this
      ensures closed
    {
      closed := true;
    }
  }

  class Notifier {
    var ch: Channel

    ghost predicate Valid()
      reads this, ch
    {
      !ch.closed
    }

    constructor ()
      ensures Valid() && fresh(ch)
    {
      ch := new Channel();
    }

    method Wait() returns (wake: Channel)
      ensures wake == ch
    {
      return ch;
    }

    /** Whoever holds the old channel is released, whoever comes next gets one that is open. */
    method Broadcast()
      requires Valid()
      modifies this, ch
      ensures Valid() && fresh(ch) && old(ch).closed
    {
      ch.Close();
      ch := new Channel();
    }
  }

  // ---- pollers and broadcasters, interleaved ---------------------------------------

  /** What a poll does first: the loop takes the channel, then asks the store. */
  datatype Order = ChannelFirst | QueryFirst

  /** seen is how many insertions the poll's last query could find. */
  datatype Poller = Idle | Holding(channel: nat) | Queried(seen: nat) | Asleep(channel: nat, seen: nat)

  /**
   * Channels are numbered; those below generation are closed. Insertions are
   * numbered as they commit, and announced holds those whose broadcast is done.
   */
  datatype State = State(generation: nat, inserted: nat, announced: set<nat>, pollers: map<nat, Poller>)

  datatype Step =
    | Insert
    | Announce(insertion: nat)
    | Begin(poller: nat)
    | TakeChannel(poller: nat)
    | Query(poller: nat)
    | Wake(poller: nat)
    | Leave(poller: nat)

  predicate Enabled(s: State, step: Step, order: Order) {
    match step
    case Insert => true
    case Announce(k) => k < s.inserted
    case Begin(p) => p !in s.pollers
    case TakeChannel(p) => p in s.pollers && if order.ChannelFirst? then s.pollers[p].Idle? else s.pollers[p].Queried?
    case Query(p) => p in s.pollers && if order.ChannelFirst? then s.pollers[p].Holding? else s.pollers[p].Idle?
    case Wake(p) => p in s.pollers && s.pollers[p].Asleep? && s.pollers[p].channel < s.generation
    case Leave(p) => p in s.pollers
  }

  function Next(s: State, step: Step, order: Order): State
    requires Enabled(s, step, order)
  {
    match step
    case Insert => s.(inserted := s.inserted + 1)
    case Announce(k) => s.(announced := s.announced + {k}, generation := s.generation + 1)
    case Begin(p) => s.(pollers := s.pollers[p := Idle])
    case TakeChannel(p) =>
      s.(pollers := s.pollers[p := if order.ChannelFirst? then Holding(s.generation)
                                   else Asleep(s.generation, s.pollers[p].seen)])
    case Query(p) =>
      s.(pollers := s.pollers[p := if order.ChannelFirst? then Asleep(s.pollers[p].channel, s.inserted)
                                   else Queried(s.inserted)])
    case Wake(p) => s.(pollers := s.pollers[p := Idle])
    case Leave(p) => s.(pollers := s.pollers - {p})
  }

  predicate AllEnabled(s: State, steps: seq<Step>, order: Order)
    decreases |steps|
  {
    steps != [] ==> Enabled(s, steps[0], order) && AllEnabled(Next(s, steps[0], order), steps[1..], order)
  }

  function Run(s: State, steps: seq<Step>, order: Order): State
    requires AllEnabled(s, steps, order)
    decreases |steps|
  {
    if steps == [] then s else Run(Next(s, steps[0], order), steps[1..], order)
  }

  const Quiet := State(0, 0, {}, map[])

  /** Asleep on an open channel, having asked before an insertion that was already announced. */
  predicate Misses(s: State, p: Poller) {
    p.Asleep? && p.channel == s.generation && exists k | k in s.announced :: k >= p.seen
  }

  predicate NoneMisses(s: State) { forall p | p in s.pollers :: !Misses(s, s.pollers[p]) }

  predicate Sound(s: State) {
    && (forall k | k in s.announced :: k < s.inserted)
    && (forall p | p in s.pollers && (s.pollers[p].Holding? || s.pollers[p].Asleep?) :: s.pollers[p].channel <= s.generation)
    && NoneMisses(s)
  }

  lemma StepIsSound(s: State, step: Step)
    requires Sound(s) && Enabled(s, step, ChannelFirst)
    ensures Sound(Next(s, step, ChannelFirst))
  {
    var next := Next(s, step, ChannelFirst);
    forall p | p in next.pollers ensures !Misses(next, next.pollers[p]) {
      if p in s.pollers { assert !Misses(s, s.pollers[p]); }
    }
  }

  lemma {:induction false} RunIsSound(s: State, steps: seq<Step>)
    requires Sound(s) && AllEnabled(s, steps, ChannelFirst)
    ensures Sound(Run(s, steps, ChannelFirst))
    decreases |steps|
  {
    if steps != [] {
      StepIsSound(s, steps[0]);
      RunIsSound(Next(s, steps[0], ChannelFirst), steps[1..]);
    }
  }

  lemma RunFirst(s: State, step: Step, rest: seq<Step>, order: Order)
    requires Enabled(s, step, order) && AllEnabled(Next(s, step, order), rest, order)
    ensures AllEnabled(s, [step] + rest, order)
    ensures Run(s, [step] + rest, order) == Run(Next(s, step, order), rest, order)
  {
    assert ([step] + rest)[1..] == rest;
  }

  /** An insertion announced between the query and taking the channel is slept through. */
  lemma QueryFirstMisses()
    ensures var steps := [Begin(0)] + ([Query(0)] + ([Insert] + ([Announce(0)] + ([TakeChannel(0)] + []))));
      AllEnabled(Quiet, steps, QueryFirst) && !NoneMisses(Run(Quiet, steps, QueryFirst))
  {
    var s1 := Next(Quiet, Begin(0), QueryFirst);
    var s2 := Next(s1, Query(0), QueryFirst);
    var s3 := Next(s2, Insert, QueryFirst);
    var s4 := Next(s3, Announce(0), QueryFirst);
    var s5 := Next(s4, TakeChannel(0), QueryFirst);
    assert 0 in s5.announced && s5.pollers[0] == Asleep(1, 0) && Misses(s5, s5.pollers[0]);
    var last := [TakeChannel(0)] + [];
    RunFirst(s4, TakeChannel(0), [], QueryFirst);
    RunFirst(s3, Announce(0), last, QueryFirst);
    RunFirst(s2, Insert, [Announce(0)] + last, QueryFirst);
    RunFirst(s1, Query(0), [Insert] + ([Announce(0)] + last), QueryFirst);
    RunFirst(Quiet, Begin(0), [Query(0)] + ([Insert] + ([Announce(0)] + last)), QueryFirst);
  }

  /** No wakeup is lost, in any interleaving, exactly because the channel is taken before the query. */
  lemma NoLostWakeupIffChannelFirst(order: Order)
    ensures (forall steps | AllEnabled(Quiet, steps, order) :: NoneMisses(Run(Quiet, steps, order))) <==> order.ChannelFirst?
  {
    if order.ChannelFirst? {
      forall steps | AllEnabled(Quiet, steps, order) ensures NoneMisses(Run(Quiet, steps, order)) {
        RunIsSound(Quiet, steps);
      }
    } else {
      QueryFirstMisses();
    }
  }
}
