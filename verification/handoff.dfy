/** The contents of a worker's two message stores, and what happens to them from one
    superstep to the next. */
module Handoff {

  /** `current` holds the messages consumed by this superstep's computation,
      `incoming` the messages that arrive for the next superstep. */
  datatype Buffer<M> = Buffer(current: seq<M>, incoming: seq<M>)

  /** Right after construction: two fresh, empty stores. */
  function Initial<M>(): Buffer<M>
  {
    Buffer([], [])
  }

  /** Messages sent by peers during a superstep land in the incoming store. */
  function Deliver<M>(b: Buffer<M>, msgs: seq<M>): Buffer<M>
  {
    Buffer(b.current, b.incoming + msgs)
  }

  /** The superstep boundary: current is cleared and dropped, incoming is promoted,
      and a fresh empty store becomes incoming. */
  function Advance<M>(b: Buffer<M>): Buffer<M>
  {
    Buffer(b.incoming, [])
  }

  /** One superstep of deliveries followed by its boundary. */
  function Superstep<M>(b: Buffer<M>, msgs: seq<M>): Buffer<M>
  {
    Advance(Deliver(b, msgs))
  }

  /** The state after one superstep per element of `rounds`, each delivering that element. */
  function After<M>(b: Buffer<M>, rounds: seq<seq<M>>): Buffer<M>
    decreases |rounds|
  {
    if rounds == [] then b else After(Superstep(b, rounds[0]), rounds[1..])
  }

  /** What the current store holds right after each boundary, one entry per round. */
  function Observed<M>(b: Buffer<M>, rounds: seq<seq<M>>): (seen: seq<seq<M>>)
    ensures |seen| == |rounds|
    decreases |rounds|
  {
    if rounds == [] then []
    else
      var next := Superstep(b, rounds[0]);
      [next.current] + Observed(next, rounds[1..])
  }

  /** All messages of a run of rounds, in order. */
  function Flatten<M>(rounds: seq<seq<M>>): seq<M>
    decreases |rounds|
  {
    if rounds == [] then [] else rounds[0] + Flatten(rounds[1..])
  }

  /** The messages put into incoming during round r are exactly what current holds during
      round r + 1, and only then: the next boundary replaces them with round r + 1's.
      Only the first round also sees what was already incoming when the run began. */
  lemma {:induction false} ObservedRounds<M>(b: Buffer<M>, rounds: seq<seq<M>>)
    requires |rounds| > 0
    ensures Observed(b, rounds)[0] == b.incoming + rounds[0]
    ensures Observed(b, rounds)[1..] == rounds[1..]
    decreases |rounds|
  {
    var next := Superstep(b, rounds[0]);
    assert next.incoming == [];
    if |rounds| > 1 {
      ObservedRounds(next, rounds[1..]);
      assert Observed(next, rounds[1..])[0] == rounds[1];
      assert Observed(next, rounds[1..])[1..] == rounds[2..];
    }
  }

  /** From a freshly built buffer, the current store during round r + 1 is precisely the
      delivery of round r, for every r. */
  lemma ObservedFromInitial<M>(rounds: seq<seq<M>>)
    ensures Observed(Initial(), rounds) == rounds
  {
    if |rounds| > 0 {
      ObservedRounds(Initial(), rounds);
      var seen := Observed(Initial<M>(), rounds);
      assert seen[0] == [] + rounds[0] == rounds[0];
      assert seen == [seen[0]] + seen[1..];
      assert rounds == [rounds[0]] + rounds[1..];
    }
  }

  /** Across any number of boundaries no message is lost or duplicated: what current
      shows, round after round, is what was pending plus everything delivered. */
  lemma {:induction false} ObservedKeepsEveryMessage<M>(b: Buffer<M>, rounds: seq<seq<M>>)
    requires |rounds| > 0
    ensures Flatten(Observed(b, rounds)) == b.incoming + Flatten(rounds)
    decreases |rounds|
  {
    var next := Superstep(b, rounds[0]);
    if |rounds| == 1 {
      assert Observed(next, rounds[1..]) == [];
    } else {
      ObservedKeepsEveryMessage(next, rounds[1..]);
      assert next.incoming == [];
    }
  }

  /** After at least one boundary incoming is empty and current holds the last round's
      contents. */
  lemma {:induction false} AfterRounds<M>(b: Buffer<M>, rounds: seq<seq<M>>)
    requires |rounds| > 0
    ensures After(b, rounds).incoming == []
    ensures After(b, rounds).current == Observed(b, rounds)[|rounds| - 1]
    decreases |rounds|
  {
    var next := Superstep(b, rounds[0]);
    if |rounds| > 1 {
      AfterRounds(next, rounds[1..]);
    }
  }
}
