/** Episodes: a controller calling the game's tick repeatedly, one action and one
    set of random draws per tick, and what holds over any number of ticks. */
module Episodes {
  import opened Tubes
  import opened Env

  /** One set of valid draws per action. */
  predicate ValidRun(actions: seq<int>, draws: seq<Draws>) {
    |draws| == |actions| && forall i :: 0 <= i < |draws| ==> ValidDraws(draws[i])
  }

  /** The state after ticking through `actions` in order. Like the source, it
      keeps ticking after a terminating tick. */
  function Run(s: GameState, actions: seq<int>, draws: seq<Draws>): GameState
    requires ValidRun(actions, draws)
    decreases |actions|
  {
    if actions == [] then s
    else Run(StepSpec(s, actions[0], draws[0]).next, actions[1..], draws[1..])
  }

  /** Any number of ticks keep the queue reachable, and after at least one tick
      it holds exactly two well-formed tubes in increasing order of x. */
  lemma {:induction false} RunKeepsQueue(s: GameState, actions: seq<int>, draws: seq<Draws>)
    requires ValidRun(actions, draws) && Reachable(s.tubes)
    ensures Reachable(Run(s, actions, draws).tubes)
    ensures |actions| > 0 ==> QueueInvariant(Run(s, actions, draws).tubes)
    decreases |actions|
  {
    if actions != [] {
      StepKeepsQueue(s, actions[0], draws[0]);
      RunKeepsQueue(StepSpec(s, actions[0], draws[0]).next, actions[1..], draws[1..]);
    }
  }

  /** After a reset and at least one tick, the queue holds two well-formed tubes, the nearer first. */
  lemma EpisodeQueue(actions: seq<int>, draws: seq<Draws>)
    requires ValidRun(actions, draws) && |actions| > 0
    ensures var ts := Run(ResetState(), actions, draws).tubes;
      |ts| == 2 && ts[0].x < ts[1].x && WellFormed(ts[0]) && WellFormed(ts[1])
  {
    RunKeepsQueue(ResetState(), actions, draws);
  }

  /** The score never decreases, and grows by at most one per tick. */
  lemma {:induction false} RunScoreBounds(s: GameState, actions: seq<int>, draws: seq<Draws>)
    requires ValidRun(actions, draws)
    ensures s.score <= Run(s, actions, draws).score <= s.score + |actions|
    decreases |actions|
  {
    if actions != [] {
      RunScoreBounds(StepSpec(s, actions[0], draws[0]).next, actions[1..], draws[1..]);
    }
  }

  /** A lead tube to the right of the bird, on a multiple of the speed, reaches
      the bird's column after exactly (x - 50) / 5 ticks without being replaced,
      and the score has then grown by exactly one: each tube is counted once. */
  lemma {:induction false} LeadTubeReachesBird(s: GameState, actions: seq<int>, draws: seq<Draws>)
    requires ValidRun(actions, draws) && QueueInvariant(s.tubes)
    requires s.tubes[0].x == BirdX + TubeSpeed * |actions|
    ensures QueueInvariant(Run(s, actions, draws).tubes)
    ensures var r := Run(s, actions, draws);
      && r.tubes[0] == s.tubes[0].(x := BirdX)
      && r.score == s.score + (if |actions| > 0 then 1 else 0)
    decreases |actions|
  {
    if actions != [] {
      var next := StepSpec(s, actions[0], draws[0]).next;
      assert next.tubes[0] == Moved(s.tubes[0]);
      StepKeepsQueue(s, actions[0], draws[0]);
      LeadTubeReachesBird(next, actions[1..], draws[1..]);
    }
  }
}
