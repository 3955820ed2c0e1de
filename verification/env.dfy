/** The turn-based game: the bird, the score and the queue of tubes, advanced
    one tick at a time by `Step`. Each phase of a tick is specified by a
    function on values, and `StepSpec` composes them into one tick; the class
    `FlappyBirdGame` updates its fields in place and is proved against them. */
module Env {
  import opened Tubes

  /** Top edge of the bird after a reset: vertically centred on the screen. */
  const InitialBirdY := ScreenHeight / 2 - BirdHeight / 2

  /** Column of a newly generated lead tube (the right screen edge less one tube width). */
  const SpawnX := ScreenWidth - TubeWidth

  /** The random top heights a tick may consume: two when the queue is first
      filled, one when the lead tube is replaced. Draws a tick does not need are ignored. */
  datatype Draws = Draws(first: int, second: int, replacement: int)

  predicate ValidDraws(d: Draws) {
    ValidDraw(d.first) && ValidDraw(d.second) && ValidDraw(d.replacement)
  }

  /** The fields of the game that a tick reads and writes. */
  datatype GameState = GameState(birdY: int, score: nat, tubes: seq<Tube>)

  /** What one tick produces: the new state and the triple handed to the controller. */
  datatype Outcome = Outcome(next: GameState, obs: seq<int>, reward: int, done: bool)

  /** The state right after a reset. */
  function ResetState(): (s: GameState)
    ensures s.birdY == 380 && s.score == 0 && s.tubes == []
  {
    GameState(InitialBirdY, 0, [])
  }

  /** The fixed observation a reset returns: the bird's height and placeholder tube values. */
  function ResetObservation(): (obs: seq<int>)
    ensures obs == [380, 0, 100, 525, 0, 100, 525]
  {
    [InitialBirdY, 0, 100, 350 + TubeEmptySpace, 0, 100, 350 + TubeEmptySpace]
  }

  /** The bird's top edge after the action: a jump lifts it by 25 times the fall of one tick. */
  function Jump(birdY: int, action: int): (y: int)
    ensures action == 1 ==> y == birdY - 75
    ensures action != 1 ==> y == birdY + 3
  {
    if action == 1 then birdY - BirdGravitySpeed * 25 else birdY + BirdGravitySpeed
  }

  /** The two tubes generated when the queue is first filled: one at the spawn
      column and one a tube distance behind it. */
  function FirstPair(r0: int, r1: int): (p: seq<Tube>)
    requires ValidDraw(r0) && ValidDraw(r1)
    ensures |p| == 2 && p[0].x == 540 && p[1].x == 840
    ensures WellFormed(p[0]) && WellFormed(p[1]) && p[0].topY == r0 && p[1].topY == r1
  {
    [NewTube(SpawnX, r0), NewTube(SpawnX + TubesDistance, r1)]
  }

  /** The invariant of the tube queue once a tick has run: two well-formed tubes,
      the lead one on a multiple of the speed and not yet fully off-screen, the
      trailing one 300 or 305 pixels behind it. */
  predicate QueueInvariant(ts: seq<Tube>) {
    && |ts| == 2
    && WellFormed(ts[0]) && WellFormed(ts[1])
    && ts[0].x % TubeSpeed == 0
    && ts[0].x + TubeWidth >= 0
    && (ts[1].x - ts[0].x == TubesDistance || ts[1].x - ts[0].x == TubesDistance + TubeSpeed)
  }

  /** The queue as a reset leaves it, or as a tick leaves it. */
  predicate Reachable(ts: seq<Tube>) {
    ts == [] || QueueInvariant(ts)
  }

  /** The queue after the fill phase of a tick: a queue with fewer than two tubes
      gets the first pair appended, any other queue is left alone. */
  function WithRandomTubes(ts: seq<Tube>, r0: int, r1: int): (u: seq<Tube>)
    requires ValidDraw(r0) && ValidDraw(r1)
    ensures |ts| >= 2 ==> u == ts
    ensures |ts| < 2 ==> |u| == |ts| + 2 && u[..|ts|] == ts && u[|ts|..] == FirstPair(r0, r1)
    ensures ts == [] ==> QueueInvariant(u)
  {
    if |ts| < 2 then ts + FirstPair(r0, r1) else ts
  }

  /** The lead tube of a two-tube queue has scrolled fully off the left edge. */
  predicate Evicts(ts: seq<Tube>) {
    |ts| == 2 && ts[0].x + TubeWidth < 0
  }

  /** The queue after the replacement phase of a tick: an evicted lead tube is
      dropped and a new tube appended at the spawn column; otherwise nothing changes. */
  function WithNewTube(ts: seq<Tube>, r: int): (u: seq<Tube>)
    requires ValidDraw(r)
    ensures |u| == |ts|
    ensures Evicts(ts) ==> u[0] == ts[1] && u[1].x == 540 && u[1].topY == r && WellFormed(u[1])
    ensures !Evicts(ts) ==> u == ts
  {
    if Evicts(ts) then ts[1..] + [NewTube(SpawnX, r)] else ts
  }

  /** The 7-value observation of the bird and the first two tubes. */
  function Observe(birdY: int, ts: seq<Tube>): (obs: seq<int>)
    requires |ts| >= 2
    ensures |obs| == 7
  {
    [birdY, ts[0].x, ts[0].topY, ts[0].bottomY, ts[1].x, ts[1].topY, ts[1].bottomY]
  }

  /** The reward of a tick before the collision check: 5 for a jump, 20 for a
      passage, 20 for being in the opening. */
  function Bonus(action: int, passed: bool, inGap: bool): (r: int)
    ensures r in {0, 5, 20, 25, 40, 45}
    ensures r >= 20 <==> passed || inGap
    ensures r % 10 == 5 <==> action == 1
  {
    (if action == 1 then 5 else 0) + (if passed then 20 else 0) + (if inGap then 20 else 0)
  }

  /** One tick of the game, phase by phase: move the bird, fill the queue, scroll,
      replace the lead tube, score a passage, then check collisions. */
  function StepSpec(s: GameState, action: int, d: Draws): (o: Outcome)
    requires ValidDraws(d)
    ensures |o.next.tubes| == if |s.tubes| < 2 then |s.tubes| + 2 else |s.tubes|
  {
    var y := Jump(s.birdY, action);
    var ts := WithNewTube(Shifted(WithRandomTubes(s.tubes, d.first, d.second)), d.replacement);
    var passed := PassedTube(ts[0]);
    var done := GroundCollision(y) || TubeCollision(y, ts[0]);
    var reward := if done then -100 else Bonus(action, passed, InGap(y, ts[0]));
    Outcome(GameState(y, if passed then s.score + 1 else s.score, ts), Observe(y, ts), reward, done)
  }

  /** From any reachable queue, a tick leaves the queue invariant in force:
      in particular exactly two tubes, ordered by x. */
  lemma StepKeepsQueue(s: GameState, action: int, d: Draws)
    requires ValidDraws(d) && Reachable(s.tubes)
    ensures QueueInvariant(StepSpec(s, action, d).next.tubes)
  {
    var filled := WithRandomTubes(s.tubes, d.first, d.second);
    assert QueueInvariant(filled);
    var moved := Shifted(filled);
    if Evicts(moved) {
      assert moved[0].x == -TubeWidth - TubeSpeed;
      var u := WithNewTube(moved, d.replacement);
      assert u[0] == moved[1] && u[0].x % TubeSpeed == 0;
    }
  }

  /** Ordering and size of the queue follow from its invariant. */
  lemma QueueOrdered(ts: seq<Tube>)
    requires QueueInvariant(ts)
    ensures |ts| == 2 && ts[0].x < ts[1].x
  {
  }

  /** The bird moves by the action alone, and the score grows by one exactly when
      the lead tube, after scrolling and replacement, sits at the bird's column. */
  lemma StepScore(s: GameState, action: int, d: Draws)
    requires ValidDraws(d)
    ensures var o := StepSpec(s, action, d);
      && o.next.birdY == Jump(s.birdY, action)
      && o.next.score == s.score + (if o.next.tubes[0].x == 50 then 1 else 0)
      && o.next.score >= s.score
  {
  }

  /** A tick ends the episode exactly when the bird hits the ground, leaves the
      top of the screen, or reaches the lead tube while overlapping one of its parts. */
  lemma StepDone(s: GameState, action: int, d: Draws)
    requires ValidDraws(d)
    ensures var o := StepSpec(s, action, d); var y := o.next.birdY; var t := o.next.tubes[0];
      o.done <==> (|| y + 40 >= 700
                   || y + 40 <= 0
                   || (90 >= t.x && (y <= t.topY || y + 40 >= 700 - t.bottomY)))
  {
  }

  /** On a terminating tick the reward is exactly -100 whatever bonuses applied;
      otherwise it is the sum of the jump, passage and in-gap bonuses, and a
      surviving passage always earns the in-gap bonus as well. */
  lemma StepReward(s: GameState, action: int, d: Draws)
    requires ValidDraws(d)
    ensures var o := StepSpec(s, action, d); var y := o.next.birdY; var t := o.next.tubes[0];
      && (o.done ==> o.reward == -100)
      && (!o.done ==> o.reward == (if action == 1 then 5 else 0)
                                   + (if t.x == 50 then 20 else 0)
                                   + (if y >= t.topY && y + 40 <= 700 - t.bottomY then 20 else 0))
      && (!o.done ==> o.reward in {0, 5, 20, 25, 40, 45})
      && (!o.done && t.x == 50 ==> o.reward in {40, 45})
  {
  }

  /** The observation is read off the state after the update. */
  lemma StepObservation(s: GameState, action: int, d: Draws)
    requires ValidDraws(d)
    ensures var o := StepSpec(s, action, d); var y := o.next.birdY; var ts := o.next.tubes;
      o.obs == [y, ts[0].x, ts[0].topY, ts[0].bottomY, ts[1].x, ts[1].topY, ts[1].bottomY]
  {
  }

  /** The observations a reachable queue yields hold top heights in [100, 350],
      bottom heights in [175, 425], and tube columns in increasing order. */
  lemma ObservationBounds(birdY: int, ts: seq<Tube>)
    requires QueueInvariant(ts)
    ensures var obs := Observe(birdY, ts);
      && 100 <= obs[2] <= 350 && 100 <= obs[5] <= 350
      && 175 <= obs[3] <= 425 && 175 <= obs[6] <= 425
      && -60 <= obs[1] < obs[4]
  {
  }

  /** The first tick after a reset fills the queue with the draws at 540 and 840,
      scrolls them once, scores nothing and never ends the episode. */
  lemma FirstStepFromReset(action: int, d: Draws)
    requires ValidDraws(d)
    ensures var o := StepSpec(ResetState(), action, d);
      && o.next.tubes == [Tube(535, d.first, 525 - d.first), Tube(835, d.second, 525 - d.second)]
      && o.next.score == 0
      && !o.done
      && (action == 1 ==> o.next.birdY == 305 && o.reward >= 5)
      && (action != 1 ==> o.next.birdY == 383)
  {
  }

  /** With the lead tube of an invariant queue at -10, a jump that leaves the bird
      at or above the tube's top part scrolls the tube to -15, wholly left of the
      bird, and still ends the episode with -100; a fall that keeps the bird
      strictly inside the opening does not end it. */
  lemma TubeBehindBirdEndsEpisode(s: GameState, d: Draws)
    requires ValidDraws(d) && QueueInvariant(s.tubes) && s.tubes[0].x == -10
    ensures var o := StepSpec(s, 1, d);
      -40 < s.birdY - 75 <= s.tubes[0].topY ==>
        o.next.tubes[0].x == -15 && o.done && o.reward == -100
    ensures var t := s.tubes[0];
      t.topY < s.birdY + 3 && s.birdY + 3 + BirdHeight < GroundY - t.bottomY ==>
        !StepSpec(s, 0, d).done
  {
  }

  /** A tick that scores a passage is never followed by another scoring tick:
      the lead tube moves on to 45 and is not replaced yet. */
  lemma PassageScoredOnce(s: GameState, a1: int, d1: Draws, a2: int, d2: Draws)
    requires ValidDraws(d1) && ValidDraws(d2) && Reachable(s.tubes)
    requires StepSpec(s, a1, d1).next.score == s.score + 1
    ensures var s1 := StepSpec(s, a1, d1).next;
      StepSpec(s1, a2, d2).next.score == s1.score
  {
  }

  /** The game object. The fields exist from the first reset on; `started`
      records that a reset has run. `state` holds the last observation returned. */
  class FlappyBirdGame {
    var birdY: int
    var score: nat
    var tubes: seq<Tube>
    var state: seq<int>
    ghost var started: bool

    ghost predicate Valid()
      reads this
    {
      started ==>
        && Reachable(tubes)
        && |state| == 7
        && (tubes != [] ==> state == Observe(birdY, tubes))
    }

    function Snapshot(): GameState
      reads this
    {
      GameState(birdY, score, tubes)
    }

    constructor ()
      ensures Valid() && !started
    {
      started := false;
    }

    /** Start a new episode: bird centred, score zero, no tubes yet. */
    method Reset() returns (obs: seq<int>)
      modifies this
      ensures Valid() && started
      ensures Snapshot() == ResetState()
      ensures birdY == 380 && score == 0 && tubes == []
      ensures obs == state == ResetObservation()
    {
      birdY := InitialBirdY;
      score := 0;
      tubes := [];
      state := [InitialBirdY, 0, 100, 350 + TubeEmptySpace, 0, 100, 350 + TubeEmptySpace];
      obs := state;
      started := true;
    }

    /** Move the bird for the action; nothing else changes.
        Like the other phase methods below, it is a phase of `Step`, not an entry
        point: on its own it does not keep `Valid()`. */
    method BirdJumping(action: int)
      modifies this`birdY
      ensures birdY == Jump(old(birdY), action)
    {
      if action == 1 {
        birdY := birdY - BirdGravitySpeed * 25;
      } else {
        birdY := birdY + BirdGravitySpeed;
      }
    }

    /** Fill a queue holding fewer than two tubes with the first pair, one draw per tube.
        A phase of `Step`, not an entry point. */
    method CreateRandomTubes(r0: int, r1: int)
      requires ValidDraw(r0) && ValidDraw(r1)
      modifies this`tubes
      ensures tubes == WithRandomTubes(old(tubes), r0, r1)
    {
      if |tubes| < 2 {
        for index := 0 to 2
          invariant tubes == old(tubes) + FirstPair(r0, r1)[..index]
        {
          var randomNumber := if index == 0 then r0 else r1;
          var x := ScreenWidth - TubeWidth;
          if index == 1 {
            x := x + TubesDistance;
          }
          tubes := tubes + [NewTube(x, randomNumber)];
        }
        assert FirstPair(r0, r1)[..2] == FirstPair(r0, r1);
      }
    }

    /** Replace an evicted lead tube: drop it and append a new one at the spawn column.
        A phase of `Step`, not an entry point. */
    method CreateNewTube(r: int)
      requires ValidDraw(r)
      modifies this`tubes
      ensures tubes == WithNewTube(old(tubes), r)
    {
      if |tubes| == 2 {
        var firstTube := tubes[0];
        if firstTube.x + TubeWidth < 0 {
          tubes := tubes[1..];
          var x := ScreenWidth - TubeWidth;
          tubes := tubes + [NewTube(x, r)];
        }
      }
    }

    /** Scroll every tube left by the tube speed, one tube at a time.
        A phase of `Step`, not an entry point. */
    method MoveTubes()
      modifies this`tubes
      ensures tubes == Shifted(old(tubes))
    {
      var i := 0;
      while i < |tubes|
        invariant 0 <= i <= |tubes| == |old(tubes)|
        invariant forall k :: 0 <= k < i ==> tubes[k] == Moved(old(tubes)[k])
        invariant forall k :: i <= k < |tubes| ==> tubes[k] == old(tubes)[k]
      {
        tubes := tubes[i := tubes[i].(x := tubes[i].x - TubeSpeed)];
        i := i + 1;
      }
    }

    /** Advance the game by one tick. There is no guard against stepping after
        the episode has ended; only a reset must have run. */
    method Step(action: int, d: Draws) returns (obs: seq<int>, reward: int, done: bool)
      requires Valid() && started && ValidDraws(d)
      modifies this
      ensures Valid() && started
      ensures var o := StepSpec(old(Snapshot()), action, d);
        Snapshot() == o.next && obs == o.obs && reward == o.reward && done == o.done
      ensures state == obs
      ensures |tubes| == 2 && tubes[0].x < tubes[1].x
      ensures score == old(score) + (if tubes[0].x == BirdX then 1 else 0)
      ensures done ==> reward == -100
    {
      BirdJumping(action);
      reward := 0;
      if action == 1 {
        reward := reward + 5;
      }

      CreateRandomTubes(d.first, d.second);
      MoveTubes();
      CreateNewTube(d.replacement);

      if PassedTube(tubes[0]) {
        score := score + 1;
        reward := reward + 20;
      }
      if InGap(birdY, tubes[0]) {
        reward := reward + 20;
      }

      done := GroundCollision(birdY) || TubeCollision(birdY, tubes[0]);
      if done {
        reward := -100;
      }

      state := Observe(birdY, tubes);
      obs := state;

      StepKeepsQueue(old(Snapshot()), action, d);
    }
  }
}
