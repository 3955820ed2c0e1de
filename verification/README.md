# Flappy Bird environment: a verified model of the game core

This project models the turn-based Flappy Bird game behind the reinforcement-learning
environment `FlappyBirdGame` (`env.py`). It covers the game's state machine, `reset`
followed by repeated `step(action)`, over the bird's height `bird_y`, the `score` and
the queue of tubes. A controller supplies an action on each tick (1 jumps, anything
else lets the bird fall). The game then:

- moves the bird;
- fills the tube queue on the first tick;
- scrolls the tubes 5 pixels to the left;
- replaces the lead tube once it is fully off-screen;
- scores a passage when the lead tube sits exactly at the bird's column;
- checks the bird against the ground, the top of the screen and the lead tube;
- returns a 7-value observation, a reward and a done flag.

All geometry is integer arithmetic on the constants of `env.py`. The screen is 600 × 800
and the ground line is at 700. The bird is 40 × 40 at column 50 and starts with its top
edge at 380. Tubes are 60 wide and scroll 5 pixels per tick. The opening in each tube is
175 high.

Layout:

- `tubes.dfy` (module `Tubes`): the constants, the tube record `Tube(x, topY, bottomY)`,
  tube generation, scrolling, and the read-only checks `GroundCollision`, `TubeCollision`,
  `PassedTube` and `InGap` as pure predicates.
- `env.dfy` (module `Env`): one function per phase of a tick (`Jump`, `WithRandomTubes`,
  `Shifted`, `WithNewTube`, `Observe`, `Bonus`) and their composition `StepSpec`. The
  lemmas about one tick, and the queue invariant `QueueInvariant`, live here too. The
  class `FlappyBirdGame` holds the fields `birdY`, `score`, `tubes` and `state` (the last
  observation). Its methods `Reset`, `BirdJumping`, `CreateRandomTubes`, `MoveTubes`,
  `CreateNewTube` and `Step` update those fields in place and are proved against the
  phase functions. `BirdJumping`, `CreateRandomTubes`, `MoveTubes` and `CreateNewTube`
  are the phases of `Step` and are called only from it. On its own, a phase method does
  not keep the object invariant, which ties the stored observation to the fields.
- `episodes.dfy` (module `Episodes`): `Run` ticks through a sequence of actions. Its lemmas
  hold over any number of ticks.

Randomness is an input. The source draws each new tube's top height from Python's global
`random.randint(100, 350)`. In the model, each tick takes `Draws(first, second,
replacement)`, three values each in [100, 350]. The first two are used only when the queue
is filled, the third only when the lead tube is replaced.

Points of the code's behaviour that the model keeps:

- A replacement tube is appended at x = 540 (`env.py:119`), so the spacing between the
  two tubes alternates between 300 and 305. `QueueInvariant` records this.
- `step` has no guard against being called after the episode has ended. Its only
  precondition is that `reset` has run, because `reset` creates the fields. The ghost
  field `started` records this, and `Step` requires it.
- The seed passed to `reset` seeds only the gym generator. Tube heights come from the
  global `random` module, so the seed does not fix the tube geometry. The model makes
  the draws explicit instead.
- After `reset` the queue is empty until the first `step`. The "two tubes" invariant
  holds only from the first tick on.
- The tube check tests only the tube's left edge against the bird's right edge
  (`env.py:85-86`). A lead tube lying wholly to the left of the bird, at x from -60 to
  -15, still ends the episode when the bird is not strictly inside its opening.

## Model

| member | source | states |
|---|---|---|
| `Tubes.NewTube` | env.py:102-104 | A generated tube keeps the drawn top height in [100, 350] and satisfies the gap equation `topY + bottomY + 175 == 700`, so its bottom height is in [175, 425] |
| `Tubes.Shifted` | env.py:122-124 | Scrolling lowers every tube's x by exactly 5 and keeps its heights, the queue's length and its order |
| `Tubes.GroundCollision` | env.py:78-82 | The ground and ceiling check fires exactly when the bird's top edge is at 660 or more, or at -40 or less; it passes exactly while the top edge is strictly between -40 and 660 |
| `Tubes.TubeCollision` | env.py:84-91 | The tube check fires exactly when the tube's left edge is at x <= 90 and the bird is not strictly inside the opening. There is no right-edge bound, so a tube wholly left of the bird still counts |
| `Tubes.PassedTube` | env.py:93-97 | A passing tube is within the bird's reach (x <= 90), so the tube check applies on a passing tick |
| `Tubes.InGap` | env.py:141 | For a well-formed tube, the bird is in the opening exactly when its top edge is between `topY` and `topY + 135` |
| `Tubes.TubeBehindBirdStillHits` | env.py:84-91 | A well-formed tube wholly left of the bird (x from -60 to -11) still collides with a bird at or above its top part |
| `Tubes.TubeOutOfReach` | env.py:84-91 | A tube whose left edge is right of the bird's right edge (x > 90) can never be hit |
| `Tubes.GapIsSafe` | env.py:84-91 | A well-formed tube's opening is 175 high, and a bird strictly inside it does not collide |
| `Tubes.AlivePassageIsInGap` | env.py:84-97 | A bird level with the tube it passes that does not collide is strictly inside the opening, so it also earns the in-gap check |
| `Env.ResetState` | env.py:59-66 | Reset puts the bird at 380 with score 0 and an empty tube queue |
| `Env.ResetObservation` | env.py:68 | Reset returns the observation `[380, 0, 100, 525, 0, 100, 525]` |
| `Env.Jump` | env.py:72-76 | Action 1 lifts the bird by exactly 75; any other action lowers it by exactly 3 |
| `Env.FirstPair` | env.py:99-109 | The initial pair sits at x = 540 and x = 840, both well-formed, with the two draws as top heights in order |
| `Env.WithRandomTubes` | env.py:99-109 | A queue of fewer than two tubes gets the initial pair appended, and an empty queue thereby satisfies the queue invariant; a queue of two or more is unchanged |
| `Env.WithNewTube` | env.py:111-120 | When a two-tube queue's lead tube is fully off-screen (`x + 60 < 0`), it is dropped, the old second tube leads and a well-formed tube with the draw is appended at x = 540; otherwise the queue is untouched; the length never changes |
| `Env.Observe` | env.py:149-157 | The observation has exactly 7 values |
| `Env.Bonus` | env.py:128-142 | The reward before the collision check lies in {0, 5, 20, 25, 40, 45}; it is at least 20 exactly when a passage or the in-gap check fired, and ends in 5 exactly when the action was a jump |
| `Env.StepSpec` | env.py:126-159 | A tick leaves the tube queue with two more tubes than before when it held fewer than two, and with its length unchanged otherwise |
| `Env.StepKeepsQueue` | env.py:99-135 | From an empty or invariant queue, a tick leaves the queue invariant in force: two well-formed tubes, lead x a multiple of 5 and at least -60, second tube 300 or 305 further right |
| `Env.QueueOrdered` | env.py:105-120 | An invariant queue has exactly two tubes and the lead tube is strictly left of the second |
| `Env.StepScore` | env.py:137-139 | The bird moves by the action alone; the score grows by exactly 1 when the lead tube's x equals 50 after scrolling and replacement, and is unchanged otherwise, so it never decreases |
| `Env.StepDone` | env.py:78-91 | `done` holds exactly when `y + 40 >= 700`, or `y + 40 <= 0`, or `90 >= x` of the lead tube while `y <= topY` or `y + 40 >= 700 - bottomY` |
| `Env.StepReward` | env.py:128-147 | On a terminating tick the reward is exactly -100. Otherwise it is 5·[jump] + 20·[passage] + 20·[in gap], which lies in {0, 5, 20, 25, 40, 45}, and is 40 or 45 whenever a passage is scored alive |
| `Env.StepObservation` | env.py:149-157 | The observation is `[y, x0, top0, bottom0, x1, top1, bottom1]` read from the state after the update |
| `Env.ObservationBounds` | env.py:149-157 | On an invariant queue the observed top heights are in [100, 350] and the bottom heights in [175, 425]; the lead column is at least -60 and left of the second |
| `Env.FirstStepFromReset` | env.py:126-135 | The first tick after a reset yields tubes at 535 and 835 with the two draws, score 0 and never ends the episode; a jump leaves the bird at 305 with reward at least 5, a fall leaves it at 383 |
| `Env.TubeBehindBirdEndsEpisode` | env.py:126-147 | For any state whose queue satisfies the queue invariant with the lead tube at -10: a jump that leaves the bird between -40 (exclusive) and the tube's top height scrolls the tube to -15, wholly left of the bird, and still ends the episode with reward -100; a fall that keeps the bird strictly inside the opening does not end it |
| `Env.PassageScoredOnce` | env.py:137-139 | A scoring tick is never followed by another scoring tick |
| `Env.FlappyBirdGame.Reset` | env.py:56-70 | Sets bird 380, score 0, empty queue, stores and returns the reset observation, and establishes the object invariant |
| `Env.FlappyBirdGame.BirdJumping` | env.py:72-76 | Updates only `birdY`, by `Jump` |
| `Env.FlappyBirdGame.CreateRandomTubes` | env.py:99-109 | Updates only `tubes`, appending one generated tube per loop index, to `WithRandomTubes` of the old queue |
| `Env.FlappyBirdGame.CreateNewTube` | env.py:111-120 | Updates only `tubes`, by popping the front and appending, to `WithNewTube` of the old queue |
| `Env.FlappyBirdGame.MoveTubes` | env.py:122-124 | Updates only `tubes`, tube by tube in a loop, to `Shifted` of the old queue |
| `Env.FlappyBirdGame.Step` | env.py:126-159 | The new fields and the returned observation, reward and done are those of `StepSpec` on the old fields. The object invariant is kept: exactly two tubes in increasing x, the stored observation matches the state. The score grows by 1 exactly at a passage. A terminating tick returns -100 |
| `Episodes.RunKeepsQueue` | env.py:126-135 | Any number of ticks keep the queue empty-or-invariant, and after at least one tick it satisfies the invariant |
| `Episodes.EpisodeQueue` | env.py:100-120 | After a reset and at least one tick the queue holds exactly two well-formed tubes with `tubes[0].x < tubes[1].x` |
| `Episodes.RunScoreBounds` | env.py:137-139 | Over n ticks the score never decreases and grows by at most n |
| `Episodes.LeadTubeReachesBird` | env.py:122-139 | A lead tube at `50 + 5n` reaches column 50 after exactly n ticks without being replaced, and for n >= 1 the score grows by exactly 1 over those n ticks, so that tube's passage is counted once |

## Left out

- Rendering and closing (`render`, `close`) and the pygame and image setup of `__init__`: these are display I/O, asset scaling and frame pacing. The constructor only marks the game as not yet reset.
- The gym `action_space` and `observation_space` declarations. The declared Box bounds are not modelled. They claim bottom heights in [525, 700], while the code produces [175, 425] (see `Env.ObservationBounds`). They also claim tube columns in [0, 600], while the code produces values from -60 up to 835.
- Seeding in `reset` and `random.randint`: gym's generator and Python's global random module are replaced by the explicit `Draws` input, each draw in [100, 350].
- The `float32` type of the observation: the model keeps integers. They are exact in `float32` while their magnitude stays at most 2^24. A controller that keeps jumping after the episode has ended loses 75 per tick and passes that bound after about 224,000 ticks; continuous falling takes about 5.6 million ticks.
- The `truncated` flag (always `False`) and the empty `info` dictionaries returned by `step` and `reset`: they are constants.
- The fields `tube_x` and `is_jumping` that `reset` sets: nothing ever reads them.
- Tubes are dictionaries mutated in place in the source; the model keeps them as values in a sequence, since no tube is shared outside the list.
- `train_agent.py`, `train_and_play_agent.py` and `run_game.py`: DQN training, model files, GIF and plot output, and the keyboard loop. They only drive `reset` and `step`.
