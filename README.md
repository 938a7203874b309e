# Platformer frame step, modelled in Dafny

This project models the simulation core of a small browser platformer
(`script.js`). Each display frame, the game:

- updates the player (gravity, left/right movement, a clamp to the container
  walls, landing on platforms in order, a fallback onto the container floor,
  and the jump);
- then moves the single lightning bolt, which the space bar fires.

The page's geometry becomes a `World` value: the container size, the sprite
sizes and the platform rectangles. The keys held during a frame become an
`Input` value. Coordinates are the script's own: the origin is the container's
top-left corner and y grows downward.

Three modules, one per component:

- `Kinematics` (kinematics.dfy) holds the player's update, one function per
  stage (`Fall`, `Move`, `Clamp`, `Prepare`, `LandAll`, `Floor`, `Jump`), and
  `StepPlayer`, which composes them. It also holds the lemmas on what the
  ordered platform loop produces.
- `Projectile` (projectile.dfy) holds the bolt: `Fire`, `Advance`, and
  `AdvanceN` for n frames. Its lemmas cover the bolt's lifetime.
- `Platformer` (platformer.dfy) holds the frame (`Step`), the start-up state,
  and runs over sequences of frames and fire presses. It also holds the class
  `Game`. The class's fields are the script's module-level variables. Its
  methods update those fields imperatively: `UpdatePlayer` (the platform
  `forEach` becomes a `while` loop in `LandOnPlatforms`), `Fire`, `UpdateBolt`
  and `Tick`. Each method is proved equal to the matching function.

Numbers are exact `real`s, and the constants are the script's: speed 5, jump
strength 15, gravity 0.8, bolt speed 10, bolt range 250.

Notes on reading the code:

- Comment at script.js:33: it says positive velocity is up. The code measures y
  downward. Gravity is added (line 72) and a jump sets a negative velocity
  (line 133). The model follows the code.
- Stray brace at script.js:84: the `}` there would end `updatePlayer` early,
  which leaves the `}` at script.js:141 unmatched, so the file as written is a
  syntax error and does not run. The model treats lines 72-136 as one function
  body, which is evidently what was meant.
- Jump timing: the jump is applied after gravity, so a jumping frame ends with
  velocity -15 and the next frame's gravity gives -14.2 (`JumpFromFloor`).
- Where the grounded flag comes from: the jump test reads the grounded flag
  that this frame's collision just computed, not the flag from the start of
  the frame (`StepPlayerJump`). A player still in the air at the start of a
  frame who lands during it can jump in that same frame (`StepPlayerLandsOn`).

## Model

| member | source | states |
|---|---|---|
| `Kinematics.Spawn` | script.js:31-35 | the start-up player is at rest with both flags clear, x is its page position, and its bottom edge is exactly on the container floor (y as line 210 resets it, replacing the page value of line 32) |
| `Kinematics.Fall` | script.js:71-73 | gravity grows the downward velocity by 0.8, moves y by the NEW velocity, and leaves x and the flags alone |
| `Kinematics.Move` | script.js:75-83 | left and right held together cancel; one alone moves x by exactly the player speed (5) in its direction |
| `Kinematics.Clamp` | script.js:86-88 | the right edge never passes the right wall; when the container is at least as wide as the player, x lies in [0, width - playerWidth]; an x already inside is kept; an x past the right wall becomes width - playerWidth, and (in a container at least as wide as the player) an x left of the wall becomes 0 |
| `Kinematics.Prepare` | script.js:71-91 | before the platform loop, the grounded flag is cleared, the jumping flag is kept, velocity and y are the gravity update, x is the clamped move of the old x, and, when the container is at least as wide as the player, x is inside the walls |
| `Kinematics.LandsOn` | script.js:109-113 | the landing test never fires for a rising player or for a platform the player does not overlap horizontally; when it fires, the player's bottom is at or below the platform top and its top is above the platform bottom |
| `Kinematics.Landed` | script.js:115-120 | a landing puts the player's bottom edge on the platform top, stops it, grounds it and clears the jumping flag |
| `Kinematics.Land` | script.js:109-120 | one loop iteration never moves x and never pushes the player down; a rising player is untouched; the result is either unchanged or at rest, grounded, not jumping and standing on this platform, and it is the latter whenever the test fires |
| `Kinematics.LandAll` | script.js:90-121 | the ordered platform loop never moves x and keeps the flags consistent; a rising player passes through untouched; otherwise the result is either unchanged or at rest, grounded and standing on the top of one of the platforms |
| `Kinematics.LandAllNoLanding` | script.js:92-121 | if no platform's test fires (each tested against the position the earlier ones left), the loop changes nothing |
| `Kinematics.LandAllLastLanding` | script.js:92-121 | if platform k's test fires and no later one does, the loop ends standing on platform k: the last firing platform wins |
| `Kinematics.LandAllGrounds` | script.js:91-121 | after the loop, the player is grounded exactly when it was before or some platform's test fired |
| `Kinematics.Floor` | script.js:123-129 | after the floor fallback, the bottom edge is never below the floor; a player already above the floor is untouched; otherwise it stands on the floor at rest, grounded, not jumping |
| `Kinematics.Collide` | script.js:90-129 | the collision phase (platform loop, then floor fallback) leaves the bottom edge not below the floor, never moves x, keeps the flags consistent, leaves a rising player above the floor untouched, and otherwise changes the player only by grounding it at rest |
| `Kinematics.Jump` | script.js:131-136 | the jump fires exactly when the key is held, the player is grounded and not jumping; it moves neither x nor y and keeps the flags consistent; when it fires, it sets velocity -15, clears grounded and sets jumping |
| `Kinematics.StepPlayer` | script.js:70-136 | after a player update, grounded and jumping are never both set, the bottom edge is not below the floor, x is the clamped move, and with a container at least as wide as the player x lies in [0, width - playerWidth] |
| `Kinematics.StepPlayerFreeFall` | script.js:72-129 | a frame in which no platform and not the floor catches the player is pure free fall: velocity + 0.8, y + the new velocity, not grounded, jumping flag kept |
| `Kinematics.StepPlayerLandsOn` | script.js:109-136 | when platform k's top is not below the container floor, a frame whose last firing landing is platform k ends with the bottom on k's top; without the jump key it ends at rest and grounded; with it, it always launches with velocity -15 |
| `Kinematics.StepPlayerJump` | script.js:109-136 | the collision phase grounds the player exactly when a platform test or the floor test fired; the jump then fires exactly when the key is held and the player was grounded, and otherwise the collision result stands |
| `Kinematics.AirborneJumpIgnored` | script.js:131-136 | holding the jump key in a frame that does not ground the player gives the same result as not holding it |
| `Kinematics.LandAllSnoc` | script.js:92-121 | adding a platform at the end of the list adds exactly one more iteration after the others |
| `Kinematics.LandAllPair` | script.js:92-121 | over two platforms the loop is the first iteration followed by the second |
| `Kinematics.LandingOrderMatters` | script.js:92-121 | the loop depends on platform order: a 10 by 10 player at y 25 falling at 1, with platforms of tops 30 and 15 that both overlap it, ends at y 5 in one order and y 20 in the other |
| `Projectile.Idle` | script.js:41-45 | before anything is fired, the bolt is not in flight, heads right, has travelled nothing, and satisfies the bolt invariant |
| `Projectile.Spent` | script.js:173 | a bolt inside [0, width] and short of its range is not spent, and a bolt that is not spent is short of its range |
| `Projectile.Fire` | script.js:146-158 | after a fire, a bolt is in flight. A bolt already in flight is left exactly as it was. Otherwise the new bolt starts at the player's right edge, centred vertically on the player, heading right, with nothing travelled. The bolt invariant is kept |
| `Projectile.Advance` | script.js:163-178 | an idle bolt is unchanged and is never activated; a bolt in flight moves 10 in its direction, counts 10 more distance, and goes idle exactly when x < 0, x > width or the distance is at least 250; the bolt invariant is kept |
| `Projectile.AdvanceN` | script.js:163-178 | over any number of frames the bolt invariant is kept and no bolt is ever activated |
| `Projectile.AdvanceNTrack` | script.js:164-166 | a bolt still in flight after n frames has travelled exactly 10n and moved 10n in its direction; its y and direction are unchanged |
| `Projectile.AdvanceNStaysIdle` | script.js:163-178 | once idle, a bolt stays idle in every later frame |
| `Projectile.BoltLifetime` | script.js:163-178 | a valid bolt is idle after any n frames with 10n >= 250, whatever the container width |
| `Projectile.FiredBoltExpires` | script.js:146-178 | a bolt fired from any reachable state has vanished 25 frames later |
| `Projectile.FiredBoltFliesFullRange` | script.js:146-178 | when the container leaves room for the full range, a freshly fired bolt is still in flight after each of the first 24 frames, 10 further right per frame, so 25 is exact |
| `Platformer.Initial` | script.js:209-210 | the start-up state satisfies the invariant, stands on the container floor with both flags clear, and has no bolt in flight |
| `Platformer.Step` | script.js:186-188 | one frame keeps the invariant, always leaves the flags consistent and the player above the floor, keeps x inside the walls when the container is wide enough, and never activates the bolt |
| `Platformer.FireAt` | script.js:198-202 | the fire key leaves the player untouched, leaves a bolt in flight, changes nothing while one is already in flight, and keeps the invariant |
| `Platformer.Run` | script.js:186-203 | the invariant (consistent flags, above the floor, valid bolt) holds after any sequence of frames and fire presses |
| `Platformer.RunFramesBolt` | script.js:186-188 | over frames alone, the bolt is the initial bolt advanced once per frame |
| `Platformer.OnlyFireActivates` | script.js:146-178 | without a fire press, an idle bolt stays idle: only fireLightningBolt activates a bolt |
| `Platformer.BoltGoneAfter25Frames` | script.js:163-188 | from any reachable state, 25 frames without a fire press leave no bolt in flight |
| `Platformer.RunStaysInside` | script.js:86-88 | in a container at least as wide as the player, a player inside the walls stays inside over any events |
| `Platformer.RestingOnFloor` | script.js:72-136 | standing on the floor of a level with no platforms and pressing nothing, the player sinks 0.8, is snapped back, and ends grounded at rest |
| `Platformer.JumpFromFloor` | script.js:131-136 | a jump from the floor ends its frame with velocity -15, grounded clear and jumping set; the next frame's gravity gives -14.2 and lifts the player 14.2 |
| `Platformer.FireScenario` | script.js:152-156 | a bolt fired by a 40 by 40 player at (100, 200), with a bolt 10 high, starts at (140, 215) with nothing travelled |
| `Platformer.Game.constructor` | script.js:28-45 | the game starts in the state `Initial` describes (player y as set at line 210, velocity 0, flags clear, bolt idle heading right), over the supplied geometry, with the invariant established |
| `Platformer.Game.UpdatePlayer` | script.js:70-141 | the imperative update leaves the player fields equal to `StepPlayer` of their old values, keeps the invariant, and does not touch the bolt fields |
| `Platformer.Game.LandOnPlatforms` | script.js:92-121 | the while loop over the platforms leaves the player fields equal to `LandAll` of their old values and does not touch the bolt fields |
| `Platformer.Game.Fire` | script.js:146-158 | the imperative fire makes the state `FireAt` of the old state and keeps the invariant |
| `Platformer.Game.UpdateBolt` | script.js:163-178 | the imperative bolt update makes the bolt fields `Advance` of their old values, keeps the invariant, and does not touch the player fields |
| `Platformer.Game.Tick` | script.js:186-188 | one game-loop iteration makes the state `Step` of the old state and keeps the invariant |

## Left out

- DOM geometry reads (`offsetWidth`, `offsetHeight`, `offsetLeft`, `offsetTop`, `getBoundingClientRect`) are not modelled. Their values become the `World` value and the constructor's `startX`, fixed at start-up and with the platforms already in container coordinates.
- Style writes and visibility toggles are not modelled. They only render the state.
- The keyboard listeners and the `keys` map are not modelled. A frame takes an `Input` value instead, and a space-bar press is a call to `Fire` (the `FirePressed` event) made between frames.
- `requestAnimationFrame` self-rescheduling and `window.onload` are not modelled. They are host scheduling; a run of frames is a sequence of events.
- The unused `sideCharacter` reference is not modelled.
- IEEE-754 double rounding is not modelled. Arithmetic is on exact reals, so 0.8 is exact.
- A bolt heading left is not modelled beyond the state: `lightningDirection` is only ever set to 1. The model still carries the field, and `Advance` moves by `direction`.
