# Third-person box scene: a Dafny model of its core

The scene shows a character that walks among floating boxes. Keyboard flags drive a finite state
machine of eight animation states. A ray cast in the walking direction flags every box the character
comes near and sends that box to a random new position. A small application store keeps the
configuration and a frame counter. This project models those parts and proves properties of them:

- `character.dfy` (module `Character`) covers the keyboard snapshot and the state machine
  (`FiniteStateMachine.SetState`/`Update` and the eight state classes). It also covers the camera
  offset chosen per state, the per-frame guard of `Character.update` and the clamp on the z
  deceleration. Calls on the animation mixer are recorded, in order, as a log of `ClipEvent`s. The
  push-button state's cleanup removes a listener that was never added, so the `'finished'` listeners
  are counted and the count only grows.
- `boxes.dfy` (module `Boxes`) covers the rejection loop that draws a new box position, the creation
  of the 30 + 60 boxes, the periodic mover, `moveSingleBox` and `updateBoxPositions`, and the
  completion callbacks of the tweens they start. `Math.random()` is an explicit stream of draws. A
  running tween is kept in a pending list until its completion event. A run of `getNewBoxPosition`
  calls is the function `DrawPositions`, and the loops that add or respawn boxes are proved against
  it. The two box counts are constants of the box field (30 and 60).
- `raycaster.dfy` (module `RayCaster`) covers `checkCollision`: the choice of ray direction, the quarter
  turn of the camera direction, the ray's origin, and the loop over the intersections. The
  intersections are an input. The loop is proved against a reference fold, `Scan`.
- `utils.dfy` (module `Utils`) covers `hexToRgbA`, `getUID`, `random`, `lerp`, `map`, and the
  offset, scale and clamp steps of `drawImageProp`.
- `store.dfy` (module `Store`) covers the store's initial state, its four mutations and the four
  actions that commit them.
- `common.dfy` (module `Common`) holds `Option`, `Result` and a real-valued `Vec3`.

Behaviour kept as the code has it:

- `IdleState.Update` starts a second `if` right after the right-turn check. With right held together
  with left or space, one tick passes through `turnRight` and on to the next state
  (`IdlePassesThroughTurnRight`).
- `moveSingleBox(intersectedBox)` from the collision loop passes no speed, so it uses the normal speed
  factor 2.
- The ray is built with `far` 20, so the `distance < 25` test never rejects a hit the raycaster
  returns (`HitsWithinFarAllCount`).

## Model

| member | source | states |
|---|---|---|
| Character.LookupInvertsName | src/THREE/Character.js:285-298 | the registry finds each state under its own `Name` and under no other string |
| Character.Set | src/THREE/Character.js:708-729 | setting one key flag gives it the new value and leaves every other flag as it was |
| Character.KeyFlag | src/THREE/Character.js:708-729 | exactly the key codes 87, 65, 83, 68, 32 and 16 are bound to a flag |
| Character.KeyEventChangesOnlyItsFlag | src/THREE/Character.js:708-752 | a key event sets the flag bound to its code to down/up and changes no other flag; unbound codes change nothing |
| Character.KeyUpUndoesKeyDown | src/THREE/Character.js:708-752 | keydown followed by keyup of the same code leaves the flags as keyup alone would |
| Character.ControllerInput.constructor | src/THREE/Character.js:695-707 | all six flags start false |
| Character.ControllerInput.OnKeyDown | src/THREE/Character.js:708-729 | the flags become the keydown event applied to the old flags |
| Character.ControllerInput.OnKeyUp | src/THREE/Character.js:731-752 | the flags become the keyup event applied to the old flags |
| Character.Switch | src/THREE/Character.js:252-266 | the new state is current; setting the current state changes nothing; otherwise the log gains exit of the old state then entry with the old one as `prevState`, and entering push-button adds one listener |
| Character.SwitchNamed | src/THREE/Character.js:252-266 | succeeds exactly for the eight registered names and then acts as `Switch`; any other name throws after the exit, so the current state and listeners stay and the log gains only the exit of the current state, if there is one (names inherited from `Object.prototype` are under Left out) |
| Character.TickFollowsTable | src/THREE/Character.js:268-272 | with no current state a tick changes nothing; otherwise it ends in the state the priority table `Next` gives for the held keys |
| Character.TickOutsideIdleIsOneTransition | src/THREE/Character.js:391-614 | outside idle a tick either keeps the machine unchanged or logs exactly one exit/entry pair to the table's state |
| Character.IdlePassesThroughTurnRight | src/THREE/Character.js:341-353 | in idle, right held with left or space held passes through `turnRight` in the same tick |
| Character.PushButtonIgnoresInput | src/THREE/Character.js:668-669 | in push-button a tick changes nothing, whatever keys are held |
| Character.FireFinishedActsOnce | src/THREE/Character.js:653-662 | delivering `'finished'` to n listeners returns to idle once, then each further listener only logs its cleanup |
| Character.ListenersNeverDecrease | src/THREE/Character.js:631-666 | no tick and no `'finished'` event lowers the listener count |
| Character.FireFinishedListeners | src/THREE/Character.js:653-662 | firing `'finished'` never lowers the listener count |
| Character.SwitchKeepsConsistent | src/THREE/Character.js:252-266 | `SetState` keeps the log a valid exit/enter trace whose last entry is the current state |
| Character.TickKeepsConsistent | src/THREE/Character.js:268-272 | an update tick keeps the log consistent with the current state |
| Character.FinishKeepsConsistent | src/THREE/Character.js:653-656 | `Finished` keeps the log consistent with the current state |
| Character.FireFinishedKeepsConsistent | src/THREE/Character.js:631-662 | delivering `'finished'` to any number of listeners keeps the log consistent |
| Character.StateMachine.constructor | src/THREE/Character.js:239-242 | no current state, empty log, no listeners |
| Character.StateMachine.Exit | src/THREE/Character.js:658-666 | the log gains the exit of the current state, and push-button's cleanup of the listener it never added |
| Character.StateMachine.Enter | src/THREE/Character.js:321-651 | the log gains the entry with `prevState` and that state's clip work; push-button adds one listener |
| Character.StateMachine.SetState | src/THREE/Character.js:252-266 | the new state equals `Switch` of the old one, and the log stays a consistent trace |
| Character.StateMachine.Move | src/THREE/Character.js:259-265 | the log gains the exit of the old state and the entry of the new one with the old as `prevState`; the new state is current; entering push-button adds one listener |
| Character.StateMachine.SetStateNamed | src/THREE/Character.js:252-266 | the new state and success flag equal `SwitchNamed` of the old state |
| Character.StateMachine.UpdateIdle | src/THREE/Character.js:341-353 | the new state equals `Tick` of the old one |
| Character.StateMachine.UpdateWalk | src/THREE/Character.js:391-447 | the new state equals `Tick` of the old one |
| Character.StateMachine.UpdateRun | src/THREE/Character.js:485-541 | the new state equals `Tick` of the old one |
| Character.StateMachine.UpdateTurn | src/THREE/Character.js:572-615 | the new state equals `Tick` of the old one |
| Character.StateMachine.Update | src/THREE/Character.js:268-272 | the new state equals `Tick` of the old one and the log stays consistent |
| Character.StateMachine.Finished | src/THREE/Character.js:653-656 | the new state equals `Finish` of the old one |
| Character.StateMachine.MixerFinished | src/THREE/Character.js:631-635 | every listener registered so far runs `Finished` in turn: the new state equals `FireFinished` with the listener count |
| Character.IdealOffset | src/THREE/Character.js:786-800 | x and y are the configured offset; z is -40 when walking, -120 when running backwards, and the configured z otherwise |
| Character.DampZ | src/THREE/Character.js:84-93 | the clamped deceleration never increases the z speed and never flips its sign |
| Character.CharacterController.constructor | src/THREE/Character.js:18-55 | no model yet, a fresh machine with no state, and no keys held |
| Character.CharacterController.OnModelLoaded | src/THREE/Character.js:178-187 | the model is present |
| Character.CharacterController.OnAnimationsLoaded | src/THREE/Character.js:190-193 | the loading manager's `onLoad` sets the state to idle |
| Character.CharacterController.Update | src/THREE/Character.js:71-80 | without a model or a current state nothing changes; otherwise one tick on the held keys, then the mixer's `'finished'` if the clip ended |
| Boxes.OffsetOnGrid | src/THREE/Boxes.js:92-96 | a draw gives x and z on the 20-grid in [-200, 180] and y = 7k + 10 in [10, 143] |
| Boxes.AcceptanceIgnoresCharacter | src/THREE/Boxes.js:98-104 | the distance to the character equals the length of the drawn offset wherever the character stands |
| Boxes.EdgeDrawsAreAccepted | src/THREE/Boxes.js:90-105 | a draw with x or z at -200 is always far enough, so every pass can end the loop |
| Boxes.Attempt | src/THREE/Boxes.js:92-104 | one pass gives the drawn position next to the character, and its squared distance is at least 1600 exactly when the draw is kept |
| Boxes.GetNewBoxPosition | src/THREE/Boxes.js:86-108 | the result is the first far-enough draw from the cursor, moved next to the character; it is at least 40 from the character, and every draw skipped was too close |
| Boxes.ClearingAppendPair | src/THREE/Boxes.js:224-242 | starting two tweens adds exactly what each clears |
| Boxes.ClearingSnoc | src/THREE/Boxes.js:224-242 | starting one tween adds exactly what it clears |
| Boxes.ClearingAppend | src/THREE/Boxes.js:224-242 | the flags a pending list clears are the union of those of its parts |
| Boxes.ClearingRemove | src/THREE/Boxes.js:230-232 | completing one tween removes exactly the flag it clears |
| Boxes.FlagNowCovered | src/THREE/Boxes.js:224-233 | flagging a box while starting a tween that clears it keeps every flag covered |
| Boxes.NamesBoxesAppend | src/THREE/Boxes.js:218-242 | tweens started on existing boxes keep every pending tween naming a box |
| Boxes.Without | src/THREE/Boxes.js:230-241 | a completed tween leaves the list and the others keep their order |
| Boxes.Apply | src/THREE/Boxes.js:230-241 | a completion changes one box and keeps the number of boxes |
| Boxes.CompletionKeepsCover | src/THREE/Boxes.js:230-241 | after any completion every flagged box still has a pending tween that clears it |
| Boxes.NamesBoxesWithout | src/THREE/Boxes.js:230-241 | a completion keeps every pending tween naming a box |
| Boxes.RespawnAppend | src/THREE/Boxes.js:252-279 | later tweens do not disturb a respawn pair already started |
| Boxes.RespawnsAppend | src/THREE/Boxes.js:252-279 | later tweens do not disturb the respawn pairs already started |
| Boxes.RespawnsExtend | src/THREE/Boxes.js:252-279 | one more respawn pair extends the run of boxes covered |
| Boxes.RespawnsStep | src/THREE/Boxes.js:252-279 | the respawn pair of box i, appended after those of boxes 0..i-1, extends them to box i |
| Boxes.MoveAllSnoc | src/THREE/Boxes.js:209-244 | one more `moveSingleBox` call after a run sends its box to the first far-enough draw after the run's draws, and appends its call and its two tweens |
| Boxes.MoveAllCalls | src/THREE/Boxes.js:209-244 | a run of calls names the requested boxes in order, each with the run's speed factor and a target at least 40 away; each starts its flag-clearing position tween and then its rotation tween with the box's counter; the cursor never moves back |
| Boxes.MoveAllClears | src/THREE/Boxes.js:223-232 | the flags a run's tweens will clear are exactly the requested boxes, with multiplicity |
| Boxes.BoxField.constructor | src/THREE/Boxes.js:9-23 | no boxes, no tweens, no moves, the cursor at the first draw, and the main and secondary box counts 30 and 60 |
| Boxes.FirstAccepted | src/THREE/Boxes.js:91-105 | the index where the `do/while` stops: a kept draw at or after the start, with no kept draw before it |
| Boxes.NoneKeptMeans | src/THREE/Boxes.js:91-105 | the draws skipped before the stop are exactly the draws in that range that are not kept |
| Boxes.FirstKeptExists | src/THREE/Boxes.js:91-105 | when some later draw is kept, the loop stops: a first kept draw exists |
| Boxes.FirstAcceptedIsFirst | src/THREE/Boxes.js:91-105 | a kept draw with no kept draw between the start and it is the one the loop stops at |
| Boxes.BoxField.NewPosition | src/THREE/Boxes.js:86-108 | the cursor ends one past the first far-enough draw from the old cursor, which gives the position |
| Boxes.DrawPositions | src/THREE/Boxes.js:86-108 | `count` calls of `getNewBoxPosition` in a row give exactly `count` positions |
| Boxes.DrawPositionsFar | src/THREE/Boxes.js:86-108 | every position of a run of calls is at least 40 from the character, and the cursor never moves back |
| Boxes.DrawPositionsSplit | src/THREE/Boxes.js:25-31 | `a` calls followed by `b` calls from where the first ones stopped are `a + b` calls |
| Boxes.Fresh | src/THREE/Boxes.js:124-168 | the boxes built at the given positions: one per position, unflagged, rotation counter 1 |
| Boxes.FreshAppend | src/THREE/Boxes.js:124-168 | building boxes for two lists of positions is building them for the joined list |
| Boxes.FreshFar | src/THREE/Boxes.js:124-168 | boxes built at far-enough positions are unflagged, have rotation counter 1, and lie at least 40 away |
| Boxes.AddedFar | src/THREE/Boxes.js:124-168 | boxes built at the positions of a run of calls are unflagged, have rotation counter 1, and lie at least 40 away |
| Boxes.TwoRuns | src/THREE/Boxes.js:25-31 | adding the main boxes and then the secondary boxes adds the boxes and moves the cursor of one run of both counts |
| Boxes.TargetsStep | src/THREE/Boxes.js:251-280 | appending a pair whose position tween goes to `p` extends the list of targets by `p` |
| Boxes.BoxField.AddBoxes | src/THREE/Boxes.js:124-168 | appends `count` unflagged boxes with rotation counter 1, the `j`-th at the `j`-th position of `count` `getNewBoxPosition` calls in a row, each at least 40 from the character; the cursor ends where those calls leave it; the earlier boxes are kept |
| Boxes.BoxField.AddNext | src/THREE/Boxes.js:124-168 | one turn of the loop: the boxes and cursor of `i` calls become those of `i + 1` calls |
| Boxes.BoxField.AddAllBoxes | src/THREE/Boxes.js:25-31 | appends 30 main and then 60 secondary boxes, unflagged, rotation counter 1, at the positions of 90 `getNewBoxPosition` calls in a row, each at least 40 from the character; the cursor ends after the 90th call |
| Boxes.BoxField.MoveSingleBox | src/THREE/Boxes.js:210-244 | the cursor ends one past the first far-enough draw, which is the target (at least 40 away); logs the move with speed factor 6 for slow and 2 otherwise; starts the position tween that clears the flag and the rotation tween with the current counter |
| Boxes.BoxField.StartTweens | src/THREE/Boxes.js:224-242 | appends the position tween that clears box b's flag and the rotation tween with its current counter; the flags it will clear grow by exactly b |
| Boxes.BoxField.PeriodicMove | src/THREE/Boxes.js:37-44 | a flagged pick changes nothing; any other pick is moved with the slow factor 6 to the first far-enough draw from the cursor, with its position tween (which clears the flag) and rotation tween started |
| Boxes.BoxField.RespawnBox | src/THREE/Boxes.js:253-278 | box i gets a position tween without a callback to the first far-enough draw from the cursor, and a rotation tween; no flag coverage changes |
| Boxes.BoxField.UpdateBoxPositions | src/THREE/Boxes.js:251-280 | every box, in index order, gets its respawn pair appended, the `j`-th position tween going to the `j`-th position of one `getNewBoxPosition` call per box; the cursor ends after those calls; the earlier tweens are kept |
| Boxes.BoxField.RespawnNext | src/THREE/Boxes.js:251-280 | one pass of the loop: the pairs and targets for boxes below `i` extend to box `i`, and the tweens already there stay |
| Boxes.BoxField.CompleteTween | src/THREE/Boxes.js:230-241 | the tween leaves the list; a position tween puts its box at the target and clears the flag if it is `moveSingleBox`'s; a rotation tween adds 1 to the counter; every flag stays covered |
| RayCaster.Probe | src/THREE/RayCaster.js:44-62 | the direction is forward, backward, left or right by that priority, and none when no movement key is held |
| RayCaster.Degrees | src/THREE/RayCaster.js:44-61 | each direction turns by a quarter-turn multiple in [0, 360) |
| RayCaster.RotateYIsRotation | src/THREE/RayCaster.js:64-67 | each quarter turn equals the y-axis rotation matrix with exact sine and cosine, and keeps the horizontal length |
| RayCaster.OppositeTurnsCancel | src/THREE/RayCaster.js:48-59 | left then right, or backward twice, gives back the camera direction |
| RayCaster.RayDirection | src/THREE/RayCaster.js:64-70 | the ray is horizontal and keeps the horizontal length of the camera direction |
| RayCaster.RayOrigin | src/THREE/RayCaster.js:73-74 | the origin is the character's x and z at height 18 |
| RayCaster.ScanCollision | src/THREE/RayCaster.js:82-93 | `collision` ends true exactly when some hit is closer than 25 |
| RayCaster.ScanFlags | src/THREE/RayCaster.js:82-93 | a box ends flagged exactly when it was flagged or some hit on it is closer than 25 |
| RayCaster.ScanRequests | src/THREE/RayCaster.js:82-93 | a box is sent to `moveSingleBox` exactly when it was unflagged and some hit on it is closer than 25 |
| RayCaster.ScanRequestsDistinct | src/THREE/RayCaster.js:82-93 | no box is sent twice in one sweep, however many hits it has |
| RayCaster.ScanSettles | src/THREE/RayCaster.js:82-93 | a second sweep over the same hits sends nothing and flags nothing new |
| RayCaster.HitsWithinFarAllCount | src/THREE/RayCaster.js:24 | with the range [0, 20] every returned hit flags its box and sets `collision` |
| RayCaster.Flags | src/THREE/RayCaster.js:87 | the flag list reads each box's collision flag |
| RayCaster.WithFlags | src/THREE/RayCaster.js:89 | only the collision flags are replaced; positions and counters are kept |
| RayCaster.WithOwnFlags | src/THREE/RayCaster.js:87-89 | writing back the boxes' own flags changes nothing |
| RayCaster.WithFlagsSet | src/THREE/RayCaster.js:89 | setting one flag in the list sets exactly that box's flag |
| RayCaster.CollisionRay.constructor | src/THREE/RayCaster.js:20-25 | a zero origin and direction, with the range [0, 20] |
| RayCaster.CollisionRay.CheckCollision | src/THREE/RayCaster.js:36-94 | with no movement key: the camera direction is refreshed, `collision` is false, and the walking direction, the ray and the boxes are unchanged; otherwise direction, origin and ray as above, flags and `collision` as `Scan` gives them, and the tweens, calls and cursor of `MoveAll` over `Scan`'s requests; the box flags stay covered |
| RayCaster.CollisionRay.SweepHits | src/THREE/RayCaster.js:82-93 | the loop leaves the flags and `collision` that `Scan` gives, and appends exactly the tweens and calls of `moveSingleBox` for `Scan`'s requests in order (`MoveAll`), with the cursor where those calls leave it |
| RayCaster.ScanStep | src/THREE/RayCaster.js:82-93 | one more intersection updates the sweep as one pass of the loop body does |
| RayCaster.FlagAfter | src/THREE/RayCaster.js:87-91 | flagging and moving one more box extends the run of `moveSingleBox` calls by that box |
| RayCaster.Flag | src/THREE/RayCaster.js:87-91 | the box is flagged; the cursor ends one past the first far-enough draw, which is the target; the call with factor 2 and the box's position tween (clearing its flag) and rotation tween are appended; every flag stays covered |
| Utils.HexToRgbA | src/utils/utils.js:84-95 | succeeds exactly when the pattern matches; anything else fails with `Bad Hex` |
| Utils.DecimalRoundTrip | src/utils/utils.js:92 | the decimal text of a channel reads back as that channel |
| Utils.SixDigitChannels | src/utils/utils.js:91-92 | the shifts and masks of the six-digit number give the three hex pairs |
| Utils.ChannelsOfPairs | src/utils/utils.js:92 | three bytes packed most significant first come back out of the shifts and masks unchanged |
| Utils.HexToRgbAChannels | src/utils/utils.js:86-93 | a valid colour gives `rgba(r,g,b,opacity)` with r, g, b the values of its (doubled) hex pairs |
| Utils.ShortFormDoubles | src/utils/utils.js:88-90 | `#RGB` gives the same result as `#RRGGBB` |
| Utils.PairOfDigits | src/utils/utils.js:91 | the two hex digits of a byte read back as that byte |
| Utils.HexRoundTrip | src/utils/utils.js:84-95 | any three channels written as `#rrggbb` come back unchanged |
| Utils.UidCounter.constructor | src/utils/utils.js:1 | the counter starts at 0 |
| Utils.UidCounter.GetUid | src/utils/utils.js:56-59 | returns the old counter plus one and stores it |
| Utils.FirstUids | src/utils/utils.js:56-59 | from a new counter the n ids are 1, 2, ..., n |
| Utils.PickIndex | src/utils/utils.js:74 | the truncated index lies within a non-empty array |
| Utils.RandomElement | src/utils/utils.js:74 | a non-empty array gives one of its elements, the one at the picked index; an empty one gives none |
| Utils.RandomBounds | src/utils/utils.js:76-79 | two numbers are the range themselves; without a numeric max the range is [0, min or 1) |
| Utils.Random | src/utils/utils.js:73-82 | only a missing min with a numeric max fails |
| Utils.RandomInRange | src/utils/utils.js:73-82 | the result lies in [lo, hi) when lo < hi, and in (hi, lo] when hi < lo |
| Utils.LerpHalfOpen | src/utils/utils.js:65-67 | for t in [0, 1) `lerp` never reaches its second end |
| Utils.LerpEnds | src/utils/utils.js:65-67 | `lerp` gives its first end at 0 and its second at 1 |
| Utils.LerpGap | src/utils/utils.js:65-67 | after one step the remaining gap is (1 - t) times the old one |
| Utils.LerpBetween | src/utils/utils.js:65-67 | for t in [0, 1] `lerp` stays between its ends |
| Utils.Remap | src/utils/utils.js:69-71 | defined exactly when the source range is not empty |
| Utils.RemapIsLerp | src/utils/utils.js:69-71 | `map` is `lerp` of the target range at the relative position in the source range |
| Utils.RemapEnds | src/utils/utils.js:69-71 | the ends of the source range go to the ends of the target range |
| Utils.RemapInverse | src/utils/utils.js:69-71 | mapping back with the ranges swapped gives the value back |
| Utils.Offset | src/utils/utils.js:117-124 | an offset is 0.5 when not a number and always ends in [0, 1]; one already in [0, 1] is kept |
| Utils.ClampOffset | src/utils/utils.js:117-124 | the steps give `Offset` of the argument |
| Utils.CoverSizeFits | src/utils/utils.js:126-141 | the source size is positive, fits in the image and has the destination's aspect ratio |
| Utils.CoverInsideImage | src/utils/utils.js:143-144 | at offsets in [0, 1] the source rectangle lies inside the image |
| Utils.ScaleToCover | src/utils/utils.js:126-141 | the scaling steps give the cover size |
| Utils.MinRatio | src/utils/utils.js:128-135 | the smaller ratio belongs to the relatively narrower side, which then fills the destination |
| Utils.WideSource | src/utils/utils.js:134-141 | a relatively wider destination uses the whole image width |
| Utils.TallSource | src/utils/utils.js:135-141 | a relatively taller destination uses the whole image height |
| Utils.SameShape | src/utils/utils.js:134-141 | when image and destination have the same shape the whole image is used |
| Utils.SourceSize | src/utils/utils.js:126-141 | the step-by-step size equals the cover size |
| Utils.DrawImageProp | src/utils/utils.js:109-154 | the source rectangle is the cover rectangle at the clamped offsets and lies inside the image, so the final clamps never change it |
| Store.Initial | src/store/index.js:4-32 | `verbose` and `enableStats` are on, `frameCount` is 0, and the tables are `global`, `camera` and `colors` |
| Store.IncreaseFrameCountOnlyCounts | src/store/index.js:34-36 | the frame count rises by exactly 1, nothing is printed, and nothing else changes |
| Store.ConsoleLogOnlyPrints | src/store/index.js:37-41 | the state never changes; the payload is printed exactly when `verbose` is on |
| Store.UpdateStateSetsOneEntry | src/store/index.js:45-47 | succeeds exactly when `parent` is a table; then `state[parent][key]` reads the value and every other entry reads as before; a failed write changes nothing (names inherited from `Object.prototype` and a `__proto__` key are under Left out) |
| Store.UpdateStateIdempotent | src/store/index.js:45-47 | writing the same entry twice is writing it once |
| Store.UpdateStateCommutes | src/store/index.js:45-47 | writes to different entries can be made in either order |
| Store.FrameCountCountsFrames | src/store/index.js:34-47 | after any run of commits the frame count has grown by the number of frame-count commits in it |
| Store.FlagsAreFixed | src/store/index.js:33-47 | no run of commits changes `verbose`, `enableStats` or the set of tables |
| Store.QuietStoreNeverLogs | src/store/index.js:37-44 | with `verbose` off, only errors ever reach the console |
| Store.AppStore.constructor | src/store/index.js:3-32 | the store starts in the initial state with an empty console and no commits |
| Store.AppStore.IncreaseFrameCountMutation | src/store/index.js:34-36 | the frame count rises by 1 |
| Store.AppStore.ConsoleLogMutation | src/store/index.js:37-41 | the console gains the payload exactly when `verbose` is on |
| Store.AppStore.ConsoleErrorMutation | src/store/index.js:42-44 | the console gains the payload as an error |
| Store.AppStore.UpdateStateMutation | src/store/index.js:45-47 | with `parent` a table the entry is written; otherwise the write throws and nothing changes (names inherited from `Object.prototype` and a `__proto__` key are under Left out) |
| Store.AppStore.Commit | src/store/index.js:33-47 | the commit is recorded and the state and console become what `Apply` gives |
| Store.AppStore.AnimationIncreaseFrameCount | src/store/index.js:50-52 | commits exactly `ANIMATION_INCREASE_FRAMECOUNT`; the frame count rises by 1 |
| Store.AppStore.ConsoleAction | src/store/index.js:53-55 | commits exactly `CONSOLE_LOG` with the same payload; the state is unchanged |
| Store.AppStore.ErrorAction | src/store/index.js:56-58 | commits exactly `CONSOLE_ERROR` with the same payload; the state is unchanged |
| Store.AppStore.UpdateStateAction | src/store/index.js:59-61 | commits exactly `UPDATE_STATE` with the same payload, with that mutation's effect (a `__proto__` key is under Left out) |
| Store.AppStore.CommitAll | src/store/index.js:33-61 | a sequence of commits leaves the state and console that `Run` gives |

## Left out

- The character's kinematics (velocity, acceleration, quaternions), the camera's lerp and rotation, and the animation mixer itself. Only the clamp on the z deceleration and the state-dependent camera offset are modelled.
- Asset loading (FBX models, textures), rendering, lights, post-processing, and the scene manager are left out. `src/THREE/AI.js` is not part of this model.
- The DOM helpers `dragDropEvent` and `simulateClick`, and `rgbaChangeOpacity` (a regular-expression rewrite), are left out. `radians` is left out because it multiplies by π, which has no exact real value here.
- Tween timing, easing and the scale tweens, which have no completion callback. All `Math.random()` draws other than the position draws (durations, scale targets) are left out, and so is `setInterval`'s 2-second period. A tween completes only when `CompleteTween` is called.
- Boxes.BoxField.PeriodicMove: the randomly picked index is a parameter rather than `Math.floor(Math.random() * length)`.
- RayCaster.CollisionRay.CheckCollision: the geometry of the ray–box intersection is left out. The intersections, with distances and box indices, are an input.
- RayCaster.RotateY: floating-point sine and cosine of the quarter turns are taken as exact.
- Utils.DrawImageProp: the two-argument form (`arguments.length === 2`) is left out. Inside an arrow function `arguments` is not the call's own, so that branch does not do what its comment says. The final `ctx.drawImage` call is left out. Zero, negative, NaN or infinite sizes are excluded by the precondition. NaN offsets are not modelled; see Utils.Offset.
- Utils.HexToRgbA: `opacity` is the string JavaScript's `+` turns it into. The 32-bit conversion of `>>` is not modelled because a six-digit value is always below 2^24.
- Utils.Random: only numeric or missing arguments are modelled, not other JavaScript values (strings, objects). `Math.random()` is a parameter in [0, 1). NaN arguments are not modelled. With a NaN `min` and no numeric `max`, `min || 1` gives 1.
- Store: the console is an output log, and Vuex's own machinery (devtools, subscribers, plugins) is left out. `console.log` of non-string payloads is left out.
- Store.AppStore.UpdateStateMutation: writing into a parent that is neither a configuration table nor a property every JavaScript object inherits (a missing name or a scalar entry) is modelled as the thrown `TypeError` leaving the state as it was. Nested paths below a table entry are left out. Parent names inherited from `Object.prototype` are not modelled. The state is a plain object, so `__proto__`, `constructor`, `toString` and the like resolve to shared objects, and the write lands on them without throwing. A `__proto__` write even makes the key readable through every table. The model treats these names like any missing parent. A `key` of `__proto__` is not modelled either. In the program that write goes to the table's inherited `__proto__` setter: a value that is not an object (a flag, number or string) is ignored, with no own entry created, and an object or list value makes it the table's prototype. The model stores an own `__proto__` entry holding the value.
- Store.AppStore.UpdateStateAction: for parent names inherited from `Object.prototype`, and for a `key` of `__proto__`, it has the unmodelled effects described under Store.AppStore.UpdateStateMutation.
- Store.UpdateStateSetsOneEntry: `ok` holds exactly when `parent` is a configuration table, and a failed write changes nothing. Neither holds in the program for parent names inherited from `Object.prototype` (`__proto__`, `constructor`, …), which are not modelled. Nor does `state[parent][key]` read `value` in the program when `key` is `__proto__`: a non-object value is dropped and an object value becomes the table's prototype, while the model stores an own entry. See Store.AppStore.UpdateStateMutation.
- Character.SwitchNamed: only the eight registered state names and names absent from the registry are modelled. The registry is a plain object, so a name inherited from `Object.prototype` finds a function there instead. With `constructor`, for example, `new Object(this)` returns the state machine itself, which becomes its own current state before `Enter` throws. The model keeps the exited state current for every unregistered name.
- Character.StateMachine.SetStateNamed: follows `SwitchNamed`, so names inherited from `Object.prototype` are not modelled either.
- Utils.Offset: a NaN offset is not modelled. `typeof NaN` is `"number"`, and every clamp comparison with NaN is false, so the program keeps NaN, which makes `cx` and `cy` NaN. The model treats every number as ordered and promises a result in [0, 1].
- Utils.ClampOffset: NaN offsets are not modelled, as for Utils.Offset.
- Character.DampZ: the x and y deceleration components and the velocity integration are not modelled; only the z clamp is.
- Character.CharacterController.Update: the elapsed time, movement and camera update after the state machine tick are left out; whether the push-button clip finished this frame is a parameter.
