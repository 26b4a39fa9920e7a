# grappolio, modelled in Dafny

grappolio is a browser game. Each player is a sphere that walks on a ground
plane and swings between buildings on a grapple rope. A small WebSocket
relay shares every player's position with the others. This project models
the two parts that hold the game's logic:

- **The local player's tick** (`main.js`, `updatePlayer` and
  `updateGrapplePhysics`). This covers ground steering, attaching and
  releasing the grapple, gravity, air control, rope tension and reeling,
  the speed limits, air resistance, building collisions and the ground
  clamp.
- **The multiplayer bookkeeping.**
  - The relay (`server.js`) registers each connection and sends `init`.
  - It re-broadcasts position reports and chat, and announces departures.
  - Each client keeps a table of puppets, one per other player, driven by
    its `onmessage` handler (`main.js`).

Each part has two layers:

- a reference definition on values (`Motion.Tick`, `Collision.Resolve`,
  `Puppets.Receive`, `Relay.AfterConnect`, ...);
- a class with the source's mutable state (`Motion.Player`,
  `Puppets.Client`, `Relay.Server`) whose methods are proved to change
  that state exactly as the reference says.

The lemmas state what the game promises about the reference definitions.

Files:

- `options.dfy`: the `Option` type.
- `vectors.dfy`: `Vector3` arithmetic and three.js `normalize`.
- `protocol.dfy`: the decoded wire messages in both directions.
- `collision.dfy`: `Box3` tests, the clamp, face classification and the resolver.
- `motion.dfy`: constants, the player state, one tick, and the `Player` object.
- `puppets.dfy`: the client's table of other players and its `onmessage`.
- `relay.dfy`: the relay's state, its three handlers, `broadcast`, and the `Server` object.
- `session.dfy`: what a new client makes of the relay's `init`.

### Modelling choices

- **Reals and lengths.** Numbers are reals, not floating point. Vector
  lengths (square roots) are not computed; the caller supplies them as a
  function `norm`.
  - `Normalize` divides by that length, or by 1 when it is 0, as three.js does.
  - The speed-cap and speed-limit lemmas require only that `norm` is nonnegative and scales
    linearly with a nonnegative factor.
- **The clock.** Each tick reads the clock once (`Frame.now`).
- **Inputs.** The world-space move direction is an input of the tick (see Left out).

### Where the code behaves unexpectedly

The model follows the code in each of these cases.

- **Building collisions.**
  - The box test is inclusive, and `clamp` of a point inside the box
    returns that point, so the penetration vector is always zero.
  - So the top, bottom and x-side responses can never be chosen.
  - A hit only zeroes the z velocity. The position still moves to
    `position + velocity` and the grounded flag is kept
    (`Collision.ContainedHitSlidesAlongZ`, `Collision.ResolveAsWritten`).
- **Standing still on the ground.** A player at rest at height 2 is not
  *below* ground level. So the next tick clears the grounded flag, and the
  tick after clamps the player back and sets it again: the flag alternates
  (`Motion.RestingOnGroundAlternates`).
- **Rope tension while reeling.** three.js `multiplyScalar` scales
  `grappleDir` in place, so the tension is applied along the reel force
  rather than along the unit direction (`Motion.RopePull`,
  `Motion.RopePullShape`).
- **The `init` list.**
  - The relay stores the new player before it sends `init`, so the list
    includes the new player itself.
  - The client adds every listed player, so it shows a puppet of itself at
    the spawn point (`Session.NewClientShowsItself`).
- **The grapple speed limit.** The damping factor is `1 - (speed - 1.2) * 0.1`.
  Above a speed of 11.2 it is negative, so the velocity is reversed rather
  than slowed. `Motion.SpeedLimitDamps` states the slowing only below that
  speed.
- **Chat.** The relay sends chat to every open client, the sender included.
  The client's `onmessage` has no chat case and ignores it.
- **Claimed ids.** The relay ignores the id a client claims. A position
  report is re-broadcast under the id the relay assigned to that
  connection.

## Model

| member | source | states |
|---|---|---|
| Vectors.NormalizeInverse | main.js:352-354 | normalising leaves the zero-length vector alone and otherwise yields a vector that, scaled by the length, gives back the input |
| Collision.Expand | main.js:260-262 | grows a box by the radius on every side; used by `Collision.Touches` and stated through `Collision.Resolve` |
| Collision.Contains | main.js:264 | the inclusive `containsPoint` test; its inclusiveness is what makes the clamp the identity in `Collision.ContainedHitSlidesAlongZ` |
| Collision.Touches | main.js:260-264 | a registry box collides with a point when its grown box contains it; stated by `Collision.FirstHit` and `Collision.Resolve` |
| Collision.Clamp | main.js:266 | on each axis with a well-formed range the clamp gives the nearest value in the range; it leaves a point inside the box unchanged and always lands inside a well-formed box |
| Collision.Classify | main.js:269-292 | the face test on the penetration vector; what each face does is stated by `Collision.Deflect`, and that only the z side is reachable by `Collision.ContainedHitSlidesAlongZ` |
| Collision.Deflect | main.js:270-293 | a hit zeroes exactly one velocity component and moves the point in that coordinate only; the player becomes grounded exactly when it was or the face is the top; a top or bottom hit puts the point on the box's top or bottom, and a side hit puts it on the reference point's coordinate |
| Collision.Respond | main.js:264-294 | the response with the clamp as the reference point; for a contained point it is stated by `Collision.ContainedHitSlidesAlongZ` |
| Collision.ContainedHitSlidesAlongZ | main.js:264-293 | for a point the grown box contains, the penetration is zero, the face is always the z side, and the response only zeroes the z velocity |
| Collision.FirstHit | main.js:257-264 | no index exactly when no grown box contains the point; otherwise the least index whose grown box contains it |
| Collision.Resolve | main.js:252-301 | a collision is reported exactly when some registry box, grown by the radius, contains `position + velocity` |
| Collision.ResolveUsesFirstHit | main.js:257-298 | the response comes from the first containing box in registry order |
| Collision.ResolveAsWritten | main.js:252-301 | as written, a hit keeps the point at `position + velocity`, zeroes only the z velocity and keeps the grounded flag; no hit gives no contact |
| Motion.AnyMoveKey | main.js:312 | some movement key is held, the guard of the air-control blocks at main.js:312 and main.js:382; related to steering by `Motion.SteeringMeansKeyDirection` |
| Motion.Steering | main.js:441-448 | the normalised key direction is nonzero |
| Motion.SteeringMeansKeyDirection | main.js:441-448 | the key direction built from w, s, a, d is nonzero exactly when w≠s or a≠d; steering needs a held movement key, and a held key fails to steer only when opposite keys cancel |
| Motion.GroundMove | main.js:440-475 | grounded and airborne steering and friction; stated by `Motion.GroundMovement` |
| Motion.Attach | main.js:479-502 | the attach branch; stated by `Motion.GrappleTransitions` and `Motion.AttachBoost` |
| Motion.BoostTilt | main.js:493-496 | the rope direction with its horizontal part times 0.8 and 0.25 added upwards; its upward sign is stated by `Motion.AttachBoost` |
| Motion.BoostDirection | main.js:493-497 | the normalised tilted rope direction; its unit length and upward sign are used in `Motion.AttachBoost` |
| Motion.TapBoost | main.js:500-502 | half the momentum plus a push along the boost direction; stated by `Motion.AttachBoost` |
| Motion.AttachBoost | main.js:489-502 | after attaching, the velocity is half the old one plus a push whose length is 0.3 plus a fifth of the old speed, pointing upwards exactly when the tilted rope direction does |
| Motion.Release | main.js:503-510 | the release branch; stated by `Motion.GrappleTransitions` |
| Motion.Control | main.js:438-511 | steering and the grapple key keep the state consistent (grappling implies an anchor, reeling implies grappling) and never move the player |
| Motion.ReelStrength | main.js:364 | the reel pull never exceeds the reel speed, is not positive within 5 units of the anchor, and reaches the reel speed from 20 units on |
| Motion.TautTension | main.js:369-370 | reeling tension is at most 0.1 and positive whenever the rope is stretched |
| Motion.SlackTension | main.js:375-376 | pre-reel tension is at most 0.06 and positive whenever the rope is stretched |
| Motion.GrappleForces | main.js:349-413 | the grapple branch changes only the velocity and the reeling flag, and reeling becomes true exactly when it already was or the key has been held past the delay |
| Motion.Forces | main.js:306-413 | the force stage keeps the state consistent and changes only velocity and the reeling flag |
| Motion.Physics | main.js:305-435 | a physics step keeps the state consistent |
| Motion.Tick | main.js:438-513 | a whole tick keeps the state consistent |
| Motion.Run | main.js:555-558 | any number of ticks keeps the state consistent |
| Motion.GroundMovement | main.js:440-475 | grounded steering sets the horizontal velocity to the direction times the move speed; grounded idling multiplies it by 0.8 and never increases it; airborne idling changes nothing; the vertical velocity is never touched |
| Motion.GrappleTransitions | main.js:479-511 | attach happens iff the key is down, the player is free and a target is visible, and records anchor, slack = current distance, start time and not-reeling; release happens iff the key is up while grappling and multiplies the velocity by 1.05; a held grapple is left alone |
| Motion.AirControl | main.js:312-347 | free-flight steering with the horizontal cap; its cap is stated by `Motion.CapHorizontalBounds` |
| Motion.ControlForce | main.js:335-336 | the steering force, larger the further the horizontal speed is below 1.2; used by `Motion.AirControl` |
| Motion.Steer | main.js:338-339 | the free-flight steering step along the horizontal move direction; used by `Motion.AirControl` and proved equal to the in-place steps of `Motion.Player.ApplyForces` |
| Motion.CapHorizontal | main.js:342-346 | the horizontal cap; stated by `Motion.CapHorizontalBounds` |
| Motion.RopePull | main.js:359-379 | the rope's velocity change; stated by `Motion.RopePullShape` |
| Motion.GrappleSteer | main.js:382-407 | the fixed steering push while grappling; stated by `Motion.GrappleSteerPush` and proved equal to the in-place steps of `Motion.Player.ApplyGrappleForces` |
| Motion.GrappleSteerPush | main.js:382-407 | steering while grappling leaves the vertical velocity alone; with a movement key it adds 0.042 times the horizontal move direction, a push of that share of its length, and otherwise nothing |
| Motion.SpeedLimit | main.js:409-413 | the grapple speed limit; stated by `Motion.SpeedLimitDamps` |
| Motion.Integrate | main.js:416-435 | damping, collision, position commit and ground clamp; stated by `Motion.IntegrateAsWritten` |
| Motion.RopePullShape | main.js:359-379 | the rope pull is the direction scaled by the reel strength, by reel strength times (1 + taut tension) when stretched while reeling, by the slack tension when stretched before reeling, and zero otherwise |
| Motion.RopeSetOnlyByAttach | main.js:479-485 | slack, anchor and start time change in a tick only when that tick attaches |
| Motion.PhysicsKeepsGrapple | main.js:305-435 | the physics stage never changes the grapple flag, anchor, slack or start time |
| Motion.ReelCondition | main.js:359 | the reel test: the attach key held and more than 150 ms since attaching; stated by `Motion.ReelStartsOnlyAfterDelay` |
| Motion.ReelStartsOnlyAfterDelay | main.js:359-361 | reeling starts only while grappling with the key held strictly longer than 150 ms, and always then |
| Motion.AttachTickNeverReels | main.js:479-485 | the tick that attaches ends grappling, not reeling, with the anchor and start time of that tick |
| Motion.GrappleEpisodeKeepsRope | main.js:479-511 | while the key stays down, every later tick keeps the grapple, its anchor, its slack and its start time |
| Motion.NoReelWithinDelay | main.js:359-379 | while the key is held within the delay, any number of ticks stay grappling without reeling |
| Motion.IntegrateAsWritten | main.js:416-435 | the end of a tick damps the velocity by 0.992; then either the collision response as written, or the position advances and is clamped to ground level with the grounded flag set exactly when it went below |
| Motion.CapHorizontalBounds | main.js:340-346 | after the free-flight cap the horizontal speed is at most 1.2 and the vertical velocity is unchanged; a slow enough velocity is left as it is |
| Motion.SpeedLimitDamps | main.js:409-413 | the grapple speed limit leaves a swing at or under 1.2 alone, and slows a faster swing to a smaller but still positive speed while the excess is below 10 |
| Motion.RestingOnGroundAlternates | main.js:428-434 | a player at rest on the ground with no input loses the grounded flag on the next tick and is back in the same state on the tick after |
| Motion.FreeFallTick | main.js:305-435 | a free-falling tick with no input and no contact applies gravity, then damping, and advances the position by the new velocity |
| Motion.Player.constructor | main.js:164-172 | the object starts in the initial state at ground height |
| Motion.Player.CheckBuildingCollisions | main.js:252-301 | walks the box array in order and reports a hit exactly as the resolver does, committing its contact, or changes nothing |
| Motion.Player.UpdateGrapplePhysics | main.js:305-435 | the fields afterwards are the physics step of the fields before |
| Motion.Player.ApplyForces | main.js:306-413 | the fields afterwards are the force stage of the fields before |
| Motion.Player.ApplyGrappleForces | main.js:349-413 | the in-place grapple computation, including `multiplyScalar` on the direction, yields the grapple branch of the reference |
| Motion.Player.PullRope | main.js:358-378 | the in-place reel and tension steps, with `multiplyScalar` on the direction, add exactly the reference rope pull and set the reeling flag as the reference does |
| Motion.Player.UpdatePlayer | main.js:438-513 | the fields afterwards are one tick of the fields before |
| Motion.Player.UpdateControls | main.js:440-511 | the fields afterwards are the control stage of the fields before |
| Motion.Player.StartGrapple | main.js:479-502 | the attach branch sets the fields as the reference attach does |
| Puppets.NewPuppet | main.js:658-673 | a puppet at the given position, at rest, rope hidden; used by `Puppets.Client.AddOtherPlayer` |
| Puppets.ShownRope | main.js:624 | a reported rope is shown only while grappling with an anchor; stated by `Puppets.ReceiveEffects` and `Puppets.MovesLastWins` |
| Puppets.Receive | main.js:599-650 | one decoded message; stated by `Puppets.ReceiveIsLocal`, `Puppets.ReceiveEffects`, `Puppets.InitShowsListedPlayers` and `Puppets.OwnReportsIgnored` |
| Puppets.ReceiveAll | main.js:599-650 | the messages of one connection in order; stated by `Puppets.MovesLastWins` and `Puppets.LeftStaysGone` |
| Puppets.AddAll | main.js:604-608 | adding the listed players gives exactly the old ids plus the listed ids |
| Puppets.AddAllLastWins | main.js:604-608 | a listed id holds a fresh puppet at the position of its last occurrence in the list |
| Puppets.AddAllKeepsOthers | main.js:604-608 | puppets whose id is not listed are untouched |
| Puppets.ReceiveIsLocal | main.js:599-650 | a message other than `init` changes at most the puppet it names and never the own id; chat changes nothing |
| Puppets.ReceiveEffects | main.js:611-648 | a join adds a fresh puppet unless it is about the client itself; a move about another known player copies position and velocity and shows the rope iff grappling with an anchor, and is otherwise ignored; a leave removes the id and ignores unknown ids |
| Puppets.InitShowsListedPlayers | main.js:603-609 | `init` sets the own id and adds exactly the listed ids, the own id included when listed |
| Puppets.InitListingSelfLast | main.js:603-609 | an `init` list that ends with the client itself sets the own id, gives the client a fresh puppet of itself at the listed position, and adds every earlier listed id |
| Puppets.OwnReportsIgnored | main.js:611-619 | once the own id is known, joins and moves about it change nothing |
| Puppets.MovesLastWins | main.js:617-638 | after a run of moves about one known other player, its puppet is exactly the one the last report describes (position, velocity and shown rope), the own id is unchanged, and no puppet appears or disappears |
| Puppets.LeftStaysGone | main.js:611-648 | an absent id stays absent through any run of messages in which no `init` lists it and no join names it |
| Puppets.Client.constructor | main.js:570-571 | the client starts with no own id and an empty table of other players |
| Puppets.Client.AddOtherPlayer | main.js:658-673 | the table gets a fresh, resting, rope-hidden puppet under the id, replacing any previous one |
| Puppets.Client.OnMessage | main.js:599-650 | the handler's loop over the `init` list and its other cases change the fields exactly as the reference does |
| Relay.Fanout | server.js:45-51 | the frames of one `broadcast`; stated by `Relay.FanoutCarries`, `Relay.FanoutRecipients`, `Relay.FanoutOncePerClient` and `Relay.FanoutStep` |
| Relay.AfterConnect | server.js:53-69 | the connection event; stated by `Relay.ConnectStores`, `Relay.ConnectKeepsValid`, `Relay.ConnectFrames` and `Relay.ConnectAnnounces` |
| Relay.AfterMessage | server.js:71-107 | the message event; stated by `Relay.MessageKeepsValid`, `Relay.MovesReachOthers`, `Relay.ChatReachesEveryone` and `Relay.BadMessagesIgnored` |
| Relay.AfterClosing | server.js:47 | a connection leaving the open state; stated by `Relay.ClosingKeepsValid` |
| Relay.AfterClose | server.js:109-119 | the close event; stated by `Relay.CloseKeepsValid` and `Relay.CloseAnnounces` |
| Relay.Recipients | server.js:45-51 | lists the recipient of each frame, in order |
| Relay.FanoutCarries | server.js:45-51 | every frame of a fan-out carries the broadcast message |
| Relay.FanoutRecipients | server.js:45-51 | a connection receives a frame exactly when it is a client, open, and not the excluded sender |
| Relay.FanoutOncePerClient | server.js:45-51 | with distinct clients, no connection receives the message twice |
| Relay.FanoutStep | server.js:46-50 | one more client in the loop adds its own frame when it is open and not the sender, and nothing otherwise |
| Relay.InitPayload | server.js:58-62 | the `init` list has one record per registered connection, in registration order |
| Relay.Without | server.js:109-115 | removing a connection keeps every other one and only those, still distinct, and changes nothing when the connection is absent |
| Relay.WithoutKeepsOrder | server.js:109-115 | removal keeps the order: removing from two runs placed one after the other is removing from each, so later `init` lists keep the players' order |
| Relay.Valid | server.js:37-55 | the bookkeeping invariant: clients are distinct, the players Map's key order equals the client order, a record exists exactly for each client, open connections are clients, and each record's id is the one its connection was given; preserved by the `KeepsValid` lemmas |
| Relay.ConnectStores | server.js:53-69 | a connection stores the handler's id and a record at the spawn point (0,2,0) for the new connection, appends it to the clients, the open set and the key order, and changes nothing else besides the outbox |
| Relay.ConnectKeepsValid | server.js:53-69 | connecting keeps the bookkeeping consistent |
| Relay.MessageKeepsValid | server.js:71-107 | handling any message keeps the bookkeeping consistent |
| Relay.ClosingKeepsValid | server.js:47 | a connection that stops being open keeps the bookkeeping consistent |
| Relay.CloseKeepsValid | server.js:109-119 | closing keeps the bookkeeping consistent and leaves no record for the closed connection |
| Relay.ConnectFrames | server.js:53-69 | a connection sends exactly two things, in order: `init` to the newcomer with the earlier records and then its own at the spawn point, and the `playerJoined` fan-out that excludes the newcomer |
| Relay.HeadThenAnnounce | server.js:45-51 | after one leading frame, a fan-out that excludes the newest client reaches each earlier open client exactly once with the announced message |
| Relay.ConnectAnnounces | server.js:53-69 | the new connection first receives `init` with its id and the earlier records followed by its own at the spawn point; then each other open client receives `playerJoined` exactly once, and nobody else does |
| Relay.InitPayloadFrame | server.js:58-62 | the `init` list depends only on the records of the listed connections |
| Relay.MovesReachOthers | server.js:76-90 | a registered sender's report changes only its own record's position and the outbox, and reaches each other open client once, under the sender's assigned id, whatever id it claims; an unregistered sender is ignored |
| Relay.ChatReachesEveryone | server.js:91-103 | chat changes no state and reaches each open client once, the sender included, under the sender's id |
| Relay.BadMessagesIgnored | server.js:72-106 | unknown types and frames that fail to parse change nothing and send nothing |
| Relay.CloseAnnounces | server.js:109-119 | a close removes the connection everywhere and keeps every other record as it was; a registered player's close changes only the client list, the open set, the records and the order (each minus that connection) and the outbox, and tells each other open client once that it left; an unregistered close changes nothing at all |
| Relay.EventsOnlyAppend | server.js:45-119 | no event removes or rewrites a frame already sent |
| Relay.Server.constructor | server.js:37 | the relay starts with no clients, no records and nothing sent |
| Relay.Server.SendToOpenClients | server.js:45-51 | the loop over the clients appends exactly the fan-out of the message |
| Relay.Server.Broadcast | server.js:45-51 | `broadcast` appends the fan-out excluding the sender and changes nothing else |
| Relay.Server.OnConnection | server.js:53-69 | the connection handler changes the fields exactly as the reference connect and keeps them consistent |
| Relay.Server.OnMessage | server.js:71-107 | the message handler changes the fields exactly as the reference does and keeps them consistent |
| Relay.Server.OnClosing | server.js:47 | a connection leaving the open state is removed from the open set only |
| Relay.Server.OnClose | server.js:109-119 | the close handler changes the fields exactly as the reference close and keeps them consistent |
| Session.SpawnIsStart | server.js:55 | the relay's spawn point is the local player's starting position |
| Session.InitFrameShows | main.js:603-609 | a client receiving the relay's `init` frame takes the id, shows a puppet of itself at the spawn point, and shows every registered player |
| Session.NewClientShowsItself | server.js:53-62 | the `init` frame goes to the new client; its own id is set, a puppet of itself stands at the spawn point, and every earlier player has a puppet |

## Left out

- Rendering, meshes, rope geometry, the camera, the grapple target raycast and window events are left out. Only their effect on the state is kept: the visible target is `Frame.target`, and a shown rope is its anchor.
- The camera-relative move direction (`moveDirection`, `applyAxisAngle`, `crossVectors`) is an input of the tick (`Frame.moveDir`), because it comes from the mouse-driven camera.
- `Frame.moveDir` is not tied to the keys. When opposite keys cancel, the code's direction is zero, but a frame may carry any direction. Every lemma holds for all directions, so the code's zero direction is covered too.
- Square roots are left out. `length()` and `distanceTo` are the supplied function `norm`.
- Floating-point rounding is left out; arithmetic is exact over the reals.
- `Motion.Tick`: `Date.now()` is read once per tick rather than once at attach time and once at the reel test.
- `Motion.Tick`: the position report to the server at the end of `updatePlayer` is left out, because it is output only. Its contents are the tick's resulting state, the message `Protocol.PositionUpdate`.
- `updateRope` and the `animate` loop's rendering are left out, because they do not change the player's state.
- The constants `MOUSE_SENSITIVITY`, `AIR_CONTROL`, `AIR_BRAKE`, `MOMENTUM_INFLUENCE`, `LATERAL_CONTROL_BOOST` and `MAX_GRAPPLE_DISTANCE` are left out, because no modelled code reads them.
- The city's building layout (`createBuilding`, the grid) is left out. The collidable boxes are an input.
- JSON encoding and decoding are left out. Messages are the decoded datatypes of `protocol.dfy`, and a frame that fails to parse is `Protocol.ClientMsg.Malformed`. Fields the relay forwards without inspecting them are taken as well-formed values.
- `generateId` (`Math.random`) is left out. The id is a parameter of `Relay.AfterConnect`, and, as in the code, it is not checked for uniqueness.
- Sockets, network delivery and concurrency are left out. Frames are appended to `outbox` in send order; delivery and the order of events across connections are not modelled.
- Motion.Player.StartGrapple: the new velocity is computed by the `TapBoost` function rather than by the two in-place vector steps. This keeps the proof within the resource limit; the value is the same.
- Motion.SpeedLimitDamps: requires the speed to be below 11.2, since the code's factor turns negative above it; it is proved, like the cap, for any nonnegative length function that scales linearly.
- Motion.AttachBoost: proved for any nonnegative length function that scales linearly, and only when the tilted rope direction is not zero; for a zero tilt three.js leaves the direction zero and the push is zero.
- Motion.CapHorizontalBounds: proved for any length function that is nonnegative and scales linearly with a nonnegative factor, not for the Euclidean length itself.
- Session.NewClientShowsItself: relates one relay event to one client message. The ordering of the other frames on that connection is not modelled.
- Connection and disconnection logging, and the console error on a bad frame, are left out.
