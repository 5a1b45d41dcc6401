/**
 * The collision probe (`checkCollision` in src/THREE/RayCaster.js): the ray is shot in the
 * direction the character is walking, and every box it meets closer than 25 flags the collision;
 * an unflagged box is flagged and sent away through `moveSingleBox`.
 *
 * The geometry of the intersection test is not modelled: the intersections three.js returns are an
 * input, a sequence of hits, each a distance and the index of the box that was hit. A box can appear
 * in several hits (the main boxes carry three material groups over the same faces).
 */
module RayCaster {
  import opened Common
  import Character
  import Boxes

  // ---------------------------------------------------------------------------------------------
  // Direction of the ray

  /** `currentDirection`: the way the character is walking. */
  datatype Direction = Forward | Backward | Left | Right

  /** The direction the probe looks in, by priority forward, backward, left, right; `None` when no
      movement key is held (and `checkCollision` returns early). */
  function Probe(keys: Character.Keys): (d: Option<Direction>)
    ensures d == None <==> !(keys.forward || keys.backward || keys.left || keys.right)
    ensures d == Some(Forward) <==> keys.forward
    ensures d == Some(Backward) <==> !keys.forward && keys.backward
    ensures d == Some(Left) <==> !keys.forward && !keys.backward && keys.left
    ensures d == Some(Right) <==> !keys.forward && !keys.backward && !keys.left && keys.right
  {
    if keys.forward then Some(Forward)
    else if keys.backward then Some(Backward)
    else if keys.left then Some(Left)
    else if keys.right then Some(Right)
    else None
  }

  /** The angle of `makeRotationY` for each direction, in degrees (no rotation for forward). */
  function Degrees(d: Direction): (deg: int)
    ensures 0 <= deg < 360 && deg % 90 == 0
  {
    match d
    case Forward => 0
    case Backward => 180
    case Left => 90
    case Right => 360 - 90
  }

  /** `applyMatrix4(makeRotationY(θ))` for the quarter turns θ used here, with the exact values of
      sine and cosine: x' = x cos θ + z sin θ, z' = z cos θ - x sin θ. */
  function RotateY(v: Vec3, d: Direction): Vec3
  {
    match d
    case Forward => v
    case Backward => Vec3(-v.x, v.y, -v.z)
    case Left => Vec3(v.z, v.y, -v.x)
    case Right => Vec3(-v.z, v.y, v.x)
  }

  /** The cosine and sine of `Degrees(d)`. */
  function Cos(d: Direction): real
  {
    match d
    case Forward => 1.0
    case Backward => -1.0
    case Left => 0.0
    case Right => 0.0
  }

  function Sin(d: Direction): real
  {
    match d
    case Forward => 0.0
    case Backward => 0.0
    case Left => 1.0
    case Right => -1.0
  }

  /** The quarter turns agree with the rotation matrix of three.js about the y axis, and keep the
      length of the horizontal part of the vector. */
  lemma RotateYIsRotation(v: Vec3, d: Direction)
    ensures Cos(d) * Cos(d) + Sin(d) * Sin(d) == 1.0
    ensures RotateY(v, d) == Vec3(v.x * Cos(d) + v.z * Sin(d), v.y, v.z * Cos(d) - v.x * Sin(d))
    ensures var r := RotateY(v, d); r.x * r.x + r.z * r.z == v.x * v.x + v.z * v.z
  {
    match d
    case Forward =>
    case Backward =>
    case Left =>
    case Right =>
  }

  /** Turning by two opposite directions in a row gives back the camera direction. */
  lemma OppositeTurnsCancel(v: Vec3)
    ensures RotateY(RotateY(v, Left), Right) == v
    ensures RotateY(RotateY(v, Backward), Backward) == v
  {
  }

  /** The ray's direction: the camera direction turned toward the walking direction and flattened. */
  function RayDirection(camera: Vec3, d: Direction): (r: Vec3)
    ensures r.y == 0.0
    ensures r.x * r.x + r.z * r.z == camera.x * camera.x + camera.z * camera.z
  {
    RotateYIsRotation(camera, d);
    RotateY(camera, d).(y := 0.0)
  }

  /** The height the ray is cast from. */
  const RayHeight: real := 18.0

  /** The ray's origin: the character's position lifted to height 18. */
  function RayOrigin(character: Vec3): (r: Vec3)
    ensures r.x == character.x && r.z == character.z && r.y == RayHeight
  {
    character.(y := RayHeight)
  }

  // ---------------------------------------------------------------------------------------------
  // The hit-flagging loop

  /** The `near` and `far` the raycaster is built with, and the distance under which a hit counts. */
  const Near: real := 0.0
  const Far: real := 20.0
  const Reach: real := 25.0

  /** One element of `intersects`: its distance and the index of the box it belongs to. */
  datatype Hit = Hit(distance: real, box: nat)

  /** Every hit belongs to one of the first `n` boxes. */
  predicate HitsIn(hits: seq<Hit>, n: nat)
  {
    forall k :: 0 <= k < |hits| ==> hits[k].box < n
  }

  /** Some hit on box b is closer than 25. */
  ghost predicate NearHit(hits: seq<Hit>, b: nat)
  {
    exists k :: 0 <= k < |hits| && hits[k].box == b && hits[k].distance < Reach
  }

  /** The state the loop leaves behind: the `collision` field, the boxes' flags, and the boxes handed
      to `moveSingleBox`, in call order. */
  datatype Sweep = Sweep(collision: bool, flags: seq<bool>, requests: seq<nat>)

  /** The loop over `intersects`, hit by hit, starting from the flags `flags`. */
  function Scan(flags: seq<bool>, hits: seq<Hit>): (r: Sweep)
    requires HitsIn(hits, |flags|)
    ensures |r.flags| == |flags| && Boxes.BoxesIn(r.requests, |flags|)
    decreases |hits|
  {
    if hits == [] then Sweep(false, flags, [])
    else
      var prev := Scan(flags, hits[..|hits| - 1]);
      var h := hits[|hits| - 1];
      if h.distance < Reach then
        if !prev.flags[h.box] then Sweep(true, prev.flags[h.box := true], prev.requests + [h.box])
        else prev.(collision := true)
      else prev
  }

  lemma PrefixHits(hits: seq<Hit>, b: nat)
    requires hits != []
    ensures NearHit(hits, b) <==>
              NearHit(hits[..|hits| - 1], b) ||
              (hits[|hits| - 1].box == b && hits[|hits| - 1].distance < Reach)
  {
    var init := hits[..|hits| - 1];
    if NearHit(hits, b) {
      var k :| 0 <= k < |hits| && hits[k].box == b && hits[k].distance < Reach;
      if k < |init| {
        assert init[k] == hits[k];
      }
    }
    if NearHit(init, b) {
      var k :| 0 <= k < |init| && init[k].box == b && init[k].distance < Reach;
      assert hits[k] == init[k];
    }
  }

  /** `collision` ends true exactly when some hit is closer than 25. */
  lemma {:induction false} ScanCollision(flags: seq<bool>, hits: seq<Hit>)
    requires HitsIn(hits, |flags|)
    ensures Scan(flags, hits).collision <==> exists k :: 0 <= k < |hits| && hits[k].distance < Reach
    decreases |hits|
  {
    if hits != [] {
      var init := hits[..|hits| - 1];
      ScanCollision(flags, init);
      if exists k :: 0 <= k < |init| && init[k].distance < Reach {
        var k :| 0 <= k < |init| && init[k].distance < Reach;
        assert hits[k] == init[k];
      }
      if exists k :: 0 <= k < |hits| && hits[k].distance < Reach {
        var k :| 0 <= k < |hits| && hits[k].distance < Reach;
        if k < |init| {
          assert init[k] == hits[k];
        }
      }
    }
  }

  /** A box ends flagged exactly when it was flagged already or some hit on it is closer than 25. */
  lemma {:induction false} ScanFlags(flags: seq<bool>, hits: seq<Hit>, b: nat)
    requires HitsIn(hits, |flags|) && b < |flags|
    ensures Scan(flags, hits).flags[b] <==> flags[b] || NearHit(hits, b)
    decreases |hits|
  {
    if hits != [] {
      ScanFlags(flags, hits[..|hits| - 1], b);
      PrefixHits(hits, b);
    }
  }

  /** A box is handed to `moveSingleBox` exactly when it was unflagged and some hit on it is closer
      than 25. */
  lemma {:induction false} ScanRequests(flags: seq<bool>, hits: seq<Hit>, b: nat)
    requires HitsIn(hits, |flags|)
    ensures b in Scan(flags, hits).requests <==> b < |flags| && !flags[b] && NearHit(hits, b)
    decreases |hits|
  {
    if hits != [] {
      var init := hits[..|hits| - 1];
      ScanRequests(flags, init, b);
      PrefixHits(hits, b);
      if b < |flags| {
        ScanFlags(flags, init, b);
      }
    }
  }

  /** No element of q occurs twice. */
  predicate Distinct(q: seq<nat>)
  {
    forall i, j :: 0 <= i < j < |q| ==> q[i] != q[j]
  }

  lemma DistinctAppend(q: seq<nat>, x: nat)
    requires Distinct(q) && x !in q
    ensures Distinct(q + [x])
  {
    var r := q + [x];
    forall i, j | 0 <= i < j < |r|
      ensures r[i] != r[j]
    {
      assert r[i] == q[i];
      if j == |q| {
        assert r[j] == x;
      } else {
        assert r[j] == q[j];
      }
    }
  }

  /** No box is handed to `moveSingleBox` twice in one sweep, however many hits it has. */
  lemma {:induction false} ScanRequestsDistinct(flags: seq<bool>, hits: seq<Hit>)
    requires HitsIn(hits, |flags|)
    ensures Distinct(Scan(flags, hits).requests)
    decreases |hits|
  {
    if hits != [] {
      var init := hits[..|hits| - 1];
      ScanRequestsDistinct(flags, init);
      var h := hits[|hits| - 1];
      var prev := Scan(flags, init);
      if h.distance < Reach && !prev.flags[h.box] {
        ScanRequests(flags, init, h.box);
        ScanFlags(flags, init, h.box);
        assert h.box !in prev.requests;
        assert Scan(flags, hits).requests == prev.requests + [h.box];
        DistinctAppend(prev.requests, h.box);
      } else {
        assert Scan(flags, hits).requests == prev.requests;
      }
    }
  }

  /** Sweeping again with the flags a sweep left behind hands no box to `moveSingleBox` and changes
      no flag. */
  lemma ScanSettles(flags: seq<bool>, hits: seq<Hit>)
    requires HitsIn(hits, |flags|)
    ensures var first := Scan(flags, hits);
            var second := Scan(first.flags, hits);
            second.requests == [] && second.flags == first.flags
  {
    var first := Scan(flags, hits);
    var second := Scan(first.flags, hits);
    if second.requests != [] {
      var b := second.requests[0];
      ScanRequests(first.flags, hits, b);
      ScanFlags(flags, hits, b);
      assert false;
    }
    forall b | 0 <= b < |flags|
      ensures second.flags[b] == first.flags[b]
    {
      ScanFlags(first.flags, hits, b);
      ScanFlags(flags, hits, b);
    }
  }

  /** With the raycaster's own range [0, 20], every hit it returns is within 25: each hit box ends
      flagged. */
  lemma HitsWithinFarAllCount(flags: seq<bool>, hits: seq<Hit>, k: nat)
    requires HitsIn(hits, |flags|) && k < |hits|
    requires forall j :: 0 <= j < |hits| ==> Near <= hits[j].distance <= Far
    ensures Scan(flags, hits).flags[hits[k].box]
    ensures Scan(flags, hits).collision
  {
    ScanFlags(flags, hits, hits[k].box);
    ScanCollision(flags, hits);
  }

  // ---------------------------------------------------------------------------------------------
  // Flags of the box list

  /** The collision flags of the boxes. */
  function Flags(boxes: seq<Boxes.BoxData>): (f: seq<bool>)
    ensures |f| == |boxes| && forall i :: 0 <= i < |boxes| ==> f[i] == boxes[i].collision
  {
    seq(|boxes|, i requires 0 <= i < |boxes| => boxes[i].collision)
  }

  /** The boxes with their collision flags replaced by `flags`, everything else kept. */
  function WithFlags(boxes: seq<Boxes.BoxData>, flags: seq<bool>): (r: seq<Boxes.BoxData>)
    requires |flags| == |boxes|
    ensures |r| == |boxes|
    ensures forall i :: 0 <= i < |boxes| ==> r[i] == boxes[i].(collision := flags[i])
  {
    seq(|boxes|, i requires 0 <= i < |boxes| => boxes[i].(collision := flags[i]))
  }

  lemma WithOwnFlags(boxes: seq<Boxes.BoxData>)
    ensures WithFlags(boxes, Flags(boxes)) == boxes
  {
  }

  lemma WithFlagsSet(boxes: seq<Boxes.BoxData>, flags: seq<bool>, b: nat)
    requires |flags| == |boxes| && b < |boxes|
    ensures WithFlags(boxes, flags[b := true]) ==
              WithFlags(boxes, flags)[b := WithFlags(boxes, flags)[b].(collision := true)]
  {
  }

  // ---------------------------------------------------------------------------------------------
  // The probe object

  /** The `RayCaster` instance: its collision result, the last camera direction and walking
      direction, and the ray of `collisionRaycaster`. */
  class CollisionRay {
    var collision: bool
    var cameraDirection: Vec3
    var currentDirection: Option<Direction>
    var origin: Vec3
    var direction: Vec3
    const near: real
    const far: real

    /** `init`: a ray at the origin with a zero direction and the range [0, 20]. */
    constructor ()
      ensures !collision && currentDirection == None
      ensures origin == Vec3(0.0, 0.0, 0.0) && direction == Vec3(0.0, 0.0, 0.0)
      ensures near == Near && far == Far
    {
      collision := false;
      cameraDirection := Vec3(0.0, 0.0, 0.0);
      currentDirection := None;
      origin := Vec3(0.0, 0.0, 0.0);
      direction := Vec3(0.0, 0.0, 0.0);
      near := Near;
      far := Far;
    }

    /** `checkCollision`, given the held keys, the camera's world direction, the character's position
        and the intersections of the ray with `field`'s boxes, in the order three.js returns them. */
    method CheckCollision(keys: Character.Keys, camera: Vec3, character: Vec3, hits: seq<Hit>,
                          field: Boxes.BoxField)
      requires field.Valid() && HitsIn(hits, |field.boxes|)
      modifies this, field
      ensures field.Valid()
      ensures Probe(keys) == None ==>
                && !collision && cameraDirection == camera
                && currentDirection == old(currentDirection)
                && origin == old(origin) && direction == old(direction)
                && unchanged(field)
      ensures Probe(keys) != None ==>
                var sweep := Scan(Flags(old(field.boxes)), hits);
                && currentDirection == Probe(keys)
                && origin == RayOrigin(character)
                && direction == RayDirection(camera, Probe(keys).value) && cameraDirection == direction
                && collision == sweep.collision
                && field.boxes == WithFlags(old(field.boxes), sweep.flags)
                && var batch := Boxes.MoveAll(field.rng, character, old(field.boxes), sweep.requests, 2, old(field.cursor));
                && field.pending == old(field.pending) + batch.tweens
                && field.moves == old(field.moves) + batch.moves
                && field.cursor == batch.cursor
    {
      cameraDirection := camera;
      collision := false;
      var d: Direction;
      if keys.forward {
        d := Forward;
      } else if keys.backward {
        d := Backward;
      } else if keys.left {
        d := Left;
      } else if keys.right {
        d := Right;
      } else {
        return;
      }
      currentDirection := Some(d);
      cameraDirection := RotateY(cameraDirection, d);
      cameraDirection := cameraDirection.(y := 0.0);
      origin := character;
      origin := origin.(y := RayHeight);
      direction := cameraDirection;

      SweepHits(hits, character, field);
    }

    /** The `for` loop of `checkCollision` over the intersections. */
    method SweepHits(hits: seq<Hit>, character: Vec3, field: Boxes.BoxField)
      requires field.Valid() && HitsIn(hits, |field.boxes|)
      modifies this`collision, field
      ensures field.Valid()
      ensures var sweep := Scan(Flags(old(field.boxes)), hits);
              && collision == (old(collision) || sweep.collision)
              && field.boxes == WithFlags(old(field.boxes), sweep.flags)
              && var batch := Boxes.MoveAll(field.rng, character, old(field.boxes), sweep.requests, 2, old(field.cursor));
              && field.pending == old(field.pending) + batch.tweens
              && field.moves == old(field.moves) + batch.moves
              && field.cursor == batch.cursor
    {
      ghost var collision0 := collision;
      ghost var boxes0 := field.boxes;
      ghost var pending0 := field.pending;
      ghost var moves0 := field.moves;
      ghost var cursor0 := field.cursor;
      ghost var flags0 := Flags(boxes0);
      WithOwnFlags(boxes0);
      for i := 0 to |hits|
        invariant field.Valid() && |field.boxes| == |boxes0|
        invariant var sweep := Scan(flags0, hits[..i]);
                  && collision == (collision0 || sweep.collision)
                  && field.boxes == WithFlags(boxes0, sweep.flags)
                  && Sent(field, character, boxes0, sweep.requests, pending0, moves0, cursor0)
      {
        ScanStep(flags0, hits, i);
        if hits[i].distance < Reach {
          collision := true;
          var b := hits[i].box;
          if !field.boxes[b].collision {
            ghost var prev := Scan(flags0, hits[..i]);
            WithFlagsSet(boxes0, prev.flags, b);
            FlagAfter(field, b, character, boxes0, prev.requests, pending0, moves0, cursor0);
          }
        }
      }
      assert hits[..|hits|] == hits;
    }
  }

  /** One more hit: the step of `Scan` on a prefix of the hits. */
  lemma ScanStep(flags: seq<bool>, hits: seq<Hit>, i: nat)
    requires HitsIn(hits, |flags|) && i < |hits|
    ensures HitsIn(hits[..i], |flags|) && HitsIn(hits[..i + 1], |flags|)
    ensures var prev := Scan(flags, hits[..i]);
            var h := hits[i];
            Scan(flags, hits[..i + 1]) ==
              if h.distance < Reach then
                if !prev.flags[h.box] then Sweep(true, prev.flags[h.box := true], prev.requests + [h.box])
                else prev.(collision := true)
              else prev
  {
    assert hits[..i + 1][..i] == hits[..i];
  }

  /** The field's tweens, calls and cursor are those of `moveSingleBox(b)` at the normal speed for
      each b of `requests` in turn, after `pending0`, `moves0` and `cursor0`. */
  ghost predicate Sent(field: Boxes.BoxField, character: Vec3, boxes0: seq<Boxes.BoxData>, requests: seq<nat>,
                       pending0: seq<Boxes.Tween>, moves0: seq<Boxes.Move>, cursor0: nat)
    reads field
  {
    && Boxes.Endless(field.rng) && Boxes.BoxesIn(requests, |boxes0|)
    && var batch := Boxes.MoveAll(field.rng, character, boxes0, requests, 2, cursor0);
    && field.pending == pending0 + batch.tweens
    && field.moves == moves0 + batch.moves
    && field.cursor == batch.cursor
  }

  /** Flagging and moving one more unflagged box b extends the run of calls by b. */
  method FlagAfter(field: Boxes.BoxField, b: nat, character: Vec3, ghost boxes0: seq<Boxes.BoxData>,
                   ghost requests: seq<nat>, ghost pending0: seq<Boxes.Tween>, ghost moves0: seq<Boxes.Move>,
                   ghost cursor0: nat)
    requires field.Valid() && b < |field.boxes| && !field.boxes[b].collision
    requires |boxes0| == |field.boxes| && field.boxes[b].rotation == boxes0[b].rotation
    requires Sent(field, character, boxes0, requests, pending0, moves0, cursor0)
    modifies field
    ensures field.Valid()
    ensures field.boxes == old(field.boxes)[b := old(field.boxes[b]).(collision := true)]
    ensures Sent(field, character, boxes0, requests + [b], pending0, moves0, cursor0)
  {
    ghost var batch := Boxes.MoveAll(field.rng, character, boxes0, requests, 2, cursor0);
    Flag(field, b, character);
    Boxes.MoveAllSnoc(field.rng, character, boxes0, requests, b, 2, cursor0);
    assert field.pending == pending0 + (batch.tweens + field.pending[|old(field.pending)|..]);
    assert field.moves == moves0 + (batch.moves + field.moves[|old(field.moves)|..]);
  }

  /** The body of the `if (!intersectedBox.userData.collision)` branch: flag box b and move it, at
      the normal speed, to the first far-enough draw from the field's cursor on. */
  method Flag(field: Boxes.BoxField, b: nat, character: Vec3)
    requires field.Valid() && b < |field.boxes| && !field.boxes[b].collision
    modifies field
    ensures field.Valid()
    ensures field.boxes == old(field.boxes)[b := old(field.boxes[b]).(collision := true)]
    ensures field.cursor == Boxes.FirstAccepted(field.rng, old(field.cursor)) + 1
    ensures var target := Add(Boxes.Offset(field.rng(field.cursor - 1)), character);
            && SquaredLength(Sub(target, character)) >= 1600.0
            && field.moves == old(field.moves) + [Boxes.Move(b, target, 2)]
            && field.pending == old(field.pending) +
                 [Boxes.Relocate(b, target, true), Boxes.Spin(b, old(field.boxes[b]).rotation)]
  {
    ghost var p0 := field.pending;
    field.boxes := field.boxes[b := field.boxes[b].(collision := true)];
    field.MoveSingleBox(b, Boxes.Normal, character);
    Boxes.FlagNowCovered(old(field.boxes), p0, field.pending, b);
  }
}
