/**
 * The movable boxes (`Boxes` in src/THREE/Boxes.js): their creation, the random relocation
 * target of `getNewBoxPosition`, the periodic mover, and the tweens whose completion callbacks
 * clear a box's collision flag and advance its rotation counter.
 *
 * `Math.random()` is an explicit stream of draws: draw n is `rng(n)`, three integers in 0..19 (what
 * `Math.floor(Math.random() * 20)` yields), and `cursor` is the next unread draw. Tweens are not
 * timed: starting one appends it to `pending`, and its completion is the event `CompleteTween`.
 */
module Boxes {
  import opened Common

  // ---------------------------------------------------------------------------------------------
  // Relocation targets

  type Digit = d: int | 0 <= d < 20

  /** One pass of the `do` body: `Math.floor(Math.random() * 20 ...)` for x, y and z. */
  datatype Draw = Draw(x: Digit, y: Digit, z: Digit)

  /** The position a draw gives before it is moved next to the character. */
  function Offset(d: Draw): Vec3
  {
    Vec3(((d.x - 10) * 20) as real, (d.y * 7 + 10) as real, ((d.z - 10) * 20) as real)
  }

  /** Every drawn position lies on the grid. */
  lemma OffsetOnGrid(d: Draw)
    ensures OnGrid(Offset(d))
  {
  }

  /** x and z are multiples of 20 in [-200, 180]; y is 7k + 10 with k in 0..19. */
  predicate OnGrid(v: Vec3)
  {
    && v.x == v.x.Floor as real && v.x.Floor % 20 == 0 && -200.0 <= v.x <= 180.0
    && v.z == v.z.Floor as real && v.z.Floor % 20 == 0 && -200.0 <= v.z <= 180.0
    && v.y == v.y.Floor as real && (v.y.Floor - 10) % 7 == 0 && 10.0 <= v.y <= 143.0
  }

  /** The `while (distanceToCharacter < 40)` test, on squared lengths: a draw is kept when its
      position lies at least 40 away from the character. */
  predicate Accepted(d: Draw)
  {
    SquaredLength(Offset(d)) >= 1600.0
  }

  /** The distance the loop tests does not depend on where the character stands. */
  lemma AcceptanceIgnoresCharacter(d: Draw, character: Vec3)
    ensures SquaredLength(Sub(Add(Offset(d), character), character)) == SquaredLength(Offset(d))
  {
    assert Sub(Add(Offset(d), character), character) == Offset(d);
  }

  /** Every draw whose x digit is 0 or whose z digit is 0 (a coordinate of -200) is kept, so each
      pass of the loop has a positive chance to end it. */
  lemma EdgeDrawsAreAccepted(d: Draw)
    requires d.x == 0 || d.z == 0
    ensures Accepted(d)
  {
    var v := Offset(d);
    assert v.y * v.y >= 0.0;
    if d.x == 0 {
      assert v.x == -200.0;
      assert v.z * v.z >= 0.0;
    } else {
      assert v.z == -200.0;
      assert v.x * v.x >= 0.0;
    }
  }

  /** Some draw at index `start` or later is kept: exactly what the `do/while` needs to stop. */
  ghost predicate AcceptedFrom(rng: nat -> Draw, start: nat)
  {
    exists j: nat :: j >= start && Accepted(rng(j))
  }

  /** `getNewBoxPosition`: read draws from `start` until one is at least 40 away from the character.
      The position is the first kept draw, moved next to the character; `next` is the first unread draw. */
  method GetNewBoxPosition(character: Vec3, rng: nat -> Draw, start: nat) returns (pos: Vec3, next: nat)
    requires AcceptedFrom(rng, start)
    ensures start < next && Accepted(rng(next - 1))
    ensures forall j :: start <= j < next - 1 ==> !Accepted(rng(j))
    ensures pos == Add(Offset(rng(next - 1)), character)
    ensures SquaredLength(Sub(pos, character)) >= 1600.0
  {
    ghost var stop: nat :| stop >= start && Accepted(rng(stop));
    next := start;
    var distance: real;
    // do { … } while (distance < 40)
    pos, distance := Attempt(character, rng(next));
    next := next + 1;
    while distance < 1600.0
      invariant start < next <= stop + 1
      invariant pos == Add(Offset(rng(next - 1)), character)
      invariant distance == SquaredLength(Sub(pos, character))
      invariant distance >= 1600.0 <==> Accepted(rng(next - 1))
      invariant forall j :: start <= j < next - 1 ==> !Accepted(rng(j))
      decreases stop + 1 - next
    {
      pos, distance := Attempt(character, rng(next));
      next := next + 1;
    }
  }

  /** One pass of the `do` body: the drawn position next to the character and its squared distance
      to the character, which is at least 1600 exactly when the draw is kept. */
  method Attempt(character: Vec3, d: Draw) returns (pos: Vec3, distance: real)
    ensures pos == Add(Offset(d), character)
    ensures distance == SquaredLength(Sub(pos, character))
    ensures distance >= 1600.0 <==> Accepted(d)
  {
    pos := Add(Offset(d), character);
    distance := SquaredLength(Sub(pos, character));
    AcceptanceIgnoresCharacter(d, character);
  }

  /** The index of the first kept draw at or after `start`: the draw `getNewBoxPosition` stops at. */
  ghost function FirstAccepted(rng: nat -> Draw, start: nat): (j: nat)
    requires AcceptedFrom(rng, start)
    ensures start <= j && Accepted(rng(j)) && NoneKept(rng, start, j)
  {
    var stop: nat :| stop >= start && Accepted(rng(stop));
    FirstKeptExists(rng, start, stop);
    var j: nat :| start <= j && Accepted(rng(j)) && NoneKept(rng, start, j);
    j
  }

  /** No draw in [start, end) is kept. */
  ghost predicate NoneKept(rng: nat -> Draw, start: nat, end: nat)
    decreases end - start
  {
    start >= end || (!Accepted(rng(start)) && NoneKept(rng, start + 1, end))
  }

  lemma {:induction false} NoneKeptMeans(rng: nat -> Draw, start: nat, end: nat)
    ensures NoneKept(rng, start, end) <==> forall k :: start <= k < end ==> !Accepted(rng(k))
    decreases end - start
  {
    if start < end {
      NoneKeptMeans(rng, start + 1, end);
    }
  }

  /** Below a kept draw there is a first kept one. */
  lemma {:induction false} FirstKeptExists(rng: nat -> Draw, start: nat, stop: nat)
    requires start <= stop && Accepted(rng(stop))
    ensures exists j: nat :: start <= j && Accepted(rng(j)) && NoneKept(rng, start, j)
    decreases stop - start
  {
    if Accepted(rng(start)) {
      assert NoneKept(rng, start, start);
    } else {
      FirstKeptExists(rng, start + 1, stop);
      var j: nat :| start + 1 <= j && Accepted(rng(j)) && NoneKept(rng, start + 1, j);
      assert NoneKept(rng, start, j);
    }
  }

  /** A kept draw with no kept draw before it, from `start` on, is the first one. */
  lemma FirstAcceptedIsFirst(rng: nat -> Draw, start: nat, j: nat)
    requires start <= j && Accepted(rng(j))
    requires forall k :: start <= k < j ==> !Accepted(rng(k))
    ensures j == FirstAccepted(rng, start)
  {
    NoneKeptMeans(rng, start, FirstAccepted(rng, start));
  }

  // ---------------------------------------------------------------------------------------------
  // Boxes and tweens

  /** A box's position and its `userData`: the collision flag and the rotation counter. */
  datatype BoxData = BoxData(position: Vec3, collision: bool, rotation: int)

  /** The `speed` argument of `moveSingleBox`: `'slow'` or anything else. */
  datatype Speed = Slow | Normal

  /** The factor the tween durations are drawn with. */
  function SpeedFactor(s: Speed): int
  {
    match s
    case Slow => 6
    case Normal => 2
  }

  /** A `moveSingleBox` call: which box, where it goes, how slowly. */
  datatype Move = Move(box: nat, target: Vec3, speedFactor: int)

  /** A running tween that has an `onComplete` callback. The scale tween has none and is not kept. */
  datatype Tween =
    | Relocate(box: nat, target: Vec3, clearsFlag: bool) // position tween; `moveSingleBox`'s clears the flag
    | Spin(box: nat, turns: int)                          // rotation tween to `radians(turns * 360)`

  /** The box a tween unflags on completion, if any. */
  function Clears(t: Tween): multiset<nat>
  {
    if t.Relocate? && t.clearsFlag then multiset{t.box} else multiset{}
  }

  /** The boxes the running tweens will unflag on completion, with multiplicity. */
  function Clearing(pending: seq<Tween>): multiset<nat>
    decreases |pending|
  {
    if pending == [] then multiset{}
    else Clearing(pending[..|pending| - 1]) + Clears(pending[|pending| - 1])
  }

  /** Starting two tweens adds what each of them clears. */
  lemma ClearingAppendPair(p: seq<Tween>, t1: Tween, t2: Tween)
    ensures Clearing(p + [t1, t2]) == Clearing(p) + Clears(t1) + Clears(t2)
  {
    assert p + [t1, t2] == (p + [t1]) + [t2];
    ClearingSnoc(p, t1);
    ClearingSnoc(p + [t1], t2);
  }

  /** Starting one tween adds what it clears. */
  lemma ClearingSnoc(p: seq<Tween>, t: Tween)
    ensures Clearing(p + [t]) == Clearing(p) + Clears(t)
  {
    assert (p + [t])[..|p|] == p;
  }

  /** What the `onComplete` of tween `t` does to its box. */
  function Completed(box: BoxData, t: Tween): BoxData
  {
    match t
    case Relocate(_, target, clears) => box.(position := target, collision := box.collision && !clears)
    case Spin(_, _) => box.(rotation := box.rotation + 1)
  }

  lemma {:induction false} ClearingAppend(a: seq<Tween>, b: seq<Tween>)
    ensures Clearing(a + b) == Clearing(a) + Clearing(b)
    decreases |b|
  {
    if b == [] {
      assert a + b == a;
    } else {
      assert (a + b)[..|a + b| - 1] == a + b[..|b| - 1];
      ClearingAppend(a, b[..|b| - 1]);
    }
  }

  /** Removing the tween at index k removes exactly what it would clear. */
  lemma {:induction false} ClearingRemove(p: seq<Tween>, k: nat)
    requires k < |p|
    ensures Clearing(p) == Clearing(p[..k] + p[k + 1..]) + Clears(p[k])
  {
    assert [p[k]][..0] == [];
    assert p == p[..k] + [p[k]] + p[k + 1..];
    ClearingAppend(p[..k] + [p[k]], p[k + 1..]);
    ClearingAppend(p[..k], [p[k]]);
    ClearingAppend(p[..k], p[k + 1..]);
  }

  /** Running tweens at `at` and `at + 1` are the pair `updateBoxPositions` starts for box `i`. */
  predicate Respawn(pending: seq<Tween>, at: nat, i: nat, rotation: int, character: Vec3)
  {
    && at + 1 < |pending|
    && pending[at].Relocate? && pending[at].box == i && !pending[at].clearsFlag
    && SquaredLength(Sub(pending[at].target, character)) >= 1600.0
    && pending[at + 1] == Spin(i, rotation)
  }

  /** Every flagged box has a running position tween that will clear its flag: no flag is stuck. */
  ghost predicate FlagsCovered(boxes: seq<BoxData>, pending: seq<Tween>)
  {
    forall b :: 0 <= b < |boxes| && boxes[b].collision ==> b in Clearing(pending)
  }

  /** Flagging box b while a tween that clears it starts keeps every flag covered. */
  lemma FlagNowCovered(boxes: seq<BoxData>, p: seq<Tween>, p2: seq<Tween>, b: nat)
    requires FlagsCovered(boxes, p) && b < |boxes|
    requires Clearing(p2) == Clearing(p) + multiset{b}
    ensures FlagsCovered(boxes[b := boxes[b].(collision := true)], p2)
  {
    var after := boxes[b := boxes[b].(collision := true)];
    forall c | 0 <= c < |after| && after[c].collision
      ensures c in Clearing(p2)
    {
      if c != b {
        assert boxes[c].collision;
      }
    }
  }

  /** Every running tween belongs to one of the first `n` boxes. */
  predicate NamesBoxes(pending: seq<Tween>, n: nat)
  {
    forall k :: 0 <= k < |pending| ==> pending[k].box < n
  }

  /** The random stream never runs out of far-enough draws. */
  ghost predicate Endless(rng: nat -> Draw)
  {
    forall n: nat :: AcceptedFrom(rng, n)
  }

  lemma NamesBoxesAppend(p: seq<Tween>, extra: seq<Tween>, n: nat)
    requires NamesBoxes(p, n) && NamesBoxes(extra, n)
    ensures NamesBoxes(p + extra, n)
  {
    forall k | 0 <= k < |p + extra|
      ensures (p + extra)[k].box < n
    {
      if k < |p| {
        assert (p + extra)[k] == p[k];
      } else {
        assert (p + extra)[k] == extra[k - |p|];
      }
    }
  }

  /** The pending list with its k-th tween taken out, as a completion leaves it. */
  function Without(p: seq<Tween>, k: nat): (r: seq<Tween>)
    requires k < |p|
    ensures |r| == |p| - 1
    ensures forall j :: 0 <= j < k ==> r[j] == p[j]
    ensures forall j :: k <= j < |r| ==> r[j] == p[j + 1]
  {
    p[..k] + p[k + 1..]
  }

  /** The box list after tween `t`'s callback has run. */
  function Apply(boxes: seq<BoxData>, t: Tween): (r: seq<BoxData>)
    requires t.box < |boxes|
    ensures |r| == |boxes|
  {
    boxes[t.box := Completed(boxes[t.box], t)]
  }

  /** A completion keeps every flagged box covered: the only flag it loses cover for is the one it clears. */
  lemma CompletionKeepsCover(boxes: seq<BoxData>, p: seq<Tween>, k: nat)
    requires FlagsCovered(boxes, p) && k < |p| && p[k].box < |boxes|
    ensures FlagsCovered(Apply(boxes, p[k]), Without(p, k))
  {
    var t := p[k];
    var after := Apply(boxes, t);
    ClearingRemove(p, k);
    forall b | 0 <= b < |after| && after[b].collision
      ensures b in Clearing(Without(p, k))
    {
      assert boxes[b].collision;
      assert b != t.box || !(t.Relocate? && t.clearsFlag);
    }
  }

  /** Removing a tween keeps every remaining one naming a box. */
  lemma NamesBoxesWithout(p: seq<Tween>, k: nat, n: nat)
    requires NamesBoxes(p, n) && k < |p|
    ensures NamesBoxes(Without(p, k), n)
  {
  }

  /** Appending tweens keeps a recorded respawn pair in place. */
  lemma RespawnAppend(p: seq<Tween>, extra: seq<Tween>, at: nat, i: nat, rotation: int, character: Vec3)
    requires Respawn(p, at, i, rotation, character)
    ensures Respawn(p + extra, at, i, rotation, character)
  {
    assert (p + extra)[at] == p[at] && (p + extra)[at + 1] == p[at + 1];
  }

  /** The respawn pairs recorded for boxes 0..i-1 from index `start` on. */
  predicate Respawns(pending: seq<Tween>, start: nat, i: nat, boxes: seq<BoxData>, character: Vec3)
    requires i <= |boxes|
  {
    forall j :: 0 <= j < i ==> Respawn(pending, start + 2 * j, j, boxes[j].rotation, character)
  }

  lemma RespawnsAppend(p: seq<Tween>, extra: seq<Tween>, start: nat, i: nat, boxes: seq<BoxData>, character: Vec3)
    requires i <= |boxes| && Respawns(p, start, i, boxes, character)
    ensures Respawns(p + extra, start, i, boxes, character)
  {
    forall j | 0 <= j < i
      ensures Respawn(p + extra, start + 2 * j, j, boxes[j].rotation, character)
    {
      RespawnAppend(p, extra, start + 2 * j, j, boxes[j].rotation, character);
    }
  }

  lemma RespawnsExtend(p: seq<Tween>, start: nat, i: nat, boxes: seq<BoxData>, character: Vec3)
    requires i < |boxes| && Respawns(p, start, i, boxes, character)
    requires Respawn(p, start + 2 * i, i, boxes[i].rotation, character)
    ensures Respawns(p, start, i + 1, boxes, character)
  {
  }

  /** Appending box i's respawn pair right after the pairs of boxes 0..i-1 extends them to box i. */
  lemma RespawnsStep(before: seq<Tween>, after: seq<Tween>, start: nat, i: nat, boxes: seq<BoxData>, character: Vec3)
    requires i < |boxes| && |before| == start + 2 * i && Respawns(before, start, i, boxes, character)
    requires |after| >= |before| && after[..|before|] == before
    requires Respawn(after, |before|, i, boxes[i].rotation, character)
    ensures Respawns(after, start, i + 1, boxes, character)
    ensures after[..start] == before[..start]
  {
    RespawnsAppend(before, after[|before|..], start, i, boxes, character);
    assert before + after[|before|..] == after;
    RespawnsExtend(after, start, i, boxes, character);
  }

  // ---------------------------------------------------------------------------------------------
  // Several `getNewBoxPosition` calls in a row

  /** The positions of a run of `getNewBoxPosition` calls and the next unread draw after them. */
  datatype Drawn = Drawn(positions: seq<Vec3>, cursor: nat)

  /** `count` calls of `getNewBoxPosition` in a row, reading the draws from `cursor` on: each call
      takes the first far-enough draw after the previous one's. */
  ghost function DrawPositions(rng: nat -> Draw, character: Vec3, count: nat, cursor: nat): (d: Drawn)
    requires Endless(rng)
    ensures |d.positions| == count
    decreases count
  {
    if count == 0 then Drawn([], cursor)
    else
      var prev := DrawPositions(rng, character, count - 1, cursor);
      var j := FirstAccepted(rng, prev.cursor);
      Drawn(prev.positions + [Add(Offset(rng(j)), character)], j + 1)
  }

  /** A run of `count` calls gives `count` positions, each at least 40 away from the character, and
      the cursor only moves forward. */
  lemma {:induction false} DrawPositionsFar(rng: nat -> Draw, character: Vec3, count: nat, cursor: nat)
    requires Endless(rng)
    ensures var d := DrawPositions(rng, character, count, cursor);
            && |d.positions| == count && cursor <= d.cursor
            && forall i :: 0 <= i < count ==> SquaredLength(Sub(d.positions[i], character)) >= 1600.0
    decreases count
  {
    if count > 0 {
      DrawPositionsFar(rng, character, count - 1, cursor);
      var prev := DrawPositions(rng, character, count - 1, cursor);
      AcceptanceIgnoresCharacter(rng(FirstAccepted(rng, prev.cursor)), character);
    }
  }

  /** Two runs in a row are one run: the second starts where the first left the cursor. */
  lemma {:induction false} DrawPositionsSplit(rng: nat -> Draw, character: Vec3, a: nat, b: nat, cursor: nat)
    requires Endless(rng)
    ensures var first := DrawPositions(rng, character, a, cursor);
            var second := DrawPositions(rng, character, b, first.cursor);
            DrawPositions(rng, character, a + b, cursor) ==
              Drawn(first.positions + second.positions, second.cursor)
    decreases b
  {
    if b > 0 {
      DrawPositionsSplit(rng, character, a, b - 1, cursor);
      var first := DrawPositions(rng, character, a, cursor);
      var second := DrawPositions(rng, character, b - 1, first.cursor);
      var whole := DrawPositions(rng, character, a + b - 1, cursor);
      assert whole == Drawn(first.positions + second.positions, second.cursor);
      var j := FirstAccepted(rng, second.cursor);
      var p := Add(Offset(rng(j)), character);
      assert DrawPositions(rng, character, b, first.cursor) == Drawn(second.positions + [p], j + 1);
      assert DrawPositions(rng, character, a + b, cursor) == Drawn(whole.positions + [p], j + 1);
      assert first.positions + (second.positions + [p]) == (first.positions + second.positions) + [p];
    }
  }

  /** New boxes at `positions`: unflagged, with rotation counter 1. */
  function Fresh(positions: seq<Vec3>): (r: seq<BoxData>)
    ensures |r| == |positions|
    ensures forall i :: 0 <= i < |positions| ==> r[i] == BoxData(positions[i], false, 1)
  {
    seq(|positions|, i requires 0 <= i < |positions| => BoxData(positions[i], false, 1))
  }

  lemma FreshAppend(a: seq<Vec3>, b: seq<Vec3>)
    ensures Fresh(a + b) == Fresh(a) + Fresh(b)
  {
    assert forall i :: 0 <= i < |a + b| ==> Fresh(a + b)[i] == (Fresh(a) + Fresh(b))[i];
  }

  /** Boxes added at far-enough positions are unflagged, have rotation counter 1, and lie far enough. */
  lemma FreshFar(b0: seq<BoxData>, boxes: seq<BoxData>, positions: seq<Vec3>, character: Vec3)
    requires boxes == b0 + Fresh(positions)
    requires forall i :: 0 <= i < |positions| ==> SquaredLength(Sub(positions[i], character)) >= 1600.0
    ensures forall i :: |b0| <= i < |boxes| ==>
              !boxes[i].collision && boxes[i].rotation == 1 &&
              SquaredLength(Sub(boxes[i].position, character)) >= 1600.0
  {
    forall i | |b0| <= i < |boxes|
      ensures !boxes[i].collision && boxes[i].rotation == 1
      ensures SquaredLength(Sub(boxes[i].position, character)) >= 1600.0
    {
      assert boxes[i] == Fresh(positions)[i - |b0|];
    }
  }

  /** Boxes added at the positions of a run are unflagged, have rotation counter 1, and lie far enough. */
  lemma AddedFar(rng: nat -> Draw, character: Vec3, b0: seq<BoxData>, boxes: seq<BoxData>, count: nat, cursor: nat)
    requires Endless(rng) && boxes == b0 + Fresh(DrawPositions(rng, character, count, cursor).positions)
    ensures forall i :: |b0| <= i < |boxes| ==>
              !boxes[i].collision && boxes[i].rotation == 1 &&
              SquaredLength(Sub(boxes[i].position, character)) >= 1600.0
  {
    DrawPositionsFar(rng, character, count, cursor);
    FreshFar(b0, boxes, DrawPositions(rng, character, count, cursor).positions, character);
  }

  /** Adding boxes at the positions of two runs in a row adds them at the positions of one run. */
  lemma TwoRuns(rng: nat -> Draw, character: Vec3, b0: seq<BoxData>, mid: seq<BoxData>, b2: seq<BoxData>,
                cursor: nat, m: nat, n: nat)
    requires Endless(rng)
    requires var first := DrawPositions(rng, character, m, cursor);
             && mid == b0 + Fresh(first.positions)
             && b2 == mid + Fresh(DrawPositions(rng, character, n, first.cursor).positions)
    ensures var first := DrawPositions(rng, character, m, cursor);
            var second := DrawPositions(rng, character, n, first.cursor);
            && b2 == b0 + Fresh(DrawPositions(rng, character, m + n, cursor).positions)
            && second.cursor == DrawPositions(rng, character, m + n, cursor).cursor
  {
    var first := DrawPositions(rng, character, m, cursor);
    var second := DrawPositions(rng, character, n, first.cursor);
    DrawPositionsSplit(rng, character, m, n, cursor);
    FreshAppend(first.positions, second.positions);
    assert b2 == b0 + (Fresh(first.positions) + Fresh(second.positions));
  }

  /** The position tweens from index `start` on, two apart, go to `positions` in order. */
  predicate TargetsFrom(pending: seq<Tween>, start: nat, positions: seq<Vec3>)
  {
    && start + 2 * |positions| <= |pending|
    && forall j :: 0 <= j < |positions| ==>
         pending[start + 2 * j].Relocate? && pending[start + 2 * j].target == positions[j]
  }

  /** Appending one more pair whose position tween goes to `p` extends the targets by `p`. */
  lemma TargetsStep(before: seq<Tween>, after: seq<Tween>, start: nat, positions: seq<Vec3>, p: Vec3)
    requires TargetsFrom(before, start, positions) && |before| == start + 2 * |positions|
    requires |after| >= |before| + 2 && after[..|before|] == before
    requires after[|before|].Relocate? && after[|before|].target == p
    ensures TargetsFrom(after, start, positions + [p])
  {
    var ps := positions + [p];
    forall j | 0 <= j < |ps|
      ensures after[start + 2 * j].Relocate? && after[start + 2 * j].target == ps[j]
    {
      if j < |positions| {
        assert after[start + 2 * j] == before[start + 2 * j];
      }
    }
  }

  // ---------------------------------------------------------------------------------------------
  // Several `moveSingleBox` calls in a row

  /** Every entry is one of the first `n` boxes. */
  predicate BoxesIn(requests: seq<nat>, n: nat)
  {
    forall k :: 0 <= k < |requests| ==> requests[k] < n
  }

  /** What a run of `moveSingleBox` calls adds: the tweens it starts, the calls, and the next unread draw. */
  datatype Batch = Batch(tweens: seq<Tween>, moves: seq<Move>, cursor: nat)

  /** `moveSingleBox(b)` with speed factor `factor` for each b of `requests` in turn, reading the draws
      from `cursor` on, while the boxes keep the rotation counters of `boxes`. */
  ghost function MoveAll(rng: nat -> Draw, character: Vec3, boxes: seq<BoxData>, requests: seq<nat>,
                         factor: int, cursor: nat): Batch
    requires Endless(rng) && BoxesIn(requests, |boxes|)
    decreases |requests|
  {
    if requests == [] then Batch([], [], cursor)
    else
      var prev := MoveAll(rng, character, boxes, requests[..|requests| - 1], factor, cursor);
      var b := requests[|requests| - 1];
      var j := FirstAccepted(rng, prev.cursor);
      var target := Add(Offset(rng(j)), character);
      Batch(prev.tweens + [Relocate(b, target, true), Spin(b, boxes[b].rotation)],
            prev.moves + [Move(b, target, factor)], j + 1)
  }

  /** One more call after a run: its target is the first kept draw after the run's. */
  lemma MoveAllSnoc(rng: nat -> Draw, character: Vec3, boxes: seq<BoxData>, requests: seq<nat>, b: nat,
                    factor: int, cursor: nat)
    requires Endless(rng) && BoxesIn(requests, |boxes|) && b < |boxes|
    ensures BoxesIn(requests + [b], |boxes|)
    ensures var prev := MoveAll(rng, character, boxes, requests, factor, cursor);
            var j := FirstAccepted(rng, prev.cursor);
            var target := Add(Offset(rng(j)), character);
            MoveAll(rng, character, boxes, requests + [b], factor, cursor) ==
              Batch(prev.tweens + [Relocate(b, target, true), Spin(b, boxes[b].rotation)],
                    prev.moves + [Move(b, target, factor)], j + 1)
  {
    assert (requests + [b])[..|requests|] == requests;
  }

  /** The calls of a run name the requested boxes in order, each with the run's factor and a target
      at least 40 away from the character; each call starts its position tween (which unflags the
      box) and its rotation tween, in that order; and the cursor only moves forward. */
  lemma {:induction false} MoveAllCalls(rng: nat -> Draw, character: Vec3, boxes: seq<BoxData>,
                                        requests: seq<nat>, factor: int, cursor: nat)
    requires Endless(rng) && BoxesIn(requests, |boxes|)
    ensures var r := MoveAll(rng, character, boxes, requests, factor, cursor);
            && |r.moves| == |requests| && |r.tweens| == 2 * |requests| && cursor <= r.cursor
            && forall m :: 0 <= m < |requests| ==>
                 && r.moves[m].box == requests[m] && r.moves[m].speedFactor == factor
                 && SquaredLength(Sub(r.moves[m].target, character)) >= 1600.0
                 && r.tweens[2 * m] == Relocate(requests[m], r.moves[m].target, true)
                 && r.tweens[2 * m + 1] == Spin(requests[m], boxes[requests[m]].rotation)
    decreases |requests|
  {
    if requests != [] {
      var init := requests[..|requests| - 1];
      MoveAllCalls(rng, character, boxes, init, factor, cursor);
      var prev := MoveAll(rng, character, boxes, init, factor, cursor);
      var r := MoveAll(rng, character, boxes, requests, factor, cursor);
      var j := FirstAccepted(rng, prev.cursor);
      AcceptanceIgnoresCharacter(rng(j), character);
      forall m | 0 <= m < |requests|
        ensures && r.moves[m].box == requests[m] && r.moves[m].speedFactor == factor
                && SquaredLength(Sub(r.moves[m].target, character)) >= 1600.0
                && r.tweens[2 * m] == Relocate(requests[m], r.moves[m].target, true)
                && r.tweens[2 * m + 1] == Spin(requests[m], boxes[requests[m]].rotation)
      {
        if m < |init| {
          assert requests[m] == init[m];
          assert r.moves[m] == prev.moves[m];
          assert r.tweens[2 * m] == prev.tweens[2 * m];
          assert r.tweens[2 * m + 1] == prev.tweens[2 * m + 1];
        }
      }
    }
  }

  /** The flags a run's tweens will clear are exactly the requested boxes. */
  lemma {:induction false} MoveAllClears(rng: nat -> Draw, character: Vec3, boxes: seq<BoxData>,
                                         requests: seq<nat>, factor: int, cursor: nat)
    requires Endless(rng) && BoxesIn(requests, |boxes|)
    ensures Clearing(MoveAll(rng, character, boxes, requests, factor, cursor).tweens) == multiset(requests)
    decreases |requests|
  {
    if requests != [] {
      var init := requests[..|requests| - 1];
      var b := requests[|requests| - 1];
      assert requests == init + [b];
      MoveAllClears(rng, character, boxes, init, factor, cursor);
      MoveAllSnoc(rng, character, boxes, init, b, factor, cursor);
      var prev := MoveAll(rng, character, boxes, init, factor, cursor);
      var j := FirstAccepted(rng, prev.cursor);
      var target := Add(Offset(rng(j)), character);
      ClearingAppendPair(prev.tweens, Relocate(b, target, true), Spin(b, boxes[b].rotation));
    }
  }

  /** `Boxes`: the box array, the running tweens, the log of `moveSingleBox` calls and the random stream. */
  class BoxField {
    var boxes: seq<BoxData>
    var pending: seq<Tween>
    var moves: seq<Move>
    const rng: nat -> Draw
    var cursor: nat
    /** How many boxes `addMainBoxes` and `addSecondaryBoxes` add: 30 and 60. */
    const mainCount: nat
    const secondaryCount: nat

    /** The random stream never stops yielding far-enough draws, and every tween names a box. */
    ghost predicate Ready()
      reads this
    {
      Endless(rng) && NamesBoxes(pending, |boxes|)
    }

    ghost predicate Valid()
      reads this
    {
      Ready() && FlagsCovered(boxes, pending)
    }

    constructor (rng: nat -> Draw)
      requires Endless(rng)
      ensures Valid() && this.rng == rng
      ensures boxes == [] && pending == [] && moves == [] && cursor == 0
      ensures mainCount == 30 && secondaryCount == 60
    {
      this.rng := rng;
      mainCount, secondaryCount := 30, 60;
      boxes, pending, moves, cursor := [], [], [], 0;
    }

    /** `getNewBoxPosition` on the object's own stream. */
    method NewPosition(character: Vec3) returns (pos: Vec3)
      requires Endless(rng)
      modifies this`cursor
      ensures cursor == FirstAccepted(rng, old(cursor)) + 1
      ensures pos == Add(Offset(rng(cursor - 1)), character)
      ensures SquaredLength(Sub(pos, character)) >= 1600.0
    {
      pos, cursor := GetNewBoxPosition(character, rng, cursor);
      FirstAcceptedIsFirst(rng, old(cursor), cursor - 1);
    }

    /** `addMainBoxes` (`count` 30) and `addSecondaryBoxes` (`count` 60): push `count` boxes, each
        unflagged, with rotation counter 1, at a fresh position at least 40 away from the character. */
    method AddBoxes(count: nat, character: Vec3)
      requires Valid()
      modifies this`boxes, this`cursor
      ensures Valid()
      ensures |boxes| == old(|boxes|) + count && boxes[..old(|boxes|)] == old(boxes)
      ensures var d := DrawPositions(rng, character, count, old(cursor));
              cursor == d.cursor && boxes == old(boxes) + Fresh(d.positions)
      ensures forall i :: old(|boxes|) <= i < |boxes| ==>
                !boxes[i].collision && boxes[i].rotation == 1 &&
                SquaredLength(Sub(boxes[i].position, character)) >= 1600.0
    {
      ghost var cursor0 := cursor;
      for i := 0 to count
        invariant Valid()
        invariant var d := DrawPositions(rng, character, i, cursor0);
                  cursor == d.cursor && boxes == old(boxes) + Fresh(d.positions)
      {
        AddNext(i, character, old(boxes), cursor0);
      }
      AddedFar(rng, character, old(boxes), boxes, count, cursor0);
    }

    /** One turn of the `addMainBoxes`/`addSecondaryBoxes` loop: the `i`-th box goes in. */
    method AddNext(i: nat, character: Vec3, ghost b0: seq<BoxData>, ghost cursor0: nat)
      requires Valid()
      requires var d := DrawPositions(rng, character, i, cursor0);
               cursor == d.cursor && boxes == b0 + Fresh(d.positions)
      modifies this`boxes, this`cursor
      ensures Valid()
      ensures var d := DrawPositions(rng, character, i + 1, cursor0);
              cursor == d.cursor && boxes == b0 + Fresh(d.positions)
    {
      ghost var prev := DrawPositions(rng, character, i, cursor0);
      var pos := NewPosition(character);
      FreshAppend(prev.positions, [pos]);
      boxes := boxes + [BoxData(pos, false, 1)];
    }

    /** `init`, once the textures are in: the main boxes, then the secondary ones, at the positions
        of that many `getNewBoxPosition` calls in a row. */
    method AddAllBoxes(character: Vec3)
      requires Valid()
      modifies this`boxes, this`cursor
      ensures Valid()
      ensures var d := DrawPositions(rng, character, mainCount + secondaryCount, old(cursor));
              cursor == d.cursor && boxes == old(boxes) + Fresh(d.positions)
      ensures forall i :: old(|boxes|) <= i < |boxes| ==>
                !boxes[i].collision && boxes[i].rotation == 1 &&
                SquaredLength(Sub(boxes[i].position, character)) >= 1600.0
    {
      ghost var b0 := boxes;
      AddBoxes(mainCount, character);
      ghost var mid := boxes;
      AddBoxes(secondaryCount, character);
      TwoRuns(rng, character, b0, mid, boxes, old(cursor), mainCount, secondaryCount);
      AddedFar(rng, character, b0, boxes, mainCount + secondaryCount, old(cursor));
    }

    /** `moveSingleBox`: start the position tween to a fresh position (whose completion unflags the
        box) and the rotation tween; the box itself is not touched yet. */
    method MoveSingleBox(b: nat, speed: Speed, character: Vec3)
      requires Ready() && b < |boxes|
      modifies this`pending, this`moves, this`cursor
      ensures Ready() && cursor == FirstAccepted(rng, old(cursor)) + 1
      ensures var target := Add(Offset(rng(cursor - 1)), character);
              && SquaredLength(Sub(target, character)) >= 1600.0
              && moves == old(moves) + [Move(b, target, SpeedFactor(speed))]
              && pending == old(pending) + [Relocate(b, target, true), Spin(b, boxes[b].rotation)]
      ensures Clearing(pending) == Clearing(old(pending)) + multiset{b}
    {
      var target := NewPosition(character);
      var speedFactor := 2;
      if speed == Slow {
        speedFactor := 6;
      }
      moves := moves + [Move(b, target, speedFactor)];
      StartTweens(b, target);
    }

    /** The position tween (whose completion unflags box b) and the rotation tween of `moveSingleBox`. */
    method StartTweens(b: nat, target: Vec3)
      requires NamesBoxes(pending, |boxes|) && b < |boxes|
      modifies this`pending
      ensures NamesBoxes(pending, |boxes|)
      ensures pending == old(pending) + [Relocate(b, target, true), Spin(b, boxes[b].rotation)]
      ensures Clearing(pending) == Clearing(old(pending)) + multiset{b}
    {
      var started := [Relocate(b, target, true), Spin(b, boxes[b].rotation)];
      NamesBoxesAppend(pending, started, |boxes|);
      ClearingAppendPair(pending, started[0], started[1]);
      pending := pending + started;
    }

    /** One firing of `initBoxMovement`'s interval, `pick` being the randomly chosen index: a flagged
        box is left alone, any other is moved slowly. */
    method PeriodicMove(pick: nat, character: Vec3)
      requires Valid() && pick < |boxes|
      modifies this`pending, this`moves, this`cursor
      ensures Valid()
      ensures old(boxes[pick].collision) ==> unchanged(this)
      ensures !old(boxes[pick].collision) ==> cursor == FirstAccepted(rng, old(cursor)) + 1
      ensures !old(boxes[pick].collision) ==>
                var target := Add(Offset(rng(cursor - 1)), character);
                && SquaredLength(Sub(target, character)) >= 1600.0
                && moves == old(moves) + [Move(pick, target, 6)]
                && pending == old(pending) + [Relocate(pick, target, true), Spin(pick, boxes[pick].rotation)]
    {
      if boxes[pick].collision {
        return;
      }
      MoveSingleBox(pick, Slow, character);
    }

    /** One pass of `updateBoxPositions`' loop: box i gets a position tween (with no callback) to a
        fresh position and a rotation tween. */
    method RespawnBox(i: nat, character: Vec3)
      requires Ready() && i < |boxes|
      modifies this`pending, this`cursor
      ensures Ready() && cursor == FirstAccepted(rng, old(cursor)) + 1
      ensures |pending| == old(|pending|) + 2 && pending[..old(|pending|)] == old(pending)
      ensures Respawn(pending, old(|pending|), i, boxes[i].rotation, character)
      ensures pending[old(|pending|)].target == Add(Offset(rng(cursor - 1)), character)
      ensures Clearing(pending) == Clearing(old(pending))
    {
      var target := NewPosition(character);
      var started := [Relocate(i, target, false), Spin(i, boxes[i].rotation)];
      NamesBoxesAppend(pending, started, |boxes|);
      ClearingAppendPair(pending, started[0], started[1]);
      assert (pending + started)[..|pending|] == pending;
      pending := pending + started;
    }

    /** `updateBoxPositions`: every box, in index order, gets a respawn pair. */
    method UpdateBoxPositions(character: Vec3)
      requires Valid()
      modifies this`pending, this`cursor
      ensures Valid() && |pending| == old(|pending|) + 2 * |boxes|
      ensures pending[..old(|pending|)] == old(pending)
      ensures Respawns(pending, old(|pending|), |boxes|, boxes, character)
      ensures var d := DrawPositions(rng, character, |boxes|, old(cursor));
              cursor == d.cursor && TargetsFrom(pending, old(|pending|), d.positions)
    {
      ghost var start := |pending|;
      ghost var cursor0 := cursor;
      for i := 0 to |boxes|
        invariant Ready() && |pending| == start + 2 * i
        invariant pending[..start] == old(pending)
        invariant Clearing(pending) == Clearing(old(pending))
        invariant Respawns(pending, start, i, boxes, character)
        invariant var d := DrawPositions(rng, character, i, cursor0);
                  cursor == d.cursor && TargetsFrom(pending, start, d.positions)
      {
        RespawnNext(i, character, start, cursor0);
      }
    }

    /** One pass of `updateBoxPositions`' loop, extending the pairs and targets of boxes 0..i-1 to box i. */
    method RespawnNext(i: nat, character: Vec3, ghost start: nat, ghost cursor0: nat)
      requires Ready() && i < |boxes| && |pending| == start + 2 * i
      requires Respawns(pending, start, i, boxes, character)
      requires var d := DrawPositions(rng, character, i, cursor0);
               cursor == d.cursor && TargetsFrom(pending, start, d.positions)
      modifies this`pending, this`cursor
      ensures Ready() && |pending| == start + 2 * (i + 1)
      ensures pending[..start] == old(pending[..start])
      ensures Clearing(pending) == Clearing(old(pending))
      ensures Respawns(pending, start, i + 1, boxes, character)
      ensures var d := DrawPositions(rng, character, i + 1, cursor0);
              cursor == d.cursor && TargetsFrom(pending, start, d.positions)
    {
      ghost var before := pending;
      ghost var prev := DrawPositions(rng, character, i, cursor0);
      RespawnBox(i, character);
      RespawnsStep(before, pending, start, i, boxes, character);
      TargetsStep(before, pending, start, prev.positions, pending[|before|].target);
    }

    /** The `onComplete` of running tween k: a position tween leaves the box at its target (and
        `moveSingleBox`'s unflags it); a rotation tween adds exactly 1 to the rotation counter. */
    method CompleteTween(k: nat)
      requires Valid() && k < |pending|
      modifies this`boxes, this`pending
      ensures Valid()
      ensures pending == Without(old(pending), k)
      ensures boxes == Apply(old(boxes), old(pending[k]))
    {
      var t := pending[k];
      CompletionKeepsCover(boxes, pending, k);
      NamesBoxesWithout(pending, k, |boxes|);
      ghost var expected := Apply(boxes, t);
      pending := Without(pending, k);
      match t
      case Relocate(b, target, clears) =>
        boxes := boxes[b := boxes[b].(position := target)];
        if clears {
          boxes := boxes[b := boxes[b].(collision := false)];
        }
      case Spin(b, _) =>
        boxes := boxes[b := boxes[b].(rotation := boxes[b].rotation + 1)];
      assert boxes == expected;
    }
  }
}
