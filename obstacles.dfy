/** Obstacles: how one is spawned, and the per-tick pass that scrolls them left,
    drops the ones that left the screen and tests them against the player. */
module Obstacles {
  import opened Geometry

  /** An obstacle whose right edge is left of this x has scrolled off screen. */
  const DespawnEdge: real := -50.0

  /** The obstacle created by one spawn, from the two random draws in [0, 1) that
      pick its height (30 to 70) and its width (20 to 50). It enters just past
      the right edge of the canvas and stands on the ground line. */
  function NewObstacle(canvasW: real, groundY: real, rHeight: real, rWidth: real): (o: Rect)
    requires 0.0 <= rHeight < 1.0 && 0.0 <= rWidth < 1.0
    ensures o.x == canvasW + 20.0
    ensures o.y + o.height == groundY
    ensures 30.0 <= o.height < 70.0
    ensures 20.0 <= o.width < 50.0
  {
    var h := 30.0 + rHeight * 40.0;
    var w := 20.0 + rWidth * 30.0;
    Rect(canvasW + 20.0, groundY - h, w, h)
  }

  /** The obstacle after scrolling left by shift pixels. */
  function MoveLeft(o: Rect, shift: real): Rect
  {
    o.(x := o.x - shift)
  }

  /** The obstacle has scrolled far enough left to be removed. */
  predicate Expired(o: Rect)
  {
    o.x + o.width < DespawnEdge
  }

  /** Every obstacle scrolled left by shift, none removed. */
  function Shifted(obs: seq<Rect>, shift: real): seq<Rect>
  {
    seq(|obs|, k requires 0 <= k < |obs| => MoveLeft(obs[k], shift))
  }

  /** The obstacle collection after one pass: each obstacle scrolled left by shift,
      the expired ones removed, the others in their original order. */
  function Advance(obs: seq<Rect>, shift: real): seq<Rect>
  {
    if obs == [] then []
    else
      var moved := MoveLeft(obs[0], shift);
      (if Expired(moved) then [] else [moved]) + Advance(obs[1..], shift)
  }

  /** No obstacle the pass keeps has expired. */
  lemma {:induction false} AdvanceKeepsNoExpired(obs: seq<Rect>, shift: real)
    ensures forall k :: 0 <= k < |Advance(obs, shift)| ==> !Expired(Advance(obs, shift)[k])
  {
    if obs != [] {
      AdvanceKeepsNoExpired(obs[1..], shift);
    }
  }

  /** One step of the in-place pass, which runs from the last obstacle to the
      first: with obs[i + 1..] already processed, scrolling obs[i] where it stands
      and splicing it out if it has expired leaves obs[i..] processed. Dafny proves
      it unaided; it exists to hand the loop of GameState.MoveObstacles this fact
      as one small step, which keeps that loop's proof cheap. */
  lemma SpliceStep(obs: seq<Rect>, i: nat, shift: real, current: seq<Rect>)
    requires i < |obs|
    requires current == obs[..i + 1] + Advance(obs[i + 1..], shift)
    ensures var updated := current[i := MoveLeft(current[i], shift)];
      && updated[i] == MoveLeft(obs[i], shift)
      && (Expired(updated[i]) ==> updated[..i] + updated[i + 1..] == obs[..i] + Advance(obs[i..], shift))
      && (!Expired(updated[i]) ==> updated == obs[..i] + Advance(obs[i..], shift))
  {
  }

  /** How many obstacles of obs are expired once scrolled left by shift. */
  function ExpiredCount(obs: seq<Rect>, shift: real): nat
  {
    if obs == [] then 0
    else (if Expired(MoveLeft(obs[0], shift)) then 1 else 0) + ExpiredCount(obs[1..], shift)
  }

  /** a can be obtained from b by deleting elements, keeping the rest in order. */
  ghost predicate SubsequenceOf(a: seq<Rect>, b: seq<Rect>)
    decreases |b|
  {
    if b == [] then a == []
    else (a != [] && a[0] == b[0] && SubsequenceOf(a[1..], b[1..])) || SubsequenceOf(a, b[1..])
  }

  /** The survivors are the scrolled obstacles, in spawn order. */
  lemma {:induction false} AdvanceKeepsOrder(obs: seq<Rect>, shift: real)
    ensures SubsequenceOf(Advance(obs, shift), Shifted(obs, shift))
  {
    if obs != [] {
      var moved := MoveLeft(obs[0], shift);
      var s := Shifted(obs, shift);
      AdvanceKeepsOrder(obs[1..], shift);
      assert s[1..] == Shifted(obs[1..], shift);
      if !Expired(moved) {
        var r := Advance(obs, shift);
        assert r[0] == s[0] && r[1..] == Advance(obs[1..], shift);
      } else {
        assert Advance(obs, shift) == Advance(obs[1..], shift);
      }
    }
  }

  /** Exactly the expired obstacles are removed. Together with AdvanceKeepsOrder and
      Advance's own guarantee that no survivor is expired, this pins the pass down:
      a subsequence of the scrolled obstacles that omits only expired ones, and
      exactly as many of them as there are. */
  lemma {:induction false} AdvanceRemovesExpired(obs: seq<Rect>, shift: real)
    ensures |Advance(obs, shift)| == |obs| - ExpiredCount(obs, shift)
  {
    if obs != [] {
      AdvanceRemovesExpired(obs[1..], shift);
    }
  }

  /** Some obstacle of obs, once scrolled left by shift, overlaps box. */
  predicate HitsAny(box: Rect, obs: seq<Rect>, shift: real)
  {
    exists o | o in obs :: Collides(box, MoveLeft(o, shift))
  }

  /** A hit in obs[i..] is a hit on obs[i] or a hit further on. Like SpliceStep,
      a step fact for the loop of GameState.MoveObstacles. */
  lemma HitsAnyFrom(box: Rect, obs: seq<Rect>, i: nat, shift: real)
    requires i < |obs|
    ensures HitsAny(box, obs[i..], shift) <==>
      Collides(box, MoveLeft(obs[i], shift)) || HitsAny(box, obs[i + 1..], shift)
  {
  }

  /** The pass also tests the obstacles it has just removed. That never matters for
      a box whose left edge is not left of DespawnEdge: a hit among all scrolled
      obstacles is the same as a hit among the survivors. */
  lemma {:induction false} RemovedObstaclesNeverHit(box: Rect, obs: seq<Rect>, shift: real)
    requires box.x >= DespawnEdge
    ensures HitsAny(box, obs, shift) <==> exists o | o in Advance(obs, shift) :: Collides(box, o)
  {
    if obs != [] {
      RemovedObstaclesNeverHit(box, obs[1..], shift);
      var moved := MoveLeft(obs[0], shift);
      var r := Advance(obs, shift);
      var rest := Advance(obs[1..], shift);
      assert r == (if Expired(moved) then [] else [moved]) + rest;
      assert forall o :: o in obs <==> o == obs[0] || o in obs[1..];
      assert forall o :: o in r <==> (o == moved && !Expired(moved)) || o in rest;
    }
  }
}
