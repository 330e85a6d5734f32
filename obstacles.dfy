/** The obstacle detector: a trigger volume that counts the solid colliders currently
    overlapping it and exposes whether that count is positive. */
module Obstacles {
  import opened Scene

  /** A trigger callback the physics engine delivers to the detector. */
  datatype TriggerEvent = Enter(other: Collider) | Exit(other: Collider)

  /** The colliders the detector reacts to: everything but the player and other detectors. */
  predicate Counted(c: Collider) {
    !c.CompareTag("Player") && !c.CompareTag("Detector")
  }

  /** The number of counted enter events in a history. */
  function Enters(h: seq<TriggerEvent>): nat {
    if h == [] then 0
    else Enters(h[..|h| - 1]) + (if h[|h| - 1].Enter? && Counted(h[|h| - 1].other) then 1 else 0)
  }

  /** The number of counted exit events in a history. */
  function Exits(h: seq<TriggerEvent>): nat {
    if h == [] then 0
    else Exits(h[..|h| - 1]) + (if h[|h| - 1].Exit? && Counted(h[|h| - 1].other) then 1 else 0)
  }

  /** What the counter holds after a history of events, starting from zero. */
  function Balance(h: seq<TriggerEvent>): int {
    Enters(h) - Exits(h)
  }

  /** The two counts split over a concatenation of histories. */
  lemma {:induction false} CountsConcat(a: seq<TriggerEvent>, b: seq<TriggerEvent>)
    ensures Enters(a + b) == Enters(a) + Enters(b)
    ensures Exits(a + b) == Exits(a) + Exits(b)
  {
    if b != [] {
      var b' := b[..|b| - 1];
      assert (a + b)[..|a + b| - 1] == a + b';
      assert (a + b)[|a + b| - 1] == b[|b| - 1];
      CountsConcat(a, b');
    } else {
      assert a + b == a;
    }
  }

  /** The number of counted colliders in a sequence of colliders. */
  function CountedIn(cs: seq<Collider>): nat {
    if cs == [] then 0 else (if Counted(cs[0]) then 1 else 0) + CountedIn(cs[1..])
  }

  /** One enter event per collider, in order. */
  function EnterAll(cs: seq<Collider>): (h: seq<TriggerEvent>)
    ensures |h| == |cs| && forall i :: 0 <= i < |cs| ==> h[i] == Enter(cs[i])
  {
    if cs == [] then [] else [Enter(cs[0])] + EnterAll(cs[1..])
  }

  /** One exit event per collider, in order. */
  function ExitAll(cs: seq<Collider>): (h: seq<TriggerEvent>)
    ensures |h| == |cs| && forall i :: 0 <= i < |cs| ==> h[i] == Exit(cs[i])
  {
    if cs == [] then [] else [Exit(cs[0])] + ExitAll(cs[1..])
  }

  /** Entering a sequence of colliders counts exactly the counted ones, and no exit. */
  lemma {:induction false} EnterAllCounts(cs: seq<Collider>)
    ensures Enters(EnterAll(cs)) == CountedIn(cs) && Exits(EnterAll(cs)) == 0
  {
    if cs != [] {
      EnterAllCounts(cs[1..]);
      CountsConcat([Enter(cs[0])], EnterAll(cs[1..]));
      assert [Enter(cs[0])][..0] == [];
    }
  }

  /** Leaving a sequence of colliders counts exactly the counted ones, and no enter. */
  lemma {:induction false} ExitAllCounts(cs: seq<Collider>)
    ensures Exits(ExitAll(cs)) == CountedIn(cs) && Enters(ExitAll(cs)) == 0
  {
    if cs != [] {
      ExitAllCounts(cs[1..]);
      CountsConcat([Exit(cs[0])], ExitAll(cs[1..]));
      assert [Exit(cs[0])][..0] == [];
    }
  }

  /** The number of counted colliders depends only on which colliders there are, not on
      their order. */
  lemma {:induction false} CountedInPermutation(cs: seq<Collider>, ds: seq<Collider>)
    requires multiset(cs) == multiset(ds)
    ensures CountedIn(cs) == CountedIn(ds)
  {
    if cs != [] {
      var c := cs[0];
      assert c in multiset(ds);
      var k :| 0 <= k < |ds| && ds[k] == c;
      var rest := ds[..k] + ds[k + 1..];
      assert ds == ds[..k] + [c] + ds[k + 1..];
      assert cs == [c] + cs[1..];
      assert multiset(ds) == multiset(ds[..k]) + multiset([c]) + multiset(ds[k + 1..]);
      assert multiset(rest) == multiset(ds[..k]) + multiset(ds[k + 1..]);
      assert multiset(cs) == multiset([c]) + multiset(cs[1..]);
      assert multiset(cs[1..]) == multiset(cs) - multiset{c};
      assert multiset(rest) == multiset(ds) - multiset{c};
      CountedInPermutation(cs[1..], rest);
      CountedInSplit(ds[..k], ds[k + 1..], c);
    }
  }

  /** Taking one collider out of the middle of a sequence. */
  lemma {:induction false} CountedInSplit(xs: seq<Collider>, ys: seq<Collider>, c: Collider)
    ensures CountedIn(xs + [c] + ys) == CountedIn(xs + ys) + (if Counted(c) then 1 else 0)
  {
    if xs == [] {
      assert xs + [c] + ys == [c] + ys;
      assert ([c] + ys)[1..] == ys;
      assert xs + ys == ys;
    } else {
      assert (xs + [c] + ys)[0] == xs[0] && (xs + [c] + ys)[1..] == xs[1..] + [c] + ys;
      assert (xs + ys)[0] == xs[0] && (xs + ys)[1..] == xs[1..] + ys;
      CountedInSplit(xs[1..], ys, c);
    }
  }

  /** Every collider that entered has left again, in any order: the counter is back to
      zero and the detector reports no collision. */
  lemma BalancedReturnsToZero(cs: seq<Collider>, ds: seq<Collider>)
    requires multiset(cs) == multiset(ds)
    ensures Balance(EnterAll(cs) + ExitAll(ds)) == 0
  {
    CountsConcat(EnterAll(cs), ExitAll(ds));
    EnterAllCounts(cs);
    ExitAllCounts(ds);
    CountedInPermutation(cs, ds);
  }

  /** The counter is not clamped: a counted exit that no enter preceded (a collider that
      was already inside when the detector appeared) drives it below zero. */
  lemma {:induction false} StrayExitGoesNegative(h: seq<TriggerEvent>, c: Collider)
    requires Counted(c) && Balance(h) <= 0
    ensures Balance(h + [Exit(c)]) < 0
  {
    assert (h + [Exit(c)])[..|h|] == h;
  }

  class ObstacleDetector {
    var colliding: bool
    var numCollides: int
    /** The trigger events delivered so far. */
    ghost var history: seq<TriggerEvent>

    /** The counter is the number of counted enters minus counted exits, and the flag says
        whether it is positive. */
    ghost predicate Valid()
      reads this
    {
      numCollides == Balance(history) && colliding == (numCollides > 0)
    }

    /** The serialized initial values: no collision, a zero counter. */
    constructor ()
      ensures Valid() && history == [] && numCollides == 0 && !colliding
    {
      colliding := false;
      numCollides := 0;
      history := [];
    }

    /** An enter from a counted collider raises the counter by one; the player and other
        detectors are ignored. */
    method OnTriggerEnter(other: Collider)
      requires Valid()
      modifies this
      ensures Valid() && history == old(history) + [Enter(other)]
      ensures numCollides == old(numCollides) + (if Counted(other) then 1 else 0)
      ensures !Counted(other) ==> colliding == old(colliding)
    {
      assert (history + [Enter(other)])[..|history|] == history;
      history := history + [Enter(other)];
      if !other.CompareTag("Player") && !other.CompareTag("Detector") {
        numCollides := numCollides + 1;
        colliding := numCollides > 0;
      }
    }

    /** An exit from a counted collider lowers the counter by one, without a floor; the
        player and other detectors are ignored. */
    method OnTriggerExit(other: Collider)
      requires Valid()
      modifies this
      ensures Valid() && history == old(history) + [Exit(other)]
      ensures numCollides == old(numCollides) - (if Counted(other) then 1 else 0)
      ensures !Counted(other) ==> colliding == old(colliding)
    {
      assert (history + [Exit(other)])[..|history|] == history;
      history := history + [Exit(other)];
      if !other.CompareTag("Player") && !other.CompareTag("Detector") {
        numCollides := numCollides - 1;
        colliding := numCollides > 0;
      }
    }
  }

  /** A fresh detector that sees a counted collider leave without having seen it enter
      ends with a counter of -1 and no collision. */
  method StrayExit(c: Collider) returns (count: int, flag: bool)
    requires Counted(c)
    ensures count == -1 && !flag
  {
    var det := new ObstacleDetector();
    det.OnTriggerExit(c);
    count, flag := det.numCollides, det.colliding;
  }
}
