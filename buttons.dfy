/** The floor buttons: a trigger that the player switches on once, which changes the
    button's material and tells the game manager. */
module Buttons {
  import opened Scene
  import opened Game

  /** A renderer material; only its identity matters here. */
  datatype Material = Material(id: nat)

  class Button {
    /** The game manager singleton the button reports to. */
    const manager: GameManager
    const activeMat: Material
    /** The material the button's renderer shows. */
    var material: Material
    var activated: bool

    constructor (manager: GameManager, activeMat: Material, material: Material)
      ensures this.manager == manager && this.activeMat == activeMat
      ensures this.material == material && !activated
    {
      this.manager := manager;
      this.activeMat := activeMat;
      this.material := material;
      activated := false;
    }

    /** Only the player switches a button on, and only the first time: later touches, and
        touches by anything else, change nothing. */
    method OnTriggerEnter(other: Collider)
      modifies this`activated, this`material, manager`buttonsRemaining, manager`wins
      ensures activated == (old(activated) || other.CompareTag("Player"))
      ensures old(activated) || !other.CompareTag("Player") ==>
        material == old(material) && manager.buttonsRemaining == old(manager.buttonsRemaining) &&
        manager.wins == old(manager.wins)
      ensures !old(activated) && other.CompareTag("Player") ==>
        material == activeMat && manager.buttonsRemaining == old(manager.buttonsRemaining) - 1 &&
        manager.wins == old(manager.wins) + (if manager.buttonsRemaining == 0 then 1 else 0)
    {
      if !activated && other.CompareTag("Player") {
        ActivateButton();
      }
    }

    method ActivateButton()
      modifies this`activated, this`material, manager`buttonsRemaining, manager`wins
      ensures activated && material == activeMat
      ensures manager.buttonsRemaining == old(manager.buttonsRemaining) - 1
      ensures manager.wins == old(manager.wins) + (if manager.buttonsRemaining == 0 then 1 else 0)
    {
      activated := true;
      material := activeMat;
      manager.ButtonActivated();
    }
  }

  /** One trigger contact: the index of the touched button and what touched it. */
  datatype Touch = Touch(button: nat, other: Collider)

  /** The buttons the player has touched in a sequence of contacts. */
  function Pressed(touches: seq<Touch>): set<nat> {
    if touches == [] then {}
    else
      var last := touches[|touches| - 1];
      Pressed(touches[..|touches| - 1]) + (if last.other.CompareTag("Player") then {last.button} else {})
  }

  /** A button is among the pressed ones exactly when some contact with it came from the
      player. */
  lemma {:induction false} PressedByPlayer(touches: seq<Touch>, b: nat)
    ensures b in Pressed(touches) <==>
      exists i :: 0 <= i < |touches| && touches[i].button == b && touches[i].other.CompareTag("Player")
  {
    if touches != [] {
      var init := touches[..|touches| - 1];
      PressedByPlayer(init, b);
      assert forall i :: 0 <= i < |init| ==> init[i] == touches[i];
    }
  }

  /** The indices below n. */
  function Below(n: nat): (r: set<nat>)
    ensures forall b: nat :: b in r <==> b < n
  {
    if n == 0 then {} else Below(n - 1) + {n - 1}
  }

  lemma {:induction false} BelowSize(n: nat)
    ensures |Below(n)| == n
  {
    if n > 0 {
      BelowSize(n - 1);
      assert Below(n) == Below(n - 1) + {n - 1};
      assert n - 1 !in Below(n - 1);
    }
  }

  /** When the player has touched every one of n buttons (and nothing else), n distinct
      buttons have been switched on; with the counter set to n at setup the level has
      finished exactly once. */
  lemma AllPressedFinishOnce(n: nat, touches: seq<Touch>)
    requires forall i :: 0 <= i < |touches| ==> touches[i].button < n
    requires forall b: nat :: b < n ==> b in Pressed(touches)
    ensures |Pressed(touches)| == n
    ensures n > 0 ==> WinsAfter(n, |Pressed(touches)|) == 1
  {
    forall b | b in Pressed(touches)
      ensures b < n
    {
      PressedByPlayer(touches, b);
    }
    assert Pressed(touches) == Below(n);
    BelowSize(n);
    WinsAfterClosedForm(n, n);
  }

  /** Pressed over one more contact. */
  lemma PressedStep(touches: seq<Touch>, k: nat)
    requires k < |touches|
    ensures Pressed(touches[..k + 1]) ==
      Pressed(touches[..k]) + (if touches[k].other.CompareTag("Player") then {touches[k].button} else {})
  {
    assert touches[..k + 1][..k] == touches[..k];
  }

  /** One contact of TouchButtons: the countdown and the switched-on buttons move from
      the set of buttons pressed before it to the set pressed after it. */
  method TouchOne(gm: GameManager, buttons: seq<Button>, t: Touch, ghost before: set<nat>, ghost remaining: int, ghost wins: nat)
    requires forall i :: 0 <= i < |buttons| ==> buttons[i].manager == gm
    requires forall i, j :: 0 <= i < j < |buttons| ==> buttons[i] != buttons[j]
    requires t.button < |buttons|
    requires gm.buttonsRemaining == remaining - |before|
    requires gm.wins == wins + WinsAfter(remaining, |before|)
    requires forall i :: 0 <= i < |buttons| ==> buttons[i].activated == (i in before)
    modifies gm`buttonsRemaining, gm`wins, buttons[t.button]
    ensures var after := before + (if t.other.CompareTag("Player") then {t.button} else {});
      && gm.buttonsRemaining == remaining - |after|
      && gm.wins == wins + WinsAfter(remaining, |after|)
      && forall i :: 0 <= i < |buttons| ==> buttons[i].activated == (i in after)
  {
    ghost var after := before + (if t.other.CompareTag("Player") then {t.button} else {});
    if t.other.CompareTag("Player") && t.button in before {
      assert after == before;
    }
    buttons[t.button].OnTriggerEnter(t.other);
  }

  /** A sequence of trigger contacts with the level's buttons, all of which report to the
      same manager and none of which has been switched on yet. Each button the player
      touches is switched on once and counts down once, whatever else touches it and
      however often. */
  method TouchButtons(gm: GameManager, buttons: seq<Button>, touches: seq<Touch>)
    requires forall i :: 0 <= i < |buttons| ==> buttons[i].manager == gm && !buttons[i].activated
    requires forall i, j :: 0 <= i < j < |buttons| ==> buttons[i] != buttons[j]
    requires forall i :: 0 <= i < |touches| ==> touches[i].button < |buttons|
    modifies gm`buttonsRemaining, gm`wins, set i | 0 <= i < |buttons| :: buttons[i]
    ensures gm.buttonsRemaining == old(gm.buttonsRemaining) - |Pressed(touches)|
    ensures gm.wins == old(gm.wins) + WinsAfter(old(gm.buttonsRemaining), |Pressed(touches)|)
    ensures forall i :: 0 <= i < |buttons| ==> buttons[i].activated == (i in Pressed(touches))
  {
    ghost var remaining, wins := gm.buttonsRemaining, gm.wins;
    var k := 0;
    while k < |touches|
      invariant 0 <= k <= |touches|
      invariant gm.buttonsRemaining == remaining - |Pressed(touches[..k])|
      invariant gm.wins == wins + WinsAfter(remaining, |Pressed(touches[..k])|)
      invariant forall i :: 0 <= i < |buttons| ==> buttons[i].activated == (i in Pressed(touches[..k]))
    {
      PressedStep(touches, k);
      TouchOne(gm, buttons, touches[k], Pressed(touches[..k]), remaining, wins);
      k := k + 1;
    }
    assert touches[..k] == touches;
  }
}
