/**
 * The sweep state machine of the radar animation: one RadarApp object whose fields the
 * user's choices and the periodic tick update in place.
 *
 * Angles are in hundredths of a degree (9000 is 90 degrees), speeds in hundredths of a unit.
 */
module Radar {
  import opened Scan
  import opened Catalog
  import opened Inserts

  /** Where every step's sweep starts: 90 degrees. */
  const StartAngle: int := 9000
  /** A step is finished once the sweep has reached -270 degrees, one full turn. */
  const EndAngle: int := -27000

  function Abs(x: int): nat {
    if x < 0 then -x else x
  }

  function Pow2(n: nat): nat {
    if n == 0 then 1 else 2 * Pow2(n - 1)
  }

  /** The speed button's mode after one press: 1, 2, 3, 4, then back to 1. */
  function NextFastMode(mode: int): (r: int)
    ensures 1 <= r <= 4
  {
    mode % 4 + 1
  }

  /** The speed multiplier of a mode, two to the power mode - 1. */
  function Multiplier(mode: int): (m: nat)
    requires 1 <= mode <= 4
    ensures m == 1 || m == 2 || m == 4 || m == 8
  {
    assert Pow2(3) == 2 * Pow2(2);
    Pow2(mode - 1)
  }

  /** Pressing the speed button cycles the multiplier 1, 2, 4, 8 and back to 1, with period four. */
  lemma SpeedCycle(mode: int)
    requires 1 <= mode <= 4
    ensures 1 <= NextFastMode(mode) <= 4
    ensures Multiplier(NextFastMode(mode)) == if mode == 4 then 1 else 2 * Multiplier(mode)
    ensures NextFastMode(NextFastMode(NextFastMode(NextFastMode(mode)))) == mode
  {
    assert Pow2(1) == 2 && Pow2(2) == 4 && Pow2(3) == 8;
    if mode == 1 {
      assert NextFastMode(1) == 2 && NextFastMode(2) == 3 && NextFastMode(3) == 4 && NextFastMode(4) == 1;
    } else if mode == 2 {
      assert NextFastMode(2) == 3 && NextFastMode(3) == 4 && NextFastMode(4) == 1 && NextFastMode(1) == 2;
    } else if mode == 3 {
      assert NextFastMode(3) == 4 && NextFastMode(4) == 1 && NextFastMode(1) == 2 && NextFastMode(2) == 3;
    } else {
      assert NextFastMode(4) == 1 && NextFastMode(1) == 2 && NextFastMode(2) == 3 && NextFastMode(3) == 4;
    }
  }

  /** A loaded step's effective speed stays within what one tick can cover without wrapping. */
  lemma ScaledSpeedBound(speed: int, m: nat)
    requires -50 <= speed < 0
    requires m == 1 || m == 2 || m == 4 || m == 8
    ensures -400 <= speed * m <= -1
  {
  }

  /** Step k of a sequence of well-formed steps, loaded at multiplier m, sweeps at between 1 and 400 hundredths. */
  lemma LoadedSpeedBound(p: seq<ScanStep>, k: nat, m: nat)
    requires AllStepsOk(p) && k < |p|
    requires m == 1 || m == 2 || m == 4 || m == 8
    ensures WellFormed(p[k]) && -400 <= p[k].speed * m <= -1
  {
    assert p[k] in p;
    ScaledSpeedBound(p[k].speed, m);
  }

  /** A chosen VCP shows the sequence built for it and its choices. */
  ghost predicate SelectionBuilt(vcpSelected: bool, vcp: string, sails: string, mrle: string, p: seq<ScanStep>) {
    vcpSelected ==> MrleParses(mrle) && p == BuildSequence(vcp, sails, mrle)
  }

  class RadarApp {
    /** The sweep angle, in hundredths of a degree. */
    var angle: int
    var running: bool
    var vcpSelected: bool
    var speedMultiplier: nat
    var fastMode: int
    var patternStepIndex: nat
    var patternSequence: seq<ScanStep>
    /** The loaded step's speed times the multiplier. */
    var sweepSpeed: int
    var coneAngleWidth: int
    var currentLabel: Label
    var sweepRadius: int
    var selectedVcp: string
    /** The current SAILS and MRLE menu choices. */
    var sails: string
    var mrle: string

    /** The sweep currently draws step s at the current multiplier. */
    ghost predicate Shows(s: ScanStep)
      reads this
    {
      WellFormed(s)
      && sweepSpeed == s.speed * speedMultiplier
      && coneAngleWidth == s.coneWidth
      && currentLabel == s.product
      && sweepRadius == ConeRadius(s)
    }

    /** The speed mode, its multiplier, and a loaded speed one tick can apply without wrapping. */
    ghost predicate SpeedOk()
      reads this`fastMode, this`speedMultiplier, this`sweepSpeed
    {
      1 <= fastMode <= 4 && speedMultiplier == Multiplier(fastMode) && -400 <= sweepSpeed <= 0
    }

    /**
     * At most one supplemental choice is active, an MRLE choice carries its count, and
     * before any VCP is chosen both are "None". Only the menu handlers may change the
     * fields this reads; every other method keeps it by its modifies frame.
     */
    ghost predicate ChoicesOk()
      reads this`vcpSelected, this`sails, this`mrle
    {
      (sails == "None" || mrle == "None") && MrleParses(mrle)
      && (!vcpSelected ==> sails == "None" && mrle == "None")
    }

    /**
     * Once a VCP is chosen, the sequence is the one built for it and the current choices.
     * Only the methods that rebuild the sequence may change the fields this reads; every
     * other method keeps it by its modifies frame.
     */
    ghost predicate Built()
      reads this`vcpSelected, this`selectedVcp, this`sails, this`mrle, this`patternSequence
    {
      SelectionBuilt(vcpSelected, selectedVcp, sails, mrle, patternSequence)
    }

    /**
     * The index lies inside a non-empty sequence, a running sweep shows the current step,
     * and before any VCP is chosen the animation is stopped with nothing loaded or chosen.
     */
    ghost predicate StepLoaded()
      reads this
    {
      AllStepsOk(patternSequence)
      && (patternSequence != [] ==> patternStepIndex < |patternSequence|)
      && (running && patternSequence != [] ==> Shows(patternSequence[patternStepIndex]))
      && (!vcpSelected ==> patternSequence == [] && !running)
    }

    ghost predicate Valid()
      reads this
    {
      SpeedOk() && EndAngle < angle <= StartAngle && StepLoaded()
    }

    /** The state before any VCP is chosen. Fields the application sets only later get neutral values. */
    constructor ()
      ensures Valid() && ChoicesOk() && Built()
      ensures angle == StartAngle && !running && !vcpSelected
      ensures speedMultiplier == 1 && fastMode == 1
      ensures patternStepIndex == 0 && patternSequence == []
      ensures sails == "None" && mrle == "None"
    {
      angle := StartAngle;
      running := false;
      vcpSelected := false;
      speedMultiplier := 1;
      fastMode := 1;
      patternStepIndex := 0;
      patternSequence := [];
      sweepSpeed := 0;
      coneAngleWidth := 0;
      currentLabel := Z;
      sweepRadius := 0;
      selectedVcp := "";
      sails := "None";
      mrle := "None";
    }

    /**
     * Loads the current step. With no steps it only stops the animation; otherwise it clamps
     * an out-of-range index to 0, restarts the sweep at 90 degrees and loads the step's
     * speed (times the multiplier), cone width, label and radius.
     */
    method AdvancePatternStep()
      requires AllStepsOk(patternSequence)
      modifies this`running, this`patternStepIndex, this`angle,
               this`sweepSpeed, this`coneAngleWidth, this`currentLabel, this`sweepRadius
      ensures patternSequence == [] ==>
                !running && patternStepIndex == old(patternStepIndex) && angle == old(angle)
                && unchanged(this`sweepSpeed, this`coneAngleWidth, this`currentLabel, this`sweepRadius)
      ensures patternSequence != [] ==>
                running == old(running) && angle == StartAngle
                && patternStepIndex == (if old(patternStepIndex) >= |patternSequence| then 0 else old(patternStepIndex))
                && patternStepIndex < |patternSequence|
                && Shows(patternSequence[patternStepIndex])
    {
      if patternSequence == [] {
        running := false;
        return;
      }
      if patternStepIndex >= |patternSequence| {
        patternStepIndex := 0;
      }
      angle := StartAngle;
      var pattern := patternSequence[patternStepIndex];
      assert pattern in patternSequence;
      sweepSpeed := pattern.speed * speedMultiplier;
      coneAngleWidth := pattern.coneWidth;
      currentLabel := pattern.product;
      if currentLabel != ZV {
        sweepRadius := pattern.cone.range;
      } else {
        sweepRadius := Max(pattern.cone.rangeZ, pattern.cone.rangeV);
      }
    }

    /** Rebuilds the scan sequence from the chosen VCP and the SAILS and MRLE choices. */
    method BuildPatternSequence()
      requires MrleApplies(selectedVcp, mrle) ==> MrleParses(mrle)
      modifies this`patternSequence
      ensures patternSequence == BuildSequence(selectedVcp, sails, mrle)
    {
      patternSequence := [];
      var pattern := Pattern(selectedVcp);
      if pattern == [] {
        patternSequence := [];
        return;
      }
      pattern := ApplySails(pattern, sails);
      pattern := ApplyMrle(pattern, selectedVcp, mrle);
      patternSequence := pattern;
    }

    /**
     * One animation tick. While running, the sweep moves clockwise by |speed| * 5; once it
     * reaches -270 degrees the next step starts at 90 degrees, and after the last step the
     * index returns to 0 and the animation stops. The result says whether the tick is
     * scheduled again. A tick while stopped does nothing.
     */
    method Tick() returns (rescheduled: bool)
      requires Valid()
      modifies this`running, this`patternStepIndex, this`angle,
               this`sweepSpeed, this`coneAngleWidth, this`currentLabel, this`sweepRadius
      ensures Valid()
      ensures rescheduled == running
      ensures !old(running) ==> unchanged(this)
      ensures old(running) ==>
                var swept := old(angle) - Abs(old(sweepSpeed)) * 5;
                if swept > EndAngle then
                  running && angle == swept && patternStepIndex == old(patternStepIndex)
                  && unchanged(this`sweepSpeed, this`coneAngleWidth, this`currentLabel, this`sweepRadius)
                else if old(patternStepIndex) + 1 >= |patternSequence| then
                  !running && angle == StartAngle && patternStepIndex == 0
                  && unchanged(this`sweepSpeed, this`coneAngleWidth, this`currentLabel, this`sweepRadius)
                else
                  running && angle == StartAngle && patternStepIndex == old(patternStepIndex) + 1
                  && Shows(patternSequence[patternStepIndex])
    {
      if !running {
        return false;
      }
      angle := angle - Abs(sweepSpeed) * 5;
      if angle <= EndAngle {
        angle := StartAngle;
        patternStepIndex := patternStepIndex + 1;
        if patternStepIndex >= |patternSequence| {
          patternStepIndex := 0;
          running := false;
          return false;
        }
        AdvancePatternStep();
        LoadedSpeedBound(patternSequence, patternStepIndex, speedMultiplier);
      }
      return true;
    }

    /**
     * The Run/Stop button. Before a VCP is chosen it does nothing. When stopped it restarts
     * from the first step at 90 degrees, sets running and ticks once at once; when running
     * it stops and leaves the index and the angle where they are.
     */
    method ToggleAnimation()
      requires Valid()
      modifies this`running, this`patternStepIndex, this`angle,
               this`sweepSpeed, this`coneAngleWidth, this`currentLabel, this`sweepRadius
      ensures Valid()
      ensures !old(vcpSelected) ==> unchanged(this)
      ensures old(vcpSelected) && old(running) ==>
                !running && angle == old(angle) && patternStepIndex == old(patternStepIndex)
                && unchanged(this`sweepSpeed, this`coneAngleWidth, this`currentLabel, this`sweepRadius)
      ensures old(vcpSelected) && !old(running) ==>
                running && patternStepIndex == 0 && angle == StartAngle - Abs(sweepSpeed) * 5
                && (patternSequence != [] ==> Shows(patternSequence[0]))
                && (patternSequence == [] ==> unchanged(this`sweepSpeed, this`coneAngleWidth, this`currentLabel, this`sweepRadius))
    {
      if !vcpSelected {
        return;
      }
      if !running {
        patternStepIndex := 0;
        AdvancePatternStep();
        if patternSequence != [] {
          LoadedSpeedBound(patternSequence, 0, speedMultiplier);
        }
        angle := StartAngle;
        running := true;
        var _ := Tick();
      } else {
        running := false;
      }
    }

    /**
     * The speed button: the next of the multipliers 1, 2, 4, 8, and with a sequence loaded the
     * current step reloaded at the new speed, which also returns the sweep to 90 degrees.
     */
    method SpeedMultiply()
      requires Valid()
      modifies this`fastMode, this`speedMultiplier, this`running, this`patternStepIndex, this`angle,
               this`sweepSpeed, this`coneAngleWidth, this`currentLabel, this`sweepRadius
      ensures Valid()
      ensures fastMode == NextFastMode(old(fastMode)) && speedMultiplier == Multiplier(fastMode)
      ensures running == old(running) && patternStepIndex == old(patternStepIndex)
      ensures patternSequence == [] ==>
                angle == old(angle)
                && unchanged(this`sweepSpeed, this`coneAngleWidth, this`currentLabel, this`sweepRadius)
      ensures patternSequence != [] ==> angle == StartAngle && Shows(patternSequence[patternStepIndex])
    {
      SpeedCycle(fastMode);
      fastMode := (fastMode % 4) + 1;
      speedMultiplier := Multiplier(fastMode);
      if patternSequence != [] {
        AdvancePatternStep();
        LoadedSpeedBound(patternSequence, patternStepIndex, speedMultiplier);
      }
    }

    /** The rebuild of the sequence and the load of the current step that every menu handler ends with. */
    method RebuildAndLoad()
      requires SpeedOk() && ChoicesOk() && vcpSelected && !running && EndAngle < angle <= StartAngle
      modifies this`patternSequence, this`running, this`patternStepIndex, this`angle,
               this`sweepSpeed, this`coneAngleWidth, this`currentLabel, this`sweepRadius
      ensures Valid() && Built() && !running
      ensures patternSequence == [] ==>
                patternStepIndex == old(patternStepIndex) && angle == old(angle)
                && unchanged(this`sweepSpeed, this`coneAngleWidth, this`currentLabel, this`sweepRadius)
      ensures patternSequence != [] ==>
                angle == StartAngle
                && patternStepIndex == (if old(patternStepIndex) < |patternSequence| then old(patternStepIndex) else 0)
                && Shows(patternSequence[patternStepIndex])
    {
      BuildPatternSequence();
      LoadCurrentStep();
    }

    /** Loads the current step of a stopped animation, as every menu handler ends with. */
    method LoadCurrentStep()
      requires SpeedOk() && vcpSelected && !running && EndAngle < angle <= StartAngle && AllStepsOk(patternSequence)
      modifies this`running, this`patternStepIndex, this`angle,
               this`sweepSpeed, this`coneAngleWidth, this`currentLabel, this`sweepRadius
      ensures Valid() && !running
      ensures patternSequence == [] ==>
                patternStepIndex == old(patternStepIndex) && angle == old(angle)
                && unchanged(this`sweepSpeed, this`coneAngleWidth, this`currentLabel, this`sweepRadius)
      ensures patternSequence != [] ==>
                angle == StartAngle
                && patternStepIndex == (if old(patternStepIndex) < |patternSequence| then old(patternStepIndex) else 0)
                && Shows(patternSequence[patternStepIndex])
    {
      AdvancePatternStep();
      if patternSequence != [] {
        LoadedSpeedBound(patternSequence, patternStepIndex, speedMultiplier);
      }
    }

    /** What a menu handler does once the choice is recorded: stop, go back to step 0 at 90 degrees, rebuild and reload. */
    method Restart()
      requires SpeedOk() && ChoicesOk() && vcpSelected
      modifies this`patternSequence, this`running, this`patternStepIndex, this`angle,
               this`sweepSpeed, this`coneAngleWidth, this`currentLabel, this`sweepRadius
      ensures Valid() && Built() && !running && patternStepIndex == 0 && angle == StartAngle
      ensures patternSequence != [] ==> Shows(patternSequence[0])
      ensures patternSequence == [] ==> unchanged(this`sweepSpeed, this`coneAngleWidth, this`currentLabel, this`sweepRadius)
    {
      running := false;
      patternStepIndex := 0;
      angle := StartAngle;
      RebuildAndLoad();
    }

    /**
     * A SAILS menu choice (the menu stores the choice, then this runs). Before a VCP is chosen
     * the choice is put back to "None". Otherwise a choice other than "None" clears MRLE, and
     * the animation stops, restarts at the first step at 90 degrees, and the sequence is rebuilt.
     */
    method SailsSelected(choice: string)
      requires Valid() && ChoicesOk()
      modifies this
      ensures Valid() && ChoicesOk() && Built()
      ensures !old(vcpSelected) ==> unchanged(this)
      ensures old(vcpSelected) ==>
                sails == choice && mrle == (if choice != "None" then "None" else old(mrle))
                && vcpSelected && selectedVcp == old(selectedVcp)
                && fastMode == old(fastMode) && speedMultiplier == old(speedMultiplier)
                && !running && patternStepIndex == 0 && angle == StartAngle
                && (patternSequence != [] ==> Shows(patternSequence[0]))
                && (patternSequence == [] ==> unchanged(this`sweepSpeed, this`coneAngleWidth, this`currentLabel, this`sweepRadius))
    {
      ChooseSails(choice);
      if !vcpSelected {
        return;
      }
      Restart();
    }

    /** How a SAILS menu choice lands in the two choices, before any rebuild. */
    method ChooseSails(choice: string)
      requires ChoicesOk()
      modifies this`sails, this`mrle
      ensures ChoicesOk()
      ensures !vcpSelected ==> sails == "None" && mrle == old(mrle)
      ensures vcpSelected ==> sails == choice && mrle == (if choice != "None" then "None" else old(mrle))
    {
      sails := choice;
      if !vcpSelected {
        sails := "None";
        return;
      }
      if sails != "None" {
        mrle := "None";
      }
    }

    /**
     * An MRLE menu choice, read as a count from its last digit. Before a VCP is chosen the
     * choice is put back to "None". Otherwise a choice other than "None" clears SAILS, and
     * the animation stops, restarts at the first step at 90 degrees, and the sequence is rebuilt.
     */
    method MrleSelected(choice: string)
      requires Valid() && ChoicesOk()
      requires MrleParses(choice)
      modifies this
      ensures Valid() && ChoicesOk() && Built()
      ensures !old(vcpSelected) ==> unchanged(this)
      ensures old(vcpSelected) ==>
                mrle == choice && sails == (if choice != "None" then "None" else old(sails))
                && vcpSelected && selectedVcp == old(selectedVcp)
                && fastMode == old(fastMode) && speedMultiplier == old(speedMultiplier)
                && !running && patternStepIndex == 0 && angle == StartAngle
                && (patternSequence != [] ==> Shows(patternSequence[0]))
                && (patternSequence == [] ==> unchanged(this`sweepSpeed, this`coneAngleWidth, this`currentLabel, this`sweepRadius))
    {
      ChooseMrle(choice);
      if !vcpSelected {
        return;
      }
      Restart();
    }

    /** How an MRLE menu choice lands in the two choices, before any rebuild. */
    method ChooseMrle(choice: string)
      requires ChoicesOk() && MrleParses(choice)
      modifies this`sails, this`mrle
      ensures ChoicesOk()
      ensures !vcpSelected ==> mrle == "None" && sails == old(sails)
      ensures vcpSelected ==> mrle == choice && sails == (if choice != "None" then "None" else old(sails))
    {
      mrle := choice;
      if !vcpSelected {
        mrle := "None";
        return;
      }
      if mrle != "None" {
        sails := "None";
      }
    }

    /**
     * A VCP button. Stops the animation, records the VCP, clears both supplemental choices
     * and loads the base pattern. The step index is not reset: it is kept when it still
     * lies inside the new pattern and clamped to 0 otherwise. The build and load run twice;
     * the second pass finds the state the first one left and changes nothing.
     */
    method SetVcp(name: string)
      requires Valid() && ChoicesOk()
      modifies this
      ensures Valid() && ChoicesOk() && Built()
      ensures vcpSelected && selectedVcp == name && sails == "None" && mrle == "None" && !running
      ensures patternSequence == Pattern(name)
      ensures fastMode == old(fastMode) && speedMultiplier == old(speedMultiplier)
      ensures patternSequence == [] ==>
                patternStepIndex == old(patternStepIndex) && angle == old(angle)
                && unchanged(this`sweepSpeed, this`coneAngleWidth, this`currentLabel, this`sweepRadius)
      ensures patternSequence != [] ==>
                angle == StartAngle
                && patternStepIndex == (if old(patternStepIndex) < |patternSequence| then old(patternStepIndex) else 0)
                && Shows(patternSequence[patternStepIndex])
    {
      ChooseVcp(name);
      RebuildAndLoad();
      if !MrleVcp(name) {
        mrle := "None";
      }
      RebuildAndLoad();
      BuildSequenceBase(name, "None", "None");
    }

    /** What a VCP button records before the build: stopped, the VCP chosen, both choices "None". */
    method ChooseVcp(name: string)
      modifies this`running, this`vcpSelected, this`selectedVcp, this`sails, this`mrle
      ensures !running && vcpSelected && selectedVcp == name && sails == "None" && mrle == "None"
      ensures ChoicesOk()
    {
      running := false;
      vcpSelected := true;
      selectedVcp := name;
      sails := "None";
      mrle := "None";
      if !MrleVcp(name) {
        mrle := "None";
      }
      sails := "None";
    }
  }

  /** The step indices from lo up to, but not including, hi, in increasing order. */
  function Steps(lo: nat, hi: nat): (r: seq<nat>)
    ensures |r| == if lo <= hi then hi - lo else 0
    ensures forall k :: 0 <= k < |r| ==> r[k] == lo + k
    decreases hi - lo
  {
    if lo < hi then [lo] + Steps(lo + 1, hi) else []
  }

  /**
   * The tick rescheduling itself every 25 ms, as long as the animation runs. With a loaded
   * sequence this always ends: after the last step the index is back at 0 and the sweep at 90 degrees.
   * `played` lists the steps loaded on the way: every step after the current one, once each, in order.
   */
  method RunAnimation(app: RadarApp) returns (ghost played: seq<nat>)
    requires app.Valid()
    requires app.running ==> app.patternSequence != []
    modifies app`running, app`patternStepIndex, app`angle,
             app`sweepSpeed, app`coneAngleWidth, app`currentLabel, app`sweepRadius
    ensures app.Valid() && !app.running
    ensures !old(app.running) ==> unchanged(app) && played == []
    ensures old(app.running) ==> app.patternStepIndex == 0 && app.angle == StartAngle
    ensures old(app.running) ==> played == Steps(old(app.patternStepIndex) + 1, |app.patternSequence|)
    ensures old(app.running) ==> app.Shows(app.patternSequence[|app.patternSequence| - 1])
    ensures app.patternSequence == old(app.patternSequence)
  {
    played := [];
    if !app.running {
      return;
    }
    ghost var start := app.patternStepIndex;
    var again := true;
    while again
      invariant app.Valid() && again == app.running
      invariant app.patternSequence == old(app.patternSequence) && app.patternSequence != []
      invariant !again ==> app.patternStepIndex == 0 && app.angle == StartAngle
      invariant again ==> start <= app.patternStepIndex && played == Steps(start + 1, app.patternStepIndex + 1)
      invariant !again ==> played == Steps(start + 1, |app.patternSequence|)
      invariant !again ==> app.Shows(app.patternSequence[|app.patternSequence| - 1])
      decreases (if app.running then |app.patternSequence| - app.patternStepIndex else 0), app.angle - EndAngle
    {
      LoadedSpeedBound(app.patternSequence, app.patternStepIndex, app.speedMultiplier);
      ghost var before := app.patternStepIndex;
      again := app.Tick();
      if again && app.patternStepIndex != before {
        StepsSnoc(start + 1, before + 1);
        played := played + [app.patternStepIndex];
      }
    }
  }

  lemma {:induction false} StepsSnoc(lo: nat, hi: nat)
    requires lo <= hi
    ensures Steps(lo, hi + 1) == Steps(lo, hi) + [hi]
  {
    var a, b := Steps(lo, hi + 1), Steps(lo, hi) + [hi];
    assert |a| == |b|;
    forall k | 0 <= k < |a|
      ensures a[k] == b[k]
    {
    }
  }

  /**
   * Pressing Run on a stopped animation with a loaded sequence plays every step once, in
   * order from the first, and stops. `played` lists the steps as they are loaded.
   */
  method PlayOnce(app: RadarApp) returns (ghost played: seq<nat>)
    requires app.Valid() && app.vcpSelected && !app.running && app.patternSequence != []
    modifies app`running, app`patternStepIndex, app`angle,
             app`sweepSpeed, app`coneAngleWidth, app`currentLabel, app`sweepRadius
    ensures app.Valid() && !app.running && app.patternStepIndex == 0 && app.angle == StartAngle
    ensures app.patternSequence == old(app.patternSequence)
    ensures played == Steps(0, |app.patternSequence|)
    ensures app.Shows(app.patternSequence[|app.patternSequence| - 1])
  {
    app.ToggleAnimation();
    ghost var rest := RunAnimation(app);
    played := [0] + rest;
  }
}
