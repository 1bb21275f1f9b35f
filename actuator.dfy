/**
 * The two-servo sorting mechanism of app.py: a gate (the "sorter") that turns
 * towards the plastic or the can side, and a slapper that pushes the item off
 * the platform. Servo writes are recorded as a command log on the driver
 * object; timing delays are not modelled.
 */
module Actuator {

  import opened Wrappers
  import opened Decision

  /** Driver channels of the two servos on the 16-channel board. */
  const SorterChannel: nat := 15
  const SlapperChannel: nat := 0
  const ChannelCount: nat := 16

  /** Calibrated angles in degrees. */
  const SorterIdle: nat := 60
  const SorterPlastic: nat := SorterIdle + 35
  const SorterCan: nat := SorterIdle - 35
  const SlapRest: nat := 65
  const SlapHit: nat := 160

  /** Largest angle a servo accepts with the driver's default actuation range. */
  const ActuationRange: nat := 180

  /** One write to `kit.servo[channel].angle`; `None` releases the servo signal. */
  datatype ServoCommand = Command(channel: nat, angle: Option<nat>)

  /** The servo driver board, observed through the writes it receives. */
  class ServoKit {
    var log: seq<ServoCommand>

    constructor ()
      ensures log == []
    {
      log := [];
    }

    /** Sets (or, with `None`, releases) the angle of one channel. */
    method SetAngle(channel: nat, angle: Option<nat>)
      modifies this
      ensures log == old(log) + [Command(channel, angle)]
    {
      log := log + [Command(channel, angle)];
    }
  }

  /** Gate angle that routes an accepted item into its bin. */
  function GateAngle(bin: Label): (a: nat)
    ensures a <= ActuationRange && a != SorterIdle
    ensures bin == Plastic ==> a == SorterIdle + 35
    ensures bin != Plastic ==> a + 35 == SorterIdle
  {
    if bin == Plastic then SorterPlastic else SorterCan
  }

  /** The writes `run_motor_sequence` issues for a label when a driver is present. */
  function SortingMoves(bin: Label): (moves: seq<ServoCommand>)
    ensures moves == [] <==> bin == Other
    ensures forall k :: 0 <= k < |moves| ==>
      moves[k].channel == SorterChannel || moves[k].channel == SlapperChannel
  {
    if bin == Other then []
    else [ Command(SorterChannel, Some(GateAngle(bin))),
           Command(SlapperChannel, Some(SlapHit)),
           Command(SlapperChannel, Some(SlapRest)),
           Command(SorterChannel, Some(SorterIdle)),
           Command(SorterChannel, None),
           Command(SlapperChannel, None) ]
  }

  /** The writes `reset_motors` issues when a driver is present. */
  function ResetMoves(): (moves: seq<ServoCommand>)
    ensures |moves| == 4
    ensures forall k :: 0 <= k < |moves| ==>
      moves[k].channel == SorterChannel || moves[k].channel == SlapperChannel
  {
    [ Command(SorterChannel, Some(SorterIdle)),
      Command(SlapperChannel, Some(SlapRest)),
      Command(SorterChannel, None),
      Command(SlapperChannel, None) ]
  }

  /** The last write to `channel` in `log` released it. */
  predicate Released(log: seq<ServoCommand>, channel: nat)
    decreases |log|
  {
    if log == [] then false
    else if log[|log| - 1].channel == channel then log[|log| - 1].angle == None
    else Released(log[..|log| - 1], channel)
  }

  /** The angles in `log` that are set on `channel`, in order. */
  function AnglesOn(log: seq<ServoCommand>, channel: nat): seq<nat>
    decreases |log|
  {
    if log == [] then []
    else
      var rest := AnglesOn(log[..|log| - 1], channel);
      var c := log[|log| - 1];
      if c.channel == channel && c.angle.Some? then rest + [c.angle.value] else rest
  }

  /** Every write addresses an existing channel with an angle the servo accepts. */
  predicate WellFormed(log: seq<ServoCommand>)
  {
    forall k :: 0 <= k < |log| ==>
      log[k].channel < ChannelCount && (log[k].angle.Some? ==> log[k].angle.value <= ActuationRange)
  }

  /** Whether a channel is released depends only on the writes after the last one to it. */
  lemma {:induction false} ReleasedAppend(before: seq<ServoCommand>, after: seq<ServoCommand>, channel: nat)
    requires Released(after, channel)
    ensures Released(before + after, channel)
    decreases |after|
  {
    var whole := before + after;
    assert whole[|whole| - 1] == after[|after| - 1];
    if after[|after| - 1].channel != channel {
      assert whole[..|whole| - 1] == before + after[..|after| - 1];
      ReleasedAppend(before, after[..|after| - 1], channel);
    }
  }

  /** The sorting sequence for an accepted item: gate out, slap, slap back, gate back, release both. */
  lemma SortingMovesShape(bin: Label)
    requires bin != Other
    ensures |SortingMoves(bin)| == 6
    ensures AnglesOn(SortingMoves(bin), SorterChannel) == [GateAngle(bin), SorterIdle]
    ensures AnglesOn(SortingMoves(bin), SlapperChannel) == [SlapHit, SlapRest]
    ensures Released(SortingMoves(bin), SorterChannel)
    ensures Released(SortingMoves(bin), SlapperChannel)
    ensures WellFormed(SortingMoves(bin))
  {
    var m := SortingMoves(bin);
    var p1, p2, p3, p4, p5 := m[..1], m[..2], m[..3], m[..4], m[..5];
    assert p1[..0] == [] && p2[..1] == p1 && p3[..2] == p2 && p4[..3] == p3 && p5[..4] == p4 && m[..5] == p5;
    assert p1 == [Command(SorterChannel, Some(GateAngle(bin)))];
    assert AnglesOn([], SorterChannel) == [] && AnglesOn([], SlapperChannel) == [];
    // the angles seen on each channel after each prefix of the sequence
    assert AnglesOn(p1, SorterChannel) == [GateAngle(bin)] && AnglesOn(p1, SlapperChannel) == [];
    assert AnglesOn(p2, SorterChannel) == [GateAngle(bin)] && AnglesOn(p2, SlapperChannel) == [SlapHit];
    assert AnglesOn(p3, SorterChannel) == [GateAngle(bin)] && AnglesOn(p3, SlapperChannel) == [SlapHit, SlapRest];
    assert AnglesOn(p4, SorterChannel) == [GateAngle(bin), SorterIdle];
    assert AnglesOn(p4, SlapperChannel) == [SlapHit, SlapRest];
    assert AnglesOn(p5, SorterChannel) == [GateAngle(bin), SorterIdle];
    assert AnglesOn(p5, SlapperChannel) == [SlapHit, SlapRest];
    assert Released(p5, SorterChannel);
  }

  /** The reset sequence: gate to idle, slapper to rest, release both. */
  lemma ResetMovesShape()
    ensures AnglesOn(ResetMoves(), SorterChannel) == [SorterIdle]
    ensures AnglesOn(ResetMoves(), SlapperChannel) == [SlapRest]
    ensures Released(ResetMoves(), SorterChannel)
    ensures Released(ResetMoves(), SlapperChannel)
    ensures WellFormed(ResetMoves())
  {
    var m := ResetMoves();
    var p1, p2, p3 := m[..1], m[..2], m[..3];
    assert p1[..0] == [] && p2[..1] == p1 && p3[..2] == p2 && m[..3] == p3;
    assert p1 == [Command(SorterChannel, Some(SorterIdle))];
    assert AnglesOn([], SorterChannel) == [] && AnglesOn([], SlapperChannel) == [];
    assert AnglesOn(p1, SorterChannel) == [SorterIdle] && AnglesOn(p1, SlapperChannel) == [];
    assert AnglesOn(p2, SorterChannel) == [SorterIdle] && AnglesOn(p2, SlapperChannel) == [SlapRest];
    assert AnglesOn(p3, SorterChannel) == [SorterIdle] && AnglesOn(p3, SlapperChannel) == [SlapRest];
    assert Released(p3, SorterChannel);
  }

  /**
   * `run_motor_sequence`: nothing moves for Other or without a driver;
   * otherwise the full sorting sequence, after which both servos are released.
   */
  method RunMotorSequence(kit: ServoKit?, bin: Label)
    modifies kit
    ensures kit != null ==> kit.log == old(kit.log) + SortingMoves(bin)
    ensures kit != null && bin != Other ==>
      Released(kit.log, SorterChannel) && Released(kit.log, SlapperChannel)
  {
    if bin == Other || kit == null {
      return;
    }
    var target := GateAngle(bin);
    kit.SetAngle(SorterChannel, Some(target));
    kit.SetAngle(SlapperChannel, Some(SlapHit));
    kit.SetAngle(SlapperChannel, Some(SlapRest));
    kit.SetAngle(SorterChannel, Some(SorterIdle));
    kit.SetAngle(SorterChannel, None);
    kit.SetAngle(SlapperChannel, None);
    SortingMovesShape(bin);
    ReleasedAppend(old(kit.log), SortingMoves(bin), SorterChannel);
    ReleasedAppend(old(kit.log), SortingMoves(bin), SlapperChannel);
  }

  /** `reset_motors`: with a driver, park both servos and release them; without one, nothing. */
  method ResetMotors(kit: ServoKit?)
    modifies kit
    ensures kit != null ==> kit.log == old(kit.log) + ResetMoves()
    ensures kit != null ==> Released(kit.log, SorterChannel) && Released(kit.log, SlapperChannel)
  {
    if kit == null {
      return;
    }
    kit.SetAngle(SorterChannel, Some(SorterIdle));
    kit.SetAngle(SlapperChannel, Some(SlapRest));
    kit.SetAngle(SorterChannel, None);
    kit.SetAngle(SlapperChannel, None);
    ResetMovesShape();
    ReleasedAppend(old(kit.log), ResetMoves(), SorterChannel);
    ReleasedAppend(old(kit.log), ResetMoves(), SlapperChannel);
  }
}
