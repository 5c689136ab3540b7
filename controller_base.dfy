/** The motor-id -> control-mode table kept by every controller (ctrl/controller_base.cpp).

    The C++ class clears `modes_` and only reserves capacity for it, so `modes_[i] = mode`
    writes past the vector's size. The class below keeps `modes_` as long as `motors_id_`
    (the evidently intended behaviour, `resize(n, NONE)`: new slots holding `NoMode`);
    `SetMotorIDAsWritten`, `SetMotorsIDAsWritten` and the lemmas after them record the
    code as written. */
module Controller {
  import opened RobotTypes
  import Seqs

  /** Mode the table gives to `id`: that of its first occurrence, `NoMode` if absent. */
  function ModeOf(ids: seq<ID>, modes: seq<ControlMode>, id: ID): ControlMode
    requires |modes| == |ids|
  {
    if id in ids then modes[Seqs.FirstIndex(ids, id)] else NoMode
  }

  /** Setting the mode of the first occurrence of `id` changes what the table gives
      for `id` and for no other id. */
  lemma SetModeOnlyAffectsId(ids: seq<ID>, modes: seq<ControlMode>, id: ID, mode: ControlMode, other: ID)
    requires |modes| == |ids| && id in ids
    ensures ModeOf(ids, modes[Seqs.FirstIndex(ids, id) := mode], other)
            == if other == id then mode else ModeOf(ids, modes, other)
  {
    var k := Seqs.FirstIndex(ids, id);
    if other != id && other in ids {
      var j := Seqs.FirstIndex(ids, other);
      assert ids[j] == other && ids[k] == id;
      assert j != k;
    }
  }

  /** After setting every slot to `mode`, every controlled id reads back `mode`
      and every other id reads back `NoMode`. */
  lemma SetAllModesReadBack(ids: seq<ID>, mode: ControlMode, other: ID)
    ensures ModeOf(ids, seq(|ids|, _ => mode), other) == if other in ids then mode else NoMode
  {
  }

  /** `SetMotorID` and the constructor from one id as written: both vectors are
      cleared, one id is pushed and `modes_` only gets capacity, so its size stays 0. */
  function SetMotorIDAsWritten(id: ID): (t: (seq<ID>, seq<ControlMode>))
    ensures |t.0| == 1 && |t.1| == 0
  {
    ([id], [])
  }

  /** The first index `SetMode` writes after `SetMotorIDAsWritten(id)` is 0, which is not a
      valid index of the zero-sized `modes_`: the write is out of bounds. */
  lemma SetModeIndexAsWritten(id: ID)
    ensures var t := SetMotorIDAsWritten(id); 0 < |t.0| && !(0 < |t.1|)
  {
  }

  /** `SetMotorsID` and the constructor from a list as written: `motors_id_` takes the
      list and `modes_` only gets capacity, so its size stays 0. */
  function SetMotorsIDAsWritten(ids: seq<ID>): (t: (seq<ID>, seq<ControlMode>))
    ensures t.0 == ids && |t.1| == 0
  {
    (ids, [])
  }

  /** After `SetMotorsIDAsWritten(ids)` with a motor, every index `SetMode` writes is a
      valid motor index and none is a valid index of `modes_`. */
  lemma SetModesIndexAsWritten(ids: seq<ID>, i: nat)
    requires i < |ids|
    ensures var t := SetMotorsIDAsWritten(ids); i < |t.0| && !(i < |t.1|)
  {
  }

  class ControllerBase {
    var motors_id_: seq<ID>
    var modes_: seq<ControlMode>

    ghost predicate Valid()
      reads this
    {
      |modes_| == |motors_id_|
    }

    /** `ControllerBase(motor_id)`. */
    constructor (motor_id: ID)
      ensures Valid() && motors_id_ == [motor_id] && modes_ == [NoMode]
    {
      motors_id_ := [motor_id];
      modes_ := [NoMode];
    }

    /** `ControllerBase(motors_id)`. */
    constructor OfMotors(motors_id: seq<ID>)
      ensures Valid() && motors_id_ == motors_id
      ensures forall i :: 0 <= i < |modes_| ==> modes_[i] == NoMode
    {
      motors_id_ := motors_id;
      modes_ := seq(|motors_id|, _ => NoMode);
    }

    /** Controls exactly the one motor `motor_id`. */
    method SetMotorID(motor_id: ID)
      requires Valid()
      modifies this
      ensures Valid() && motors_id_ == [motor_id] && modes_ == [NoMode]
    {
      motors_id_ := [];
      modes_ := [];
      motors_id_ := motors_id_ + [motor_id];
      modes_ := [NoMode];
    }

    /** Replaces the list of controlled motors. */
    method SetMotorsID(motors_id: seq<ID>)
      requires Valid()
      modifies this
      ensures Valid() && motors_id_ == motors_id
      ensures forall i :: 0 <= i < |modes_| ==> modes_[i] == NoMode
    {
      motors_id_ := [];
      modes_ := [];
      motors_id_ := motors_id;
      modes_ := seq(|motors_id|, _ => NoMode);
    }

    /** Sets the mode of every controlled motor; with no motor it changes nothing
        (the source only prints a warning). */
    method SetMode(mode: ControlMode)
      requires Valid()
      modifies this
      ensures Valid() && motors_id_ == old(motors_id_)
      ensures modes_ == seq(|motors_id_|, _ => mode)
    {
      var i := 0;
      while i < |motors_id_|
        invariant 0 <= i <= |motors_id_| && |modes_| == |motors_id_|
        invariant motors_id_ == old(motors_id_)
        invariant forall k :: 0 <= k < i ==> modes_[k] == mode
      {
        modes_ := modes_[i := mode];
        i := i + 1;
      }
    }

    /** `SetMode(motor_id, mode)`: changes the slot of the first occurrence of
        `motor_id` and nothing else. */
    method SetModeOf(motor_id: ID, mode: ControlMode)
      requires Valid()
      modifies this
      ensures Valid() && motors_id_ == old(motors_id_)
      ensures motor_id in motors_id_ ==>
                modes_ == old(modes_)[Seqs.FirstIndex(motors_id_, motor_id) := mode]
      ensures motor_id !in motors_id_ ==> modes_ == old(modes_)
    {
      var i := 0;
      while i < |motors_id_|
        invariant 0 <= i <= |motors_id_|
        invariant forall k :: 0 <= k < i ==> motors_id_[k] != motor_id
        invariant motors_id_ == old(motors_id_) && modes_ == old(modes_)
      {
        if motors_id_[i] == motor_id {
          modes_ := modes_[i := mode];
          assert Seqs.FirstIndex(motors_id_, motor_id) == i by {
            var f := Seqs.FirstIndex(motors_id_, motor_id);
            assert !(f < i) && !(i < f);
          }
          return;
        }
        i := i + 1;
      }
    }

    /** Mode of the first occurrence of `motor_id`, `NoMode` when it is not controlled. */
    method GetMode(motor_id: ID) returns (mode: ControlMode)
      requires Valid()
      ensures motor_id in motors_id_ ==> mode == modes_[Seqs.FirstIndex(motors_id_, motor_id)]
      ensures motor_id !in motors_id_ ==> mode == NoMode
      ensures mode == ModeOf(motors_id_, modes_, motor_id)
    {
      var i := 0;
      while i < |motors_id_|
        invariant 0 <= i <= |motors_id_|
        invariant forall k :: 0 <= k < i ==> motors_id_[k] != motor_id
      {
        if motor_id == motors_id_[i] {
          assert Seqs.FirstIndex(motors_id_, motor_id) == i by {
            var f := Seqs.FirstIndex(motors_id_, motor_id);
            assert !(f < i) && !(i < f);
          }
          return modes_[i];
        }
        i := i + 1;
      }
      return NoMode;
    }
  }
}
