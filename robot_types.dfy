/** Plain data shared by the robot, the controllers and the homing procedure:
    the fixed-width integers of the C++ code, the actuator status record
    (utils/types.h) and the three actuator states (robot/components/actuator.h). */
module RobotTypes {

  /** `qint16` / `int16_t`. */
  newtype int16 = x: int | -0x8000 <= x < 0x8000
  /** `qint32` / `int32_t`. */
  newtype int32 = x: int | -0x8000_0000 <= x < 0x8000_0000
  /** `quint8` / `uint8_t`. */
  newtype uint8 = x: int | 0 <= x < 0x100

  /** Motor / actuator identifier (`id_t`, an index into the robot's actuator list). */
  type ID = nat

  function Abs(x: int): (r: int)
    ensures r >= 0
  {
    if x >= 0 then x else -x
  }

  /** C++ integer division (`/`), which truncates toward zero: the remainder
      `a - q * b` has the sign of `a` and is smaller than `b` in magnitude. */
  function TruncDiv(a: int, b: int): (q: int)
    requires b != 0
    ensures a >= 0 ==> 0 <= a - q * b < Abs(b)
    ensures a < 0 ==> -Abs(b) < a - q * b <= 0
  {
    var uq := Abs(a) / Abs(b);
    var q := if (a >= 0) == (b > 0) then uq else -uq;
    TruncDivRemainder(a, b, uq, q);
    q
  }

  lemma TruncDivRemainder(a: int, b: int, uq: int, q: int)
    requires b != 0 && uq == Abs(a) / Abs(b)
    requires q == if (a >= 0) == (b > 0) then uq else -uq
    ensures q * b == uq * Abs(b) || q * b == -(uq * Abs(b))
    ensures a >= 0 ==> q * b == uq * Abs(b)
    ensures a < 0 ==> q * b == -(uq * Abs(b))
    ensures 0 <= Abs(a) - uq * Abs(b) < Abs(b)
    ensures a >= 0 ==> 0 <= a - q * b < Abs(b)
    ensures a < 0 ==> -Abs(b) < a - q * b <= 0
  {
    var ub := Abs(b);
    assert Abs(a) == ub * uq + Abs(a) % ub;
    if b < 0 {
      assert ub == -b;
      assert q * b == (-q) * ub;
    } else {
      assert ub == b;
    }
  }

  /** Conversion of an `int` to `qint16` (two's-complement wrap-around). */
  function Wrap16(x: int): (r: int16)
    ensures -0x8000 <= x < 0x8000 ==> r as int == x
    ensures (r as int - x) % 0x1_0000 == 0
  {
    var m := (x + 0x8000) % 0x1_0000;
    (m - 0x8000) as int16
  }

  /** Arithmetic on `size_t` values (64-bit unsigned, wraps modulo 2^64). */
  const SizeMod: int := 0x1_0000_0000_0000_0000

  function SizeT(x: int): (r: nat)
    ensures r < SizeMod
    ensures 0 <= x < SizeMod ==> r == x
  {
    x % SizeMod
  }

  /** The blocking-wait outcome (`RetVal`). */
  datatype RetVal = OK | EINT | ETIMEOUT

  /** Actuator states, in the order of `Actuator::States`. */
  datatype ActuatorState = ActIdle | ActEnabled | ActFault

  /** Control mode of a motor (`ControlMode`). */
  datatype ControlMode = CableLength | MotorPosition | MotorSpeed | MotorTorque | NoMode

  /** The per-cycle status snapshot of one actuator. `ActuatorStatus` in utils/types.h
      declares no `state` field, but the homing code reads `status.state`
      (src/homing/homing_proprioceptive.cpp:240, :274), so the field is added here. */
  datatype ActuatorStatus = ActuatorStatus(
    id: ID,
    op_mode: int,
    motor_position: int32,
    motor_speed: int32,
    motor_torque: int16,
    aux_position: int,
    cable_length: real,
    pulley_angle: real,
    state: ActuatorState)

  /** `ActuatorStatus()`: every field zero. */
  const DefaultStatus := ActuatorStatus(0, 0, 0, 0, 0, 0, 0.0, 0.0, ActIdle)
}

/** Linear search over sequences, shared by the id lookups of several classes. */
module Seqs {

  /** Index of the first occurrence of `x` in `s`. */
  function FirstIndex<T(==)>(s: seq<T>, x: T): (i: nat)
    requires x in s
    ensures i < |s| && s[i] == x
    ensures forall j :: 0 <= j < i ==> s[j] != x
  {
    if s[0] == x then 0 else 1 + FirstIndex(s[1..], x)
  }
}

/** The transition-map entries of the event-driven state-machine library the
    robot and the homing procedure are built on (`TRANSITION_MAP_ENTRY`). */
module StateMachine {
  datatype Transition<S> = GoTo(target: S) | EventIgnored | CannotHappen
}
