/** Pulley angle from motor encoder counts, relative to a home reference
    (robot/components/pulleys_system.cpp). Angles are `real`; the angle factors
    of the pulley parameters are constants fixed at construction. */
module Pulleys {
  import opened RobotTypes

  /** C `int` range: `counts - home_counts_` must not overflow. */
  predicate IsInt32(x: int) { -0x8000_0000 <= x < 0x8000_0000 }

  /** Angle of a count offset, for an angle factor (rad or deg per count). */
  function CountsToAngle(counts: int, factor: real): real
  {
    counts as real * factor
  }

  /** The conversion is linear in the counts and maps 0 counts to angle 0. */
  lemma CountsToAngleLinear(a: int, b: int, factor: real)
    ensures CountsToAngle(0, factor) == 0.0
    ensures CountsToAngle(a + b, factor) == CountsToAngle(a, factor) + CountsToAngle(b, factor)
    ensures CountsToAngle(-a, factor) == -CountsToAngle(a, factor)
  {
  }

  /** The angle relative to home depends only on the count offset from home:
      moving by `d` counts changes the angle by the angle of `d` counts. */
  lemma AngleShift(home_angle: real, home_counts: int, c: int, d: int, factor: real)
    ensures home_angle + CountsToAngle(c + d - home_counts, factor)
            == (home_angle + CountsToAngle(c - home_counts, factor)) + CountsToAngle(d, factor)
  {
    CountsToAngleLinear(c - home_counts, d, factor);
  }

  class PulleysSystem {
    const id_: ID
    const angle_factor_rad_: real
    const angle_factor_deg_: real
    var home_counts_: int
    var home_angle_: real
    var angle_: real

    /** Stores the id and the pulley parameters' angle factors. The home reference and
        the angle are not initialised here: they hold arbitrary values until
        `UpdateHomeConfig` and `UpdateConfig` set them. */
    constructor (id: ID, factor_rad: real, factor_deg: real)
      ensures id_ == id && angle_factor_rad_ == factor_rad && angle_factor_deg_ == factor_deg
    {
      id_, angle_factor_rad_, angle_factor_deg_ := id, factor_rad, factor_deg;
      home_counts_, home_angle_, angle_ := *, *, *;
    }

    function CountsToPulleyAngleRad(counts: int): (r: real)
    {
      CountsToAngle(counts, angle_factor_rad_)
    }

    function CountsToPulleyAngleDeg(counts: int): (r: real)
    {
      CountsToAngle(counts, angle_factor_deg_)
    }

    /** Sets the home reference and nothing else. */
    method UpdateHomeConfig(home_counts: int, home_angle: real)
      requires IsInt32(home_counts)
      modifies this
      ensures home_counts_ == home_counts && home_angle_ == home_angle
      ensures angle_ == old(angle_)
    {
      home_counts_ := home_counts;
      home_angle_ := home_angle;
    }

    /** Recomputes the angle from the current counts. At the home counts the
        angle is exactly the home angle; a count offset `d` from home adds the angle of `d`. */
    method UpdateConfig(counts: int)
      requires IsInt32(counts) && IsInt32(counts - home_counts_)
      modifies this`angle_
      ensures angle_ == home_angle_ + CountsToPulleyAngleRad(counts - home_counts_)
      ensures counts == home_counts_ ==> angle_ == home_angle_
    {
      angle_ := home_angle_ + CountsToPulleyAngleRad(counts - home_counts_);
      CountsToAngleLinear(0, 0, angle_factor_rad_);
    }

    /** Updates the angle and returns the value just stored. */
    method GetAngleRad(counts: int) returns (angle: real)
      requires IsInt32(counts) && IsInt32(counts - home_counts_)
      modifies this`angle_
      ensures angle == angle_
      ensures angle_ == home_angle_ + CountsToPulleyAngleRad(counts - home_counts_)
    {
      UpdateConfig(counts);
      return angle_;
    }
  }
}
