/** The integer bookkeeping of the homing acquisition
    (src/homing/homing_proprioceptive.cpp): the torque ramp of one cable, computed
    with C++ truncating division and `qint16` conversions, and the measurement counts
    held in `size_t`. */
module HomingRamp {
  import opened RobotTypes

  /** `delta_torque`: `(max - init) / (M - 1)` in `int` arithmetic, truncated toward
      zero, then stored in a `qint16`. M = 1 would divide by zero. */
  function RampDelta(init: int16, max: int16, m: nat): (d: int16)
    requires m >= 2
  {
    Wrap16(TruncDiv(max as int - init as int, m - 1))
  }

  /** `torques_[i] = init + i * delta`, computed in `int` and stored in a `qint16`. */
  function RampAt(init: int16, delta: int16, i: nat): int16
  {
    Wrap16(init as int + i * delta as int)
  }

  /** The M set points of one cable: the ramp for the first M - 1, exactly `max` last. */
  function TorqueRamp(init: int16, max: int16, m: nat): (r: seq<int16>)
    requires m >= 2
    ensures |r| == m
    ensures r[m - 1] == max
    ensures forall i :: 0 <= i < m - 1 ==> r[i] == RampAt(init, RampDelta(init, max, m), i)
  {
    seq(m, i requires 0 <= i < m => if i < m - 1 then RampAt(init, RampDelta(init, max, m), i) else max)
  }

  lemma MulMonotone(i: int, j: int, q: int)
    requires 0 <= i <= j && q >= 0
    ensures 0 <= i * q <= j * q
  {
    assert j * q - i * q == (j - i) * q;
  }

  /** A truncated quotient of a non-negative `d` by `k >= 1` is non-negative, its
      multiples up to `k` stay within `d`, and for `k >= 2` it is at most `d / 2`. */
  lemma NonNegQuotient(d: int, k: int, q: int, i: int)
    requires k >= 1 && 0 <= i <= k && d >= 0 && 0 <= d - q * k < k
    ensures 0 <= q && 0 <= i * q <= d
    ensures k >= 2 ==> 2 * q <= d
  {
    if q < 0 {
      MulMonotone(1, -q, k);
    }
    MulMonotone(i, k, q);
    assert k * q == q * k;
    if k >= 2 {
      MulMonotone(2, k, q);
    }
  }

  /** Steps of a truncated quotient `q` of `d` by `k`: `i * q` for `0 <= i <= k` stays
      between 0 and `d`, and for `k >= 2` a 17-bit span gives a 16-bit quotient. */
  lemma StepBounds(d: int, k: int, q: int, i: int)
    requires k >= 1 && 0 <= i <= k
    requires d >= 0 ==> 0 <= d - q * k < k
    requires d < 0 ==> -k < d - q * k <= 0
    ensures d >= 0 ==> 0 <= i * q <= d
    ensures d < 0 ==> d <= i * q <= 0
    ensures k >= 2 && -0xFFFF <= d <= 0xFFFF ==> -0x8000 <= q < 0x8000
  {
    if d >= 0 {
      NonNegQuotient(d, k, q, i);
    } else {
      assert (-d) - (-q) * k == -(d - q * k);
      NonNegQuotient(-d, k, -q, i);
      assert i * (-q) == -(i * q);
    }
  }

  /** The truncated quotient of the torque span fits in a `qint16` once there are at
      least three set points (with two, only step 0 uses it). Its steps stay between
      0 and the span, on the side of the span's sign. */
  lemma QuotientBounds(init: int16, max: int16, m: nat, i: nat)
    requires m >= 2 && i <= m - 1
    ensures var d := max as int - init as int; var q := TruncDiv(d, m - 1);
      && (m >= 3 ==> -0x8000 <= q < 0x8000)
      && (d >= 0 ==> 0 <= i * q <= d)
      && (d < 0 ==> d <= i * q <= 0)
  {
    var d := max as int - init as int;
    var k := m - 1;
    var q := TruncDiv(d, k);
    assert Abs(k) == k;
    StepBounds(d, k, q, i);
  }

  /** No wrap-around ever happens: every ramp value is exactly
      `init + i * trunc((max - init) / (M - 1))` and lies between `init` and `max`. */
  lemma {:induction false} RampExact(init: int16, max: int16, m: nat, i: nat)
    requires m >= 2 && i < m - 1
    ensures var q := TruncDiv(max as int - init as int, m - 1);
      TorqueRamp(init, max, m)[i] as int == init as int + i * q
    ensures init <= max ==> init <= TorqueRamp(init, max, m)[i] <= max
    ensures max < init ==> max <= TorqueRamp(init, max, m)[i] <= init
  {
    var q := TruncDiv(max as int - init as int, m - 1);
    QuotientBounds(init, max, m, i);
    if m == 2 {
      assert i == 0;
    } else {
      assert RampDelta(init, max, m) as int == q;
    }
  }

  /** The ramp is non-decreasing when `init <= max` and non-increasing otherwise. */
  lemma {:induction false} RampMonotone(init: int16, max: int16, m: nat, i: nat, j: nat)
    requires m >= 2 && i <= j < m
    ensures var r := TorqueRamp(init, max, m);
      && (init <= max ==> r[i] <= r[j])
      && (max < init ==> r[j] <= r[i])
  {
    var r := TorqueRamp(init, max, m);
    var q := TruncDiv(max as int - init as int, m - 1);
    if j < m - 1 {
      RampExact(init, max, m, i);
      RampExact(init, max, m, j);
      if max as int - init as int >= 0 {
        QuotientBounds(init, max, m, 1);
        MulMonotone(i, j, q);
      } else {
        QuotientBounds(init, max, m, 1);
        MulMonotone(i, j, -q);
      }
    } else if i < m - 1 {
      RampExact(init, max, m, i);
    }
  }

  /** The ramp starts at `init` and ends at `max`. */
  lemma RampEnds(init: int16, max: int16, m: nat)
    requires m >= 2
    ensures TorqueRamp(init, max, m)[0] == init
    ensures TorqueRamp(init, max, m)[m - 1] == max
  {
    RampExact(init, max, m, 0);
  }

  /** Three set points from 10 to 50 per mille: 10, 30, 50. */
  lemma RampExample()
    ensures TorqueRamp(10, 50, 3) == [10, 30, 50]
  {
    assert TruncDiv(40, 2) == 20;
    assert RampDelta(10, 50, 3) == 20;
    assert RampAt(10, 20, 1) == 30;
  }

  /** The quotient truncates toward zero (a Euclidean one would be -14): from 50 down
      to 10 with four set points the delta is -13, so the ramp is 50, 37, 24 and the
      forced last value 10 is a step of 14. */
  lemma RampTruncatesTowardZero()
    ensures TorqueRamp(50, 10, 4) == [50, 37, 24, 10]
  {
    assert TruncDiv(-40, 3) == -13;
    assert RampDelta(50, 10, 4) == -13;
    assert RampAt(50, -13, 1) == 37 && RampAt(50, -13, 2) == 24;
  }

  /** Measurements per cable: M during coiling, M - 1 during uncoiling. */
  function MeasPerCable(m: nat): int
  {
    2 * m - 1
  }

  /** `num_tot_meas_ = (2 * num_meas_ - 1) * N`, computed in `size_t`. */
  function NumTotMeas(m: nat, n: nat): (t: nat)
    ensures t < SizeMod
  {
    SizeT(MeasPerCable(m) * n)
  }

  /** With 1 <= M <= 255 and N <= 256 no wrap-around happens, and the replay offset
      `kOffset = num_tot_meas_ / N` of the uncoiling phase is 2M - 1. With M = 0 the
      unsigned subtraction wraps. */
  lemma {:induction false} NumTotMeasExact(m: nat, n: nat)
    requires 1 <= m < 0x100 && 1 <= n <= 0x100
    ensures NumTotMeas(m, n) == MeasPerCable(m) * n
    ensures NumTotMeas(m, n) / n == MeasPerCable(m)
  {
    var p := 2 * m - 1;
    MulMonotone(n, 0x100, p);
    assert p * n <= 0x100 * 0x1FF;
    DivExact(p, n);
  }

  /** Dividing an exact multiple gives back the factor. */
  lemma DivExact(a: int, n: int)
    requires n >= 1
    ensures (a * n) / n == a
  {
    var t := a * n;
    var q, r := t / n, t % n;
    assert t == q * n + r && 0 <= r < n;
    assert (a - q) * n == r;
    if a - q >= 1 {
      MulMonotone(1, a - q, n);
    } else if a - q <= -1 {
      MulMonotone(1, q - a, n);
    }
  }

  lemma NumTotMeasZeroWraps(n: nat)
    requires 1 <= n <= 0x100
    ensures NumTotMeas(0, n) == SizeMod - n
  {
  }

  /** The value `num_tot_meas_` takes for M < 256 and N <= 256: the exact count, except
      that M = 0 wraps around below zero (with no actuator the product is 0 anyway). */
  function TotalMeasCount(m: nat, n: nat): int
  {
    if m == 0 && n > 0 then SizeMod - n else MeasPerCable(m) * n
  }

  lemma NumTotMeasValue(m: nat, n: nat)
    requires m < 0x100 && n <= 0x100
    ensures NumTotMeas(m, n) == TotalMeasCount(m, n)
  {
    if n == 0 {
    } else if m == 0 {
      NumTotMeasZeroWraps(n);
    } else {
      NumTotMeasExact(m, n);
    }
  }

  /** The replay offset `kOffset = num_tot_meas_ / N` of the uncoiling phase is 2M - 1. */
  lemma ReplayOffset(m: nat, n: nat)
    requires 1 <= m && 1 <= n
    ensures TotalMeasCount(m, n) / n == MeasPerCable(m)
  {
    DivExact(MeasPerCable(m), n);
  }

  /** During uncoiling, `meas_step_` runs over M + 1 .. 2M - 1 and the replayed index
      `kOffset - meas_step_` over M - 2 down to 0: the positions recorded while coiling,
      last-but-one first. */
  lemma ReplayIndex(m: nat, step: nat)
    requires m >= 2 && m + 1 <= step <= 2 * m - 1
    ensures 0 <= MeasPerCable(m) - step <= m - 2
    ensures MeasPerCable(m) - step == (m - 2) - (step - (m + 1))
  {
  }
}
