/** The analog gain: the setter's table of register values and the
    getter's decoding of them. */
module Gain {

  /** The value the getter reports for a register pattern outside the table,
      and the gain the setter selects for any unrecognised request. */
  const Sentinel: real := 120.0

  /** The two registers that together select the gain: the configuration
      register holds the 4x boost bit (0x04), the control register the
      base-gain selector (bits 0x03). */
  datatype GainRegisters = GainRegisters(config: bv8, control: bv8)

  /** The gain values the setter recognises. */
  predicate Supported(g: real) {
    g == 0.16 || g == 1.0 || g == 8.0 || g == 16.0
  }

  /** The values the setter writes for a requested gain. */
  function EncodeGain(g: real): (r: GainRegisters)
    ensures r.config == 0 || r.config == 4
    ensures r.control <= 3
    ensures r.config == 4 <==> g == 0.16
    ensures !Supported(g) <==> r == GainRegisters(0, 3)
  {
    if g == 0.16 then GainRegisters(4, 0)
    else if g == 1.0 then GainRegisters(0, 0)
    else if g == 8.0 then GainRegisters(0, 1)
    else if g == 16.0 then GainRegisters(0, 2)
    else GainRegisters(0, 3)
  }

  /** The gain the getter reports for the two register values it reads. */
  function DecodeGain(config: bv8, control: bv8): (g: real)
    ensures Supported(g) || g == Sentinel
  {
    var boost := config & 0x04;
    var selector := control & 0x03;
    if boost == 0x04 && selector == 0x00 then 0.16
    else if boost == 0x00 && selector == 0x00 then 1.0
    else if boost == 0x00 && selector == 0x01 then 8.0
    else if boost == 0x00 && selector == 0x02 then 16.0
    else Sentinel
  }

  /** Every gain the getter can report is positive. */
  lemma DecodeGainPositive(config: bv8, control: bv8)
    ensures DecodeGain(config, control) > 0.0
  {
  }

  /** Writing a requested gain and reading it back gives the request when
      it is one of the four recognised values, and the sentinel otherwise. */
  lemma GainRoundTrip(g: real)
    ensures DecodeGain(EncodeGain(g).config, EncodeGain(g).control)
            == if Supported(g) then g else Sentinel
  {
  }

  /** The getter looks only at the boost bit and the two selector bits. */
  lemma DecodeGainMasked(config: bv8, control: bv8)
    ensures DecodeGain(config, control) == DecodeGain(config & 0x04, control & 0x03)
  {
  }

  /** The sentinel is reported exactly for the patterns outside the table:
      the boost bit with a non-zero selector, or selector 3 without it. */
  lemma DecodeGainSentinel(config: bv8, control: bv8)
    ensures DecodeGain(config, control) == Sentinel <==>
              ((config & 0x04 == 0x04 && control & 0x03 != 0x00)
               || (config & 0x04 == 0x00 && control & 0x03 == 0x03))
  {
  }

  /** Conversely, a pattern in the table is exactly what the setter writes
      for the gain it decodes to. */
  lemma EncodeDecodeGain(config: bv8, control: bv8)
    requires DecodeGain(config, control) != Sentinel
    ensures EncodeGain(DecodeGain(config, control)) == GainRegisters(config & 0x04, control & 0x03)
  {
  }
}

/** The integration time: the byte-level timing register and the
    milliseconds the driver derives from it. */
module Timing {

  /** Milliseconds per timing-register step. */
  const StepMs: real := 2.73
  /** Requests of at least this many milliseconds take the saturating branch. */
  const SaturationMs: real := 699.0
  /** The value the getter reports for register 0x00: 256 steps. */
  const LongestMs: real := 698.88

  /** Truncation toward zero. */
  function Trunc(x: real): (t: int)
    ensures 0.0 <= x ==> t as real <= x < t as real + 1.0
    ensures x < 0.0 ==> t as real - 1.0 < x <= t as real
  {
    if x >= 0.0 then x.Floor else -((-x).Floor)
  }

  /** The conversion of a finite number to a byte when it is stored in a
      byte buffer: truncate toward zero, then reduce modulo 256. */
  function ToUint8(x: real): (b: bv8)
    ensures 0.0 <= x < 256.0 ==> b as int == x.Floor
    ensures -1.0 < x < 0.0 ==> b == 0
  {
    var t := Trunc(x);
    assert 0.0 <= x < 256.0 ==> t == x.Floor && 0 <= t < 256 && t % 256 == t;
    assert -1.0 < x < 0.0 ==> t == 0;
    (t % 256) as bv8
  }

  /** The byte the setter writes to the timing register for a request. */
  function TimingRegister(ms: real): (reg: bv8)
    ensures ms >= SaturationMs ==> reg == 0xFF
  {
    if ms >= SaturationMs then 0xFF else ToUint8(256.0 - ms / StepMs)
  }

  /** The milliseconds the getter reports for a timing-register value. */
  function IntegrationTime(reg: bv8): (ms: real)
    ensures StepMs <= ms <= LongestMs
    ensures ms == StepMs <==> reg == 0xFF
    ensures ms == LongestMs <==> reg == 0x00
  {
    (256 - reg as int) as real * StepMs
  }

  /** A larger register value means a shorter integration time. */
  lemma IntegrationTimeDecreasing(a: bv8, b: bv8)
    requires a as int < b as int
    ensures IntegrationTime(b) < IntegrationTime(a)
  {
    assert IntegrationTime(a) - IntegrationTime(b) == (b as int - a as int) as real * StepMs;
  }

  /** A saturated request is read back as one step, 2.73 ms. */
  lemma SaturatedReadsBack(ms: real)
    requires ms >= SaturationMs
    ensures TimingRegister(ms) == 0xFF
    ensures IntegrationTime(TimingRegister(ms)) == 2.73
  {
  }

  /** Below the saturation threshold and above zero, the time read back is
      within one register step of the request (in exact arithmetic): never
      less than the request up to 256 steps, and 698.88 ms just below 699. */
  lemma WithinOneStep(ms: real)
    requires 0.0 < ms < SaturationMs
    ensures ms <= LongestMs ==> ms <= IntegrationTime(TimingRegister(ms)) < ms + StepMs
    ensures LongestMs < ms ==> IntegrationTime(TimingRegister(ms)) == LongestMs
    ensures ms - StepMs < IntegrationTime(TimingRegister(ms)) < ms + StepMs
  {
    var x := 256.0 - ms / StepMs;
    if ms <= LongestMs {
      assert 0.0 <= x < 256.0;
      var k := x.Floor;
      assert TimingRegister(ms) as int == k;
      assert IntegrationTime(TimingRegister(ms)) == (256 - k) as real * StepMs;
      assert (256 - k) as real * StepMs == (256.0 - k as real) * StepMs;
      assert ms == (256.0 - x) * StepMs;
    } else {
      assert -1.0 < x < 0.0;
      assert TimingRegister(ms) == 0;
    }
  }

  /** A request of 0 ms gives 256, which wraps to register 0x00: the
      longest time, 698.88 ms. */
  lemma ZeroRequestWraps()
    ensures TimingRegister(0.0) == 0x00
    ensures IntegrationTime(TimingRegister(0.0)) == LongestMs
  {
    assert Trunc(256.0) == 256;
  }

  /** The saturating branch selects the shortest integration time of all,
      shorter than what any request below the threshold obtains. */
  lemma SaturationIsShortest(ms: real, shorter: real)
    requires shorter < SaturationMs <= ms
    ensures IntegrationTime(TimingRegister(ms)) <= IntegrationTime(TimingRegister(shorter))
  {
  }

  /** The default request of 50 ms writes 237 (0xED), read back as 51.87 ms. */
  lemma DefaultTiming()
    ensures TimingRegister(50.0) == 0xED
    ensures IntegrationTime(TimingRegister(50.0)) == 51.87
  {
    var x := 256.0 - 50.0 / StepMs;
    assert 237.0 <= x < 238.0;
    assert x.Floor == 237;
  }
}

/** The status register and the bounded polling of the measurement. */
module Status {

  /** Both watched status bits set: the conversion has completed. */
  const Ready: bv8 := 0x11
  /** The number of polls before the measurement gives up waiting. */
  const MaxPolls: nat := 100

  /** The two watched bits of the status register (bits 0 and 4). */
  function StatusBits(status: bv8): (s: bv8)
    ensures s == 0x00 || s == 0x01 || s == 0x10 || s == 0x11
    ensures (s & 0x01 == 0x01) <==> (status & 0x01 == 0x01)
    ensures (s & 0x10 == 0x10) <==> (status & 0x10 == 0x10)
  {
    status & 0x11
  }

  /** The poll loop stops at a status whose watched bits are both set. */
  predicate Converged(status: bv8) {
    StatusBits(status) == Ready
  }

  /** The status the driver sees at poll `k` (from 0), when before poll `k`
      the sensor stores `feed[k]` if there is one and otherwise leaves the
      register as it was; `initial` is the register's value before polling. */
  function ObservedStatus(feed: seq<bv8>, initial: bv8, k: nat): bv8 {
    if k < |feed| then feed[k]
    else if |feed| == 0 then initial
    else feed[|feed| - 1]
  }

  /** The number of polls made from poll `k` on. */
  function PollsFrom(feed: seq<bv8>, initial: bv8, k: nat): nat
    requires k <= MaxPolls
    decreases MaxPolls - k
  {
    if k == MaxPolls then 0
    else if Converged(ObservedStatus(feed, initial, k)) then 1
    else 1 + PollsFrom(feed, initial, k + 1)
  }

  /** The number of status reads one measurement makes. */
  function Polls(feed: seq<bv8>, initial: bv8): nat {
    PollsFrom(feed, initial, 0)
  }

  /** One poll: it is the last exactly when it sees a finished conversion. */
  lemma PollsFromStep(feed: seq<bv8>, initial: bv8, k: nat)
    requires k < MaxPolls
    ensures PollsFrom(feed, initial, k)
            == if Converged(ObservedStatus(feed, initial, k)) then 1 else 1 + PollsFrom(feed, initial, k + 1)
  {
  }

  lemma {:induction false} PollsFromBounds(feed: seq<bv8>, initial: bv8, k: nat)
    requires k < MaxPolls
    ensures 1 <= PollsFrom(feed, initial, k) <= MaxPolls - k
    ensures forall j :: k <= j < k + PollsFrom(feed, initial, k) - 1 ==> !Converged(ObservedStatus(feed, initial, j))
    ensures k + PollsFrom(feed, initial, k) < MaxPolls ==> Converged(ObservedStatus(feed, initial, k + PollsFrom(feed, initial, k) - 1))
    decreases MaxPolls - k
  {
    if !Converged(ObservedStatus(feed, initial, k)) && k + 1 < MaxPolls {
      PollsFromBounds(feed, initial, k + 1);
    }
  }

  /** At least one and at most 100 status reads are made; every read before
      the last sees an unfinished conversion; and fewer than 100 reads are
      made only when the last one sees a finished conversion. */
  lemma PollsBounds(feed: seq<bv8>, initial: bv8)
    ensures 1 <= Polls(feed, initial) <= MaxPolls
    ensures forall j :: 0 <= j < Polls(feed, initial) - 1 ==> !Converged(ObservedStatus(feed, initial, j))
    ensures Polls(feed, initial) < MaxPolls ==> Converged(ObservedStatus(feed, initial, Polls(feed, initial) - 1))
  {
    PollsFromBounds(feed, initial, 0);
  }

  /** No status is read after the first finished one. */
  lemma {:induction false} PollsStopAtFirst(feed: seq<bv8>, initial: bv8, j: nat)
    requires j < MaxPolls && Converged(ObservedStatus(feed, initial, j))
    ensures Polls(feed, initial) <= j + 1
  {
    PollsBounds(feed, initial);
  }

  /** Skipping over unfinished polls: the count from `k` is the count from
      `n` plus the polls in between. */
  lemma {:induction false} PollsFromSkip(feed: seq<bv8>, initial: bv8, k: nat, n: nat)
    requires k <= n <= MaxPolls
    requires forall j :: k <= j < n ==> !Converged(ObservedStatus(feed, initial, j))
    ensures PollsFrom(feed, initial, k) == (n - k) + PollsFrom(feed, initial, n)
    decreases n - k
  {
    if k < n {
      PollsFromSkip(feed, initial, k + 1, n);
    }
  }
}

/** The raw channel counts and the lux formula. */
module Lux {

  /** A 16-bit channel count from its low and high data bytes. The source
      combines them as (hi << 8) | lo, which for bytes is hi * 256 + lo. */
  function Channel(lo: bv8, hi: bv8): (c: int)
    ensures 0 <= c <= 65535
    ensures c % 256 == lo as int && c / 256 == hi as int
  {
    hi as int * 256 + lo as int
  }

  /** Counts per lux for an integration time and a gain. */
  function CountsPerLux(integrationTime: real, gain: real): (cpl: real)
    requires integrationTime > 0.0 && gain > 0.0
    ensures cpl > 0.0
  {
    ProductPositive(integrationTime, gain);
    (integrationTime * gain) / 60.0
  }

  lemma ProductPositive(a: real, b: real)
    requires a > 0.0 && b > 0.0
    ensures a * b > 0.0
  {
  }

  /** The first of the two piecewise linear estimates. */
  function Lux1(ch0: int, ch1: int, cpl: real): real
    requires cpl > 0.0
  {
    (1.0 * ch0 as real - 1.87 * ch1 as real) / cpl
  }

  /** The second of the two piecewise linear estimates. */
  function Lux2(ch0: int, ch1: int, cpl: real): real
    requires cpl > 0.0
  {
    (0.63 * ch0 as real - 1.0 * ch1 as real) / cpl
  }

  /** The illuminance: the largest of 0 and the two estimates. */
  function Lux(ch0: int, ch1: int, cpl: real): (lux: real)
    requires cpl > 0.0
    ensures lux >= 0.0 && lux >= Lux1(ch0, ch1, cpl) && lux >= Lux2(ch0, ch1, cpl)
    ensures lux == 0.0 || lux == Lux1(ch0, ch1, cpl) || lux == Lux2(ch0, ch1, cpl)
  {
    var lux1 := Lux1(ch0, ch1, cpl);
    var lux2 := Lux2(ch0, ch1, cpl);
    var m := if 0.0 >= lux1 then 0.0 else lux1;
    if m >= lux2 then m else lux2
  }

  lemma QuotientPositive(x: real, c: real)
    requires c > 0.0
    ensures x / c > 0.0 <==> x > 0.0
  {
  }

  /** The result is positive exactly when one of the two numerators is. */
  lemma LuxPositive(ch0: int, ch1: int, cpl: real)
    requires cpl > 0.0
    ensures Lux(ch0, ch1, cpl) > 0.0 <==>
              (ch0 as real > 1.87 * ch1 as real || 0.63 * ch0 as real > ch1 as real)
  {
    QuotientPositive(1.0 * ch0 as real - 1.87 * ch1 as real, cpl);
    QuotientPositive(0.63 * ch0 as real - 1.0 * ch1 as real, cpl);
  }

  /** Raw counts 100 and 20 at gain 1 and 50 ms give 75.12 lux. */
  lemma LuxExample()
    ensures Lux(100, 20, CountsPerLux(50.0, 1.0)) == 75.12
  {
    var cpl := CountsPerLux(50.0, 1.0);
    assert cpl == 5.0 / 6.0;
    assert Lux1(100, 20, cpl) == 62.6 / cpl == 75.12;
    assert Lux2(100, 20, cpl) == 43.0 / cpl == 51.6;
  }
}
