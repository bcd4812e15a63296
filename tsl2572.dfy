/** The TSL2572 driver: register access through the bus, the gain and
    integration-time accessors, the status diagnostic and the measurement. */
module Tsl2572Driver {
  import opened Registers
  import Gain
  import Timing
  import Status
  import Lux

  /** The register map after the sensor has stored one status value per
      poll for the first `polls` polls (as far as `feed` reaches). */
  function Polled(regs: map<int, bv8>, feed: seq<bv8>, polls: nat): (r: map<int, bv8>)
    ensures forall a :: a != BusAddress(StatusRegister) ==> Peek(r, a) == Peek(regs, a)
  {
    var k := if polls < |feed| then polls else |feed|;
    if k == 0 then regs else regs[BusAddress(StatusRegister) := feed[k - 1]]
  }

  /** One more poll stores the next status value, if the feed has one, and
      the driver then reads the status the sensor presents at that poll. */
  lemma PolledStep(regs: map<int, bv8>, feed: seq<bv8>, n: nat)
    ensures Polled(regs, feed, n + 1)
            == if n < |feed| then Polled(regs, feed, n)[BusAddress(StatusRegister) := feed[n]] else Polled(regs, feed, n)
    ensures Peek(Polled(regs, feed, n + 1), BusAddress(StatusRegister))
            == Status.ObservedStatus(feed, Peek(regs, BusAddress(StatusRegister)), n)
  {
  }

  /** The sensor's status updates and the driver's enable writes touch
      different registers, so they commute: only the last enable write shows. */
  lemma PolledBetweenEnables(regs: map<int, bv8>, feed: seq<bv8>, polls: nat)
    ensures Polled(regs[BusAddress(EnableRegister) := 0x01][BusAddress(EnableRegister) := 0x03], feed, polls)
                  [BusAddress(EnableRegister) := 0x01][BusAddress(EnableRegister) := 0x00]
            == Polled(regs, feed, polls)[BusAddress(EnableRegister) := 0x00]
  {
  }

  /** A one-byte read of the status register: one poll on the bus. */
  predicate IsStatusRead(op: BusOp) {
    op.BlockRead? && op.address == BusAddress(StatusRegister) && |op.data| == 1
  }

  /** The bus transfers of the first `n` polls: poll `j` reads the status
      the sensor presents at that poll. */
  function StatusReads(feed: seq<bv8>, initial: bv8, n: nat): (t: seq<BusOp>)
    ensures |t| == n
    ensures forall j :: 0 <= j < n ==> t[j] == BlockRead(BusAddress(StatusRegister), [Status.ObservedStatus(feed, initial, j)])
  {
    if n == 0 then []
    else StatusReads(feed, initial, n - 1) + [BlockRead(BusAddress(StatusRegister), [Status.ObservedStatus(feed, initial, n - 1)])]
  }

  /** One more poll appends the read of that poll's status. */
  lemma StatusReadsStep(t: seq<BusOp>, feed: seq<bv8>, initial: bv8, n: nat)
    ensures t + StatusReads(feed, initial, n) + [BlockRead(BusAddress(StatusRegister), [Status.ObservedStatus(feed, initial, n)])]
            == t + StatusReads(feed, initial, n + 1)
  {
  }

  /** The bus transfers of a measurement that starts from `regs` and polls
      `polls` times: the gain and integration-time reads, stop and start,
      the polls, stop and sleep, then the four channel-data bytes. */
  function MeasureTrace(regs: map<int, bv8>, feed: seq<bv8>, polls: nat): seq<BusOp> {
    [BlockRead(BusAddress(ConfigurationRegister), [Peek(regs, BusAddress(ConfigurationRegister))]),
     BlockRead(BusAddress(ControlRegister), [Peek(regs, BusAddress(ControlRegister))]),
     BlockRead(BusAddress(AlsTimingRegister), [Peek(regs, BusAddress(AlsTimingRegister))]),
     BlockWrite(BusAddress(EnableRegister), [0x01]),
     BlockWrite(BusAddress(EnableRegister), [0x03])]
    + StatusReads(feed, Peek(regs, BusAddress(StatusRegister)), polls)
    + [BlockWrite(BusAddress(EnableRegister), [0x01]),
       BlockWrite(BusAddress(EnableRegister), [0x00]),
       BlockRead(BusAddress(AdcChannelDataRegister), Window(regs, BusAddress(AdcChannelDataRegister), 4))]
  }

  /** The order of a measurement on the bus: the gain and integration time
      are read before any write; the status is read exactly `polls` times,
      all of them after the start write and before the stop write that
      follows; the only writes are 0x01, 0x03, 0x01, 0x00 to the enable
      register; the channel data are read last, after the sleep write. */
  lemma MeasureOrder(regs: map<int, bv8>, feed: seq<bv8>, polls: nat)
    ensures var t := MeasureTrace(regs, feed, polls);
            && |t| == polls + 8
            && (forall i :: 0 <= i < |t| ==> (IsStatusRead(t[i]) <==> 5 <= i < 5 + polls))
            && (forall i :: 0 <= i < |t| ==> (t[i].BlockWrite? <==> i == 3 || i == 4 || i == 5 + polls || i == 6 + polls))
            && (forall i :: 0 <= i < |t| && t[i].BlockWrite? ==> t[i].address == BusAddress(EnableRegister))
            && (forall i :: 0 <= i < 3 ==>
                  (t[i].BlockRead? && |t[i].data| == 1
                   && (t[i].address == BusAddress(ConfigurationRegister) || t[i].address == BusAddress(ControlRegister)
                       || t[i].address == BusAddress(AlsTimingRegister))))
            && t[3] == BlockWrite(BusAddress(EnableRegister), [0x01])
            && t[4] == BlockWrite(BusAddress(EnableRegister), [0x03])
            && t[5 + polls] == BlockWrite(BusAddress(EnableRegister), [0x01])
            && t[6 + polls] == BlockWrite(BusAddress(EnableRegister), [0x00])
            && t[7 + polls].BlockRead? && t[7 + polls].address == BusAddress(AdcChannelDataRegister)
            && |t[7 + polls].data| == 4
  {
  }

  /** The poll loop, seen on the bus: no status read follows a read whose
      byte has both watched bits set (`& 0x11 == 0x11`); there are between
      1 and 100 of them; and when there are fewer than 100, the last one
      returned both bits set. */
  lemma MeasureStopsAtReady(regs: map<int, bv8>, feed: seq<bv8>)
    ensures var polls := Status.Polls(feed, Peek(regs, BusAddress(StatusRegister)));
            var t := MeasureTrace(regs, feed, polls);
            && 1 <= polls <= Status.MaxPolls
            && (forall i, j :: 0 <= i < j < |t| && IsStatusRead(t[i]) && IsStatusRead(t[j]) ==>
                  Status.StatusBits(t[i].data[0]) != Status.Ready)
            && (polls < Status.MaxPolls ==> IsStatusRead(t[4 + polls]) && Status.StatusBits(t[4 + polls].data[0]) == Status.Ready)
  {
    var initial := Peek(regs, BusAddress(StatusRegister));
    var polls := Status.Polls(feed, initial);
    var t := MeasureTrace(regs, feed, polls);
    MeasureOrder(regs, feed, polls);
    Status.PollsBounds(feed, initial);
    assert forall i :: 5 <= i < 5 + polls ==> t[i] == StatusReads(feed, initial, polls)[i - 5];
    forall i, j | 0 <= i < j < |t| && IsStatusRead(t[i]) && IsStatusRead(t[j])
      ensures Status.StatusBits(t[i].data[0]) != Status.Ready
    {
      assert t[i].data[0] == Status.ObservedStatus(feed, initial, i - 5);
    }
  }

  /** The transfers of a measurement, appended call by call, make up
      `MeasureTrace`: the channel data read after polling are those of the
      starting registers, since polling and the enable writes touch neither. */
  lemma MeasureTraceSteps(t: seq<BusOp>, regs: map<int, bv8>, feed: seq<bv8>, polls: nat, after: map<int, bv8>)
    requires Window(after, BusAddress(AdcChannelDataRegister), 4) == Window(regs, BusAddress(AdcChannelDataRegister), 4)
    ensures t + [BlockRead(BusAddress(ConfigurationRegister), [Peek(regs, BusAddress(ConfigurationRegister))]),
                 BlockRead(BusAddress(ControlRegister), [Peek(regs, BusAddress(ControlRegister))])]
              + [BlockRead(BusAddress(AlsTimingRegister), [Peek(regs, BusAddress(AlsTimingRegister))])]
              + [BlockWrite(BusAddress(EnableRegister), [0x01])] + [BlockWrite(BusAddress(EnableRegister), [0x03])]
              + StatusReads(feed, Peek(regs, BusAddress(StatusRegister)), polls)
              + [BlockWrite(BusAddress(EnableRegister), [0x01])] + [BlockWrite(BusAddress(EnableRegister), [0x00])]
              + [BlockRead(BusAddress(AdcChannelDataRegister), Window(after, BusAddress(AdcChannelDataRegister), 4))]
            == t + MeasureTrace(regs, feed, polls)
  {
  }

  /** Polling and the enable writes leave the channel-data registers as
      they were. */
  lemma ChannelDataUnchanged(regs: map<int, bv8>, feed: seq<bv8>, polls: nat)
    ensures Window(Polled(regs, feed, polls)[BusAddress(EnableRegister) := 0x00], BusAddress(AdcChannelDataRegister), 4)
            == Window(regs, BusAddress(AdcChannelDataRegister), 4)
  {
  }

  /** The lux value a measurement computes from the registers as they were
      when it started: gain and integration time are captured first, and the
      channel data registers are not written during the measurement. */
  function MeasuredLux(regs: map<int, bv8>): (lux: real)
    ensures lux >= 0.0
  {
    var gain := Gain.DecodeGain(Peek(regs, BusAddress(ConfigurationRegister)), Peek(regs, BusAddress(ControlRegister)));
    var integrationTime := Timing.IntegrationTime(Peek(regs, BusAddress(AlsTimingRegister)));
    var base := BusAddress(AdcChannelDataRegister);
    var ch0 := Lux.Channel(Peek(regs, base), Peek(regs, base + 1));
    var ch1 := Lux.Channel(Peek(regs, base + 2), Peek(regs, base + 3));
    Lux.Lux(ch0, ch1, Lux.CountsPerLux(integrationTime, gain))
  }

  /** The lux value computed from the configuration read before the
      measurement and the channel data read after it is the one the
      registers held before it, since polling writes neither. */
  lemma MeasuredLuxAfterPolling(before: map<int, bv8>, feed: seq<bv8>, polls: nat,
                                gain: real, integrationTime: real, ch0: int, ch1: int)
    requires gain == Gain.DecodeGain(Peek(before, BusAddress(ConfigurationRegister)), Peek(before, BusAddress(ControlRegister)))
    requires integrationTime == Timing.IntegrationTime(Peek(before, BusAddress(AlsTimingRegister)))
    requires var after := Polled(before, feed, polls)[BusAddress(EnableRegister) := 0x00];
             var base := BusAddress(AdcChannelDataRegister);
             && ch0 == Lux.Channel(Peek(after, base), Peek(after, base + 1))
             && ch1 == Lux.Channel(Peek(after, base + 2), Peek(after, base + 3))
    ensures gain > 0.0 && integrationTime > 0.0
    ensures MeasuredLux(before) == Lux.Lux(ch0, ch1, Lux.CountsPerLux(integrationTime, gain))
  {
  }

  /** Setting a gain writes its table entry; reading the two registers back
      then decodes to the request or, for an unrecognised request, to 120. */
  lemma SetGainThenGetGain(regs: map<int, bv8>, g: real)
    ensures var e := Gain.EncodeGain(g);
            var after := regs[BusAddress(ConfigurationRegister) := e.config][BusAddress(ControlRegister) := e.control];
            Gain.DecodeGain(Peek(after, BusAddress(ConfigurationRegister)), Peek(after, BusAddress(ControlRegister)))
            == if Gain.Supported(g) then g else Gain.Sentinel
  {
    Gain.GainRoundTrip(g);
  }

  /** Setting an integration time and reading it back: 2.73 ms after a
      saturated request, within one step of the request below it. */
  lemma SetIntegrationTimeThenGet(regs: map<int, bv8>, ms: real)
    ensures var after := regs[BusAddress(AlsTimingRegister) := Timing.TimingRegister(ms)];
            var back := Timing.IntegrationTime(Peek(after, BusAddress(AlsTimingRegister)));
            (ms >= Timing.SaturationMs ==> back == 2.73)
            && (0.0 < ms < Timing.SaturationMs ==> ms - Timing.StepMs < back < ms + Timing.StepMs)
  {
    if 0.0 < ms < Timing.SaturationMs {
      Timing.WithinOneStep(ms);
    }
  }

  /** After construction the driver reads back gain 1 and 51.87 ms. */
  lemma DefaultsReadBack(regs: map<int, bv8>)
    ensures var after := regs[BusAddress(ConfigurationRegister) := 0][BusAddress(ControlRegister) := 0]
                             [BusAddress(AlsTimingRegister) := Timing.TimingRegister(50.0)];
            && Gain.DecodeGain(Peek(after, BusAddress(ConfigurationRegister)), Peek(after, BusAddress(ControlRegister))) == 1.0
            && Timing.IntegrationTime(Peek(after, BusAddress(AlsTimingRegister))) == 51.87
  {
    Timing.DefaultTiming();
  }

  class Tsl2572 {
    /** The register file standing in for the bus handle and address. */
    const device: RegisterFile

    /** Binds the driver to the sensor and writes the defaults: gain 1 and
        an integration time of 50 ms. */
    constructor (device: RegisterFile)
      modifies device
      ensures this.device == device
      ensures device.regs == old(device.regs)[BusAddress(ConfigurationRegister) := 0][BusAddress(ControlRegister) := 0]
                                             [BusAddress(AlsTimingRegister) := Timing.TimingRegister(50.0)]
      ensures device.trace == old(device.trace) + [BlockWrite(BusAddress(ConfigurationRegister), [0]),
                                                    BlockWrite(BusAddress(ControlRegister), [0]),
                                                    BlockWrite(BusAddress(AlsTimingRegister), [0xED])]
    {
      this.device := device;
      new;
      SetGain(1.0);
      SetIntegrationTime(50.0);
      Timing.DefaultTiming();
    }

    /** Reads `length` bytes starting at register `command`. */
    static method ReadBlock(device: RegisterFile, command: int, length: nat) returns (result: seq<bv8>)
      modifies device
      ensures device.regs == old(device.regs)
      ensures device.trace == old(device.trace) + [BlockRead(BusAddress(command), result)]
      ensures |result| == length
      ensures forall i :: 0 <= i < length ==> result[i] == device.Value(BusAddress(command) + i)
    {
      result := [];
      var buffer := new bv8[length];
      device.ReadI2cBlockSync(BusAddress(command), length, buffer);
      var n := 0;
      while n < length
        invariant 0 <= n <= length
        invariant |result| == n
        invariant forall i :: 0 <= i < n ==> result[i] == buffer[i]
      {
        result := result + [buffer[n]];
        n := n + 1;
      }
      assert result == Window(device.regs, BusAddress(command), length);
    }

    /** Writes `data` starting at register `command`. */
    static method WriteBlock(device: RegisterFile, command: int, data: seq<bv8>)
      modifies device
      ensures device.regs == Stored(old(device.regs), BusAddress(command), data)
      ensures device.trace == old(device.trace) + [BlockWrite(BusAddress(command), data)]
    {
      device.WriteI2cBlockSync(BusAddress(command), |data|, data);
    }

    method Read(command: int, length: nat) returns (result: seq<bv8>)
      modifies device
      ensures device.regs == old(device.regs)
      ensures device.trace == old(device.trace) + [BlockRead(BusAddress(command), result)]
      ensures |result| == length
      ensures forall i :: 0 <= i < length ==> result[i] == device.Value(BusAddress(command) + i)
    {
      result := ReadBlock(device, command, length);
    }

    /** Writes the single byte `data` to register `command`. */
    method Write(command: int, data: bv8)
      modifies device
      ensures device.regs == old(device.regs)[BusAddress(command) := data]
      ensures device.trace == old(device.trace) + [BlockWrite(BusAddress(command), [data])]
    {
      WriteBlock(device, command, [data]);
      StoredSingle(old(device.regs), BusAddress(command), data);
    }

    /** The ID register, as it is. */
    method Id() returns (id: bv8)
      modifies device
      ensures device.regs == old(device.regs)
      ensures device.trace == old(device.trace) + [BlockRead(BusAddress(IdRegister), [id])]
      ensures id == device.Value(BusAddress(IdRegister))
    {
      var r := Read(IdRegister, 1);
      id := r[0];
      assert r == [id];
    }

    /** Writes the table entry for `gain` to the configuration and control
        registers, in that order. */
    method SetGain(gain: real)
      modifies device
      ensures device.regs == old(device.regs)[BusAddress(ConfigurationRegister) := Gain.EncodeGain(gain).config]
                                             [BusAddress(ControlRegister) := Gain.EncodeGain(gain).control]
      ensures device.trace == old(device.trace) + [BlockWrite(BusAddress(ConfigurationRegister), [Gain.EncodeGain(gain).config]),
                                                    BlockWrite(BusAddress(ControlRegister), [Gain.EncodeGain(gain).control])]
    {
      if gain == 0.16 {
        Write(ConfigurationRegister, 4);
        Write(ControlRegister, 0);
      } else if gain == 1.0 {
        Write(ConfigurationRegister, 0);
        Write(ControlRegister, 0);
      } else if gain == 8.0 {
        Write(ConfigurationRegister, 0);
        Write(ControlRegister, 1);
      } else if gain == 16.0 {
        Write(ConfigurationRegister, 0);
        Write(ControlRegister, 2);
      } else {
        Write(ConfigurationRegister, 0);
        Write(ControlRegister, 3);
      }
    }

    /** The gain decoded from the configuration and control registers,
        each read with a one-byte read, in that order. */
    method GetGain() returns (gain: real)
      modifies device
      ensures device.regs == old(device.regs)
      ensures device.trace == old(device.trace) + [BlockRead(BusAddress(ConfigurationRegister), [device.Value(BusAddress(ConfigurationRegister))]),
                                                    BlockRead(BusAddress(ControlRegister), [device.Value(BusAddress(ControlRegister))])]
      ensures gain == Gain.DecodeGain(device.Value(BusAddress(ConfigurationRegister)), device.Value(BusAddress(ControlRegister)))
    {
      var config := Read(ConfigurationRegister, 1);
      assert config == [config[0]];
      var control := Read(ControlRegister, 1);
      assert control == [control[0]];
      gain := Gain.DecodeGain(config[0], control[0]);
    }

    /** Writes the timing-register byte for a request of `ms` milliseconds. */
    method SetIntegrationTime(ms: real)
      modifies device
      ensures device.regs == old(device.regs)[BusAddress(AlsTimingRegister) := Timing.TimingRegister(ms)]
      ensures device.trace == old(device.trace) + [BlockWrite(BusAddress(AlsTimingRegister), [Timing.TimingRegister(ms)])]
      ensures ms >= Timing.SaturationMs ==> device.Value(BusAddress(AlsTimingRegister)) == 0xFF
    {
      var registerValue: bv8 := 0xFF;
      if ms >= Timing.SaturationMs {
        registerValue := 0xFF;
      } else {
        registerValue := Timing.ToUint8(256.0 - ms / Timing.StepMs);
      }
      Write(AlsTimingRegister, registerValue);
    }

    /** The integration time derived from the timing register. */
    method GetIntegrationTime() returns (ms: real)
      modifies device
      ensures device.regs == old(device.regs)
      ensures device.trace == old(device.trace) + [BlockRead(BusAddress(AlsTimingRegister), [device.Value(BusAddress(AlsTimingRegister))])]
      ensures ms == Timing.IntegrationTime(device.Value(BusAddress(AlsTimingRegister)))
    {
      var r := Read(AlsTimingRegister, 1);
      assert r == [r[0]];
      ms := Timing.IntegrationTime(r[0]);
    }

    /** The two watched bits of the status register. */
    method State() returns (s: bv8)
      modifies device
      ensures device.regs == old(device.regs)
      ensures device.trace == old(device.trace) + [BlockRead(BusAddress(StatusRegister), [device.Value(BusAddress(StatusRegister))])]
      ensures s == Status.StatusBits(device.Value(BusAddress(StatusRegister)))
    {
      var r := Read(StatusRegister, 1);
      assert r == [r[0]];
      s := Status.StatusBits(r[0]);
    }

    /** Power on with light sensing off. */
    method StopAls()
      modifies device
      ensures device.regs == old(device.regs)[BusAddress(EnableRegister) := 0x01]
      ensures device.trace == old(device.trace) + [BlockWrite(BusAddress(EnableRegister), [0x01])]
    {
      Write(EnableRegister, 0x01);
    }

    /** Power on with light sensing on: starts a conversion. */
    method StartAls()
      modifies device
      ensures device.regs == old(device.regs)[BusAddress(EnableRegister) := 0x03]
      ensures device.trace == old(device.trace) + [BlockWrite(BusAddress(EnableRegister), [0x03])]
    {
      Write(EnableRegister, 0x03);
    }

    /** Power off. */
    method SetSleep()
      modifies device
      ensures device.regs == old(device.regs)[BusAddress(EnableRegister) := 0x00]
      ensures device.trace == old(device.trace) + [BlockWrite(BusAddress(EnableRegister), [0x00])]
    {
      Write(EnableRegister, 0x00);
    }

    /** One poll: the sensor may update its status while the driver waits,
        then the driver reads the two watched status bits. */
    method PollOnce(ghost start: map<int, bv8>, feed: seq<bv8>, n: nat) returns (s: bv8)
      requires device.regs == Polled(start, feed, n)
      modifies device
      ensures device.regs == Polled(start, feed, n + 1)
      ensures device.trace == old(device.trace)
                              + [BlockRead(BusAddress(StatusRegister), [Status.ObservedStatus(feed, Peek(start, BusAddress(StatusRegister)), n)])]
      ensures s == Status.StatusBits(Status.ObservedStatus(feed, Peek(start, BusAddress(StatusRegister)), n))
    {
      PolledStep(start, feed, n);
      if n < |feed| {
        device.Settle(feed[n]);
      }
      s := State();
    }

    /** The poll loop: up to 100 status reads, stopping at the first one
        that shows a finished conversion. Before poll `k` the sensor stores
        `feed[k]` in its status register, if `feed` has such an element;
        `polls` is the number of status reads made, each one a transfer
        on the bus. */
    method WaitForConversion(feed: seq<bv8>) returns (ghost polls: nat)
      modifies device
      ensures polls == Status.Polls(feed, old(device.Value(BusAddress(StatusRegister))))
      ensures device.regs == Polled(old(device.regs), feed, polls)
      ensures device.trace == old(device.trace) + StatusReads(feed, old(device.Value(BusAddress(StatusRegister))), polls)
    {
      ghost var initial := device.Value(BusAddress(StatusRegister));
      var n := 0;
      polls := Status.MaxPolls;
      while n < Status.MaxPolls
        invariant 0 <= n <= Status.MaxPolls
        invariant device.regs == Polled(old(device.regs), feed, n)
        invariant device.trace == old(device.trace) + StatusReads(feed, initial, n)
        invariant forall j :: 0 <= j < n ==> !Status.Converged(Status.ObservedStatus(feed, initial, j))
        invariant polls == Status.MaxPolls
      {
        var s := PollOnce(old(device.regs), feed, n);
        StatusReadsStep(old(device.trace), feed, initial, n);
        if s == Status.Ready {
          polls := n + 1;
          break;
        }
        n := n + 1;
      }
      Status.PollsFromSkip(feed, initial, 0, n);
      if n < Status.MaxPolls {
        Status.PollsFromStep(feed, initial, n);
      }
    }

    /** The two channel counts from the four data bytes, low byte first,
        read with one 4-byte read. */
    method ReadChannels() returns (ch0: int, ch1: int)
      modifies device
      ensures device.regs == old(device.regs)
      ensures device.trace == old(device.trace) + [BlockRead(BusAddress(AdcChannelDataRegister), Window(device.regs, BusAddress(AdcChannelDataRegister), 4))]
      ensures ch0 == Lux.Channel(device.Value(BusAddress(AdcChannelDataRegister)), device.Value(BusAddress(AdcChannelDataRegister) + 1))
      ensures ch1 == Lux.Channel(device.Value(BusAddress(AdcChannelDataRegister) + 2), device.Value(BusAddress(AdcChannelDataRegister) + 3))
    {
      var result := Read(AdcChannelDataRegister, 4);
      assert result == Window(device.regs, BusAddress(AdcChannelDataRegister), 4);
      ch0 := Lux.Channel(result[0], result[1]);
      ch1 := Lux.Channel(result[2], result[3]);
    }

    /** One measurement, with the sensor's status values given by `feed` as
        for `WaitForConversion`. Its bus transfers, in order, are
        `MeasureTrace` of the starting registers. */
    method Measure(feed: seq<bv8>) returns (lux: real, ghost polls: nat)
      modifies device
      ensures polls == Status.Polls(feed, old(device.Value(BusAddress(StatusRegister))))
      ensures 1 <= polls <= Status.MaxPolls
      ensures device.trace == old(device.trace) + MeasureTrace(old(device.regs), feed, polls)
      ensures device.regs == Polled(old(device.regs), feed, polls)[BusAddress(EnableRegister) := 0x00]
      ensures lux == MeasuredLux(old(device.regs))
    {
      var gain := GetGain();
      var integrationTime := GetIntegrationTime();

      StopAls();
      StartAls();
      assert device.Value(BusAddress(StatusRegister)) == old(device.Value(BusAddress(StatusRegister)));
      polls := WaitForConversion(feed);
      Status.PollsBounds(feed, old(device.Value(BusAddress(StatusRegister))));
      StopAls();
      SetSleep();
      PolledBetweenEnables(old(device.regs), feed, polls);

      var ch0, ch1 := ReadChannels();
      ChannelDataUnchanged(old(device.regs), feed, polls);
      MeasureTraceSteps(old(device.trace), old(device.regs), feed, polls, device.regs);
      MeasuredLuxAfterPolling(old(device.regs), feed, polls, gain, integrationTime, ch0, ch1);
      var cpl := Lux.CountsPerLux(integrationTime, gain);
      lux := Lux.Lux(ch0, ch1, cpl);
    }
  }
}
