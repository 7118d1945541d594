/** What the driver puts on the I2C bus: a trace of events, the writes each
    driver command produces, the wire table those writes obey, a reader that
    recovers the commands' meaning from the writes, and the shape of a whole
    driver session from construction to release. */
module BusTrace {
  import opened Protocol

  /** One bus event: the settle delay after the transport is opened, or a
      two-byte block write of `data` to register `reg` of device `addr`. */
  datatype Event = Settle | BlockWrite(addr: int, reg: int, data: (int, int))

  /** A public driver command. */
  datatype Command = ChangeFrequency(freq: Frequency) | ChangeSpeed(speed1: real, speed2: real)

  /** The speed pair the driver sends on release. */
  const Stop: Command := ChangeSpeed(0.0, 0.0)

  /** The frequency the driver sets on construction. */
  const DefaultFrequency: Frequency := F3921Hz

  /** The block writes one command produces, in order. */
  function CommandWrites(addr: int, c: Command): (w: seq<Event>)
    ensures |w| == if c.ChangeFrequency? then 1 else 2
    ensures forall i :: 0 <= i < |w| ==> WireWrite(addr, w[i])
  {
    match c
    case ChangeFrequency(f) =>
      [BlockWrite(addr, RegisterCode(FrequencyRegister), (FrequencyCode(f), 1))]
    case ChangeSpeed(s1, s2) =>
      [BlockWrite(addr, RegisterCode(DirectionRegister), (DirectionByte(s1, s2), 1)),
       BlockWrite(addr, RegisterCode(SpeedRegister), (FloatToByte(s1), FloatToByte(s2)))]
  }

  /** The block writes a sequence of commands produces. */
  function CommandsWrites(addr: int, cs: seq<Command>): seq<Event>
  {
    if cs == [] then [] else CommandWrites(addr, cs[0]) + CommandsWrites(addr, cs[1..])
  }

  /** The board's wire table: a write to device `addr` whose register is one
      of the three and whose payload has that register's framing — a known
      frequency code then 1, a direction byte with both fields valid then 1,
      or two non-negative magnitudes. */
  predicate WireWrite(addr: int, e: Event)
  {
    && e.BlockWrite?
    && e.addr == addr
    && (if e.reg == 0x84 then FrequencyOf(e.data.0).Some? && e.data.1 == 1
        else if e.reg == 0xAA then DirectionSigns(e.data.0).Some? && e.data.1 == 1
        else e.reg == 0x82 && e.data.0 >= 0 && e.data.1 >= 0)
  }

  /** Issuing one more command appends its writes and leaves the earlier ones alone. */
  lemma {:induction false} CommandsWritesAppend(addr: int, cs: seq<Command>, c: Command)
    ensures CommandsWrites(addr, cs + [c]) == CommandsWrites(addr, cs) + CommandWrites(addr, c)
  {
    if cs != [] {
      assert (cs + [c])[1..] == cs[1..] + [c];
      CommandsWritesAppend(addr, cs[1..], c);
    }
  }

  /** Every write any command sequence produces goes to `addr` and obeys the wire table. */
  lemma {:induction false} CommandsWritesOnWire(addr: int, cs: seq<Command>)
    ensures forall i :: 0 <= i < |CommandsWrites(addr, cs)| ==> WireWrite(addr, CommandsWrites(addr, cs)[i])
  {
    if cs != [] {
      CommandsWritesOnWire(addr, cs[1..]);
      var head, tail := CommandWrites(addr, cs[0]), CommandsWrites(addr, cs[1..]);
      assert CommandsWrites(addr, cs) == head + tail;
      forall i | 0 <= i < |head + tail|
        ensures WireWrite(addr, (head + tail)[i])
      {
        if i >= |head| {
          assert (head + tail)[i] == tail[i - |head|];
        }
      }
    }
  }

  /** `e` is a block write to register `reg`. */
  predicate WritesTo(e: Event, reg: int)
  {
    e.BlockWrite? && e.reg == reg
  }

  /** Direction and speed are never separated: each direction write is
      immediately followed by a speed write, and each speed write immediately
      follows a direction write. */
  predicate DirectionSpeedPaired(w: seq<Event>)
  {
    && (forall i :: 0 <= i < |w| && WritesTo(w[i], 0xAA) ==> i + 1 < |w| && WritesTo(w[i + 1], 0x82))
    && (forall i :: 0 <= i < |w| && WritesTo(w[i], 0x82) ==> 0 < i && WritesTo(w[i - 1], 0xAA))
  }

  /** Every command sequence keeps each direction write paired with its speed write. */
  lemma {:induction false} DirectionThenSpeed(addr: int, cs: seq<Command>)
    ensures DirectionSpeedPaired(CommandsWrites(addr, cs))
  {
    if cs != [] {
      DirectionThenSpeed(addr, cs[1..]);
      var head, tail := CommandWrites(addr, cs[0]), CommandsWrites(addr, cs[1..]);
      var w := head + tail;
      assert CommandsWrites(addr, cs) == w;
      forall i | 0 <= i < |w| && WritesTo(w[i], 0xAA)
        ensures i + 1 < |w| && WritesTo(w[i + 1], 0x82)
      {
        if i < |head| {
          assert w[i] == head[i];
          assert cs[0].ChangeSpeed? && i == 0;
          assert w[1] == head[1];
        } else {
          assert w[i] == tail[i - |head|];
          assert w[i + 1] == tail[i + 1 - |head|];
        }
      }
      forall i | 0 <= i < |w| && WritesTo(w[i], 0x82)
        ensures 0 < i && WritesTo(w[i - 1], 0xAA)
      {
        if i < |head| {
          assert w[i] == head[i];
          assert cs[0].ChangeSpeed? && i == 1;
          assert w[0] == head[0];
        } else {
          assert w[i] == tail[i - |head|];
          assert i > |head|;
          assert w[i - 1] == tail[i - 1 - |head|];
        }
      }
    }
  }

  /** What the board takes a command to mean: a frequency, or for each
      channel whether it reverses and its duty byte. */
  datatype Intent = FrequencySet(freq: Frequency) | SpeedSet(reverse1: bool, duty1: int, reverse2: bool, duty2: int)

  function IntentOf(c: Command): (m: Intent)
  {
    match c
    case ChangeFrequency(f) => FrequencySet(f)
    case ChangeSpeed(s1, s2) => SpeedSet(s1 < 0.0, FloatToByte(s1), s2 < 0.0, FloatToByte(s2))
  }

  /** The meaning of each command of a sequence, position by position. */
  function IntentsOf(cs: seq<Command>): (ms: seq<Intent>)
    ensures |ms| == |cs|
    ensures forall i :: 0 <= i < |cs| ==> ms[i] == IntentOf(cs[i])
  {
    if cs == [] then [] else [IntentOf(cs[0])] + IntentsOf(cs[1..])
  }

  /** Reads a write sequence addressed to `addr` as the board would: a
      frequency write alone, or a direction write followed by a speed write.
      None when the writes do not follow the wire table. */
  function ReadWrites(addr: int, w: seq<Event>): (r: Option<seq<Intent>>)
    decreases |w|
  {
    if w == [] then Some([])
    else if !w[0].BlockWrite? || w[0].addr != addr || w[0].data.1 != 1 then None
    else if w[0].reg == 0x84 then
      match FrequencyOf(w[0].data.0)
      case None => None
      case Some(f) =>
        match ReadWrites(addr, w[1..])
        case None => None
        case Some(rest) => Some([FrequencySet(f)] + rest)
    else if w[0].reg == 0xAA && |w| >= 2 && w[1].BlockWrite? && w[1].addr == addr && w[1].reg == 0x82 then
      match DirectionSigns(w[0].data.0)
      case None => None
      case Some(signs) =>
        match ReadWrites(addr, w[2..])
        case None => None
        case Some(rest) => Some([SpeedSet(signs.0, w[1].data.0, signs.1, w[1].data.1)] + rest)
    else None
  }

  /** The writes carry the commands' whole meaning: reading them back yields
      each command's frequency, or its two signs and two duty bytes. */
  lemma {:induction false} ReadCommandsWrites(addr: int, cs: seq<Command>)
    ensures ReadWrites(addr, CommandsWrites(addr, cs)) == Some(IntentsOf(cs))
  {
    if cs != [] {
      ReadCommandsWrites(addr, cs[1..]);
      var head, tail := CommandWrites(addr, cs[0]), CommandsWrites(addr, cs[1..]);
      var w := head + tail;
      assert CommandsWrites(addr, cs) == w;
      if cs[0].ChangeFrequency? {
        assert w[1..] == tail;
        FrequencyCodeRoundTrip(cs[0].freq);
      } else {
        assert w[2..] == tail;
      }
    }
  }

  /** The whole bus trace of a driver used for the commands `cs` and then
      released: settle, the default frequency, the commands, the stop. */
  function SessionTrace(addr: int, cs: seq<Command>): seq<Event>
  {
    [Settle] + CommandsWrites(addr, [ChangeFrequency(DefaultFrequency)] + cs + [Stop])
  }

  /** The lifecycle guarantee: the settle step comes first and nothing else
      is a settle; the first write sets frequency code 2; every write goes to
      `addr` under the wire table, with direction and speed writes paired; the
      last two writes are direction 10 and speed (0, 0), whatever commands
      were issued in between. */
  lemma SessionGuarantees(addr: int, cs: seq<Command>)
    ensures var t := SessionTrace(addr, cs);
      && |t| >= 4
      && t[0] == Settle
      && t[1] == BlockWrite(addr, 0x84, (0x02, 1))
      && (forall i :: 1 <= i < |t| ==> WireWrite(addr, t[i]))
      && DirectionSpeedPaired(t[1..])
      && t[|t| - 2] == BlockWrite(addr, 0xAA, (10, 1))
      && t[|t| - 1] == BlockWrite(addr, 0x82, (0, 0))
  {
    var all := [ChangeFrequency(DefaultFrequency)] + cs + [Stop];
    var w := CommandsWrites(addr, all);
    var t := SessionTrace(addr, cs);
    assert t == [Settle] + w;
    CommandsWritesAppend(addr, [ChangeFrequency(DefaultFrequency)] + cs, Stop);
    assert all[0] == ChangeFrequency(DefaultFrequency);
    CommandsWritesOnWire(addr, all);
    DirectionThenSpeed(addr, all);
    assert t[1..] == w;
    FloatToByteValues();
    var stop := CommandWrites(addr, Stop);
    assert stop == [BlockWrite(addr, 0xAA, (10, 1)), BlockWrite(addr, 0x82, (0, 0))];
    forall i | 1 <= i < |t|
      ensures WireWrite(addr, t[i])
    {
      assert t[i] == w[i - 1];
    }
  }

  /** Constructing a driver and releasing it at once still stops both channels. */
  lemma IdleSession(addr: int)
    ensures SessionTrace(addr, []) == [Settle,
      BlockWrite(addr, 0x84, (0x02, 1)), BlockWrite(addr, 0xAA, (10, 1)), BlockWrite(addr, 0x82, (0, 0))]
  {
    FloatToByteValues();
    var all := [ChangeFrequency(DefaultFrequency)] + [] + [Stop];
    assert all == [ChangeFrequency(DefaultFrequency), Stop];
    assert all[1..] == [Stop] && [Stop][1..] == [];
    assert CommandsWrites(addr, [Stop]) == CommandWrites(addr, Stop);
    assert CommandsWrites(addr, all)
      == CommandWrites(addr, ChangeFrequency(DefaultFrequency)) + CommandWrites(addr, Stop);
  }

  /** Channel 1 half forward, channel 2 half reverse: direction 6, then magnitudes 128 and 128. */
  lemma HalfSpeedOpposite(addr: int)
    ensures CommandWrites(addr, ChangeSpeed(0.5, -0.5))
      == [BlockWrite(addr, 0xAA, (6, 1)), BlockWrite(addr, 0x82, (128, 128))]
  {
  }
}
