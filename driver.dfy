/** The driver object for a Seeed I2C Motor Driver v1.3.  The I2C transport is
    represented by the bus number and by `trace`, the list of everything put
    on the bus so far; the ghost `history` records the public commands issued,
    so that the trace can be stated as a function of them. */
module Driver {
  import opened Protocol
  import opened BusTrace

  class PWMDriver {
    /** The number of the I2C bus the transport was opened on. */
    var bus: int
    /** The 7-bit device address every write goes to. */
    var addr: int
    /** Every event put on the bus by this driver, oldest first. */
    var trace: seq<Event>
    /** The commands issued so far, the construction-time frequency included. */
    ghost var history: seq<Command>
    /** Set once the driver has been released; no command may follow. */
    ghost var released: bool

    /** The trace is the settle step followed by the writes of the commands issued. */
    ghost predicate Consistent()
      reads this
    {
      trace == [Settle] + CommandsWrites(addr, history)
    }

    /** A constructed driver: consistent, and its first command was the default frequency. */
    ghost predicate Valid()
      reads this
    {
      Consistent() && |history| >= 1 && history[0] == ChangeFrequency(DefaultFrequency)
    }

    /** Opens the bus, waits for the board to settle, records the address and
        sets the default PWM frequency: the settle step comes before the first
        write, and that write sets frequency code 2 at `addr`. */
    constructor (i2cBus: int := 1, addr: int := 0x0f)
      ensures Valid()
      ensures this.bus == i2cBus && this.addr == addr
      ensures trace == [Settle, BlockWrite(addr, 0x84, (0x02, 1))]
      ensures history == [ChangeFrequency(F3921Hz)]
      ensures !released
    {
      bus := i2cBus;
      trace := [Settle];
      this.addr := addr;
      history := [];
      released := false;
      new;
      SetFrequency(F3921Hz);
    }

    /** One two-byte block write to register `reg` of this driver's device.
        Internal to the driver: it does not record a command, so a call from
        outside SetFrequency and SetSpeed would leave `trace` out of step with
        `history`. */
    method Write(reg: Register, data: (int, int))
      modifies this
      ensures trace == old(trace) + [BlockWrite(addr, RegisterCode(reg), data)]
      ensures bus == old(bus) && addr == old(addr) && history == old(history)
      ensures released == old(released)
    {
      trace := trace + [BlockWrite(addr, RegisterCode(reg), data)];
    }

    /** Appends exactly one write: the frequency's code and the framing byte 1
        to register 0x84. */
    method SetFrequency(freq: Frequency)
      requires Consistent() && !released
      modifies this
      ensures Consistent() && !released
      ensures old(Valid()) ==> Valid()
      ensures trace == old(trace) + [BlockWrite(addr, 0x84, (FrequencyCode(freq), 1))]
      ensures history == old(history) + [ChangeFrequency(freq)]
      ensures bus == old(bus) && addr == old(addr)
    {
      Write(FrequencyRegister, (FrequencyCode(freq), 1));
      history := history + [ChangeFrequency(freq)];
      CommandsWritesAppend(addr, old(history), ChangeFrequency(freq));
    }

    /** Appends exactly two writes, direction first: the direction byte and
        the framing byte 1 to register 0xAA, then the two magnitude bytes to
        register 0x82. */
    method SetSpeed(speed1: real, speed2: real)
      requires Consistent() && !released
      modifies this
      ensures Consistent() && !released
      ensures old(Valid()) ==> Valid()
      ensures trace == old(trace) + [BlockWrite(addr, 0xAA, (DirectionByte(speed1, speed2), 1)),
                                     BlockWrite(addr, 0x82, (FloatToByte(speed1), FloatToByte(speed2)))]
      ensures history == old(history) + [ChangeSpeed(speed1, speed2)]
      ensures bus == old(bus) && addr == old(addr)
    {
      var direction := (if speed1 < 0.0 then 1 else 2) + (if speed2 < 0.0 then 4 else 8);
      assert direction == DirectionByte(speed1, speed2);
      Write(DirectionRegister, (direction, 1));
      Write(SpeedRegister, (FloatToByte(speed1), FloatToByte(speed2)));
      ghost var written := CommandWrites(addr, ChangeSpeed(speed1, speed2));
      assert trace == old(trace) + written;
      history := history + [ChangeSpeed(speed1, speed2)];
      CommandsWritesAppend(addr, old(history), ChangeSpeed(speed1, speed2));
    }

    /** Release of the driver: sends speed (0, 0), so the last two writes on
        the bus are direction 10 and magnitudes (0, 0), and the whole trace is
        the session trace of the commands issued since construction.  After
        it the driver is released and takes no further command, so the stop
        stays the last bus operation. */
    method Close()
      requires Valid() && !released
      modifies this
      ensures Valid() && released
      ensures trace == old(trace) + [BlockWrite(addr, 0xAA, (10, 1)), BlockWrite(addr, 0x82, (0, 0))]
      ensures trace == SessionTrace(addr, old(history)[1..])
      ensures history == old(history) + [Stop]
      ensures bus == old(bus) && addr == old(addr)
    {
      SetSpeed(0.0, 0.0);
      released := true;
      FloatToByteValues();
      assert old(history) == [ChangeFrequency(DefaultFrequency)] + old(history)[1..];
    }
  }
}
