# grovepwm register protocol, in Dafny

This project models `grovepwm.py`, the driver for Seeed's I2C Motor Driver
v1.3. The driver sets the PWM carrier frequency and the signed speed of two
motor channels through three device registers. Each call becomes a fixed
sequence of two-byte block writes:

| register | address | payload |
|---|---|---|
| Frequency | 0x84 | frequency code (1..5), then 1 |
| Direction | 0xAA | direction byte (5, 6, 9 or 10), then 1 |
| Speed | 0x82 | magnitude of channel 1, magnitude of channel 2 |

The I2C bus is represented by a trace: the events the driver has put on the
bus so far. There are two kinds of event:

- `Settle` stands for the startup delay.
- `BlockWrite(addr, reg, (b0, b1))` stands for one block write.

The files are:

- `protocol.dfy` (module `Protocol`):
  - the `Frequency` and `Register` enumerations with their wire codes and the lookups that invert them;
  - the direction byte, and a reader that decodes it back to two signs;
  - Python's `round` on exact values (round half to even);
  - `floatToByte`.
- `bustrace.dfy` (module `BusTrace`):
  - the writes one command produces, and the writes a sequence of commands produces;
  - the wire table as a predicate;
  - a reader that recovers each command's meaning from its writes;
  - the trace of a whole session, from construction to release.
- `driver.dfy` (module `Driver`): the class `PWMDriver`.
  - Its fields are `bus`, `addr` and `trace`, plus a ghost `history` of the commands issued and a ghost `released` flag that `Close` sets and every command requires to be unset.
  - Its methods are the constructor, `Write` (the source's `_write`), `SetFrequency`, `SetSpeed` and `Close`.
  - `Close` stands for `__del__`.
  - Each method appends to `trace` and states exactly what it appended.
  - The invariant `Consistent()` ties `trace` to `history` through the pure functions of `BusTrace`.

Speeds are `real`. The magnitude byte `round(abs(f) * 255)` is modelled exactly on reals:

- it is the nearest integer;
- on a tie it is the even neighbour, as Python's `round` does.

Two consequences of the code are worth stating:

- `setSpeed(0.5, -0.5)` writes direction 2 + 4 = 6, then magnitudes `(128, 128)` (`BusTrace.HalfSpeedOpposite`).
- The code (grovepwm.py:51-52) clamps nothing, so `FloatToByte(2.0) == 510` (`Protocol.FloatToByteNoClamp`). The byte stays within 0..255 exactly when abs(f)·255 < 255.5 (`Protocol.FloatToByteFitsByte`).

## Model

| member | source | states |
|---|---|---|
| `Protocol.FrequencyCode` | grovepwm.py:10-15 | every frequency's wire code is between 1 and 5 |
| `Protocol.FrequencyOf` | grovepwm.py:10-15 | a code names a frequency exactly when it is between 1 and 5 |
| `Protocol.FrequencyCodeRoundTrip` | grovepwm.py:10-15 | looking a frequency up by its code gives that frequency back |
| `Protocol.FrequencyOfRoundTrip` | grovepwm.py:10-15 | every code from 1 to 5 is the code of the frequency it names |
| `Protocol.RegisterCode` | grovepwm.py:17-20 | every register address is a byte in 0x80..0xFF |
| `Protocol.RegisterOf` | grovepwm.py:17-20 | an address names a register exactly when it is 0x84, 0xAA or 0x82 |
| `Protocol.RegisterCodeInjective` | grovepwm.py:17-20 | distinct registers have distinct addresses, and looking a register up by its address gives it back |
| `Protocol.DirectionByte` | grovepwm.py:47-49 | the direction byte is one of 5, 6, 9 and 10, and it decodes to exactly (speed1 < 0, speed2 < 0) |
| `Protocol.DirectionSigns` | grovepwm.py:47-49 | a byte decodes to a pair of signs exactly when it is 5, 6, 9 or 10 |
| `Protocol.DirectionFieldsIndependent` | grovepwm.py:47-49 | the low two bits depend only on the first speed, and the high bits only on the second |
| `Protocol.DirectionByteInjective` | grovepwm.py:47-49 | two speed pairs give the same byte if and only if their signs agree channel by channel |
| `Protocol.DirectionTable` | grovepwm.py:47-49 | (−,−) gives 5, (−,+) gives 9, (+,−) gives 6 and (+,+) gives 10; zero counts as forward, so (0, 0) gives 10 |
| `Protocol.RoundHalfEven` | grovepwm.py:52 | the result is within 1/2 of the input, and is even when the input is exactly halfway |
| `Protocol.RoundHalfEvenUnique` | grovepwm.py:52 | any integer with those two properties is the rounded value |
| `Protocol.RoundHalfEvenMonotone` | grovepwm.py:52 | rounding preserves order |
| `Protocol.FloatToByte` | grovepwm.py:51-52 | the magnitude byte is non-negative and within 1/2 of abs(f)·255; for abs(f) ≤ 1 it is at most 255 |
| `Protocol.FloatToByteSignless` | grovepwm.py:51-52 | the byte of −f equals the byte of f |
| `Protocol.FloatToByteValues` | grovepwm.py:45-52 | 0 gives 0, ±1 gives 255, and ±0.5 gives 128 |
| `Protocol.FloatToByteFitsByte` | grovepwm.py:51-52 | the byte is at most 255 if and only if abs(f)·255 < 255.5 |
| `Protocol.FloatToByteNoClamp` | grovepwm.py:51-52 | ±2 gives 510: nothing is clamped |
| `Protocol.FloatToByteMonotone` | grovepwm.py:51-52 | a larger magnitude never gives a smaller byte |
| `Protocol.FloatToByteQuantisation` | grovepwm.py:51-52 | byte/255 is within 1/510 of abs(f) |
| `BusTrace.CommandWrites` | grovepwm.py:39-53 | a frequency command produces one write and a speed command produces two; every one goes to `addr` and obeys the wire table |
| `BusTrace.CommandsWritesAppend` | grovepwm.py:35-37 | issuing one more command appends its writes and leaves the earlier writes unchanged |
| `BusTrace.CommandsWritesOnWire` | grovepwm.py:35-53 | every write of every command sequence targets `addr` and obeys the wire table |
| `BusTrace.DirectionThenSpeed` | grovepwm.py:50-53 | in any command sequence's writes, each direction write is immediately followed by a speed write, and each speed write immediately follows a direction write |
| `BusTrace.IntentsOf` | grovepwm.py:42-53 | the meaning of a command sequence has one entry per command, each the meaning of the command at that position |
| `BusTrace.ReadCommandsWrites` | grovepwm.py:42-53 | reading back the writes of any command sequence recovers, command by command, the frequency or the two signs and two magnitude bytes |
| `BusTrace.SessionGuarantees` | grovepwm.py:24-33 | for any commands issued between construction and release, the trace satisfies all of these: <br>• it starts with the settle step<br>• the first write is `(0x02, 1)` to 0x84<br>• every later event is a write to `addr` that obeys the wire table, with direction and speed writes paired<br>• the last two writes are `(10, 1)` to 0xAA and `(0, 0)` to 0x82 |
| `BusTrace.IdleSession` | grovepwm.py:24-33 | constructing and releasing at once gives settle, then frequency `(2, 1)`, then direction `(10, 1)`, then speed `(0, 0)` |
| `BusTrace.HalfSpeedOpposite` | grovepwm.py:47-53 | speed (0.5, −0.5) writes `(6, 1)` to 0xAA, then `(128, 128)` to 0x82 |
| `Driver.PWMDriver.constructor` | grovepwm.py:24-28 | records the bus and address (default 0x0f); the trace is the settle step followed by exactly one write, `(0x02, 1)` to 0x84 at `addr`; the driver is not released |
| `Driver.PWMDriver.Write` | grovepwm.py:35-37 | appends exactly one block write to `addr` at the register's address; bus, address, history and the released flag are unchanged (internal, like `_write`) |
| `Driver.PWMDriver.SetFrequency` | grovepwm.py:39-42 | on a driver not yet released, appends exactly `(code(freq), 1)` to 0x84, keeps the trace consistent with the history and the driver invariant, and leaves bus and address unchanged |
| `Driver.PWMDriver.SetSpeed` | grovepwm.py:44-53 | on a driver not yet released, appends exactly two writes, in order: `(direction byte, 1)` to 0xAA, then `(FloatToByte(s1), FloatToByte(s2))` to 0x82; keeps the driver invariant; bus and address are unchanged |
| `Driver.PWMDriver.Close` | grovepwm.py:30-33 | appends `(10, 1)` to 0xAA and then `(0, 0)` to 0x82; the whole trace equals the session trace of the commands issued since construction; the driver is then released, so no later command can follow the stop |

## Left out

- The `smbus2.SMBus` transport and `write_i2c_block_data` are foreign library I/O. They appear only as appends to `trace`, and `bus` keeps only the bus number.
- Transport errors are raised inside the library, not by this code. The model has no error path: every write succeeds.
- `time.sleep(0.01)` is real-time behaviour. It is kept only as the `Settle` marker at its place in the trace; the 10 ms duration is not modelled.
- The docstring warns that `setSpeed` calls must be spaced out. This is a timing obligation on callers, and time is not modelled.
- Logging through `_LOG` has no protocol content.
- `main()` is a demo sine sweep driven by wall-clock time and floating-point `sin`.
- Python runs `__del__` whenever its garbage collector decides. The model has an explicit `Close()` call instead, and nothing forces a caller to make it.
- Concurrent use of one driver from several threads is not modelled.
- BusTrace.DirectionThenSpeed: for a non-finite speed (NaN or ±infinity, or a finite speed whose product with 255 overflows), Python's `round` raises inside `floatToByte` after the direction write, so the direction write goes out with no speed write after it. Speeds here are reals, which have no such values, so the model leaves these speeds out.
- BusTrace.SessionGuarantees: for the same non-finite speeds the exception leaves a direction write unpaired, and the pairing part of this lemma, as for `DirectionThenSpeed`, does not cover them.
- Protocol.FloatToByte: speeds are exact reals, not IEEE doubles. `round` is applied to the exact product `abs(f) * 255`, so a floating-point rounding error in that product, which can move a value across a .5 boundary, is not modelled.
- Protocol.FloatToByte: bytes are unbounded integers. What the transport does with a magnitude above 255 happens in the library and is not modelled.
