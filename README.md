# BD3491FS audio-processor controller, modelled in Dafny

The Adafruit BD3491FS driver controls an audio processor over I2C. Each of its
public operations takes one audio control and turns it into at most one
single-byte register write:

- input selection, mute and unmute (input-selector register);
- input gain;
- channel 1 and channel 2 volume;
- bass and treble boost or cut;
- surround level.

Invalid arguments are dropped silently. `begin` creates the device object,
runs its bus handshake and, if that succeeds, resets the chip.

The model has four modules:

- `Bits` (`bits.dfy`): the byte type and the bit operations the driver uses.
  `|` and `&` are defined bit by bit on non-negative integers, as C applies
  them to an `int`. Bit 7 and the low seven bits are read back with plain
  arithmetic, and lemmas connect the two descriptions.
- `Encoding` (`encoding.dfy`): the registers, as distinct tags, and the
  header's constants. It has one pure function per byte encoding, and each
  function's contract says how its byte decodes.
- `BusLog` (`bus_log.dfy`): the log of register writes. It provides what the
  log says about each register: its history (`WritesTo`) and the newest
  byte written to it (`LastWritten`). It also has lemmas on how appending writes
  changes those.
- `Controller` (`controller.dfy`): the class `BD3491FS`. Its mock transport
  is `writes`, an append-only log with one entry per register write. Every
  method states the whole new log in terms of the old one. Four client
  methods state the end-to-end behaviour: `begin` on a fresh controller,
  a setter after a failed `begin`, mute then unmute, and unmute versus
  select.

Where the expected behaviour and the code differ, the model follows the code:

- After a failed handshake, `begin` still leaves `i2c_dev` pointing at the
  new device object. So a setter called afterwards still issues its write
  (`VolumeAfterFailedBegin`). It is not true that no write follows a failed
  `begin`.
- The volume setters' comments ask for an attenuation "> 0 and < 88". The
  code accepts 0 as well, so the accepted range is 0..87.
- `setInputGain`'s comment says its argument is a `BD3491FS_Input`, but its
  type is `BD3491FS_Level`. It is modelled as a level.
- Calling `begin` again does not just repeat itself. It creates a new device
  object for the new address, redoes the handshake and, on success, resets
  the chip again.

## Model

| member | source | states |
|---|---|---|
| Bits.LowByte | Adafruit_BD3491FS.cpp:99-101 | a one-byte register keeps a value unchanged when it fits in a byte, and otherwise keeps a byte congruent to it modulo 256 |
| Bits.FlagByte | Adafruit_BD3491FS.cpp:155 | `flag ? (1 << 7) : 0` is nonzero exactly when the flag is set, and it has no bit below bit 7 |
| Bits.Pow2 | Adafruit_BD3491FS.cpp:155 | `1 << k`, defined by doubling; its contract only says it is positive, so that `(1 << k) - 1` is a mask |
| Bits.Or | Adafruit_BD3491FS.cpp:155 | definition of bitwise OR, bit by bit; the result is at least each operand and at most their sum |
| Bits.And | Adafruit_BD3491FS.cpp:191 | definition of bitwise AND, bit by bit; the result exceeds neither operand |
| Bits.Low7 | Adafruit_BD3491FS.cpp:191 | decoder for the low seven bits of a byte, `b % 128`, as the 0b01111111 mask selects them (its contract only bounds it below 128) |
| Bits.AndMask | Adafruit_BD3491FS.cpp:191 | masking a value with `(1 << k) - 1` leaves a value below `1 << k` that, with the bits shifted out, makes up the original value |
| Bits.AndLow7 | Adafruit_BD3491FS.cpp:191 | `level & 0b01111111` is the level modulo 128, its low seven bits |
| Bits.OrHighBit | Adafruit_BD3491FS.cpp:155 | OR-ing `1 << k` into a value below it adds that bit |
| Bits.PackFlag | Adafruit_BD3491FS.cpp:155 | OR-ing the bit-7 flag into a value below 128 adds it, and packs two independent fields: bit 7 reads back the flag, the low seven bits read back the value |
| Encoding.IsReservedGain | Adafruit_BD3491FS.cpp:96 | definition of the rejected input-gain levels, 5 and 7 (10 dB and 14 dB); no contract |
| Encoding.InputByte | Adafruit_BD3491FS.cpp:81-85 | the raw input tag is written unchanged when it fits in a byte, otherwise truncated modulo 256 |
| Encoding.InputGainByte | Adafruit_BD3491FS.cpp:95-102 | the byte for `gain << 1` is congruent to it modulo 256 (the register keeps its low byte), is always even (the register's low bit stays clear), and halving it gives the gain back whenever the shifted gain fits in a byte |
| Encoding.EvenLowByte | Adafruit_BD3491FS.cpp:101 | `gain << 1` stays even after the one-byte register truncates it |
| Encoding.VolumeByte | Adafruit_BD3491FS.cpp:112-136 | for an accepted attenuation (at most 87), the byte for `attenuation << 1` is even, at most 174, and halving it gives the attenuation back |
| Encoding.ToneByte | Adafruit_BD3491FS.cpp:149-175 | for an accepted bass or treble level (at most 7), bit 7 of the byte is the cut flag and the low seven bits are the level |
| Encoding.SurroundByte | Adafruit_BD3491FS.cpp:184-192 | bit 7 of the surround byte is the enable state and the low seven bits are those of the level |
| Encoding.ToneByteInjective | Adafruit_BD3491FS.cpp:149-175 | two accepted tone settings give the same byte if and only if they have the same level and the same cut flag |
| Encoding.VolumeByteInjective | Adafruit_BD3491FS.cpp:112-136 | two accepted attenuations give the same volume byte if and only if they are equal |
| BusLog.ResetWrite | Adafruit_BD3491FS.cpp:68-72 | the reset write goes to the system-reset register with bit 7 set and the value 1 in the low bits (0x81) |
| BusLog.WritesTo | Adafruit_BD3491FS.cpp:68-216 | definition of a register's history: the log filtered by register, oldest first; its properties are stated by `WritesToAppend` and `OneWrite` |
| BusLog.LastWritten | Adafruit_BD3491FS.cpp:199-203 | the newest byte written to a register in the log: it exists exactly when some write names the register, and it is the last entry of that register's history |
| BusLog.WritesToAppend | Adafruit_BD3491FS.cpp:68-216 | over two consecutive stretches of writes, a register's history is its history in the first stretch followed by its history in the second |
| BusLog.LastWrittenAppend | Adafruit_BD3491FS.cpp:68-216 | over two stretches of writes, a register's newest write is the second stretch's last write to it, or else the first stretch's |
| BusLog.UntouchedHistory | Adafruit_BD3491FS.cpp:68-216 | a stretch of writes none of which names a register leaves that register's history unchanged, so each setter touches only its own register |
| BusLog.NoWritesTo | Adafruit_BD3491FS.cpp:68-216 | a stretch of writes none of which names a register gives it an empty history |
| BusLog.OneWrite | Adafruit_BD3491FS.cpp:68-216 | a single write adds to its own register's history and becomes its newest write; every other register keeps its history and its newest write |
| BusLog.LastWriteWins | Adafruit_BD3491FS.cpp:199-203 | whatever came before, a byte written to a register stays the register's newest write as long as no later write names that register |
| Controller.BD3491FS.constructor | Adafruit_BD3491FS.cpp:43 | a new controller has no device object and an empty write log |
| Controller.BD3491FS.WriteRegister | Adafruit_BD3491FS.cpp:99-101 | a one-byte register write appends exactly that (register, byte) pair to the log |
| Controller.BD3491FS.Begin | Adafruit_BD3491FS.cpp:53-61 | the device object always exists afterwards, for the given address; the result is the handshake's outcome; on success the log gains exactly the reset write, on failure it is unchanged |
| Controller.BD3491FS.Reset | Adafruit_BD3491FS.cpp:68-72 | appends exactly (system reset, 0x81) and nothing else |
| Controller.BD3491FS.SetCurrentInput | Adafruit_BD3491FS.cpp:81-85 | appends exactly (input selector, the input tag) |
| Controller.BD3491FS.SetInputGain | Adafruit_BD3491FS.cpp:95-102 | levels 5 and 7 leave the log unchanged; any other level appends exactly (input gain, `gain << 1`) |
| Controller.BD3491FS.SetVolumeCh1 | Adafruit_BD3491FS.cpp:112-119 | an attenuation above 87 leaves the log unchanged; otherwise appends exactly (channel 1 volume, `attenuation << 1`) |
| Controller.BD3491FS.SetVolumeCh2 | Adafruit_BD3491FS.cpp:129-136 | an attenuation above 87 leaves the log unchanged; otherwise appends exactly (channel 2 volume, `attenuation << 1`) |
| Controller.BD3491FS.SetBassGain | Adafruit_BD3491FS.cpp:149-156 | a level above 7 leaves the log unchanged; otherwise appends exactly (bass gain, cut flag in bit 7 with the level below it) |
| Controller.BD3491FS.SetTrebleGain | Adafruit_BD3491FS.cpp:168-175 | same rejection and encoding as bass, on the treble register; the `level < 0` guard never fires, so the accepted range is exactly 0..7 |
| Controller.BD3491FS.SetSurroundGain | Adafruit_BD3491FS.cpp:184-192 | always appends exactly one write to the surround register, whose byte has bit 7 set exactly when the level is not `SURR_OFF` and whose low bits are `level & 0x7F` |
| Controller.BD3491FS.Mute | Adafruit_BD3491FS.cpp:199-203 | always appends exactly (input selector, `INPUT_MUTE`) |
| Controller.BD3491FS.UnMute | Adafruit_BD3491FS.cpp:212-216 | always appends exactly (input selector, the input tag) |
| Controller.BeginFresh | Adafruit_BD3491FS.cpp:53-61 | on a fresh controller, `begin` returns the handshake's outcome; its only write is the reset, issued exactly when the handshake succeeds |
| Controller.VolumeAfterFailedBegin | Adafruit_BD3491FS.cpp:53-58 | after a failed `begin` the device object stays in place though its handshake failed, and a volume setter still issues its write: an accepted attenuation gives exactly one channel 1 volume write, a rejected one gives none |
| Controller.MuteThenUnMute | Adafruit_BD3491FS.cpp:199-216 | after any input was selected, the selector's newest write is the mute value after muting, and the input the caller names after unmuting |
| Controller.UnMuteIsSelect | Adafruit_BD3491FS.cpp:212-216 | `unMute(x)` issues the same write as `setCurrentInput(x)`: the reset if the handshake succeeded, then (input selector, x) |

## Left out

- The I2C transport (`Adafruit_I2CDevice`, `Adafruit_I2CRegister::write`, `TwoWire`) is foreign code with no source here. The handshake becomes the `handshakeOk` parameter of `Begin`. A register write becomes an append of (register, low byte) to the log. The `wire` argument is dropped.
- The success flag returned by a register write is not modelled. The driver ignores it.
- `begin` allocates the device object with `new`, and calling `begin` again leaks the old one. This memory management is not modelled; `Begin` only sets the device fields.
- The header that declares the enumerations and register addresses is not part of this model, and neither are `begin`'s default arguments. Registers are distinct tags, and `INPUT_MUTE` and `SURR_OFF` are constants of unknown value. No property depends on their values.
- Enumeration values (`BD3491FS_Level`, `BD3491FS_Input`, surround level) are modelled as non-negative integers. A negative value cast into one of these enumerations is not modelled, and neither is the signed overflow of `gain << 1` for a gain near the `int` limit. Above 255, the one-byte register keeps the low byte.
- Before `begin`, a setter hands an unset device pointer to the bus library. What happens then is not in the driver's code, so the model makes `hasDevice` a precondition of every setter.
- LastWritten, LastWriteWins: the reset's effect on the chip's other registers is not modelled. They give the newest byte the driver wrote to a register, not what the register holds after a later reset returns it to its power-on value.
- Arduino runtime, timing and concurrency: the driver has no locking and no asynchronous behaviour to model.
