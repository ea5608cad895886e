/** The BD3491FS controller: one object per chip, holding the handle of the
    I2C device it talks to. Each public operation turns one audio control
    into at most one register write. The bus itself is a mock transport:
    `writes` records every register write the driver issues, in order. */
module Controller {
  import opened Bits
  import opened Encoding
  import opened BusLog

  class BD3491FS {
    /** Whether `i2c_dev` points at a device object, that is, `begin` has run. */
    var hasDevice: bool
    /** The I2C address the device object was created for. */
    var deviceAddress: byte
    /** Whether the device object's bus handshake succeeded. */
    var begun: bool
    /** Every register write issued to the device, oldest first. */
    var writes: seq<Write>

    constructor ()
      ensures !hasDevice && !begun && writes == []
    {
      hasDevice, deviceAddress, begun := false, 0, false;
      writes := [];
    }

    /** A one-byte `Adafruit_I2CRegister` write to `reg` on the device. */
    method WriteRegister(reg: Register, value: byte)
      requires hasDevice
      modifies this`writes
      ensures writes == old(writes) + [Write(reg, value)]
    {
      writes := writes + [Write(reg, value)];
    }

    /** Creates the device object for `address` and runs its handshake,
        whose outcome is `handshakeOk`. On success the chip is reset. */
    method Begin(address: byte, handshakeOk: bool) returns (ok: bool)
      modifies this
      ensures hasDevice && deviceAddress == address && begun == handshakeOk
      ensures ok == handshakeOk
      ensures writes == if ok then old(writes) + [ResetWrite()] else old(writes)
    {
      hasDevice, deviceAddress := true, address;
      begun := handshakeOk;
      if !begun {
        return false;
      }
      Reset();
      return true;
    }

    /** Writes the reset command to the system-reset register. */
    method Reset()
      requires hasDevice
      modifies this`writes
      ensures writes == old(writes) + [ResetWrite()]
    {
      WriteRegister(SystemReset, RESET_COMMAND);
    }

    /** Selects `input`, passing the value through unchecked. */
    method SetCurrentInput(input: Input)
      requires hasDevice
      modifies this`writes
      ensures writes == old(writes) + [Write(InputSelector, InputByte(input))]
    {
      WriteRegister(InputSelector, InputByte(input));
    }

    /** Sets the input gain; the two reserved levels are ignored. */
    method SetInputGain(gain: Level)
      requires hasDevice
      modifies this`writes
      ensures writes == if IsReservedGain(gain) then old(writes)
                        else old(writes) + [Write(InputGain, InputGainByte(gain))]
    {
      if gain == 5 || gain == 7 {
        return;
      }
      WriteRegister(InputGain, InputGainByte(gain));
    }

    /** Sets the attenuation of output channel 1; values above 87 are ignored. */
    method SetVolumeCh1(attenuation: byte)
      requires hasDevice
      modifies this`writes
      ensures writes == if attenuation > MAX_ATTENUATION then old(writes)
                        else old(writes) + [Write(VolumeCh1, VolumeByte(attenuation))]
    {
      if attenuation > 87 {
        return;
      }
      WriteRegister(VolumeCh1, VolumeByte(attenuation));
    }

    /** Sets the attenuation of output channel 2; values above 87 are ignored. */
    method SetVolumeCh2(attenuation: byte)
      requires hasDevice
      modifies this`writes
      ensures writes == if attenuation > MAX_ATTENUATION then old(writes)
                        else old(writes) + [Write(VolumeCh2, VolumeByte(attenuation))]
    {
      if attenuation > 87 {
        return;
      }
      WriteRegister(VolumeCh2, VolumeByte(attenuation));
    }

    /** Boosts (or, with `cut`, cuts) the bass by `level`; levels above 7
        are ignored. */
    method SetBassGain(level: Level, cut: bool)
      requires hasDevice
      modifies this`writes
      ensures writes == if level > MAX_TONE_LEVEL then old(writes)
                        else old(writes) + [Write(BassGain, ToneByte(level, cut))]
    {
      if level > 7 {
        return;
      }
      WriteRegister(BassGain, ToneByte(level, cut));
    }

    /** Boosts (or, with `cut`, cuts) the treble by `level`. The guard also
        rejects negative levels, which no level can be, so the accepted
        range is exactly that of the bass. */
    method SetTrebleGain(level: Level, cut: bool)
      requires hasDevice
      modifies this`writes
      ensures writes == if level > MAX_TONE_LEVEL then old(writes)
                        else old(writes) + [Write(TrebleGain, ToneByte(level, cut))]
    {
      if level < 0 || level > 7 {
        return;
      }
      WriteRegister(TrebleGain, ToneByte(level, cut));
    }

    /** Sets the surround level; every level is written, with bit 7 set
        unless the level is `SURR_OFF`. */
    method SetSurroundGain(level: SurroundLevel)
      requires hasDevice
      modifies this`writes
      ensures writes == old(writes) + [Write(Surround, SurroundByte(level != SURR_OFF, level))]
    {
      var state := false;
      if level != SURR_OFF {
        state := true;
      }
      WriteRegister(Surround, SurroundByte(state, level));
    }

    /** Mutes the chip by selecting the mute input, whatever was selected. */
    method Mute()
      requires hasDevice
      modifies this`writes
      ensures writes == old(writes) + [Write(InputSelector, InputByte(INPUT_MUTE))]
    {
      WriteRegister(InputSelector, InputByte(INPUT_MUTE));
    }

    /** Unmutes the chip by selecting `input`; the controller does not
        remember the input that was selected before `Mute`. */
    method UnMute(input: Input)
      requires hasDevice
      modifies this`writes
      ensures writes == old(writes) + [Write(InputSelector, InputByte(input))]
    {
      WriteRegister(InputSelector, InputByte(input));
    }
  }

  /** A fresh controller's `begin`: it reports the handshake's outcome, and
      the only write it issues is the reset, exactly when the handshake
      succeeds. */
  method BeginFresh(address: byte, handshakeOk: bool) returns (ok: bool, writes: seq<Write>)
    ensures ok == handshakeOk
    ensures writes == if handshakeOk then [ResetWrite()] else []
    ensures LastWritten(writes, SystemReset).Some? <==> handshakeOk
  {
    var chip := new BD3491FS();
    ok := chip.Begin(address, handshakeOk);
    writes := chip.writes;
  }

  /** `begin` leaves the device handle in place when the handshake fails,
      and a setter called afterwards still issues its write. */
  method VolumeAfterFailedBegin(address: byte, attenuation: byte)
    returns (hasDevice: bool, begun: bool, writes: seq<Write>)
    ensures hasDevice && !begun
    ensures writes == if attenuation > MAX_ATTENUATION then []
                      else [Write(VolumeCh1, VolumeByte(attenuation))]
  {
    var chip := new BD3491FS();
    var ok := chip.Begin(address, false);
    chip.SetVolumeCh1(attenuation);
    hasDevice, begun, writes := chip.hasDevice, chip.begun, chip.writes;
  }

  /** Muting overrides whatever input was selected, and unmuting selects the
      input the caller names, not the one selected before muting. */
  method MuteThenUnMute(handshakeOk: bool, before: Input, after: Input)
    returns (muted: Option<byte>, restored: Option<byte>)
    ensures muted == Some(InputByte(INPUT_MUTE))
    ensures restored == Some(InputByte(after))
  {
    var chip := new BD3491FS();
    var ok := chip.Begin(0, handshakeOk);
    chip.SetCurrentInput(before);
    chip.Mute();
    OneWrite(chip.writes[..|chip.writes| - 1], chip.writes[|chip.writes| - 1], InputSelector);
    muted := LastWritten(chip.writes, InputSelector);
    chip.UnMute(after);
    OneWrite(chip.writes[..|chip.writes| - 1], chip.writes[|chip.writes| - 1], InputSelector);
    restored := LastWritten(chip.writes, InputSelector);
  }

  /** `unMute(x)` and `setCurrentInput(x)` issue the same write. */
  method UnMuteIsSelect(handshakeOk: bool, input: Input)
    returns (viaUnMute: seq<Write>, viaSelect: seq<Write>)
    ensures viaUnMute == viaSelect
    ensures viaSelect == (if handshakeOk then [ResetWrite()] else [])
                         + [Write(InputSelector, InputByte(input))]
  {
    var a := new BD3491FS();
    var okA := a.Begin(0, handshakeOk);
    a.UnMute(input);
    var b := new BD3491FS();
    var okB := b.Begin(0, handshakeOk);
    b.SetCurrentInput(input);
    viaUnMute, viaSelect := a.writes, b.writes;
  }
}
