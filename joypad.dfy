/// The standard controller (nes/src/input_device/joypad.rs): eight button
/// bits read out one per `read` through a serial shift register, restarted
/// by the strobe bit of a `write`.
module Joypad {
  import opened Tools

  // JoypadButton flags.
  const BUTTON_A: byte := 0x01
  const BUTTON_B: byte := 0x02
  const SELECT: byte := 0x04
  const START: byte := 0x08
  const UP: byte := 0x10
  const DOWN: byte := 0x20
  const LEFT: byte := 0x40
  const RIGHT: byte := 0x80

  /// The controller's three fields as one value.
  datatype PadState = PadState(strobe: bool, buttonIndex: u8, buttonStatus: byte)

  /// The state and answer of `read`: past the eighth button it answers 1;
  /// otherwise the button at the index, and the index moves on unless the
  /// strobe is held.
  function ReadStep(s: PadState): (r: (PadState, byte))
    ensures r.1 == 0 || r.1 == 1
    ensures s.buttonIndex > 7 ==> r == (s, 1)
    ensures s.buttonIndex <= 7 ==>
      (r.1 == 1 <==> s.buttonStatus & (1 << s.buttonIndex) != 0) &&
      r.0 == s.(buttonIndex := if s.strobe then s.buttonIndex else s.buttonIndex + 1)
  {
    if s.buttonIndex > 7 then (s, 1)
    else
      var response := (s.buttonStatus & (1 << s.buttonIndex)) >> s.buttonIndex;
      var index := if !s.strobe && s.buttonIndex <= 7 then s.buttonIndex + 1 else s.buttonIndex;
      (s.(buttonIndex := index), response)
  }

  /// The state after `write(data)`: the strobe follows bit 0, and a set
  /// strobe sends the index back to button A.
  function WriteStep(s: PadState, data: byte): (r: PadState)
    ensures r.strobe <==> data & 1 == 1
    ensures r.buttonIndex == (if data & 1 == 1 then 0 else s.buttonIndex)
    ensures r.buttonStatus == s.buttonStatus
  {
    var strobe := data & 1 == 1;
    s.(strobe := strobe, buttonIndex := if strobe then 0 else s.buttonIndex)
  }

  /// The status after `set_button_pressed_status(button, pressed)`.
  function SetButton(status: byte, button: byte, pressed: bool): byte {
    if pressed then status | button else status & !button
  }

  /// Setting a button changes its own bit and no other.
  lemma SetButtonOnly(status: byte, button: byte, pressed: bool, other: byte)
    requires other & button == 0
    ensures SetButton(status, button, pressed) & button == (if pressed then button else 0)
    ensures SetButton(status, button, pressed) & other == status & other
  {
  }

  /// The answers of `n` reads in a row.
  function ReadMany(s: PadState, n: nat): (r: (PadState, seq<byte>))
    ensures |r.1| == n
    decreases n
  {
    if n == 0 then (s, [])
    else
      var (next, bit) := ReadStep(s);
      var (last, rest) := ReadMany(next, n - 1);
      (last, [bit] + rest)
  }

  /// Bit `i` of the button status, 0 or 1.
  function Button(status: byte, i: nat): byte
    requires i < 8
  {
    if status & (1 << i) != 0 then 1 else 0
  }

  /// With the strobe off, reads report the buttons from the index on, in
  /// the order A, B, Select, Start, Up, Down, Left, Right, and then 1 for
  /// ever.
  lemma {:induction false} SerialOrder(s: PadState, n: nat)
    requires !s.strobe && s.buttonIndex <= 8
    ensures var k := 8 - s.buttonIndex as int;
      forall i | 0 <= i < n ::
        ReadMany(s, n).1[i] == if i < k then Button(s.buttonStatus, s.buttonIndex as int + i) else 1
    decreases n
  {
    if n > 0 {
      var (next, bit) := ReadStep(s);
      if s.buttonIndex > 7 {
        SerialOrder(next, n - 1);
      } else {
        SerialOrder(next, n - 1);
        assert next.buttonIndex == s.buttonIndex + 1;
      }
    }
  }

  /// With the strobe held on, every read reports button A.
  lemma {:induction false} StrobeHeld(s: PadState, n: nat)
    requires s.strobe && s.buttonIndex == 0
    ensures forall i | 0 <= i < n :: ReadMany(s, n).1[i] == Button(s.buttonStatus, 0)
    ensures ReadMany(s, n).0 == s
    decreases n
  {
    if n > 0 {
      StrobeHeld(ReadStep(s).0, n - 1);
    }
  }

  /// Writing 1 and then 0 restarts the sequence at button A.
  lemma Restart(s: PadState)
    ensures WriteStep(WriteStep(s, 1), 0) == PadState(false, 0, s.buttonStatus)
  {
  }

  /// Right, Left, Select and B pressed: the reads spell out the buttons,
  /// then 1s.
  lemma SerialExample()
    ensures ReadMany(PadState(false, 0, RIGHT | LEFT | SELECT | BUTTON_B), 10).1 == [0, 1, 1, 0, 0, 0, 1, 1, 1, 1]
  {
    var s := PadState(false, 0, RIGHT | LEFT | SELECT | BUTTON_B);
    SerialOrder(s, 10);
  }

  /// `Joypad`, its fields updated by `read`, `write` and
  /// `set_button_pressed_status`.
  class Joypad {
    var strobe: bool
    var buttonIndex: u8
    var buttonStatus: byte

    function State(): PadState
      reads this
    {
      PadState(strobe, buttonIndex, buttonStatus)
    }

    /// `new`: strobe off, index 0, nothing pressed.
    constructor ()
      ensures State() == PadState(false, 0, 0)
    {
      strobe := false;
      buttonIndex := 0;
      buttonStatus := 0;
    }

    method Read() returns (response: byte)
      modifies this
      ensures (State(), response) == ReadStep(old(State()))
    {
      if buttonIndex > 7 {
        return 1;
      }
      response := (buttonStatus & (1 << buttonIndex)) >> buttonIndex;
      if !strobe && buttonIndex <= 7 {
        buttonIndex := buttonIndex + 1;
      }
    }

    method Write(data: byte)
      modifies this
      ensures State() == WriteStep(old(State()), data)
    {
      strobe := data & 1 == 1;
      if strobe {
        buttonIndex := 0;
      }
    }

    method SetButtonPressedStatus(button: byte, pressed: bool)
      modifies this
      ensures State() == old(State()).(buttonStatus := SetButton(old(buttonStatus), button, pressed))
    {
      if pressed {
        buttonStatus := buttonStatus | button;
      } else {
        buttonStatus := buttonStatus & !button;
      }
    }
  }
}
