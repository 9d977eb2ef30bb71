/** The HD44780 character-LCD driver of Lcd_deiver.c, driven through an I2C
    port expander whose eight output lines are D7..D4, backlight, enable,
    read/write and register select. Every operation is a fixed sequence of
    single-byte sends; the bus is modelled as the trace of bytes sent. */
module LcdDriver {
  import opened CTypes

  /** HD44780 instructions. */
  const LcdClear: byte := 0x01
  const LcdFnSet8Bit: byte := 0x30
  const LcdFnSet4Bit: byte := 0x20
  const LcdFnSet4Bit2Lines: byte := 0x28
  const LcdDispCtrl: byte := 0x08
  const LcdDispOn: byte := 0x0C
  const LcdEntryMode: byte := 0x06
  const LcdLine1: byte := 0x80
  const LcdLine2: byte := 0xC0

  /** Bit positions of the control lines on the expander. */
  const LcdRs: nat := 0
  const LcdRw: nat := 1
  const LcdEn: nat := 2
  const LcdBl: nat := 3

  /** The two values of the register-select argument of `LcdWrite`. */
  const LcdCmd: byte := 0x80
  const LcdData: byte := 1

  /** `BV(n)`: the byte with only bit n set. */
  function BV(n: nat): (b: byte)
    requires n < 8
  {
    (1 as bv8) << n
  }

  /** The control-line masks `BV(LCD_RS)`, `BV(LCD_RW)`, `BV(LCD_EN)` and
      `BV(LCD_BL)`, precomputed. */
  const BvRs: byte := 0x01
  const BvRw: byte := 0x02
  const BvEn: byte := 0x04
  const BvBl: byte := 0x08

  /** The precomputed masks are the `BV` of their control lines. */
  lemma ControlMasks()
    ensures BV(LcdRs) == BvRs && BV(LcdRw) == BvRw && BV(LcdEn) == BvEn && BV(LcdBl) == BvBl
  {
  }

  /** The control line with mask m is high in byte b. */
  predicate High(b: byte, m: byte) {
    b & m != 0
  }

  /** The four bytes `LcdWrite(rs, val)` sends: the high nibble of val on
      D7..D4 with enable raised and then dropped, then the low nibble the
      same way. Register select is raised unless rs is the command marker;
      the backlight stays on throughout. */
  function WriteFrame(rs: byte, val: byte): (s: seq<byte>)
    ensures |s| == 4
  {
    var high := val & 0xF0;
    var low := (val << 4) & 0xF0;
    var bvrs := if rs == LcdCmd then 0 else BvRs;
    [high | bvrs | BvEn | BvBl,
     high | bvrs | BvBl,
     low | bvrs | BvEn | BvBl,
     low | bvrs | BvBl]
  }

  /** What the display latches from a frame: whether it is data (register
      select high) and the byte reassembled from the two nibbles. */
  function ReadFrame(f: seq<byte>): (r: (bool, byte))
    requires |f| == 4
  {
    (High(f[0], BvRs), (f[0] & 0xF0) | (f[2] >> 4))
  }

  /** Round trip: the display reassembles exactly val, and sees data exactly
      when rs is not the command marker. */
  lemma ReadWriteFrame(rs: byte, val: byte)
    ensures ReadFrame(WriteFrame(rs, val)) == (rs != LcdCmd, val)
  {
    var s := WriteFrame(rs, val);
    assert (s[0] & 0xF0) | (s[2] >> 4) == val;
  }

  /** The control lines of a frame: enable is high in the first and third
      byte and low in the second and fourth, the backlight is on in all four,
      read/write is never raised, and each enable-low byte repeats the byte
      before it with enable dropped. */
  lemma WriteFrameControlLines(rs: byte, val: byte)
    ensures var s := WriteFrame(rs, val);
      && High(s[0], BvEn) && !High(s[1], BvEn) && High(s[2], BvEn) && !High(s[3], BvEn)
      && (forall i :: 0 <= i < 4 ==> High(s[i], BvBl) && !High(s[i], BvRw))
      && (forall i :: 0 <= i < 4 ==> (High(s[i], BvRs) <==> rs != LcdCmd))
      && s[1] | BvEn == s[0] && s[3] | BvEn == s[2]
  {
  }

  /** Every byte sent with enable low is the previous byte with enable
      dropped, so the display has latched the nibble it carries: a falling
      edge on enable for every nibble. */
  predicate Strobed(s: seq<byte>) {
    forall i :: 0 <= i < |s| && !High(s[i], BvEn) ==> 0 < i && s[i - 1] == s[i] | BvEn
  }

  lemma FrameStrobed(rs: byte, val: byte)
    ensures Strobed(WriteFrame(rs, val))
  {
    WriteFrameControlLines(rs, val);
  }

  /** Joining two strobed streams keeps them strobed when the second one
      starts with enable high. */
  lemma StrobedAppend(a: seq<byte>, b: seq<byte>)
    requires Strobed(a) && Strobed(b)
    requires |b| > 0 ==> High(b[0], BvEn)
    ensures Strobed(a + b)
  {
    var s := a + b;
    forall i | 0 <= i < |s| && !High(s[i], BvEn)
      ensures 0 < i && s[i - 1] == s[i] | BvEn
    {
      if i >= |a| {
        assert s[i] == b[i - |a|];
        assert i - |a| > 0;
        assert s[i - 1] == b[i - 1 - |a|];
      } else {
        assert s[i] == a[i] && s[i - 1] == a[i - 1];
      }
    }
  }

  /** The data frames `LcdPuts` sends for the characters of s. */
  function DataFrames(s: seq<byte>): (r: seq<byte>)
  {
    if s == [] then [] else DataFrames(s[..|s| - 1]) + WriteFrame(LcdData, s[|s| - 1])
  }

  /** Four bytes per character, and frame k carries character k. */
  lemma {:induction false} DataFramesShape(s: seq<byte>)
    ensures |DataFrames(s)| == 4 * |s|
    ensures forall k :: 0 <= k < |s| ==> DataFrames(s)[4 * k .. 4 * k + 4] == WriteFrame(LcdData, s[k])
  {
    if s != [] {
      var p := s[..|s| - 1];
      DataFramesShape(p);
      var d := DataFrames(s);
      assert d == DataFrames(p) + WriteFrame(LcdData, s[|s| - 1]);
      forall k | 0 <= k < |s|
        ensures d[4 * k .. 4 * k + 4] == WriteFrame(LcdData, s[k])
      {
        if k < |p| {
          assert d[4 * k .. 4 * k + 4] == DataFrames(p)[4 * k .. 4 * k + 4];
          assert s[k] == p[k];
        } else {
          assert d[4 * k .. 4 * k + 4] == WriteFrame(LcdData, s[|s| - 1]);
        }
      }
    }
  }

  /** A run of data frames is strobed and starts with enable high. */
  lemma {:induction false} DataFramesStrobed(s: seq<byte>)
    ensures Strobed(DataFrames(s))
    ensures |DataFrames(s)| > 0 ==> High(DataFrames(s)[0], BvEn)
  {
    if s != [] {
      var p := s[..|s| - 1];
      DataFramesStrobed(p);
      FrameStrobed(LcdData, s[|s| - 1]);
      WriteFrameControlLines(LcdData, s[|s| - 1]);
      StrobedAppend(DataFrames(p), WriteFrame(LcdData, s[|s| - 1]));
    }
  }

  /** The length of a NUL-terminated string: the index of its first NUL. */
  function Strlen(str: seq<byte>): (n: nat)
    requires 0 in str
    ensures n < |str| && str[n] == 0
    ensures forall i :: 0 <= i < n ==> str[i] != 0
  {
    if str[0] == 0 then 0 else 1 + Strlen(str[1..])
  }

  /** The stream of the attention sequence and setup of `LcdInit`, when the
      display answers the first send. */
  function InitStream(): (s: seq<byte>) {
    [LcdFnSet8Bit | BvEn, LcdFnSet8Bit,
     LcdFnSet8Bit | BvEn, LcdFnSet8Bit,
     LcdFnSet8Bit | BvEn, LcdFnSet8Bit,
     LcdFnSet4Bit | BvEn, LcdFnSet4Bit,
     LcdFnSet4Bit2Lines]
    + WriteFrame(LcdCmd, LcdDispCtrl) + WriteFrame(LcdCmd, LcdClear)
    + WriteFrame(LcdCmd, LcdEntryMode) + WriteFrame(LcdCmd, LcdDispOn)
  }

  /** The bytes of InitStream written out. */
  lemma InitStreamBytes()
    ensures InitStream() ==
      [0x34, 0x30, 0x34, 0x30, 0x34, 0x30, 0x24, 0x20, 0x28,
       0x0C, 0x08, 0x8C, 0x88,
       0x0C, 0x08, 0x1C, 0x18,
       0x0C, 0x08, 0x6C, 0x68,
       0x0C, 0x08, 0xCC, 0xC8]
  {
  }

  /** As written, the function set for two lines goes out as one byte with
      enable low and without the enable-high byte before it, so the display
      never latches it. */
  lemma InitStreamNotStrobed()
    ensures !Strobed(InitStream())
  {
    InitStreamBytes();
    var s := InitStream();
    assert !High(s[8], BvEn) && s[7] != s[8] | BvEn;
  }

  /** The setup stream with the two-lines function set sent through
      `LcdWrite` as a command, like the four instructions after it. */
  function InitStreamCorrected(): (s: seq<byte>) {
    [LcdFnSet8Bit | BvEn, LcdFnSet8Bit,
     LcdFnSet8Bit | BvEn, LcdFnSet8Bit,
     LcdFnSet8Bit | BvEn, LcdFnSet8Bit,
     LcdFnSet4Bit | BvEn, LcdFnSet4Bit]
    + WriteFrame(LcdCmd, LcdFnSet4Bit2Lines)
    + WriteFrame(LcdCmd, LcdDispCtrl) + WriteFrame(LcdCmd, LcdClear)
    + WriteFrame(LcdCmd, LcdEntryMode) + WriteFrame(LcdCmd, LcdDispOn)
  }

  /** Every nibble of the corrected setup stream is latched. */
  lemma InitStreamCorrectedStrobed()
    ensures Strobed(InitStreamCorrected())
  {
    var attention := [LcdFnSet8Bit | BvEn, LcdFnSet8Bit,
                      LcdFnSet8Bit | BvEn, LcdFnSet8Bit,
                      LcdFnSet8Bit | BvEn, LcdFnSet8Bit,
                      LcdFnSet4Bit | BvEn, LcdFnSet4Bit];
    var f1, f2 := WriteFrame(LcdCmd, LcdFnSet4Bit2Lines), WriteFrame(LcdCmd, LcdDispCtrl);
    var f3, f4 := WriteFrame(LcdCmd, LcdClear), WriteFrame(LcdCmd, LcdEntryMode);
    var f5 := WriteFrame(LcdCmd, LcdDispOn);
    assert attention == [0x34, 0x30, 0x34, 0x30, 0x34, 0x30, 0x24, 0x20];
    assert Strobed(attention);
    FrameStrobed(LcdCmd, LcdFnSet4Bit2Lines);
    FrameStrobed(LcdCmd, LcdDispCtrl);
    FrameStrobed(LcdCmd, LcdClear);
    FrameStrobed(LcdCmd, LcdEntryMode);
    FrameStrobed(LcdCmd, LcdDispOn);
    WriteFrameControlLines(LcdCmd, LcdFnSet4Bit2Lines);
    WriteFrameControlLines(LcdCmd, LcdDispCtrl);
    WriteFrameControlLines(LcdCmd, LcdClear);
    WriteFrameControlLines(LcdCmd, LcdEntryMode);
    WriteFrameControlLines(LcdCmd, LcdDispOn);
    StrobedAppend(attention, f1);
    StrobedAppend(attention + f1, f2);
    StrobedAppend(attention + f1 + f2, f3);
    StrobedAppend(attention + f1 + f2 + f3, f4);
    StrobedAppend(attention + f1 + f2 + f3 + f4, f5);
  }

  /** The four bytes computed step by step in `LcdWrite` are the frame. */
  lemma WriteFrameBytes(rs: byte, val: byte, b0: byte, b1: byte, b2: byte, b3: byte)
    requires var high, low := val & 0xF0, (val << 4) & 0xF0;
      var bvrs := if rs == LcdCmd then 0 else BvRs;
      && b0 == high | bvrs | BvEn | BvBl && b1 == high | bvrs | BvBl
      && b2 == low | bvrs | BvEn | BvBl && b3 == low | bvrs | BvBl
    ensures WriteFrame(rs, val) == [b0, b1, b2, b3]
  {
  }

  /** Four single appends are one append of four bytes. */
  lemma AppendFour(t: seq<byte>, b0: byte, b1: byte, b2: byte, b3: byte)
    ensures t + [b0] + [b1] + [b2] + [b3] == t + [b0, b1, b2, b3]
  {
  }

  /** The setup stream as the sends of `LcdInit` build it, one append at a
      time. */
  lemma InitStreamAppends(t: seq<byte>)
    ensures t + [LcdFnSet8Bit | BvEn] + [LcdFnSet8Bit] + [LcdFnSet8Bit | BvEn] + [LcdFnSet8Bit]
      + [LcdFnSet8Bit | BvEn] + [LcdFnSet8Bit] + [LcdFnSet4Bit | BvEn] + [LcdFnSet4Bit]
      + [LcdFnSet4Bit2Lines] + WriteFrame(LcdCmd, LcdDispCtrl) + WriteFrame(LcdCmd, LcdClear)
      + WriteFrame(LcdCmd, LcdEntryMode) + WriteFrame(LcdCmd, LcdDispOn) == t + InitStream()
  {
  }

  /** The corrected setup stream, one append at a time. */
  lemma InitStreamCorrectedAppends(t: seq<byte>)
    ensures t + [LcdFnSet8Bit | BvEn] + [LcdFnSet8Bit] + [LcdFnSet8Bit | BvEn] + [LcdFnSet8Bit]
      + [LcdFnSet8Bit | BvEn] + [LcdFnSet8Bit] + [LcdFnSet4Bit | BvEn] + [LcdFnSet4Bit]
      + WriteFrame(LcdCmd, LcdFnSet4Bit2Lines) + WriteFrame(LcdCmd, LcdDispCtrl) + WriteFrame(LcdCmd, LcdClear)
      + WriteFrame(LcdCmd, LcdEntryMode) + WriteFrame(LcdCmd, LcdDispOn) == t + InitStreamCorrected()
  {
  }

  /** The driver with the bytes sent so far. */
  class Lcd {
    var trace: seq<byte>

    constructor ()
      ensures trace == []
    {
      trace := [];
    }

    /** `LcdWriteByte`: one byte onto the bus. */
    method WriteByte(val: byte)
      modifies this
      ensures trace == old(trace) + [val]
    {
      trace := trace + [val];
    }

    /** `LcdWrite`. */
    method Write(rs: byte, val: byte)
      modifies this
      ensures trace == old(trace) + WriteFrame(rs, val)
    {
      var high := val & 0xF0;
      var low := (val << 4) & 0xF0;
      var bvrs := if rs == LcdCmd then 0 else BvRs;
      var b0, b1 := high | bvrs | BvEn | BvBl, high | bvrs | BvBl;
      var b2, b3 := low | bvrs | BvEn | BvBl, low | bvrs | BvBl;
      WriteFrameBytes(rs, val, b0, b1, b2, b3);
      AppendFour(trace, b0, b1, b2, b3);
      WriteByte(b0);
      WriteByte(b1);
      WriteByte(b2);
      WriteByte(b3);
    }

    /** `LcdPuts`: the line address as a command, then each character before
      the first NUL as data. */
    method Puts(line: byte, str: seq<byte>)
      requires 0 in str
      modifies this
      ensures trace == old(trace) + WriteFrame(LcdCmd, line) + DataFrames(str[..Strlen(str)])
    {
      Write(LcdCmd, line);
      ghost var start := trace;
      var i := 0;
      while str[i] != 0
        invariant 0 <= i <= Strlen(str)
        invariant trace == start + DataFrames(str[..i])
        decreases Strlen(str) - i
      {
        Write(LcdData, str[i]);
        assert str[..i + 1][..i] == str[..i];
        i := i + 1;
      }
    }

    /** `LcdInit`, with the result of the first send as a parameter: if it
        is nonzero, only that byte goes out and the result is -1; if it is
        zero, the whole setup stream goes out and the result is that zero.
        The kernel's `i2c_master_send` returns the number of bytes sent, so a
        display that takes the byte yields 1 and lands in the first case. */
    method Init(firstSendResult: int) returns (ret: int)
      modifies this
      ensures firstSendResult != 0 ==> ret == -1 && trace == old(trace) + [LcdFnSet8Bit | BvEn]
      ensures firstSendResult == 0 ==> ret == 0 && trace == old(trace) + InitStream()
    {
      WriteByte(LcdFnSet8Bit | BvEn);
      ret := firstSendResult;
      if ret != 0 {
        return -1;
      }
      InitStreamAppends(old(trace));
      WriteByte(LcdFnSet8Bit);
      WriteByte(LcdFnSet8Bit | BvEn);
      WriteByte(LcdFnSet8Bit);
      WriteByte(LcdFnSet8Bit | BvEn);
      WriteByte(LcdFnSet8Bit);
      WriteByte(LcdFnSet4Bit | BvEn);
      WriteByte(LcdFnSet4Bit);
      WriteByte(LcdFnSet4Bit2Lines);
      Write(LcdCmd, LcdDispCtrl);
      Write(LcdCmd, LcdClear);
      Write(LcdCmd, LcdEntryMode);
      Write(LcdCmd, LcdDispOn);
    }

    /** `LcdInit` corrected twice: the first send fails only on a negative
        error code, the result on success is 0 as the probe routine expects,
        and the two-lines function set is sent as a full command. */
    method InitCorrected(firstSendResult: int) returns (ret: int)
      modifies this
      ensures firstSendResult < 0 ==> ret == -1 && trace == old(trace) + [LcdFnSet8Bit | BvEn]
      ensures firstSendResult >= 0 ==> ret == 0 && trace == old(trace) + InitStreamCorrected()
    {
      WriteByte(LcdFnSet8Bit | BvEn);
      if firstSendResult < 0 {
        return -1;
      }
      InitStreamCorrectedAppends(old(trace));
      WriteByte(LcdFnSet8Bit);
      WriteByte(LcdFnSet8Bit | BvEn);
      WriteByte(LcdFnSet8Bit);
      WriteByte(LcdFnSet8Bit | BvEn);
      WriteByte(LcdFnSet8Bit);
      WriteByte(LcdFnSet4Bit | BvEn);
      WriteByte(LcdFnSet4Bit);
      Write(LcdCmd, LcdFnSet4Bit2Lines);
      Write(LcdCmd, LcdDispCtrl);
      Write(LcdCmd, LcdClear);
      Write(LcdCmd, LcdEntryMode);
      Write(LcdCmd, LcdDispOn);
      ret := 0;
    }
  }

  /** As written, a fresh driver whose first send is taken by the display
      (`i2c_master_send` returns 1) reports failure after that one byte. */
  method InitOnAnsweringDisplay() returns (ret: int, sent: seq<byte>)
    ensures ret == -1 && sent == [0x34]
  {
    var lcd := new Lcd();
    ret := lcd.Init(1);
    sent := lcd.trace;
  }

  /** Corrected, the same driver sends the whole setup stream, every nibble
      strobed, and reports success. */
  method InitCorrectedOnAnsweringDisplay() returns (ret: int, sent: seq<byte>)
    ensures ret == 0 && sent == InitStreamCorrected() && Strobed(sent)
  {
    var lcd := new Lcd();
    ret := lcd.InitCorrected(1);
    sent := lcd.trace;
    InitStreamCorrectedStrobed();
  }

  /** What `LcdPuts` sends is 4 * (1 + strlen) bytes, strobed nibble by
      nibble, and the display reads back the line address as a command and
      then each character, in order, as data. */
  lemma PutsStream(line: byte, str: seq<byte>)
    requires 0 in str
    ensures var chars := str[..Strlen(str)]; var s := WriteFrame(LcdCmd, line) + DataFrames(chars);
      && |s| == 4 * (1 + Strlen(str))
      && Strobed(s)
      && ReadFrame(s[..4]) == (false, line)
      && forall k :: 0 <= k < |chars| ==> ReadFrame(s[4 * k + 4 .. 4 * k + 8]) == (true, chars[k])
  {
    var chars := str[..Strlen(str)];
    var s := WriteFrame(LcdCmd, line) + DataFrames(chars);
    DataFramesShape(chars);
    DataFramesStrobed(chars);
    FrameStrobed(LcdCmd, line);
    StrobedAppend(WriteFrame(LcdCmd, line), DataFrames(chars));
    ReadWriteFrame(LcdCmd, line);
    assert s[..4] == WriteFrame(LcdCmd, line);
    forall k | 0 <= k < |chars|
      ensures ReadFrame(s[4 * k + 4 .. 4 * k + 8]) == (true, chars[k])
    {
      CharFrameReads(line, chars, k);
    }
  }

  /** A slice of b is the same slice, shifted by |a|, of a + b. */
  lemma SliceBehind<T>(a: seq<T>, b: seq<T>, i: nat, j: nat)
    requires i <= j <= |b|
    ensures (a + b)[|a| + i .. |a| + j] == b[i..j]
  {
    assert forall n :: 0 <= n < j - i ==> (a + b)[|a| + i .. |a| + j][n] == b[i..j][n];
  }

  /** Behind the line command, frame k of the stream reads back as character
      k with RS high. */
  lemma CharFrameReads(line: byte, chars: seq<byte>, k: int)
    requires 0 <= k < |chars|
    ensures var s := WriteFrame(LcdCmd, line) + DataFrames(chars);
      |s| == 4 * |chars| + 4 && ReadFrame(s[4 * k + 4 .. 4 * k + 8]) == (true, chars[k])
  {
    var head, d := WriteFrame(LcdCmd, line), DataFrames(chars);
    DataFramesShape(chars);
    SliceBehind(head, d, 4 * k, 4 * k + 4);
    ReadWriteFrame(LcdData, chars[k]);
  }
}
