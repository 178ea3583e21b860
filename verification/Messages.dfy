/** The messages of the echo protocol as bytes in a channel slot (19-ipc/echo-service.h): a 32-bit
    sender, least significant byte first, and a text that ends at its first NUL. */
module Messages {
  import opened MemChannels

  const SENDER_SIZE: nat := 4
  const TEXT_SIZE: nat := 256
  const SIZE: nat := 260

  const INTS: int := 0x1_0000_0000

  predicate IsInt(x: int) { -0x8000_0000 <= x < 0x8000_0000 }

  /** The bytes of a C `int`. */
  function IntBytes(x: int): (b: Bytes)
    requires IsInt(x)
    ensures |b| == SENDER_SIZE
  {
    var u := if x < 0 then x + INTS else x;
    [(u % 256) as byte, (u / 256 % 256) as byte, (u / 0x1_0000 % 256) as byte, (u / 0x100_0000) as byte]
  }

  /** The sender of a message. */
  function Sender(m: Bytes): (x: int)
    requires |m| == SIZE
    ensures IsInt(x)
  {
    var u := m[0] as int + 256 * m[1] as int + 0x1_0000 * m[2] as int + 0x100_0000 * m[3] as int;
    if u >= 0x8000_0000 then u - INTS else u
  }

  /** A C string, up to its NUL. */
  function CString(b: Bytes): string {
    if b == [] || b[0] == 0 then "" else [b[0] as int as char] + CString(b[1..])
  }

  function Text(m: Bytes): string
    requires |m| == SIZE
  {
    CString(m[SENDER_SIZE..])
  }

  /** A character that a C string can hold. */
  predicate Storable(c: char) { 0 < c as int < 256 }

  predicate AllStorable(t: string) { forall i :: 0 <= i < |t| ==> Storable(t[i]) }

  function CharBytes(t: string): (b: Bytes)
    requires AllStorable(t)
    ensures |b| == |t|
  {
    seq(|t|, i requires 0 <= i < |t| => t[i] as int as byte)
  }

  /** Least significant byte first, in two's complement. */
  lemma LittleEndian(x: int)
    requires IsInt(x)
    ensures var b := IntBytes(x);
            b[0] as int + 0x100 * b[1] as int + 0x1_0000 * b[2] as int + 0x100_0000 * b[3] as int ==
            if x < 0 then x + 0x1_0000_0000 else x
  {
    var u := if x < 0 then x + INTS else x;
    assert u == u % 256 + 256 * (u / 256);
    assert u / 256 == u / 256 % 256 + 256 * (u / 256 / 256);
    assert u / 256 / 256 == u / 0x1_0000;
    assert u / 0x1_0000 == u / 0x1_0000 % 256 + 256 * (u / 0x1_0000 / 256);
    assert u / 0x1_0000 / 256 == u / 0x100_0000;
  }

  lemma SenderRoundTrip(x: int, rest: Bytes)
    requires IsInt(x) && |rest| == TEXT_SIZE
    ensures Sender(IntBytes(x) + rest) == x
  {
    LittleEndian(x);
    var b, m := IntBytes(x), IntBytes(x) + rest;
    assert m[0] == b[0] && m[1] == b[1] && m[2] == b[2] && m[3] == b[3];
  }

  /** A string stored with its NUL reads back, whatever follows in the buffer. */
  lemma {:induction false} TextRoundTrip(t: string, b: Bytes)
    requires AllStorable(t) && CharBytes(t) + [0] <= b
    ensures CString(b) == t
    decreases |t|
  {
    if t != "" {
      assert b[0] == CharBytes(t)[0] == t[0] as int as byte;
      assert CharBytes(t[1..]) + [0] == (CharBytes(t) + [0])[1..];
      TextRoundTrip(t[1..], b[1..]);
    } else {
      assert b[0] == 0;
    }
  }

  /** Changing the sender leaves the text. */
  lemma ReplyKeepsText(m: Bytes, pid: int)
    requires |m| == SIZE && IsInt(pid)
    ensures Sender(IntBytes(pid) + m[SENDER_SIZE..]) == pid && Text(IntBytes(pid) + m[SENDER_SIZE..]) == Text(m)
  {
    SenderRoundTrip(pid, m[SENDER_SIZE..]);
    assert (IntBytes(pid) + m[SENDER_SIZE..])[SENDER_SIZE..] == m[SENDER_SIZE..];
  }
}
