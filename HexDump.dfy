/** `dfx::api::utils::hexDump` (api-utils/src/HexDump.cpp): a description,
    then one line per 16 bytes holding the offset, the bytes in hex and their
    printable characters. The function `Dump` states the layout line by line;
    the method `HexDump` is the source's byte loop over a 17-character buffer
    and is proved to produce `Dump`. */
module HexDump {
  import Text

  type Byte = b: int | 0 <= b < 256

  /** What the ASCII column shows for a byte. */
  function Printable(b: Byte): (c: char)
    ensures c == '.' || c == b as char
    ensures b < 0x20 || b > 0x7e ==> c == '.'
    ensures c != '\0'
  {
    if b < 0x20 || b > 0x7e then '.' else b as char
  }

  function AsciiColumn(bs: seq<Byte>): (r: string)
    ensures |r| == |bs| && forall k :: 0 <= k < |bs| ==> r[k] == Printable(bs[k])
  {
    seq(|bs|, k requires 0 <= k < |bs| => Printable(bs[k]))
  }

  /** fmt `" {:02x}"` for each byte, in order. */
  function HexColumn(bs: seq<Byte>): string
  {
    if bs == [] then "" else HexColumn(bs[..|bs| - 1]) + " " + Text.HexPadded(bs[|bs| - 1], 2)
  }

  function Spaces(n: nat): (r: string)
    ensures |r| == n && forall k :: 0 <= k < n ==> r[k] == ' '
  {
    seq(n, _ => ' ')
  }

  /** The start of a line: the offset of its first byte, then its bytes in hex. */
  function Head(offset: nat, bs: seq<Byte>): string
  {
    "  " + Text.HexPadded(offset, 4) + " " + HexColumn(bs)
  }

  /** The hex-column padding of a line shorter than 16 bytes. */
  function Padding(bs: seq<Byte>): string
  {
    Spaces(if |bs| < 16 then 3 * (16 - |bs|) else 0)
  }

  /** The end of a line: its printable characters. */
  function Tail(bs: seq<Byte>): string
  {
    "  " + AsciiColumn(bs) + "\n"
  }

  /** One output line: the offset of its first byte, then its bytes (at most
      16; a shorter last line is padded to the width of a full one). */
  function Line(offset: nat, bs: seq<Byte>): string
  {
    Head(offset, bs) + Padding(bs) + Tail(bs)
  }

  /** The complete 16-byte lines for the first `n` bytes of `d`. */
  function FullLines(d: seq<Byte>, n: nat): string
    requires n % 16 == 0 && n <= |d|
    decreases n
  {
    if n == 0 then "" else FullLines(d, n - 16) + Line(n - 16, d[n - 16..n])
  }

  /** The offset of the last line of a dump of `len` bytes. */
  function LastLineStart(len: nat): (start: nat)
    requires len > 0
    ensures start % 16 == 0 && start < len <= start + 16
  {
    (len - 1) / 16 * 16
  }

  /** The whole dump of `data` after the description `desc`: the complete
      lines, then the last line, which may be short. */
  function Dump(desc: string, data: seq<Byte>): string
  {
    if |data| == 0 then desc + "  ZERO LENGTH\n"
    else
      var last := LastLineStart(|data|);
      desc + FullLines(data, last) + Line(last, data[last..])
  }

  /** The characters a `char*` buffer prints: those before the first NUL. */
  function CString(s: string): string
  {
    if s == [] || s[0] == '\0' then "" else [s[0]] + CString(s[1..])
  }

  lemma {:induction false} CStringUpTo(s: string, n: nat)
    requires n < |s| && s[n] == '\0'
    requires forall k :: 0 <= k < n ==> s[k] != '\0'
    ensures CString(s) == s[..n]
    decreases n
  {
    if n > 0 {
      CStringUpTo(s[1..], n - 1);
      assert s[..n] == [s[0]] + s[1..][..n - 1];
    }
  }

  /** The hex column of a run is the hex column of its first part followed
      by that of the rest. */
  lemma {:induction false} HexColumnAppend(a: seq<Byte>, b: seq<Byte>)
    ensures HexColumn(a + b) == HexColumn(a) + HexColumn(b)
    decreases |b|
  {
    if b == [] {
      assert a + b == a;
    } else {
      var b' := b[..|b| - 1];
      var last := " " + Text.HexPadded(b[|b| - 1], 2);
      assert (a + b)[..|a + b| - 1] == a + b';
      assert HexColumn(a + b) == HexColumn(a + b') + last;
      assert HexColumn(b) == HexColumn(b') + last;
      HexColumnAppend(a, b');
      Text.Associative(HexColumn(a), HexColumn(b'), last);
    }
  }

  /** The text written once the bytes before `i` are processed, `start`
      being the offset of the line in progress. */
  function Partial(desc: string, d: seq<Byte>, start: nat, i: nat): string
    requires start % 16 == 0 && start <= i <= |d|
  {
    desc + FullLines(d, start) + Head(start, d[start..i])
  }

  /** One more byte extends the line's hex column by `" {:02x}"`. */
  lemma HeadStep(offset: nat, bs: seq<Byte>, b: Byte)
    ensures Head(offset, bs + [b]) == Head(offset, bs) + " " + Text.HexPadded(b, 2)
  {
    var prefix := "  " + Text.HexPadded(offset, 4) + " ";
    var column := HexColumn(bs);
    var hex := Text.HexPadded(b, 2);
    assert HexColumn(bs + [b]) == column + " " + hex by {
      assert (bs + [b])[..|bs|] == bs;
    }
    Text.Associative(prefix, column + " ", hex);
    Text.Associative(prefix, column, " ");
  }

  lemma AppendByte(before: string, offset: nat, bs: seq<Byte>, b: Byte)
    ensures before + Head(offset, bs) + " " + Text.HexPadded(b, 2) == before + Head(offset, bs + [b])
  {
    HeadStep(offset, bs, b);
    Text.Associative(before, Head(offset, bs) + " ", Text.HexPadded(b, 2));
    Text.Associative(before, Head(offset, bs), " ");
  }

  lemma NextByte(desc: string, d: seq<Byte>, start: nat, i: nat)
    requires start % 16 == 0 && start <= i < |d|
    ensures Partial(desc, d, start, i) + " " + Text.HexPadded(d[i], 2) == Partial(desc, d, start, i + 1)
  {
    assert d[start..i + 1] == d[start..i] + [d[i]];
    AppendByte(desc + FullLines(d, start), start, d[start..i], d[i]);
  }

  /** Writing the ASCII column closes line `start`. */
  lemma CloseLine(desc: string, d: seq<Byte>, start: nat, ascii: string)
    requires start % 16 == 0 && start + 16 <= |d| && ascii == AsciiColumn(d[start..start + 16])
    ensures Partial(desc, d, start, start + 16) + ("  " + ascii + "\n") == desc + FullLines(d, start + 16)
  {
    var line := d[start..start + 16];
    assert Line(start, line) == Head(start, line) + Tail(line) by {
      assert Padding(line) == [];
    }
    Text.Associative(desc, FullLines(d, start), Line(start, line));
    Text.Associative(desc + FullLines(d, start), Head(start, line), Tail(line));
  }

  /** Writing the offset opens line `start`. */
  lemma OpenLine(desc: string, d: seq<Byte>, start: nat)
    requires start % 16 == 0 && start < |d|
    ensures start == 0 ==> desc + FullLines(d, start) == desc
    ensures desc + FullLines(d, start) + ("  " + Text.HexPadded(start, 4) + " ") == Partial(desc, d, start, start)
  {
    assert d[start..start] == [];
    assert FullLines(d, 0) == [];
    assert desc + [] == desc;
  }

  /** Padding and the ASCII column complete the last line, and the dump. */
  lemma LastLine(desc: string, d: seq<Byte>, start: nat, pad: string, ascii: string)
    requires start % 16 == 0 && start < |d| <= start + 16
    requires pad == Spaces(3 * (16 - (|d| - start))) && ascii == AsciiColumn(d[start..])
    ensures Partial(desc, d, start, |d|) + pad + ("  " + ascii + "\n") == Dump(desc, d)
  {
    var line := d[start..];
    assert LastLineStart(|d|) == start;
    assert d[start..|d|] == line;
    assert Padding(line) == pad;
    Text.Associative(desc + FullLines(d, start) + Head(start, line), pad, Tail(line));
  }

  lemma PadStep(before: string, k: nat)
    ensures before + Spaces(3 * k) + "   " == before + Spaces(3 * (k + 1))
  {
    assert Spaces(3 * k) + "   " == Spaces(3 * (k + 1));
    Text.Associative(before, Spaces(3 * k), "   ");
  }

  /** Within a line, `i % 16` is the column, and it is 0 again exactly
      where the next line starts. */
  lemma Column(start: nat, i: nat)
    requires start % 16 == 0 && start <= i <= start + 16
    ensures i < start + 16 ==> i % 16 == i - start
    ensures i % 16 == 0 <==> i == start || i == start + 16
  {
    var q := start / 16;
    assert start == 16 * q;
    assert i - 16 * q <= 16;
  }

  /** `hexDump(desc, addr, len)`. */
  method HexDump(desc: string, data: array<Byte>) returns (dump: string)
    ensures dump == Dump(desc, data[..])
  {
    var buff := new char[17](_ => '\0');
    dump := desc;
    if data.Length == 0 {
      dump := dump + "  ZERO LENGTH\n";
      return;
    }
    var i, start;
    dump, i, start := WriteBytes(desc, data, buff);
    ghost var d := data[..];
    var lineLength := i - start;
    ghost var line := dump;
    ghost var ascii := buff[..];
    assert dump == line + Spaces(0);
    while i % 16 != 0
      invariant start % 16 == 0 && 1 <= lineLength <= 16 && start + lineLength == data.Length
      invariant start + lineLength <= i <= start + 16
      invariant dump == line + Spaces(3 * (i - start - lineLength))
      invariant buff[..] == ascii
      decreases start + 16 - i
    {
      Column(start, i);
      PadStep(line, i - start - lineLength);
      dump := dump + "   ";
      i := i + 1;
    }
    Column(start, i);
    LastLine(desc, d, start, Spaces(3 * (i - start - lineLength)), CString(buff[..]));
    dump := dump + ("  " + CString(buff[..]) + "\n");
  }

  /** The buffer holds the printable characters of the bytes of the line
      from `start` up to `i`, then a NUL. */
  ghost predicate BufferHolds(buff: seq<char>, d: seq<Byte>, start: nat, i: nat)
  {
    start < i <= |d| && i - start < |buff| && buff[i - start] == '\0' &&
    forall k :: 0 <= k < i - start ==> buff[k] == Printable(d[start + k])
  }

  /** The byte loop of `hexDump`: every line but the last is complete and the
      last is written up to its ASCII column, which waits in `buff`. */
  method WriteBytes(desc: string, data: array<Byte>, buff: array<char>) returns (dump: string, i: nat, start: nat)
    requires data.Length > 0 && buff.Length == 17
    modifies buff
    ensures i == data.Length && start % 16 == 0 && start < i <= start + 16
    ensures dump == Partial(desc, data[..], start, i)
    ensures CString(buff[..]) == AsciiColumn(data[start..])
  {
    ghost var d := data[..];
    // The first byte opens line 0.
    OpenLine(desc, d, 0);
    dump := desc + ("  " + Text.HexPadded(0, 4) + " ");
    start := 0;
    i := 0;
    NextByte(desc, d, start, i);
    dump := dump + " " + Text.HexPadded(data[i], 2);
    StoreAscii(d, data[i], buff, start, i);
    i := 1;
    while i < data.Length
      invariant 0 <= start < i <= data.Length && start % 16 == 0 && i - start <= 16
      invariant dump == Partial(desc, d, start, i)
      invariant BufferHolds(buff[..], d, start, i)
    {
      Column(start, i);
      if i % 16 == 0 {
        AsciiLine(buff[..], d, start, i);
        CloseLine(desc, d, start, CString(buff[..]));
        dump := dump + ("  " + CString(buff[..]) + "\n");
        start := i;
        OpenLine(desc, d, start);
        dump := dump + ("  " + Text.HexPadded(i, 4) + " ");
      }
      NextByte(desc, d, start, i);
      dump := dump + " " + Text.HexPadded(data[i], 2);
      StoreAscii(d, data[i], buff, start, i);
      i := i + 1;
    }
    AsciiLine(buff[..], d, start, i);
  }

  /** The second half of a loop pass: the printable form of byte `i`, then
      a NUL, go into the buffer at the byte's column. */
  method StoreAscii(ghost d: seq<Byte>, b: Byte, buff: array<char>, start: nat, i: nat)
    requires start % 16 == 0 && start <= i < |d| && i - start < 16 && buff.Length == 17 && b == d[i]
    requires forall k :: 0 <= k < i - start ==> buff[k] == Printable(d[start + k])
    modifies buff
    ensures BufferHolds(buff[..], d, start, i + 1)
  {
    Column(start, i);
    ghost var before := buff[..];
    buff[i % 16] := Printable(b);
    buff[i % 16 + 1] := '\0';
    BufferStep(before, buff[..], d, start, i);
  }

  /** Storing the printable form of byte `i` and a NUL after it extends the
      buffer's line by that character. */
  lemma BufferStep(before: string, after: string, d: seq<Byte>, start: nat, i: nat)
    requires start <= i < |d| && i - start < 16 && |before| == |after| == 17
    requires forall k :: 0 <= k < i - start ==> before[k] == Printable(d[start + k])
    requires after[i - start] == Printable(d[i]) && after[i - start + 1] == '\0'
    requires forall k :: 0 <= k < i - start ==> after[k] == before[k]
    ensures BufferHolds(after, d, start, i + 1)
  {
  }

  /** The buffer prints as the ASCII column of the line's bytes. */
  lemma AsciiLine(buff: string, d: seq<Byte>, start: nat, i: nat)
    requires start < i <= |d| && i - start < |buff| && buff[i - start] == '\0'
    requires forall k :: 0 <= k < i - start ==> buff[k] == Printable(d[start + k])
    ensures CString(buff) == AsciiColumn(d[start..i])
    ensures i == |d| ==> CString(buff) == AsciiColumn(d[start..])
  {
    CStringUpTo(buff, i - start);
    assert buff[..i - start] == AsciiColumn(d[start..i]);
    assert i == |d| ==> d[start..i] == d[start..];
  }
}
