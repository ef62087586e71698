/**
 * The TAP tape-image container (C64/TAPContainer.cpp).
 *
 * A TAP image starts with a 0x14-byte header: the 12 magic bytes
 * "C64-TAPE-RAW", a version byte, three reserved bytes and, at 0x10..0x13,
 * the little-endian 32-bit length of the data that follows. The container
 * keeps its own copy of the image bytes.
 */
module TAPContainer {

  /** The source's `unsigned`: a 32-bit unsigned integer. */
  const Two32: int := 0x1_0000_0000

  newtype u32 = x: int | 0 <= x < 0x1_0000_0000

  /** The source's uint8_t. */
  newtype byte = x: int | 0 <= x < 0x100

  /** Length of the TAP header. */
  const HeaderSize: nat := 0x14

  /** Smallest file isTAPFile accepts. */
  const MinFileSize: nat := 0x15

  /** Offset and length of the bytes getName() copies. */
  const NameOffset: nat := 0x08
  const NameLength: nat := 17

  /** "C64-TAPE-RAW" */
  const Magic: seq<byte> := [0x43, 0x36, 0x34, 0x2D, 0x54, 0x41, 0x50, 0x45, 0x2D, 0x52, 0x41, 0x57]

  // ---------------------------------------------------------------------------
  // Header fields
  // ---------------------------------------------------------------------------

  /** LO_LO_HI_HI(b0, b1, b2, b3): four bytes read as a little-endian 32-bit value. */
  function LoLoHiHi(b0: byte, b1: byte, b2: byte, b3: byte): (r: nat)
    ensures r < Two32
    ensures r % 0x100 == b0 as int
  {
    b0 as int + 0x100 * (b1 as int + 0x100 * (b2 as int + 0x100 * b3 as int))
  }

  /** The inverse of LoLoHiHi: a 32-bit value as four little-endian bytes. */
  function EncodeLE32(n: nat): (r: seq<byte>)
    requires n < Two32
    ensures |r| == 4
  {
    var q1 := n / 0x100;
    var q2 := q1 / 0x100;
    [(n % 0x100) as byte, (q1 % 0x100) as byte, (q2 % 0x100) as byte, (q2 / 0x100) as byte]
  }

  lemma EncodeThenDecode(n: nat)
    requires n < Two32
    ensures var b := EncodeLE32(n); LoLoHiHi(b[0], b[1], b[2], b[3]) == n
  {
    var q1 := n / 0x100;
    var q2 := q1 / 0x100;
    assert n == 0x100 * q1 + n % 0x100;
    assert q1 == 0x100 * q2 + q1 % 0x100;
    assert q2 == 0x100 * (q2 / 0x100) + q2 % 0x100;
  }

  lemma DecodeThenEncode(b0: byte, b1: byte, b2: byte, b3: byte)
    ensures EncodeLE32(LoLoHiHi(b0, b1, b2, b3)) == [b0, b1, b2, b3]
  {
    var q2 := b2 as int + 0x100 * b3 as int;
    var q1 := b1 as int + 0x100 * q2;
    var n := b0 as int + 0x100 * q1;
    assert n == LoLoHiHi(b0, b1, b2, b3);
    DivModByte(q1, b0 as int);
    DivModByte(q2, b1 as int);
    DivModByte(b3 as int, b2 as int);
  }

  lemma DivModByte(q: int, r: int)
    requires 0 <= r < 0x100
    ensures (0x100 * q + r) / 0x100 == q && (0x100 * q + r) % 0x100 == r
  {
  }

  /** The data length the header declares, bytes 0x10..0x13. */
  function DeclaredLength(image: seq<byte>): (r: nat)
    requires |image| >= HeaderSize
    ensures r < Two32
  {
    LoLoHiHi(image[0x10], image[0x11], image[0x12], image[0x13])
  }

  /** The declared length is exactly what bytes 0x10..0x13 encode. */
  lemma DeclaredLengthBytes(image: seq<byte>)
    requires |image| >= HeaderSize
    ensures EncodeLE32(DeclaredLength(image)) == image[0x10..0x14]
  {
    DecodeThenEncode(image[0x10], image[0x11], image[0x12], image[0x13]);
  }

  /**
   * readFromBuffer's size check `l + 0x14 != size`. `l` is a signed int and
   * `size` unsigned, so the comparison is done modulo 2^32.
   */
  predicate SizeMismatch(image: seq<byte>)
    requires |image| >= HeaderSize
  {
    (DeclaredLength(image) + HeaderSize) % Two32 != |image| % Two32
  }

  /** For an image shorter than 4 GiB the check warns exactly when the declared length is not size - 0x14. */
  lemma SizeMismatchMeaning(image: seq<byte>)
    requires HeaderSize <= |image| < Two32
    ensures SizeMismatch(image) <==> DeclaredLength(image) != |image| - HeaderSize
  {
    var l := DeclaredLength(image);
    if l + HeaderSize >= Two32 {
      assert (l + HeaderSize) % Two32 == l + HeaderSize - Two32;
    } else {
      assert (l + HeaderSize) % Two32 == l + HeaderSize;
    }
  }

  // ---------------------------------------------------------------------------
  // isTAPFile
  // ---------------------------------------------------------------------------

  /** Why isTAPFile accepts or rejects a file: the first check that fails. */
  datatype TapCheck = Accepted | WrongSuffix | TooSmall | WrongHeader

  predicate HasSuffix(filename: string, suffix: string)
  {
    |suffix| <= |filename| && filename[|filename| - |suffix|..] == suffix
  }

  /**
   * isTAPFile on a file given by its name and contents: the suffix, then the
   * size (at least 0x15 bytes), then the 12-byte magic header.
   */
  function CheckTAPFile(filename: string, contents: seq<byte>): (r: TapCheck)
    ensures r == Accepted <==>
              (HasSuffix(filename, ".TAP") || HasSuffix(filename, ".tap"))
              && |contents| >= MinFileSize && contents[..12] == Magic
    ensures r == TooSmall ==> HasSuffix(filename, ".TAP") || HasSuffix(filename, ".tap")
    ensures r == WrongHeader ==> |contents| >= MinFileSize
  {
    if !HasSuffix(filename, ".TAP") && !HasSuffix(filename, ".tap") then WrongSuffix
    else if |contents| < MinFileSize then TooSmall
    else if contents[..12] != Magic then WrongHeader
    else Accepted
  }

  predicate IsTAPFile(filename: string, contents: seq<byte>)
  {
    CheckTAPFile(filename, contents) == Accepted
  }

  /**
   * isTAPFile accepts a 21-byte image, yet getName() reads the 17 bytes at
   * 0x08..0x18, the last four of them past the end of such an image.
   */
  lemma AcceptedImageTooShortForName()
    ensures var image := Magic + [0, 0, 0, 0, 0, 0, 0, 0, 0];
      IsTAPFile("tape.tap", image) && |image| < NameOffset + NameLength
  {
    var image := Magic + [0, 0, 0, 0, 0, 0, 0, 0, 0];
    assert image[..12] == Magic;
    assert "tape.tap"[4..] == ".tap";
  }

  /** Smallest image that holds every byte getName() reads. */
  const NamedFileSize: nat := NameOffset + NameLength

  /** isTAPFile with the size check raised so that it covers the name bytes. */
  function CheckNamedTAPFile(filename: string, contents: seq<byte>): (r: TapCheck)
    ensures r == Accepted <==> IsTAPFile(filename, contents) && |contents| >= NamedFileSize
    ensures r == Accepted ==> |contents| >= HeaderSize
    ensures r != Accepted && IsTAPFile(filename, contents) ==> r == TooSmall
  {
    if !HasSuffix(filename, ".TAP") && !HasSuffix(filename, ".tap") then WrongSuffix
    else if |contents| < NamedFileSize then TooSmall
    else if contents[..12] != Magic then WrongHeader
    else Accepted
  }

  // ---------------------------------------------------------------------------
  // The container
  // ---------------------------------------------------------------------------

  class Container {
    /** The image bytes (null when nothing is loaded). */
    var data: array?<byte>
    var size: u32
    /** File pointer of the (disabled) item reader; -1 means none. */
    var fp: int
    /** Buffer getName() fills: 17 name bytes and a terminating 0. */
    const name: array<byte>

    ghost predicate Valid()
      reads this
    {
      name.Length >= NameLength + 1
      && (data != null ==> data != name && size as int <= data.Length)
    }

    ghost function Image(): seq<byte>
      reads this, data
      requires Valid() && data != null
    {
      data[..size]
    }

    /** The constructor starts with no data and calls dealloc(). */
    constructor ()
      ensures Valid() && fresh(name)
      ensures data == null && size == 0 && fp == -1
    {
      name := new byte[NameLength + 1];
      data := null;
      size := 0;
      fp := -1;
    }

    /** dealloc(): release the image and reset size and file pointer. */
    method Dealloc()
      requires Valid()
      modifies this
      ensures Valid()
      ensures data == null && size == 0 && fp == -1
    {
      data := null;
      size := 0;
      fp := -1;
    }

    /**
     * readFromBuffer(buffer, length). Whether malloc succeeds is the
     * parameter allocates. The header length is read unconditionally, so the
     * caller must pass at least 0x14 bytes; a length mismatch only warns.
     */
    method ReadFromBuffer(buffer: array<byte>, length: u32, allocates: bool)
      returns (ok: bool, warned: bool)
      requires Valid()
      requires HeaderSize <= length as int <= buffer.Length
      modifies this
      ensures Valid()
      ensures ok == allocates
      ensures ok ==> data != null && fresh(data) && data[..] == buffer[..length] && size == length
      ensures ok ==> Image() == buffer[..length]
      ensures !ok ==> data == null && size == old(size)
      ensures warned <==> ok && SizeMismatch(buffer[..length])
      ensures fp == old(fp)
    {
      warned := false;
      if !allocates {
        data := null;
        return false, false;
      }
      var copy := new byte[length];
      forall i | 0 <= i < length as int {
        copy[i] := buffer[i];
      }
      assert copy[..] == buffer[..length];
      data := copy;
      size := length;
      var l := LoLoHiHi(data[0x10], data[0x11], data[0x12], data[0x13]);
      assert l == DeclaredLength(buffer[..length]);
      if (l + HeaderSize) % Two32 != size as int {
        warned := true;
      }
      ok := true;
    }

    /** writeToBuffer(buffer): copy the image into buffer if it is not null; return the size. */
    method WriteToBuffer(buffer: array?<byte>) returns (n: u32)
      requires Valid() && data != null
      requires buffer != null ==> buffer != data && buffer.Length >= size as int
      modifies buffer
      ensures n == size
      ensures buffer != null ==> buffer[..size] == Image()
      ensures buffer != null ==> buffer[size..] == old(buffer[size..])
    {
      if buffer != null {
        forall i | 0 <= i < size as int {
          buffer[i] := data[i];
        }
      }
      n := size;
    }

    /** getName(): the 17 bytes at 0x08..0x18 followed by a terminating 0. */
    method GetName() returns (r: seq<byte>)
      requires Valid() && data != null && data.Length >= NameOffset + NameLength
      modifies name
      ensures r == data[NameOffset..NameOffset + NameLength] + [0]
      ensures name[..NameLength + 1] == r
    {
      var i := 0;
      while i < NameLength
        invariant 0 <= i <= NameLength
        invariant forall k :: 0 <= k < i ==> name[k] == data[NameOffset + k]
      {
        name[i] := data[NameOffset + i];
        i := i + 1;
      }
      name[i] := 0;
      r := name[..NameLength + 1];
    }
  }

  /** Reading an image and writing it back out reproduces the image byte for byte. */
  method ReadThenWrite(c: Container, source: array<byte>, length: u32, target: array<byte>)
      returns (ok: bool, n: u32)
    requires c.Valid() && source != target && c.name != target
    requires HeaderSize <= length as int <= source.Length && target.Length >= length as int
    modifies c, target
    ensures ok
    ensures ok ==> n == length && target[..length] == source[..length]
  {
    var warned;
    ok, warned := c.ReadFromBuffer(source, length, true);
    assert c.data != target;
    n := c.WriteToBuffer(target);
  }
}
