/** The framed file: a packed 16-byte header and the payload. */
module StgFormat {
  import opened Common
  import opened LittleEndian

  const MAGIC: nat := 0x434F_4F4C
  const VERSION: nat := 1
  const HEADER_SIZE: nat := 16
  const TWO32: nat := 0x1_0000_0000

  datatype Status = Ok | Fail | InvalidArg | InvalidState | InvalidVersion | InvalidSize | NoMem

  datatype Header = Header(magic: uint32, version: uint16, reserved: uint16, payloadLen: uint32, headerCrc: uint32)

  function Encode(h: Header): (b: Bytes)
    ensures |b| == HEADER_SIZE
  {
    Put32(h.magic) + Put16(h.version) + Put16(h.reserved) + Put32(h.payloadLen) + Put32(h.headerCrc)
  }

  function Decode(b: Bytes): Header
    requires |b| >= HEADER_SIZE
  {
    Header(Get32(b, 0), Get16(b, 4), Get16(b, 6), Get32(b, 8), Get32(b, 12))
  }

  /** The packed layout loses nothing, in either direction. */
  lemma DecodeIsInverse(h: Header, b: Bytes)
    requires |b| >= HEADER_SIZE
    ensures Decode(b) == h <==> b[..HEADER_SIZE] == Encode(h)
  {
    Get32OfPut(b, 0, h.magic);
    Get16OfPut(b, 4, h.version);
    Get16OfPut(b, 6, h.reserved);
    Get32OfPut(b, 8, h.payloadLen);
    Get32OfPut(b, 12, h.headerCrc);
    var e := Encode(h);
    assert e[0..4] == Put32(h.magic) && e[4..6] == Put16(h.version) && e[6..8] == Put16(h.reserved)
        && e[8..12] == Put32(h.payloadLen) && e[12..16] == Put32(h.headerCrc);
    assert b[..HEADER_SIZE] == b[0..4] + b[4..6] + b[6..8] + b[8..12] + b[12..16];
    var p := b[..HEADER_SIZE];
    assert p[0..4] == b[0..4] && p[4..6] == b[4..6] && p[6..8] == b[6..8]
        && p[8..12] == b[8..12] && p[12..16] == b[12..16];
  }

  function DefaultHeader(len: nat): Header {
    Header(MAGIC, VERSION, 0, len % TWO32, 0)
  }

  /** The file a successful write leaves behind; the length field has 32 bits. */
  function FileOf(data: Bytes): (b: Bytes)
    ensures |b| == HEADER_SIZE + |data|
  {
    Encode(DefaultHeader(|data|)) + data
  }

  function EmptyFile(): (b: Bytes)
    ensures |b| == HEADER_SIZE
  {
    Encode(DefaultHeader(0))
  }

  /** The verdict on a file's header. */
  function HeaderStatus(file: Bytes): Status {
    if |file| < HEADER_SIZE then Fail
    else if Decode(file).magic != MAGIC then InvalidState
    else if Decode(file).version != VERSION then InvalidVersion
    else Ok
  }

  datatype Payload = Good(data: Bytes) | Bad(status: Status)

  /** What a file says its payload is. */
  function ReadBack(file: Bytes): Payload {
    if HeaderStatus(file) != Ok then Bad(HeaderStatus(file))
    else if |file| < HEADER_SIZE + Decode(file).payloadLen then Bad(Fail)
    else Good(file[HEADER_SIZE..HEADER_SIZE + Decode(file).payloadLen])
  }

  lemma FileOfDecodes(data: Bytes)
    ensures Decode(FileOf(data)) == DefaultHeader(|data|) && HeaderStatus(FileOf(data)) == Ok
  {
    DecodeIsInverse(DefaultHeader(|data|), FileOf(data));
  }

  /** The header in bytes: "LOOC", version 1, two zero bytes, the length in little-endian order, four zero bytes. */
  lemma HeaderBytes(len: nat)
    ensures var n := len % 0x1_0000_0000;
      Encode(DefaultHeader(len)) ==
        [0x4C, 0x4F, 0x4F, 0x43, 1, 0, 0, 0,
         n % 0x100, n / 0x100 % 0x100, n / 0x1_0000 % 0x100, n / 0x100_0000, 0, 0, 0, 0]
  {
    Put32Bytes(MAGIC);
    Put32Bytes(len % 0x1_0000_0000);
  }

  /** The verdict in bytes: the first four decide about the state, the next two about the version. */
  lemma HeaderStatusOfBytes(file: Bytes)
    ensures HeaderStatus(file) ==
      if |file| < 16 then Fail
      else if file[0..4] != [0x4C, 0x4F, 0x4F, 0x43] then InvalidState
      else if file[4..6] != [1, 0] then InvalidVersion
      else Ok
  {
    if |file| >= 16 {
      Get32OfPut(file, 0, MAGIC);
      Get16OfPut(file, 4, VERSION);
      HeaderBytes(0);
      assert Put32(MAGIC) == Encode(DefaultHeader(0))[..4] && Put16(VERSION) == Encode(DefaultHeader(0))[4..6];
    }
  }

  /** The payload in bytes: as many as bytes 8 to 11 say, from the seventeenth on. */
  lemma ReadBackOfBytes(file: Bytes)
    ensures if HeaderStatus(file) != Ok then ReadBack(file) == Bad(HeaderStatus(file))
            else
              var b8: nat, b9: nat, b10: nat, b11: nat := file[8], file[9], file[10], file[11];
              var len := b8 + 0x100 * b9 + 0x1_0000 * b10 + 0x100_0000 * b11;
              && Decode(file).payloadLen == len
              && ReadBack(file) == if |file| < 16 + len then Bad(Fail) else Good(file[16..16 + len])
  {
  }

  /** A written file reads back exactly, if and only if its length fits the header's 32 bits. */
  lemma WrittenReadsBack(data: Bytes)
    ensures ReadBack(FileOf(data)) == Good(data) <==> |data| < TWO32
  {
    FileOfDecodes(data);
    var n := |data| % TWO32;
    assert FileOf(data)[HEADER_SIZE..HEADER_SIZE + n] == data[..n];
  }

  /** A default header cut short reads as an error, a complete one as the empty payload: never as data. */
  lemma PartOfEmptyFile(file: Bytes)
    requires file <= EmptyFile()
    ensures ReadBack(file) == if |file| == HEADER_SIZE then Good([]) else Bad(Fail)
    ensures EmptyFile() == FileOf([])
  {
    assert EmptyFile() == FileOf([]);
    FileOfDecodes([]);
  }
}
