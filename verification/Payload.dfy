// The payload package: core/protocol/payload_package.go.
//
// A package travels as  word(|p|) p word(|q|) q type  where p is the protocol
// ID and q the payload, compressed when the type byte says so.
module Payload {
  import opened Wrappers
  import opened Bytes

  /** The two gzip helpers, as values: nothing is known of them but what Lossless says. */
  datatype Gzip = Gzip(compress: seq<Byte> -> Option<seq<Byte>>, decompress: seq<Byte> -> Option<seq<Byte>>) {
    ghost predicate Lossless() {
      forall x: seq<Byte> :: compress(x).Some? ==> decompress(compress(x).value) == Some(x)
    }
  }

  const COMPRESS_NONE: Byte := 0
  const COMPRESS_GZIP: Byte := 1

  /** Panicked stands for the run-time panic of allocating a buffer of negative length. */
  datatype Error = InvalidDataLength | UnknownCompressType | Eof | CompressFailed | DecompressFailed | Panicked

  datatype Fields = Fields(protocol: seq<Byte>, payload: seq<Byte>, compressType: Byte)

  // ---------------------------------------------------------------- the wire grammar

  datatype Parts = Parts(p: seq<Byte>, q: seq<Byte>, ty: Byte, rest: seq<Byte>)

  function Layout(p: seq<Byte>, q: seq<Byte>, ty: Byte): (bz: seq<Byte>)
    ensures |bz| == |p| + |q| + 17
  {
    Word(|p|) + p + Word(|q|) + q + [ty]
  }

  /** bz is one package, followed by bytes that Unmarshal never looks at. */
  ghost predicate Matches(bz: seq<Byte>, w: Parts) {
    && |w.p| < LENGTH_LIMIT
    && |w.q| < LENGTH_LIMIT
    && bz == Layout(w.p, w.q, w.ty) + w.rest
  }

  ghost predicate PayloadOf(gz: Gzip, ty: Byte, q: seq<Byte>, payload: seq<Byte>) {
    || (ty == COMPRESS_NONE && payload == q)
    || (ty == COMPRESS_GZIP && gz.decompress(q) == Some(payload))
  }

  /** What it means for bz to carry the fields f. */
  ghost predicate Carries(gz: Gzip, bz: seq<Byte>, f: Fields) {
    && |bz| > 17
    && exists w :: Matches(bz, w) && w.p == f.protocol && w.ty == f.compressType && PayloadOf(gz, w.ty, w.q, f.payload)
  }

  // ---------------------------------------------------------------- reading by offsets

  predicate ProtocolFits(bz: seq<Byte>) {
    |bz| >= 8 && Decode(bz[..8]) < LENGTH_LIMIT && |bz| >= 16 + Decode(bz[..8])
  }

  function PayloadLength(bz: seq<Byte>): nat
    requires ProtocolFits(bz)
  {
    var m := Decode(bz[..8]);
    Decode(bz[8 + m..16 + m])
  }

  predicate Fits(bz: seq<Byte>) {
    && ProtocolFits(bz)
    && PayloadLength(bz) < LENGTH_LIMIT
    && |bz| >= 17 + Decode(bz[..8]) + PayloadLength(bz)
  }

  function Cut(bz: seq<Byte>): Parts
    requires Fits(bz)
  {
    var m := Decode(bz[..8]);
    var n := PayloadLength(bz);
    Parts(bz[8..8 + m], bz[16 + m..16 + m + n], bz[16 + m + n], bz[17 + m + n..])
  }

  lemma MatchesIsCut(bz: seq<Byte>, w: Parts)
    requires Matches(bz, w)
    ensures Fits(bz) && w == Cut(bz)
  {
    WordRoundTrip(|w.p|);
    WordRoundTrip(|w.q|);
    var m, n := |w.p|, |w.q|;
    assert bz[..8] == Word(m);
    assert bz[8 + m..16 + m] == Word(n);
    assert bz[8..8 + m] == w.p;
    assert bz[16 + m..16 + m + n] == w.q;
    assert bz[17 + m + n..] == w.rest;
  }

  lemma CutMatches(bz: seq<Byte>)
    requires Fits(bz)
    ensures Matches(bz, Cut(bz))
  {
    var w := Cut(bz);
    var m, n := |w.p|, |w.q|;
    var head, middle := bz[..8], bz[8 + m..16 + m];
    WordOfDecode(head);
    WordOfDecode(middle);
    assert head == Word(m) && middle == Word(n);
    assert bz == head + w.p + middle + w.q + [w.ty] + w.rest;
  }

  /** The grammar is unambiguous: a byte string is a package in at most one way, found by offsets. */
  lemma MatchesIffCut(bz: seq<Byte>, w: Parts)
    ensures Matches(bz, w) <==> Fits(bz) && w == Cut(bz)
  {
    if Matches(bz, w) {
      MatchesIsCut(bz, w);
    }
    if Fits(bz) {
      CutMatches(bz);
    }
  }

  lemma CarriesIffCut(gz: Gzip, bz: seq<Byte>, f: Fields)
    ensures Carries(gz, bz, f) <==>
            && |bz| > 17
            && Fits(bz)
            && Cut(bz).p == f.protocol
            && Cut(bz).ty == f.compressType
            && PayloadOf(gz, Cut(bz).ty, Cut(bz).q, f.payload)
  {
    if Carries(gz, bz, f) {
      var w :| Matches(bz, w) && w.p == f.protocol && w.ty == f.compressType && PayloadOf(gz, w.ty, w.q, f.payload);
      MatchesIffCut(bz, w);
    }
    if Fits(bz) {
      MatchesIffCut(bz, Cut(bz));
    }
  }

  /** The four ways a byte string can fail to carry anything. */
  lemma Refused(gz: Gzip, bz: seq<Byte>)
    requires
      || |bz| <= 17
      || !Fits(bz)
      || Cut(bz).ty > COMPRESS_GZIP
      || (Cut(bz).ty == COMPRESS_GZIP && gz.decompress(Cut(bz).q).None?)
    ensures forall f :: !Carries(gz, bz, f)
  {
    forall f {
      CarriesIffCut(gz, bz, f);
    }
  }

  lemma CarriesUnique(gz: Gzip, bz: seq<Byte>, f: Fields, g: Fields)
    requires Carries(gz, bz, f) && Carries(gz, bz, g)
    ensures f == g
  {
    CarriesIffCut(gz, bz, f);
    CarriesIffCut(gz, bz, g);
  }

  // ---------------------------------------------------------------- encoding

  function FinalPayload(gz: Gzip, f: Fields): Result<seq<Byte>, Error> {
    if f.compressType == COMPRESS_NONE then Ok(f.payload)
    else if f.compressType != COMPRESS_GZIP then Err(UnknownCompressType)
    else match gz.compress(f.payload)
      case Some(q) => Ok(q)
      case None => Err(CompressFailed)
  }

  function Marshalled(gz: Gzip, f: Fields): Result<seq<Byte>, Error> {
    match FinalPayload(gz, f)
    case Ok(q) => Ok(Layout(f.protocol, q, f.compressType))
    case Err(e) => Err(e)
  }

  /** Go slices are shorter than 2^63 bytes. */
  ghost predicate Representable(gz: Gzip, f: Fields) {
    && |f.protocol| < LENGTH_LIMIT
    && (FinalPayload(gz, f).Ok? ==> |FinalPayload(gz, f).value| < LENGTH_LIMIT)
  }

  /** What Marshal turns down, and why. */
  lemma MarshalledIff(gz: Gzip, f: Fields)
    ensures Marshalled(gz, f).Ok? <==> f.compressType == 0 || (f.compressType == 1 && gz.compress(f.payload).Some?)
    ensures Marshalled(gz, f) == Err(UnknownCompressType) <==> f.compressType > 1
    ensures Marshalled(gz, f) == Err(CompressFailed) <==> f.compressType == 1 && gz.compress(f.payload).None?
  {
  }

  /** Where the fields stand in a package, and that reading it by offsets finds them: the payload as it is or compressed. */
  lemma MarshalledParts(gz: Gzip, f: Fields)
    requires Marshalled(gz, f).Ok?
    ensures f.compressType == 1 ==> gz.compress(f.payload).Some?
    ensures var bz := Marshalled(gz, f).value;
            var q := if f.compressType == 1 then gz.compress(f.payload).value else f.payload;
            var m, n := |f.protocol|, |q|;
            && |bz| == 17 + m + n
            && bz[..8] == Word(m) && bz[8..8 + m] == f.protocol
            && bz[8 + m..16 + m] == Word(n) && bz[16 + m..16 + m + n] == q
            && bz[16 + m + n] == f.compressType
            && (m < LENGTH_LIMIT && n < LENGTH_LIMIT ==> Fits(bz) && Cut(bz) == Parts(f.protocol, q, f.compressType, []))
  {
    var bz := Marshalled(gz, f).value;
    var q := if f.compressType == 1 then gz.compress(f.payload).value else f.payload;
    var w := Parts(f.protocol, q, f.compressType, []);
    assert bz == bz + [];
    if |w.p| < LENGTH_LIMIT && |w.q| < LENGTH_LIMIT {
      MatchesIffCut(bz, w);
    }
  }

  /**
   * Marshalling loses nothing, except for the one package Unmarshal refuses for
   * its length: the one whose protocol ID and (compressed) payload are both empty.
   */
  lemma MarshalRoundTrip(gz: Gzip, f: Fields)
    requires gz.Lossless() && Representable(gz, f)
    requires Marshalled(gz, f).Ok?
    ensures var bz := Marshalled(gz, f).value;
            Carries(gz, bz, f) <==> !(f.protocol == [] && FinalPayload(gz, f).value == [])
  {
    var q := FinalPayload(gz, f).value;
    var bz := Marshalled(gz, f).value;
    var w := Parts(f.protocol, q, f.compressType, []);
    assert bz == bz + [];
    assert Matches(bz, w);
    assert PayloadOf(gz, w.ty, w.q, f.payload);
  }

  /** Different fields never share an encoding that Unmarshal accepts. */
  lemma MarshalInjective(gz: Gzip, f: Fields, g: Fields)
    requires gz.Lossless() && Representable(gz, f) && Representable(gz, g)
    requires Marshalled(gz, f).Ok? && Marshalled(gz, f) == Marshalled(gz, g)
    ensures f == g
  {
    var q, q' := FinalPayload(gz, f).value, FinalPayload(gz, g).value;
    var bz := Marshalled(gz, f).value;
    assert bz == bz + [];
    MatchesIffCut(bz, Parts(f.protocol, q, f.compressType, []));
    MatchesIffCut(bz, Parts(g.protocol, q', g.compressType, []));
  }

  // ---------------------------------------------------------------- bytes.Reader

  class Reader {
    const data: seq<Byte>
    var pos: nat

    constructor (data: seq<Byte>)
      ensures this.data == data && pos == 0
    {
      this.data := data;
      pos := 0;
    }

    /**
     * Copies what is left, at most the length of buf; a short read is no error.
     * At the end it fails, even for an empty buffer, and leaves buf as it was.
     */
    method Read(buf: array<Byte>) returns (n: nat, eof: bool)
      requires pos <= |data|
      modifies `pos, buf
      ensures eof <==> old(pos) == |data|
      ensures n == if buf.Length <= |data| - old(pos) then buf.Length else |data| - old(pos)
      ensures pos == old(pos) + n
      ensures n == buf.Length ==> buf[..] == data[old(pos)..pos]
      ensures n < buf.Length ==> buf[..n] == data[old(pos)..pos] && buf[n..] == old(buf[n..])
    {
      n := 0;
      eof := pos >= |data|;
      if eof {
        return;
      }
      while n < buf.Length && pos < |data|
        invariant n <= buf.Length && old(pos) <= pos == old(pos) + n <= |data|
        invariant forall i :: 0 <= i < n ==> buf[i] == data[old(pos) + i]
        invariant forall i :: n <= i < buf.Length ==> buf[i] == old(buf[i])
      {
        buf[n] := data[pos];
        n, pos := n + 1, pos + 1;
      }
    }

    method ReadByte() returns (b: Byte, eof: bool)
      requires pos <= |data|
      modifies `pos
      ensures eof <==> old(pos) == |data|
      ensures !eof ==> pos == old(pos) + 1 && b == data[old(pos)]
      ensures eof ==> pos == old(pos)
    {
      eof := pos >= |data|;
      b := 0;
      if !eof {
        b, pos := data[pos], pos + 1;
      }
    }
  }

  /** Reads into the shared length buffer and decodes all of it, however little was read. */
  method ReadWord(reader: Reader, buf: array<Byte>) returns (value: nat, eof: bool)
    requires reader.pos <= |reader.data| && buf.Length == 8
    modifies reader`pos, buf
    ensures old(reader.pos) <= reader.pos <= |reader.data|
    ensures eof <==> old(reader.pos) == |reader.data|
    ensures old(reader.pos) + 8 <= |reader.data| ==>
              reader.pos == old(reader.pos) + 8 && value == Decode(reader.data[old(reader.pos)..reader.pos])
    ensures old(reader.pos) + 8 > |reader.data| ==> reader.pos == |reader.data|
  {
    var n;
    n, eof := reader.Read(buf);
    value := Decode(buf[..]);
  }

  method ReadBlock(reader: Reader, length: nat) returns (block: seq<Byte>, eof: bool)
    requires reader.pos <= |reader.data|
    modifies reader`pos
    ensures old(reader.pos) <= reader.pos <= |reader.data|
    ensures eof <==> old(reader.pos) == |reader.data|
    ensures !eof && old(reader.pos) + length <= |reader.data| ==>
              reader.pos == old(reader.pos) + length && block == reader.data[old(reader.pos)..reader.pos]
    ensures old(reader.pos) + length > |reader.data| ==> reader.pos == |reader.data|
  {
    var buf := new Byte[length];
    var n;
    n, eof := reader.Read(buf);
    block := buf[..];
  }

  /**
   * The five reads of Unmarshal. No read is checked for being short, and one
   * length buffer serves both words; still they succeed exactly on what fits.
   */
  method ReadParts(bz: seq<Byte>)
    returns (protocolBz: Option<seq<Byte>>, payloadBz: seq<Byte>, ty: Byte, err: Option<Error>)
    requires |bz| > 17
    ensures err.None? <==> Fits(bz)
    ensures err in {None, Some(Eof), Some(Panicked)}
    ensures Fits(bz) ==> protocolBz == Some(Cut(bz).p) && payloadBz == Cut(bz).q && ty == Cut(bz).ty
  {
    protocolBz, payloadBz, ty := None, [], 0;
    var reader := new Reader(bz);
    var lengthBz := new Byte[8];
    var protocolLength, eof := ReadWord(reader, lengthBz);
    if eof {
      err := Some(Eof);
      return;
    }
    if protocolLength >= LENGTH_LIMIT {
      err := Some(Panicked);
      return;
    }
    var block;
    block, eof := ReadBlock(reader, protocolLength);
    if eof {
      err := Some(Eof);
      return;
    }
    protocolBz := Some(block);
    // A short read leaves the tail of the first length word in the buffer, but then nothing is left to read.
    var payloadLength;
    payloadLength, eof := ReadWord(reader, lengthBz);
    if eof {
      err := Some(Eof);
      return;
    }
    assert ProtocolFits(bz) ==> payloadLength == PayloadLength(bz);
    assert !ProtocolFits(bz) ==> reader.pos == |bz|;
    if payloadLength >= LENGTH_LIMIT {
      err := Some(Panicked);
      return;
    }
    payloadBz, eof := ReadBlock(reader, payloadLength);
    if eof {
      err := Some(Eof);
      return;
    }
    ty, eof := reader.ReadByte();
    if eof {
      err := Some(Eof);
      return;
    }
    err := None;
  }

  // ---------------------------------------------------------------- PayloadPkg

  class PayloadPkg {
    var protocol: seq<Byte>
    var payload: seq<Byte>
    var compressType: Byte

    constructor (protocol: seq<Byte>, payload: seq<Byte>, compressType: Byte)
      ensures View() == Fields(protocol, payload, compressType)
    {
      this.protocol, this.payload, this.compressType := protocol, payload, compressType;
    }

    function View(): Fields
      reads this
    {
      Fields(protocol, payload, compressType)
    }

    method Marshal(gz: Gzip) returns (r: Result<seq<Byte>, Error>)
      ensures r == Marshalled(gz, View())
      ensures r.Ok? <==> compressType == 0 || (compressType == 1 && gz.compress(payload).Some?)
      ensures r == Err(UnknownCompressType) <==> compressType > 1
      ensures r == Err(CompressFailed) <==> compressType == 1 && gz.compress(payload).None?
      ensures r.Ok? ==> r.value == Word(|protocol|) + protocol + Word(|r.value| - 17 - |protocol|) +
                                   (if compressType == 1 then gz.compress(payload).value else payload) + [compressType]
    {
      var finalPayload: seq<Byte>;
      if compressType == COMPRESS_NONE {
        finalPayload := payload;
      } else if compressType == COMPRESS_GZIP {
        var c := gz.compress(payload);
        if c.None? {
          return Err(CompressFailed);
        }
        finalPayload := c.value;
      } else {
        return Err(UnknownCompressType);
      }
      var bz: seq<Byte> := [];
      bz := bz + Word(|protocol|);
      bz := bz + protocol;
      bz := bz + Word(|finalPayload|);
      bz := bz + finalPayload;
      bz := bz + [compressType];
      assert bz == Layout(protocol, finalPayload, compressType);
      r := Ok(bz);
    }

    /**
     * Succeeds exactly on the byte strings that carry some fields, and then holds
     * those fields. A failure never replaces the payload, unless by what a failed
     * decompression returned.
     */
    method Unmarshal(bz: seq<Byte>, gz: Gzip) returns (err: Option<Error>)
      modifies this
      ensures err.None? ==> Carries(gz, bz, View())
      ensures err.Some? ==> forall f :: !Carries(gz, bz, f)
      ensures |bz| <= 17 ==> err == Some(InvalidDataLength) && View() == old(View())
      ensures |bz| > 17 && Fits(bz) ==>
                && protocol == Cut(bz).p && compressType == Cut(bz).ty
                && (compressType > COMPRESS_GZIP <==> err == Some(UnknownCompressType))
                && (compressType == COMPRESS_GZIP && gz.decompress(Cut(bz).q).None? <==> err == Some(DecompressFailed))
      ensures |bz| > 17 && !Fits(bz) ==> err == Some(Eof) || err == Some(Panicked)
      ensures err.Some? && err != Some(DecompressFailed) ==> payload == old(payload)
    {
      if |bz| <= 17 {
        Refused(gz, bz);
        return Some(InvalidDataLength);
      }
      var protocolBz, payloadBz, ty, e := ReadParts(bz);
      if protocolBz.Some? {
        protocol := protocolBz.value;
      }
      if e.Some? {
        Refused(gz, bz);
        return e;
      }
      compressType := ty;
      if compressType == COMPRESS_NONE {
        payload := payloadBz;
      } else if compressType == COMPRESS_GZIP {
        var d := gz.decompress(payloadBz);
        if d.None? {
          payload := [];
          Refused(gz, bz);
          return Some(DecompressFailed);
        }
        payload := d.value;
      } else {
        Refused(gz, bz);
        return Some(UnknownCompressType);
      }
      CarriesIffCut(gz, bz, View());
      err := None;
    }
  }
}
