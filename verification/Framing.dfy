// Framing on a stream: util/stream.go and the read loop of host.go.
//
// A sender writes  word(|pkg|) pkg  for each package. The receiver reads through
// a stream that hands out the bytes in pieces of any size.
module Framing {
  import opened Wrappers
  import opened Bytes

  const BATCH_SIZE: nat := 4096

  type Package = seq<Byte>

  // ---------------------------------------------------------------- the byte format

  function Frame(pkg: Package): (bz: seq<Byte>)
    ensures |bz| == 8 + |pkg|
  {
    Word(|pkg|) + pkg
  }

  function Frames(pkgs: seq<Package>): seq<Byte> {
    if pkgs == [] then [] else Frame(pkgs[0]) + Frames(pkgs[1..])
  }

  /** Every package that can be read off the front of bz. */
  function Deframe(bz: seq<Byte>): seq<Package> {
    if !Complete(bz) then [] else [Head(bz)] + Deframe(bz[8 + |Head(bz)|..])
  }

  /** What is left when no further package is complete. */
  function Residue(bz: seq<Byte>): (rest: seq<Byte>)
    ensures !Complete(rest)
  {
    if !Complete(bz) then bz else Residue(bz[8 + |Head(bz)|..])
  }

  predicate Complete(bz: seq<Byte>) {
    |bz| >= 8 && |bz| >= 8 + Decode(bz[..8])
  }

  function Head(bz: seq<Byte>): Package
    requires Complete(bz)
  {
    bz[8..8 + Decode(bz[..8])]
  }

  ghost predicate Sendable(pkgs: seq<Package>) {
    forall i :: 0 <= i < |pkgs| ==> |pkgs[i]| < LENGTH_LIMIT
  }

  // ---------------------------------------------------------------- framing loses nothing

  lemma HeadOfFrame(pkg: Package, rest: seq<Byte>)
    requires |pkg| < LENGTH_LIMIT
    ensures var bz := Frame(pkg) + rest;
            Complete(bz) && Head(bz) == pkg && bz[8 + |pkg|..] == rest
  {
    var bz := Frame(pkg) + rest;
    assert bz[..8] == Word(|pkg|);
    WordRoundTrip(|pkg|);
  }

  /** Reading the first frame off. */
  lemma DeframeOne(pkg: Package, rest: seq<Byte>)
    requires |pkg| < LENGTH_LIMIT
    ensures Deframe(Frame(pkg) + rest) == [pkg] + Deframe(rest)
    ensures Residue(Frame(pkg) + rest) == Residue(rest)
  {
    HeadOfFrame(pkg, rest);
  }

  lemma FirstFrame(pkgs: seq<Package>, tail: seq<Byte>)
    requires pkgs != []
    ensures Frames(pkgs) + tail == Frame(pkgs[0]) + (Frames(pkgs[1..]) + tail)
  {
  }

  lemma FirstPackage(pkgs: seq<Package>, more: seq<Package>)
    requires pkgs != []
    ensures [pkgs[0]] + (pkgs[1..] + more) == pkgs + more
  {
  }

  lemma {:induction false} DeframeFrames(pkgs: seq<Package>, tail: seq<Byte>)
    requires Sendable(pkgs)
    ensures Deframe(Frames(pkgs) + tail) == pkgs + Deframe(tail)
    ensures Residue(Frames(pkgs) + tail) == Residue(tail)
  {
    if pkgs == [] {
      assert Frames(pkgs) + tail == tail;
    } else {
      var first, others := pkgs[0], pkgs[1..];
      DeframeFrames(others, tail);
      FirstFrame(pkgs, tail);
      DeframeOne(first, Frames(others) + tail);
      FirstPackage(pkgs, Deframe(tail));
    }
  }

  lemma FrameOfHead(bz: seq<Byte>)
    requires Complete(bz)
    ensures bz == Frame(Head(bz)) + bz[8 + |Head(bz)|..]
  {
    var word, h := bz[..8], Head(bz);
    WordOfDecode(word);
    assert Word(|h|) == word;
    assert bz == word + h + bz[8 + |h|..];
  }

  /** Conversely, whatever is read off was framed there: nothing is invented. */
  lemma {:induction false} FramesDeframe(bz: seq<Byte>)
    ensures bz == Frames(Deframe(bz)) + Residue(bz)
    decreases |bz|
  {
    if Complete(bz) {
      var h := Head(bz);
      var rest := bz[8 + |h|..];
      FramesDeframe(rest);
      FrameOfHead(bz);
      var pkgs := Deframe(bz);
      assert pkgs[0] == h && pkgs[1..] == Deframe(rest);
      FirstFrame(pkgs, Residue(rest));
    }
  }

  /** Cutting the stream short anywhere loses packages at the end only. */
  lemma {:induction false} DeframePrefix(bz: seq<Byte>, k: nat)
    requires k <= |bz|
    ensures Deframe(bz[..k]) <= Deframe(bz)
    decreases |bz|
  {
    var cut := bz[..k];
    if Complete(cut) {
      assert cut[..8] == bz[..8];
      var n := 8 + |Head(cut)|;
      assert Head(cut) == Head(bz);
      assert cut[n..] == bz[n..][..k - n];
      DeframePrefix(bz[n..], k - n);
    }
  }

  /** A frame that is not all there yet is not read. */
  lemma PartialFrame(pkg: Package, k: nat)
    requires |pkg| < LENGTH_LIMIT && k < 8 + |pkg|
    ensures !Complete(Frame(pkg)[..k])
  {
    if k >= 8 {
      assert Frame(pkg)[..k][..8] == Word(|pkg|);
      WordRoundTrip(|pkg|);
    }
  }

  lemma {:induction false} FramesAppend(pkgs: seq<Package>, pkg: Package)
    ensures Frames(pkgs + [pkg]) == Frames(pkgs) + Frame(pkg)
  {
    if pkgs == [] {
      assert Frames([pkg]) == Frame(pkg) + Frames([]);
    } else {
      assert (pkgs + [pkg])[1..] == pkgs[1..] + [pkg];
      FramesAppend(pkgs[1..], pkg);
    }
  }

  // ---------------------------------------------------------------- the receive stream

  /**
   * The receiving half of a stream. pending is all that is still to come. Each
   * Read hands out some of it, as much as it likes. A stream that is not faulty
   * fails only when nothing is left.
   */
  class ReceiveStream {
    const faulty: bool
    var pending: seq<Byte>

    constructor (pending: seq<Byte>, faulty: bool)
      ensures this.pending == pending && this.faulty == faulty
    {
      this.pending, this.faulty := pending, faulty;
    }

    method Read(buf: array<Byte>) returns (c: nat, failed: bool)
      requires buf.Length > 0
      modifies this, buf
      ensures failed ==> c == 0 && pending == old(pending) && (faulty || pending == [])
      ensures !failed ==> 1 <= c <= buf.Length && c <= |old(pending)|
      ensures !failed ==> buf[..c] == old(pending)[..c] && pending == old(pending)[c..]
    {
      c, failed := 0, pending == [];
      if faulty && !failed {
        failed := *;
      }
      if failed {
        return;
      }
      c :| 1 <= c <= buf.Length && c <= |pending|;
      forall i | 0 <= i < c {
        buf[i] := pending[i];
      }
      pending := pending[c..];
    }
  }

  /** Reads exactly length bytes, in batches, however they are cut up; or fails and delivers none. */
  method ReadPackageData(stream: ReceiveStream, length: nat) returns (r: Option<seq<Byte>>)
    modifies stream
    ensures r.Some? ==> |old(stream.pending)| >= length
                        && r.value == old(stream.pending)[..length] && stream.pending == old(stream.pending)[length..]
    ensures r.None? ==> stream.faulty || |old(stream.pending)| < length
    ensures |stream.pending| <= |old(stream.pending)|
  {
    var left, readLength, batchSize := length, 0, BATCH_SIZE;
    var result := new Byte[length];
    while left > 0
      invariant 0 <= left && left + readLength == length && batchSize > 0
      invariant readLength <= |old(stream.pending)| && stream.pending == old(stream.pending)[readLength..]
      invariant result[..readLength] == old(stream.pending)[..readLength]
      invariant fresh(result)
    {
      if left < batchSize {
        batchSize := left;
      }
      var bytes := new Byte[batchSize];
      var c, failed := stream.Read(bytes);
      if failed {
        return None;
      }
      left := left - c;
      assert bytes[..c] == old(stream.pending)[readLength..readLength + c];
      forall i | 0 <= i < c {
        result[readLength + i] := bytes[i];
      }
      assert result[..readLength + c] == result[..readLength] + result[readLength..readLength + c];
      assert result[readLength..readLength + c] == bytes[..c];
      assert old(stream.pending)[..readLength + c] ==
             old(stream.pending)[..readLength] + old(stream.pending)[readLength..readLength + c];
      readLength := readLength + c;
    }
    assert result[..] == result[..length];
    r := Some(result[..]);
  }

  method ReadPackageLength(stream: ReceiveStream) returns (r: Option<nat>)
    modifies stream
    ensures r.Some? ==> |old(stream.pending)| >= 8
                        && r.value == Decode(old(stream.pending)[..8]) && stream.pending == old(stream.pending)[8..]
    ensures r.None? ==> stream.faulty || |old(stream.pending)| < 8
    ensures |stream.pending| <= |old(stream.pending)|
  {
    var lengthBytes := ReadPackageData(stream, 8);
    r := match lengthBytes
      case None => None
      case Some(bz) => Some(Decode(bz));
  }

  /** The job queue of the message pipeline. */
  class Pipeline {
    var jobs: seq<Package>

    constructor ()
      ensures jobs == []
    {
      jobs := [];
    }

    method PushJob(job: Package)
      modifies this
      ensures jobs == old(jobs) + [job]
    {
      jobs := jobs + [job];
    }
  }

  /** Moving the package at the front from what is to come to what was pushed. */
  lemma PushOne(pushed: seq<Package>, bz: seq<Byte>)
    requires Complete(bz)
    ensures pushed + Deframe(bz) == (pushed + [Head(bz)]) + Deframe(bz[8 + |Head(bz)|..])
  {
  }

  /**
   * The receive loop pushes exactly the packages the stream carries, in order and
   * once each, whatever the pieces it was read in. When the stream may fail early
   * it pushes a prefix of them.
   */
  method ReceiveLoop(stream: ReceiveStream, pipeline: Pipeline)
    modifies stream, pipeline
    ensures old(pipeline.jobs) <= pipeline.jobs <= old(pipeline.jobs + Deframe(stream.pending))
    ensures !stream.faulty ==> pipeline.jobs == old(pipeline.jobs + Deframe(stream.pending))
  {
    ghost var pushed: seq<Package> := [];
    while true
      invariant pipeline.jobs == old(pipeline.jobs) + pushed
      invariant pushed + Deframe(stream.pending) == old(Deframe(stream.pending))
      decreases |stream.pending|
    {
      ghost var before := stream.pending;
      var dataLength := ReadPackageLength(stream);
      if dataLength.None? {
        break;
      }
      assert stream.pending == before[8..];
      var dataBz := ReadPackageData(stream, dataLength.value);
      if dataBz.None? {
        break;
      }
      assert Complete(before) && dataBz.value == Head(before);
      assert stream.pending == before[8 + dataLength.value..];
      PushOne(pushed, before);
      pipeline.PushJob(dataBz.value);
      pushed := pushed + [dataBz.value];
    }
    assert old(Deframe(stream.pending))[..|pushed|] == pushed;
  }
}
