/** Attachments: upload stores the whole blob, download reads it back in chunks of at most 1 MiB. */
module BlobReader {
  type byte = bv8

  const CHUNK: nat := 0x10_0000
  const MAX_ATTACHMENT: nat := 0xA0_0000

  /** A chat_attachments row: the recorded size and the bytes. */
  datatype Stored = Stored(size: int, data: seq<byte>)

  type Table = map<string, Stored>

  datatype Outcome = Ok | EndOfFile | NotFound | Failed

  /** SQL substr on a blob: 1-based, clipped to the blob. */
  function Substr(data: seq<byte>, offset: nat, n: nat): (chunk: seq<byte>)
    requires offset >= 1
    ensures |chunk| <= n
  {
    if offset - 1 >= |data| then []
    else if offset - 1 + n >= |data| then data[offset - 1..]
    else data[offset - 1..offset - 1 + n]
  }

  /** The part of a blob a reader of the row is to see: its first `size` bytes, or all there are. */
  function Visible(row: Stored): (bytes: seq<byte>)
    ensures bytes <= row.data && (row.size == |row.data| ==> bytes == row.data)
  {
    if row.size <= 0 then [] else if row.size >= |row.data| then row.data else row.data[..row.size]
  }

  class Reader {
    const id: string
    var offset: nat
    var remain: int
    var buf: seq<byte>
    var pos: nat
    /** The row when the reader was opened, and the bytes returned so far. */
    ghost const row: Stored
    ghost var produced: seq<byte>

    ghost predicate Valid()
      reads this
    {
      && 1 <= offset && offset - 1 <= |row.data| && pos <= |buf| <= CHUNK
      && offset - 1 + remain == row.size
      && (remain < 0 ==> offset == 1 && buf == [])
      && produced + buf[pos..] == row.data[..offset - 1] && row.data[..offset - 1] <= Visible(row)
    }

    /** What is still to come; every successful read into a non-empty buffer makes it smaller. */
    ghost function Left(): int
      reads this
    {
      remain + |buf| - pos
    }

    constructor (id: string, row: Stored)
      ensures Valid() && this.id == id && this.row == row && produced == [] && Left() == row.size
    {
      this.id, this.row := id, row;
      offset, remain, buf, pos, produced := 1, row.size, [], 0, [];
    }

    /** Go's copy: as much of src as fits in p. */
    static method Copy(p: array<byte>, src: seq<byte>) returns (n: nat)
      modifies p
      ensures n == if p.Length < |src| then p.Length else |src|
      ensures p[..n] == src[..n] && p[n..] == old(p[n..])
    {
      n := if p.Length < |src| then p.Length else |src|;
      for i := 0 to n
        invariant p[..i] == src[..i] && p[i..] == old(p[i..])
      {
        p[i] := src[i];
      }
    }

    /** One Read. Blobs are never rewritten, so the table holds the opened row or, once deleted, none;
        `broken` says that the query itself fails. */
    method Read(table: Table, broken: bool, p: array<byte>) returns (n: nat, outcome: Outcome)
      requires Valid() && (id in table ==> table[id] == row)
      modifies this, p
      ensures Valid() && n <= p.Length && p[n..] == old(p[n..])
      ensures produced == old(produced) + p[..n] && produced <= Visible(row)
      ensures outcome == EndOfFile ==> produced == Visible(row)
      ensures outcome == NotFound ==> id !in table && !broken
      ensures outcome == Failed ==> broken
      ensures outcome != Ok ==> n == 0 && Left() == old(Left())
      ensures outcome == Ok && p.Length > 0 ==> n > 0 && 0 <= Left() < old(Left())
      ensures id in table && !broken ==> (outcome == EndOfFile <==> old(produced) == Visible(row))
    {
      if pos >= |buf| {
        assert buf[pos..] == [];
        outcome := Fetch(table, broken);
        if outcome != Ok {
          return 0, outcome;
        }
      }
      n := Serve(p);
      return n, Ok;
    }

    /** The end of Read: copy what is buffered. */
    method Serve(p: array<byte>) returns (n: nat)
      requires Valid() && pos < |buf|
      modifies this`pos, this`produced, p
      ensures Valid() && n <= p.Length && p[n..] == old(p[n..])
      ensures produced == old(produced) + p[..n] && produced <= Visible(row)
      ensures old(produced) != Visible(row) && (p.Length > 0 ==> n > 0) && Left() == old(Left()) - n
    {
      ghost var rest := buf[pos..];
      Advance(produced, rest, row.data[..offset - 1], Visible(row));
      hide Visible;
      n := Copy(p, buf[pos..]);
      assert buf[pos + n..] == rest[n..];
      produced := produced + p[..n];
      pos := pos + n;
    }

    static lemma Advance(produced: seq<byte>, rest: seq<byte>, prefix: seq<byte>, all: seq<byte>)
      requires produced + rest == prefix <= all && rest != []
      ensures produced != all
      ensures forall n | 0 <= n <= |rest| ::
                (produced + rest[..n]) + rest[n..] == prefix && produced + rest[..n] <= all
    {
    }

    /** The refill inside Read: one substr query for the next chunk. */
    method Fetch(table: Table, broken: bool) returns (outcome: Outcome)
      requires Valid() && (id in table ==> table[id] == row) && pos == |buf|
      modifies this`buf, this`pos, this`offset, this`remain
      ensures Valid() && Left() == old(Left())
      ensures outcome == EndOfFile ==> produced == Visible(row)
      ensures outcome == NotFound ==> id !in table && !broken
      ensures outcome == Failed ==> broken
      ensures outcome == Ok <==> pos < |buf|
      ensures outcome == Ok ==> id in table && !broken && produced != Visible(row) && 0 <= remain
      ensures outcome == Ok ==> |buf| <= 1_048_576
      ensures outcome == Ok ==> |buf| == 1_048_576 || produced + buf == Visible(row)
      ensures outcome != Ok ==> unchanged(this)
    {
      assert buf[pos..] == [];
      if remain <= 0 {
        return EndOfFile;
      }
      var want := CHUNK;
      if want > remain {
        want := remain;
      }
      if broken {
        return Failed;
      }
      if id !in table {
        return NotFound;
      }
      var chunk := Substr(table[id].data, offset, want);
      if |chunk| == 0 {
        return EndOfFile;
      }
      ghost var before := offset - 1;
      buf, pos, offset, remain := chunk, 0, offset + |chunk|, remain - |chunk|;
      assert row.data[..offset - 1] == row.data[..before] + chunk;
      assert buf[0..] == chunk;
      return Ok;
    }
  }

  datatype Uploaded = Accepted(id: string) | Empty | TooBig | PutFailed

  class Store {
    var table: Table

    /** UploadAttachment with a fresh id; `broken` says that the insert fails. */
    method Upload(id: string, data: seq<byte>, broken: bool) returns (r: Uploaded)
      requires id !in table
      modifies this
      ensures |data| == 0 ==> r == Empty
      ensures |data| > 10_485_760 ==> r == TooBig
      ensures 0 < |data| <= 10_485_760 ==> r == if broken then PutFailed else Accepted(id)
      ensures table == if r.Accepted? then old(table)[id := Stored(|data|, data)] else old(table)
    {
      if |data| == 0 {
        return Empty;
      }
      if |data| > MAX_ATTACHMENT {
        return TooBig;
      }
      if broken {
        return PutFailed;
      }
      table := table[id := Stored(|data|, data)];
      return Accepted(id);
    }

    /** Download with buffers of any sizes, stopping early if they run out: what comes back are the first bytes of
        the visible blob, all of it once the end is reported; an id without a row is not found, and `broken` says that
        the metadata query fails. */
    method Download(id: string, sizes: seq<nat>, broken: bool) returns (bytes: seq<byte>, outcome: Outcome)
      ensures outcome == Failed <==> broken
      ensures outcome == NotFound <==> !broken && id !in table
      ensures outcome == Failed || outcome == NotFound ==> bytes == []
      ensures !broken && id in table ==>
                bytes <= Visible(table[id]) && (outcome == EndOfFile ==> bytes == Visible(table[id]))
      ensures !broken && id in table && (forall k | 0 <= k < |sizes| :: sizes[k] > 0) && |sizes| > |Visible(table[id])| ==>
                outcome == EndOfFile
    {
      if broken {
        return [], Failed;
      }
      if id !in table {
        return [], NotFound;
      }
      var reader := new Reader(id, table[id]);
      bytes, outcome := [], Ok;
      var k := 0;
      while k < |sizes| && outcome == Ok
        invariant 0 <= k <= |sizes| && fresh(reader) && reader.id == id && reader.row == table[id]
        invariant reader.Valid() && reader.produced == bytes <= Visible(table[id])
        invariant outcome == Ok || (outcome == EndOfFile && bytes == Visible(table[id]))
        invariant (forall j | 0 <= j < |sizes| :: sizes[j] > 0) && outcome == Ok ==> |bytes| >= k
      {
        var p := new byte[sizes[k]];
        var n;
        n, outcome := reader.Read(table, false, p);
        bytes := bytes + p[..n];
        k := k + 1;
      }
    }

    /** Upload then download is the identity, whatever the buffer sizes. */
    method RoundTrip(id: string, data: seq<byte>, sizes: seq<nat>) returns (r: Uploaded, bytes: seq<byte>)
      requires id !in table && (forall k | 0 <= k < |sizes| :: sizes[k] > 0) && |sizes| > |data|
      modifies this
      ensures 0 < |data| <= 10_485_760 <==> r.Accepted?
      ensures r.Accepted? ==> bytes == data
    {
      r := Upload(id, data, false);
      bytes := [];
      if r.Accepted? {
        var outcome;
        bytes, outcome := Download(id, sizes, false);
      }
    }
  }
}
