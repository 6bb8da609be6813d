/**
 * The event-8 interest-list payload as LogEventEight reads it: back-to-back
 * six-byte records, each a little-endian Int32 view id followed by a
 * little-endian Int16 interest, collected into a dictionary keyed by view id.
 */
module EventEight {
  import opened Wrappers
  import opened HostTypes

  /** Why the source's loop would throw: a record cut short, or a view id seen twice. */
  datatype ParseError = TruncatedRecord | DuplicateViewId(viewId: int)

  datatype Interest = Interest(viewId: int, interest: int)

  predicate IsInt32(x: int) { -0x8000_0000 <= x < 0x8000_0000 }

  predicate IsInt16(x: int) { -0x8000 <= x < 0x8000 }

  /** BitConverter.ToInt32 on a little-endian host: two's complement of the four bytes. */
  function Int32LE(b0: byte, b1: byte, b2: byte, b3: byte): (x: int)
    ensures IsInt32(x)
  {
    var u := b0 as int + 256 * (b1 as int + 256 * (b2 as int + 256 * b3 as int));
    if u >= 0x8000_0000 then u - 0x1_0000_0000 else u
  }

  /** BitConverter.ToInt16 on a little-endian host. */
  function Int16LE(b0: byte, b1: byte): (x: int)
    ensures IsInt16(x)
  {
    var u := b0 as int + 256 * b1 as int;
    if u >= 0x8000 then u - 0x1_0000 else u
  }

  /** The dictionary LogEventEight builds from `data`, extending `acc`. */
  function ParseInterests(data: seq<byte>, acc: map<int, int>): Result<map<int, int>, ParseError>
    decreases |data|
  {
    if |data| == 0 then Success(acc)
    else if |data| < 6 then Failure(TruncatedRecord)
    else
      var viewId := Int32LE(data[0], data[1], data[2], data[3]);
      if viewId in acc then Failure(DuplicateViewId(viewId))
      else ParseInterests(data[6..], acc[viewId := Int16LE(data[4], data[5])])
  }

  /**
   * The loop of LogEventEight: read a view id, advance four bytes, read an
   * interest, add the pair, advance two bytes. The dictionary it would log
   * is returned instead; a read past the end or a repeated view id, where the
   * source throws, is a Failure.
   */
  method LogEventEight(data: array<byte>) returns (r: Result<map<int, int>, ParseError>)
    ensures r == ParseInterests(data[..], map[])
  {
    var posInEvent8 := 0;
    var actorInterests: map<int, int> := map[];
    while posInEvent8 < data.Length
      invariant 0 <= posInEvent8 <= data.Length
      invariant ParseInterests(data[posInEvent8..], actorInterests) == ParseInterests(data[..], map[])
    {
      if posInEvent8 + 4 > data.Length {
        return Failure(TruncatedRecord);
      }
      var viewId := Int32LE(data[posInEvent8], data[posInEvent8 + 1], data[posInEvent8 + 2], data[posInEvent8 + 3]);
      posInEvent8 := posInEvent8 + 4;
      if posInEvent8 + 2 > data.Length {
        return Failure(TruncatedRecord);
      }
      var interest := Int16LE(data[posInEvent8], data[posInEvent8 + 1]);
      if viewId in actorInterests {
        return Failure(DuplicateViewId(viewId));
      }
      actorInterests := actorInterests[viewId := interest];
      posInEvent8 := posInEvent8 + 2;
      assert data[posInEvent8 - 6..][6..] == data[posInEvent8..];
    }
    return Success(actorInterests);
  }

  /** A payload parses only if it is a whole number of six-byte records. */
  lemma {:induction false} ParsedPayloadIsWholeRecords(data: seq<byte>, acc: map<int, int>)
    requires ParseInterests(data, acc).Success?
    ensures |data| % 6 == 0
    decreases |data|
  {
    if |data| != 0 {
      var viewId := Int32LE(data[0], data[1], data[2], data[3]);
      ParsedPayloadIsWholeRecords(data[6..], acc[viewId := Int16LE(data[4], data[5])]);
    }
  }

  function Int32Bytes(x: int): (s: seq<byte>)
    requires IsInt32(x)
    ensures |s| == 4 && Int32LE(s[0], s[1], s[2], s[3]) == x
  {
    var u := if x < 0 then x + 0x1_0000_0000 else x;
    var q1 := u / 256;
    var q2 := q1 / 256;
    assert q2 / 256 < 256;
    [(u % 256) as byte, (q1 % 256) as byte, (q2 % 256) as byte, (q2 / 256) as byte]
  }

  function Int16Bytes(x: int): (s: seq<byte>)
    requires IsInt16(x)
    ensures |s| == 2 && Int16LE(s[0], s[1]) == x
  {
    var u := if x < 0 then x + 0x1_0000 else x;
    [(u % 256) as byte, (u / 256) as byte]
  }

  /** Reading four bytes as an Int32 and writing it back gives the same bytes. */
  lemma Int32BytesOfInt32LE(b0: byte, b1: byte, b2: byte, b3: byte)
    ensures Int32Bytes(Int32LE(b0, b1, b2, b3)) == [b0, b1, b2, b3]
  {
    var w := b2 as int + 256 * b3 as int;
    var v := b1 as int + 256 * w;
    var u := b0 as int + 256 * v;
    assert u % 256 == b0 as int && u / 256 == v;
    assert v % 256 == b1 as int && v / 256 == w;
    assert w % 256 == b2 as int && w / 256 == b3 as int;
  }

  /** Reading two bytes as an Int16 and writing it back gives the same bytes. */
  lemma Int16BytesOfInt16LE(b0: byte, b1: byte)
    ensures Int16Bytes(Int16LE(b0, b1)) == [b0, b1]
  {
    var u := b0 as int + 256 * b1 as int;
    assert u % 256 == b0 as int && u / 256 == b1 as int;
  }

  predicate InRange(records: seq<Interest>)
  {
    forall i :: 0 <= i < |records| ==> IsInt32(records[i].viewId) && IsInt16(records[i].interest)
  }

  predicate DistinctViews(records: seq<Interest>)
  {
    forall i, j :: 0 <= i < j < |records| ==> records[i].viewId != records[j].viewId
  }

  /** The payload a client sends for `records`: each record as six little-endian bytes. */
  function EncodeInterests(records: seq<Interest>): (data: seq<byte>)
    requires InRange(records)
    ensures |data| == 6 * |records|
    decreases |records|
  {
    if records == [] then []
    else Int32Bytes(records[0].viewId) + Int16Bytes(records[0].interest) + EncodeInterests(records[1..])
  }

  /** The records a payload of whole six-byte records holds, in order. */
  function DecodeRecords(data: seq<byte>): (records: seq<Interest>)
    requires |data| % 6 == 0
    ensures |records| == |data| / 6 && InRange(records)
    decreases |data|
  {
    if |data| == 0 then []
    else [Interest(Int32LE(data[0], data[1], data[2], data[3]), Int16LE(data[4], data[5]))] + DecodeRecords(data[6..])
  }

  /** Every payload of whole records is the encoding of the records it holds. */
  lemma {:induction false} EncodeDecodedRecords(data: seq<byte>)
    requires |data| % 6 == 0
    ensures EncodeInterests(DecodeRecords(data)) == data
    decreases |data|
  {
    if |data| != 0 {
      var records := DecodeRecords(data);
      Int32BytesOfInt32LE(data[0], data[1], data[2], data[3]);
      Int16BytesOfInt16LE(data[4], data[5]);
      assert records[1..] == DecodeRecords(data[6..]);
      EncodeDecodedRecords(data[6..]);
      assert data == data[..4] + data[4..6] + data[6..];
    }
  }

  ghost function ViewIds(records: seq<Interest>): set<int>
  {
    set i | 0 <= i < |records| :: records[i].viewId
  }

  /**
   * Parsing the encoding of distinct, in-range records succeeds and yields
   * every record's interest under its view id, on top of `acc`.
   */
  lemma {:induction false} ParseEncodedInterests(records: seq<Interest>, acc: map<int, int>)
    requires InRange(records) && DistinctViews(records)
    requires forall i :: 0 <= i < |records| ==> records[i].viewId !in acc
    ensures ParseInterests(EncodeInterests(records), acc).Success?
    ensures var m := ParseInterests(EncodeInterests(records), acc).value;
      && m.Keys == acc.Keys + ViewIds(records)
      && (forall k :: k in acc ==> m[k] == acc[k])
      && (forall i :: 0 <= i < |records| ==> m[records[i].viewId] == records[i].interest)
    decreases |records|
  {
    if records != [] {
      var r := records[0];
      var rest := records[1..];
      var data := EncodeInterests(records);
      var head := Int32Bytes(r.viewId) + Int16Bytes(r.interest);
      assert data == head + EncodeInterests(rest);
      assert data[6..] == EncodeInterests(rest);
      assert Int32LE(data[0], data[1], data[2], data[3]) == r.viewId;
      assert Int16LE(data[4], data[5]) == r.interest;
      var acc' := acc[r.viewId := r.interest];
      forall i | 0 <= i < |rest| ensures rest[i].viewId !in acc' {
        assert rest[i] == records[i + 1];
      }
      assert InRange(rest) && DistinctViews(rest) by {
        forall i | 0 <= i < |rest| ensures rest[i] == records[i + 1] { }
      }
      ParseEncodedInterests(rest, acc');
      var m := ParseInterests(EncodeInterests(rest), acc').value;
      assert ParseInterests(data, acc) == ParseInterests(EncodeInterests(rest), acc');
      assert ViewIds(records) == {r.viewId} + ViewIds(rest) by {
        forall v ensures v in ViewIds(records) <==> v == r.viewId || v in ViewIds(rest) {
          if v in ViewIds(records) {
            var i :| 0 <= i < |records| && records[i].viewId == v;
            if i > 0 { assert rest[i - 1] == records[i]; }
          }
          if v in ViewIds(rest) {
            var i :| 0 <= i < |rest| && rest[i].viewId == v;
            assert records[i + 1] == rest[i];
          }
        }
      }
      forall i | 0 <= i < |records| ensures m[records[i].viewId] == records[i].interest {
        if i > 0 { assert records[i] == rest[i - 1]; }
      }
    }
  }

  /**
   * Parsing the encoding of in-range records fails when two records share a
   * view id or a view id is already present in `acc`.
   */
  lemma {:induction false} RepeatedViewIdFails(records: seq<Interest>, acc: map<int, int>)
    requires InRange(records)
    requires !DistinctViews(records) || exists i :: 0 <= i < |records| && records[i].viewId in acc
    ensures ParseInterests(EncodeInterests(records), acc).Failure?
    decreases |records|
  {
    var r := records[0];
    var rest := records[1..];
    var data := EncodeInterests(records);
    assert data == Int32Bytes(r.viewId) + Int16Bytes(r.interest) + EncodeInterests(rest);
    assert data[6..] == EncodeInterests(rest);
    assert Int32LE(data[0], data[1], data[2], data[3]) == r.viewId;
    if r.viewId !in acc {
      var acc' := acc[r.viewId := Int16LE(data[4], data[5])];
      assert InRange(rest) by {
        forall i | 0 <= i < |rest| ensures rest[i] == records[i + 1] { }
      }
      if DistinctViews(records) {
        var i :| 0 <= i < |records| && records[i].viewId in acc;
        assert i > 0 && rest[i - 1] == records[i];
        assert rest[i - 1].viewId in acc';
      } else {
        var i, j :| 0 <= i < j < |records| && records[i].viewId == records[j].viewId;
        assert rest[j - 1] == records[j];
        if i == 0 {
          assert rest[j - 1].viewId in acc';
        } else {
          assert rest[i - 1] == records[i];
          assert !DistinctViews(rest);
        }
      }
      RepeatedViewIdFails(rest, acc');
    }
  }

  /** The encoding of in-range records parses exactly when their view ids are distinct. */
  lemma EncodedInterestsParseIff(records: seq<Interest>)
    requires InRange(records)
    ensures ParseInterests(EncodeInterests(records), map[]).Success? <==> DistinctViews(records)
  {
    if DistinctViews(records) {
      ParseEncodedInterests(records, map[]);
    } else {
      RepeatedViewIdFails(records, map[]);
    }
  }

  /**
   * Any payload parses exactly when it is a whole number of six-byte records
   * whose view ids are pairwise distinct.
   */
  lemma PayloadParsesIff(data: seq<byte>)
    ensures ParseInterests(data, map[]).Success? <==> |data| % 6 == 0 && DistinctViews(DecodeRecords(data))
  {
    if ParseInterests(data, map[]).Success? {
      ParsedPayloadIsWholeRecords(data, map[]);
    }
    if |data| % 6 == 0 {
      EncodeDecodedRecords(data);
      EncodedInterestsParseIff(DecodeRecords(data));
    }
  }
}
