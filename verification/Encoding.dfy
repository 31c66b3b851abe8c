/**
The canonical byte encoding of an audit entry. Every variable part carries its length, so
the bytes determine the entry; the decoder here is the proof.
*/
module Encoding {
  import opened Wrappers

  type Byte = b: int | 0 <= b < 256
  type Bytes = seq<Byte>

  const TWO_32: nat := 0x1_0000_0000
  const TWO_64: nat := 0x1_0000_0000_0000_0000

  /** What the hash of one entry commits to. */
  datatype Entry = Entry(
    number: nat,
    prev: Bytes,
    at: Bytes,
    actor: Bytes,
    run: Bytes,
    kind: Bytes,
    fields: seq<(Bytes, Bytes)>)

  // ---- fixed-width little-endian integers ----

  function Pow256(k: nat): nat {
    if k == 0 then 1 else 256 * Pow256(k - 1)
  }

  /** The low `k` bytes of `n`, least significant first; higher bytes are cut off. */
  function LittleEndian(n: nat, k: nat): (bytes: Bytes)
    ensures |bytes| == k
  {
    if k == 0 then [] else [n % 256] + LittleEndian(n / 256, k - 1)
  }

  function FromLittleEndian(bytes: Bytes): nat {
    if bytes == [] then 0 else bytes[0] + 256 * FromLittleEndian(bytes[1..])
  }

  lemma {:induction false} LittleEndianInverts(n: nat, k: nat)
    requires n < Pow256(k)
    ensures FromLittleEndian(LittleEndian(n, k)) == n
  {
    if k > 0 {
      LittleEndianInverts(n / 256, k - 1);
      assert LittleEndian(n, k)[1..] == LittleEndian(n / 256, k - 1);
    }
  }

  lemma Widths()
    ensures Pow256(4) == TWO_32 && Pow256(8) == TWO_64
  {
    assert Pow256(1) == 256 && Pow256(2) == 0x1_0000 && Pow256(3) == 0x100_0000;
    assert Pow256(4) == TWO_32 && Pow256(5) == 0x100_0000_0000 && Pow256(6) == 0x1_0000_0000_0000;
    assert Pow256(7) == 0x100_0000_0000_0000;
  }

  // ---- length-prefixed parts ----

  /** The length as 32 bits, then the bytes. A longer length wraps around. */
  function LengthPrefixed(bytes: Bytes): Bytes {
    LittleEndian(|bytes| % TWO_32, 4) + bytes
  }

  function AllPrefixed(parts: seq<Bytes>): Bytes {
    if parts == [] then [] else LengthPrefixed(parts[0]) + AllPrefixed(parts[1..])
  }

  /** Field names and values, in order. */
  function Flatten(fields: seq<(Bytes, Bytes)>): (parts: seq<Bytes>)
    ensures |parts| == 2 * |fields|
  {
    if fields == [] then [] else [fields[0].0, fields[0].1] + Flatten(fields[1..])
  }

  function Header(e: Entry): seq<Bytes> {
    [e.prev, e.at, e.actor, e.run, e.kind]
  }

  /** The canonical encoding of an entry. */
  function Canonical(e: Entry): Bytes {
    LittleEndian(e.number, 8) + AllPrefixed(Header(e))
    + (LittleEndian(|e.fields| % TWO_32, 4) + AllPrefixed(Flatten(e.fields)))
  }

  lemma Regroup(a: Bytes, b: Bytes, c: Bytes)
    ensures a + b + c == a + (b + c)
  {}

  lemma {:induction false} AllPrefixedSnoc(parts: seq<Bytes>, part: Bytes)
    ensures AllPrefixed(parts + [part]) == AllPrefixed(parts) + LengthPrefixed(part)
  {
    if parts == [] {
      assert parts + [part] == [part] && [part][1..] == [];
    } else {
      var longer := parts + [part];
      assert longer[0] == parts[0] && longer[1..] == parts[1..] + [part];
      AllPrefixedSnoc(parts[1..], part);
      Regroup(LengthPrefixed(parts[0]), AllPrefixed(parts[1..]), LengthPrefixed(part));
    }
  }

  lemma {:induction false} FlattenSnoc(fields: seq<(Bytes, Bytes)>, name: Bytes, value: Bytes)
    ensures Flatten(fields + [(name, value)]) == Flatten(fields) + [name, value]
  {
    if fields == [] {
      assert fields + [(name, value)] == [(name, value)];
    } else {
      FlattenSnoc(fields[1..], name, value);
      assert (fields + [(name, value)])[1..] == fields[1..] + [(name, value)];
    }
  }

  // ---- building the encoding ----

  /** Append one length-prefixed part to a buffer. */
  method PushPart(buffer: Bytes, part: Bytes) returns (out: Bytes)
    ensures out == buffer + LengthPrefixed(part)
  {
    out := buffer + LittleEndian(|part| % TWO_32, 4);
    out := out + part;
  }

  /** One more part after a buffer that already ends in some. */
  lemma PartPushed(base: Bytes, parts: seq<Bytes>, part: Bytes)
    ensures base + AllPrefixed(parts) + LengthPrefixed(part) == base + AllPrefixed(parts + [part])
  {
    AllPrefixedSnoc(parts, part);
    Regroup(base, AllPrefixed(parts), LengthPrefixed(part));
  }

  method PushHeader(e: Entry) returns (out: Bytes)
    ensures out == LittleEndian(e.number, 8) + AllPrefixed(Header(e))
  {
    ghost var base := LittleEndian(e.number, 8);
    out := LittleEndian(e.number, 8);
    assert out == base + AllPrefixed([]);
    out := PushPart(out, e.prev);
    PartPushed(base, [], e.prev);
    assert [] + [e.prev] == [e.prev];
    out := PushPart(out, e.at);
    PartPushed(base, [e.prev], e.at);
    assert [e.prev] + [e.at] == [e.prev, e.at];
    out := PushPart(out, e.actor);
    PartPushed(base, [e.prev, e.at], e.actor);
    assert [e.prev, e.at] + [e.actor] == [e.prev, e.at, e.actor];
    out := PushPart(out, e.run);
    PartPushed(base, [e.prev, e.at, e.actor], e.run);
    assert [e.prev, e.at, e.actor] + [e.run] == [e.prev, e.at, e.actor, e.run];
    out := PushPart(out, e.kind);
    PartPushed(base, [e.prev, e.at, e.actor, e.run], e.kind);
    assert [e.prev, e.at, e.actor, e.run] + [e.kind] == Header(e);
  }

  /** One more field: its name, then its value. */
  method PushField(base: Bytes, ghost fields: seq<(Bytes, Bytes)>, buffer: Bytes, name: Bytes, value: Bytes)
    returns (out: Bytes)
    requires buffer == base + AllPrefixed(Flatten(fields))
    ensures out == base + AllPrefixed(Flatten(fields + [(name, value)]))
  {
    FlattenSnoc(fields, name, value);
    PartPushed(base, Flatten(fields), name);
    PartPushed(base, Flatten(fields) + [name], value);
    assert Flatten(fields) + [name] + [value] == Flatten(fields) + [name, value];
    out := PushPart(buffer, name);
    out := PushPart(out, value);
  }

  method PushFields(buffer: Bytes, fields: seq<(Bytes, Bytes)>) returns (out: Bytes)
    ensures out == buffer + AllPrefixed(Flatten(fields))
  {
    out := buffer;
    for i := 0 to |fields|
      invariant out == buffer + AllPrefixed(Flatten(fields[..i]))
    {
      assert fields[..i + 1] == fields[..i] + [(fields[i].0, fields[i].1)];
      out := PushField(buffer, fields[..i], out, fields[i].0, fields[i].1);
    }
    assert fields[..|fields|] == fields;
  }

  /** Build the canonical encoding by extending one buffer. */
  method CanonicalEntry(e: Entry) returns (out: Bytes)
    ensures out == Canonical(e)
  {
    var header := PushHeader(e);
    out := PushFields(header + LittleEndian(|e.fields| % TWO_32, 4), e.fields);
  }

  lemma NothingPrefixed()
    ensures AllPrefixed([]) == []
  {}

  lemma HeaderPushed(e: Entry)
    ensures AllPrefixed(Header(e)) ==
      LengthPrefixed(e.prev) + LengthPrefixed(e.at) + LengthPrefixed(e.actor)
      + LengthPrefixed(e.run) + LengthPrefixed(e.kind)
  {
    hide AllPrefixed, LengthPrefixed;
    NothingPrefixed();
    AllPrefixedSnoc([], e.prev);
    AllPrefixedSnoc([e.prev], e.at);
    AllPrefixedSnoc([e.prev, e.at], e.actor);
    AllPrefixedSnoc([e.prev, e.at, e.actor], e.run);
    AllPrefixedSnoc([e.prev, e.at, e.actor, e.run], e.kind);
    assert [] + [e.prev] == [e.prev] && [] + LengthPrefixed(e.prev) == LengthPrefixed(e.prev);
    assert [e.prev] + [e.at] == [e.prev, e.at];
    assert [e.prev, e.at] + [e.actor] == [e.prev, e.at, e.actor];
    assert [e.prev, e.at, e.actor] + [e.run] == [e.prev, e.at, e.actor, e.run];
    assert [e.prev, e.at, e.actor, e.run] + [e.kind] == Header(e);
  }

  // ---- decoding ----

  /** Split off one length-prefixed part. */
  function TakePart(bytes: Bytes): Option<(Bytes, Bytes)> {
    if |bytes| < 4 then None else
    var n := FromLittleEndian(bytes[..4]);
    if |bytes| < 4 + n then None else Some((bytes[4..4 + n], bytes[4 + n..]))
  }

  function TakeParts(bytes: Bytes, n: nat): Option<(seq<Bytes>, Bytes)> {
    if n == 0 then Some(([], bytes)) else
    match TakePart(bytes)
    case None => None
    case Some((part, rest)) =>
      match TakeParts(rest, n - 1)
      case None => None
      case Some((parts, left)) => Some(([part] + parts, left))
  }

  function Unflatten(parts: seq<Bytes>): seq<(Bytes, Bytes)> {
    if |parts| < 2 then [] else [(parts[0], parts[1])] + Unflatten(parts[2..])
  }

  /** Read an entry back from exactly its bytes. */
  function Decode(bytes: Bytes): Option<Entry> {
    if |bytes| < 8 then None else
    match TakeParts(bytes[8..], 5)
    case None => None
    case Some((header, rest)) =>
      if |rest| < 4 || |header| != 5 then None else
      match TakeParts(rest[4..], 2 * FromLittleEndian(rest[..4]))
      case None => None
      case Some((parts, left)) =>
        if left != [] then None else
        var number := FromLittleEndian(bytes[..8]);
        Some(Entry(number, header[0], header[1], header[2], header[3], header[4], Unflatten(parts)))
  }

  predicate Short(parts: seq<Bytes>) {
    forall i :: 0 <= i < |parts| ==> |parts[i]| < TWO_32
  }

  /** Every length and count of the entry fits its field. */
  predicate Fits(e: Entry) {
    e.number < TWO_64 && |e.fields| < TWO_32 && Short(Header(e)) && Short(Flatten(e.fields))
  }

  lemma TakePartInverts(part: Bytes, rest: Bytes)
    requires |part| < TWO_32
    ensures TakePart(LengthPrefixed(part) + rest) == Some((part, rest))
  {
    Widths();
    LittleEndianInverts(|part|, 4);
    var bytes := LengthPrefixed(part) + rest;
    assert |part| % TWO_32 == |part|;
    assert bytes[..4] == LittleEndian(|part|, 4);
    assert bytes[4..4 + |part|] == part;
    assert bytes[4 + |part|..] == rest;
  }

  lemma {:induction false} TakePartsInverts(parts: seq<Bytes>, rest: Bytes)
    requires Short(parts)
    ensures TakeParts(AllPrefixed(parts) + rest, |parts|) == Some((parts, rest))
  {
    if parts == [] {
      assert AllPrefixed(parts) + rest == rest;
    } else {
      var tail := AllPrefixed(parts[1..]) + rest;
      assert AllPrefixed(parts) + rest == LengthPrefixed(parts[0]) + tail;
      TakePartInverts(parts[0], tail);
      TakePartsInverts(parts[1..], rest);
      assert [parts[0]] + parts[1..] == parts;
    }
  }

  lemma {:induction false} UnflattenInverts(fields: seq<(Bytes, Bytes)>)
    ensures Unflatten(Flatten(fields)) == fields
  {
    if fields != [] {
      UnflattenInverts(fields[1..]);
      assert Flatten(fields)[2..] == Flatten(fields[1..]);
    }
  }

  /** The bytes after the header. */
  function Payload(fields: seq<(Bytes, Bytes)>): Bytes {
    LittleEndian(|fields| % TWO_32, 4) + AllPrefixed(Flatten(fields))
  }

  lemma HeaderDecodes(number: nat, parts: seq<Bytes>, rest: Bytes)
    requires number < TWO_64 && Short(parts)
    ensures
      var bytes := LittleEndian(number, 8) + AllPrefixed(parts) + rest;
      && FromLittleEndian(bytes[..8]) == number
      && TakeParts(bytes[8..], |parts|) == Some((parts, rest))
  {
    Widths();
    LittleEndianInverts(number, 8);
    TakePartsInverts(parts, rest);
    Regroup(LittleEndian(number, 8), AllPrefixed(parts), rest);
    Splits(LittleEndian(number, 8), AllPrefixed(parts) + rest);
  }

  lemma PayloadDecodes(fields: seq<(Bytes, Bytes)>)
    requires |fields| < TWO_32 && Short(Flatten(fields))
    ensures |Payload(fields)| >= 4 && FromLittleEndian(Payload(fields)[..4]) == |fields|
    ensures TakeParts(Payload(fields)[4..], |Flatten(fields)|) == Some((Flatten(fields), []))
  {
    hide Pow256, AllPrefixed, Flatten, FromLittleEndian, TakeParts;
    Widths();
    var bytes := AllPrefixed(Flatten(fields));
    Splits(LittleEndian(|fields| % TWO_32, 4), bytes);
    LittleEndianInverts(|fields|, 4);
    TakePartsInverts(Flatten(fields), []);
    assert bytes + [] == bytes;
  }

  lemma Splits(a: Bytes, b: Bytes)
    ensures (a + b)[..|a|] == a && (a + b)[|a|..] == b
  {}

  /** Decoding recovers every entry whose lengths fit. */
  lemma DecodeInverts(e: Entry)
    requires Fits(e)
    ensures Decode(Canonical(e)) == Some(e)
  {
    HeaderDecodes(e.number, Header(e), Payload(e.fields));
    PayloadDecodes(e.fields);
    UnflattenInverts(e.fields);
  }

  lemma {:induction false} FromLittleEndianIsBounded(bytes: Bytes)
    ensures FromLittleEndian(bytes) < Pow256(|bytes|)
  {
    if bytes != [] {
      FromLittleEndianIsBounded(bytes[1..]);
    }
  }

  /** Whatever the bytes, no part read from them is longer than its length prefix can say. */
  lemma {:induction false} TakePartsAreShort(bytes: Bytes, n: nat)
    ensures TakeParts(bytes, n).Some? ==> |TakeParts(bytes, n).value.0| == n && Short(TakeParts(bytes, n).value.0)
  {
    hide FromLittleEndian, Pow256;
    if n > 0 && TakePart(bytes).Some? {
      Widths();
      FromLittleEndianIsBounded(bytes[..4]);
      TakePartsAreShort(TakePart(bytes).value.1, n - 1);
    }
  }

  lemma {:induction false} FlattenInverts(parts: seq<Bytes>)
    requires |parts| % 2 == 0
    ensures |Unflatten(parts)| == |parts| / 2 && Flatten(Unflatten(parts)) == parts
  {
    if parts != [] {
      FlattenInverts(parts[2..]);
      assert Unflatten(parts)[1..] == Unflatten(parts[2..]);
      assert [parts[0], parts[1]] + parts[2..] == parts;
    }
  }

  /** Whatever the bytes, an entry read from them has lengths that fit. */
  lemma DecodedEntriesFit(bytes: Bytes)
    ensures Decode(bytes).Some? ==> Fits(Decode(bytes).value)
  {
    hide FromLittleEndian, TakeParts, Pow256, Flatten, Unflatten;
    if Decode(bytes).Some? {
      Widths();
      FromLittleEndianIsBounded(bytes[..8]);
      TakePartsAreShort(bytes[8..], 5);
      var (header, rest) := TakeParts(bytes[8..], 5).value;
      FromLittleEndianIsBounded(rest[..4]);
      var n := FromLittleEndian(rest[..4]);
      TakePartsAreShort(rest[4..], 2 * n);
      var (parts, left) := TakeParts(rest[4..], 2 * n).value;
      FlattenInverts(parts);
      assert [header[0], header[1], header[2], header[3], header[4]] == header;
    }
  }

  /** An entry can be read back from its bytes exactly if all its lengths fit. */
  lemma DecodableIffFits(e: Entry)
    ensures Decode(Canonical(e)) == Some(e) <==> Fits(e)
  {
    hide Decode, Canonical, Fits;
    DecodedEntriesFit(Canonical(e));
    if Fits(e) {
      DecodeInverts(e);
    }
  }

  /** Different entries have different bytes. */
  lemma CanonicalIsInjective(a: Entry, b: Entry)
    requires Fits(a) && Fits(b) && Canonical(a) == Canonical(b)
    ensures a == b
  {
    DecodeInverts(a);
    DecodeInverts(b);
  }

  function Zeros(n: nat): (zeros: Bytes)
    ensures |zeros| == n && forall i :: 0 <= i < n ==> zeros[i] == 0
  {
    seq(n, i => 0)
  }

  /**
  Without the length bound the encoding is ambiguous: a 2^32-byte actor with no run and no
  actor with a 2^32-byte run encode alike, because the length prefix wraps to zero. So for
  every kind and every list of fields there are two entries with one hash, whatever the hash.
  */
  lemma OversizedPartsCollide(number: nat, prev: Bytes, at: Bytes, kind: Bytes, fields: seq<(Bytes, Bytes)>)
    ensures
      var a := Entry(number, prev, at, Zeros(TWO_32), [], kind, fields);
      var b := Entry(number, prev, at, [], Zeros(TWO_32), kind, fields);
      a != b && Canonical(a) == Canonical(b)
  {
    hide Flatten;
    var zeros, none := Zeros(TWO_32), Zeros(4);
    var a := Entry(number, prev, at, zeros, [], kind, fields);
    var b := Entry(number, prev, at, [], zeros, kind, fields);
    ZeroLength();
    assert LengthPrefixed(zeros) == none + zeros && LengthPrefixed([]) == none + [];
    HeaderPushed(a);
    HeaderPushed(b);
    ZerosShift(LengthPrefixed(prev) + LengthPrefixed(at), LengthPrefixed(kind), zeros, none);
    assert a.actor != b.actor;
  }

  lemma ZeroLength()
    ensures LittleEndian(0, 4) == Zeros(4)
  {
    assert LittleEndian(0, 1) == [0] && LittleEndian(0, 2) == [0, 0] && LittleEndian(0, 3) == [0, 0, 0];
  }

  lemma ZerosShift(before: Bytes, after: Bytes, zeros: Bytes, none: Bytes)
    requires zeros == Zeros(TWO_32) && none == Zeros(4)
    ensures before + (none + zeros) + (none + []) + after == before + (none + []) + (none + zeros) + after
  {
    assert (none + zeros) + (none + []) == (none + []) + (none + zeros);
    Regroup(before, none + zeros, none + []);
    Regroup(before, none + [], none + zeros);
  }
}
