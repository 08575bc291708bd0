/** The bytes a holder signs (payload.rs): seven fields, each behind its length. */
module Signing {
  import opened Types
  import opened Buffers

  const TWO32: nat := 0x1_0000_0000

  /** "onym-backup-v1" */
  const CONTEXT: Bytes := [111, 110, 121, 109, 45, 98, 97, 99, 107, 117, 112, 45, 118, 49]

  /** `(len as u32).to_be_bytes()`: the high part of a longer length is lost. */
  function LengthPrefix(length: nat): (b: Bytes)
    ensures |b| == 4
  {
    var n := length % TWO32;
    assert n / 0x100_0000 < 0x100;
    [n / 0x100_0000, n / 0x1_0000 % 0x100, n / 0x100 % 0x100, n % 0x100]
  }

  function PrefixValue(b: Bytes): nat
    requires |b| == 4
  {
    b[0] as int * 0x100_0000 + b[1] as int * 0x1_0000 + b[2] as int * 0x100 + b[3] as int
  }

  function Frame(field: Bytes): Bytes { LengthPrefix(|field|) + field }

  function UpperByte(b: Byte): Byte { if 97 <= b <= 122 then b - 32 else b }

  function Upper(text: Bytes): (r: Bytes)
    ensures |r| == |text|
  {
    seq(|text|, i requires 0 <= i < |text| => UpperByte(text[i]))
  }

  datatype Signed = Signed(verb: Bytes, path: Bytes, holder: Bytes, timestamp: Bytes, nonce: Bytes, body: Bytes)

  /** What is framed, in order; the body goes in as its raw digest. */
  function Fields(sha: Bytes -> Bytes, request: Signed): (fields: seq<Bytes>)
    ensures |fields| == 7
  {
    [CONTEXT, Upper(request.verb), request.path, request.holder, request.timestamp, request.nonce, sha(request.body)]
  }

  ghost function Framed(fields: seq<Bytes>): Bytes {
    if fields == [] then [] else Frame(fields[0]) + Framed(fields[1..])
  }

  ghost function SigningBytes(sha: Bytes -> Bytes, request: Signed): Bytes { Framed(Fields(sha, request)) }

  // ---- The layout, byte by byte ----------------------------------------------------

  /** The version string comes first, then the upper-cased method, the path, the holder, the
      timestamp, the nonce and the digest of the body. */
  lemma FieldsInFull(sha: Bytes -> Bytes, request: Signed)
    ensures SigningBytes(sha, request) ==
            Framed([AsBytes("onym-backup-v1"), Upper(request.verb), request.path, request.holder, request.timestamp,
                    request.nonce, sha(request.body)])
  {
    assert AsBytes("onym-backup-v1") == CONTEXT;
  }

  /** Each field stands behind its length: four bytes, the most significant first. */
  lemma LengthComesFirst(field: Bytes, others: seq<Bytes>)
    ensures Framed([field]) == Frame(field) && Framed([field] + others) == Frame(field) + Framed(others)
    ensures var b := Frame(field);
            && |b| == 4 + |field| && b[4..] == field
            && b[0] as int * 16_777_216 + b[1] as int * 65_536 + b[2] as int * 256 + b[3] as int
               == |field| % 4_294_967_296
  {
    PrefixWraps(|field|);
    assert [field][1..] == [] && ([field] + others)[1..] == others;
    assert Frame(field)[..4] == LengthPrefix(|field|);
  }

  /** Upper-casing takes the 26 letters to theirs. */
  lemma UpperOfTheAlphabet()
    ensures Upper(AsBytes("abcdefghijklmnopqrstuvwxyz")) == AsBytes("ABCDEFGHIJKLMNOPQRSTUVWXYZ")
  {
  }

  /** And leaves every other byte alone. */
  lemma OthersStay(b: Byte)
    ensures b in AsBytes("abcdefghijklmnopqrstuvwxyz") || Upper([b]) == [b]
  {
    var lower := AsBytes("abcdefghijklmnopqrstuvwxyz");
    if 97 <= b <= 122 {
      assert lower[b - 97] == b;
    }
  }

  method Append(out: Buffer, field: Bytes)
    modifies out
    ensures out.bytes == old(out.bytes) + Frame(field)
  {
    out.Extend(LengthPrefix(|field|));
    out.Extend(field);
  }

  method BuildSigningBytes(sha: Bytes -> Bytes, request: Signed) returns (bytes: Bytes)
    ensures bytes == SigningBytes(sha, request)
  {
    var out := new Buffer();
    ghost var done := AppendNext(out, [], CONTEXT);
    done := AppendNext(out, done, Upper(request.verb));
    done := AppendNext(out, done, request.path);
    done := AppendNext(out, done, request.holder);
    done := AppendNext(out, done, request.timestamp);
    done := AppendNext(out, done, request.nonce);
    done := AppendNext(out, done, sha(request.body));
    assert done == Fields(sha, request);
    bytes := out.bytes;
  }

  /** `Append` on a buffer that holds the fields written so far. */
  method AppendNext(out: Buffer, ghost before: seq<Bytes>, field: Bytes) returns (ghost written: seq<Bytes>)
    requires out.bytes == Framed(before)
    modifies out
    ensures written == before + [field] && out.bytes == Framed(written)
  {
    Append(out, field);
    written := before + [field];
    FramedAppend(before, field);
  }

  lemma {:induction false} FramedAppend(fields: seq<Bytes>, last: Bytes)
    ensures Framed(fields + [last]) == Framed(fields) + Frame(last)
  {
    if fields == [] {
      assert ([] + [last])[1..] == [];
    } else {
      FramedAppend(fields[1..], last);
      assert (fields + [last])[1..] == fields[1..] + [last];
    }
  }

  // ---- Reading the fields back -----------------------------------------------------

  /** The first field of a framed string and what follows it. */
  function TakeField(bytes: Bytes): (r: Option<(Bytes, Bytes)>)
    ensures r.Some? ==> |r.value.1| < |bytes|
  {
    if |bytes| < 4 then None
    else
      var end := 4 + PrefixValue(bytes[..4]);
      if |bytes| < end then None else Some((bytes[4..end], bytes[end..]))
  }

  function Unframe(bytes: Bytes): Option<seq<Bytes>>
    decreases |bytes|
  {
    if bytes == [] then Some([])
    else
      match TakeField(bytes)
      case None => None
      case Some((field, rest)) =>
        match Unframe(rest)
        case None => None
        case Some(fields) => Some([field] + fields)
  }

  lemma PrefixIsExact(n: nat)
    requires n < TWO32
    ensures PrefixValue(LengthPrefix(n)) == n
  {
    assert n % TWO32 == n;
    assert n == n / 0x100 * 0x100 + n % 0x100;
    assert n / 0x100 / 0x100 == n / 0x1_0000;
    assert n / 0x1_0000 / 0x100 == n / 0x100_0000;
  }

  lemma PrefixWraps(n: nat)
    ensures LengthPrefix(n) == LengthPrefix(n % TWO32) && PrefixValue(LengthPrefix(n)) == n % TWO32
  {
    PrefixIsExact(n % TWO32);
  }

  /** A framed field reads back exactly when its length fits the four-byte prefix. */
  lemma FieldReadsBack(field: Bytes, rest: Bytes)
    ensures TakeField(Frame(field) + rest) == Some((field, rest)) <==> |field| < TWO32
  {
    var bytes := Frame(field) + rest;
    PrefixWraps(|field|);
    assert bytes[..4] == LengthPrefix(|field|);
    if |field| < TWO32 {
      assert bytes[4..4 + |field|] == field && bytes[4 + |field|..] == rest;
    } else {
      var taken := |field| % TWO32;
      assert bytes[4..4 + taken] != field;
    }
  }

  ghost predicate Framable(fields: seq<Bytes>) { forall i :: 0 <= i < |fields| ==> |fields[i]| < TWO32 }

  lemma {:induction false} FieldsReadBack(fields: seq<Bytes>)
    requires Framable(fields)
    ensures Unframe(Framed(fields)) == Some(fields)
  {
    if fields != [] {
      FieldReadsBack(fields[0], Framed(fields[1..]));
      FieldsReadBack(fields[1..]);
      assert [fields[0]] + fields[1..] == fields;
    }
  }

  /** A decoder recovers all seven fields of the signed payload. */
  lemma PayloadReadsBack(sha: Bytes -> Bytes, request: Signed)
    requires Framable(Fields(sha, request))
    ensures Unframe(SigningBytes(sha, request)) == Some(Fields(sha, request))
  {
    FieldsReadBack(Fields(sha, request));
  }

  /** Two requests sign the same bytes exactly when they agree on the upper-cased method,
      path, holder, timestamp, nonce and body digest. */
  lemma PayloadIsInjective(sha: Bytes -> Bytes, a: Signed, b: Signed)
    requires Framable(Fields(sha, a)) && Framable(Fields(sha, b))
    ensures SigningBytes(sha, a) == SigningBytes(sha, b) <==>
            && Upper(a.verb) == Upper(b.verb) && a.path == b.path && a.holder == b.holder
            && a.timestamp == b.timestamp && a.nonce == b.nonce && sha(a.body) == sha(b.body)
  {
    PayloadReadsBack(sha, a);
    PayloadReadsBack(sha, b);
    var f, g := Fields(sha, a), Fields(sha, b);
    if f == g {
      assert f[1] == g[1] && f[2] == g[2] && f[3] == g[3] && f[4] == g[4] && f[5] == g[5] && f[6] == g[6];
    }
  }

  /** Past four gigabytes the prefix wraps and the boundary between two neighbouring
      fields can be moved: a long first field and an empty one frame to the same bytes. */
  lemma LongFieldsCollide(pad: Bytes, nonce: Bytes)
    requires |pad| == TWO32 - 4
    ensures var long := LengthPrefix(|nonce|) + pad;
            Frame(long) + Frame(nonce) == Frame([]) + Frame(pad + Frame(nonce)) && |long| == TWO32
  {
    var prefix, rest := LengthPrefix(|nonce|), Frame(nonce);
    FrameWraps(prefix + pad, 0);
    FrameWraps(pad + rest, |nonce|);
    Regroup(LengthPrefix(0), prefix, pad, rest);
  }

  lemma FrameWraps(field: Bytes, over: nat)
    requires |field| == TWO32 + over
    ensures Frame(field) == LengthPrefix(over) + field
  {
    assert (TWO32 + over) % TWO32 == over % TWO32;
  }

  lemma Regroup(a: Bytes, b: Bytes, c: Bytes, d: Bytes)
    ensures (a + (b + c)) + d == (a + []) + (b + (c + d))
  {
  }
}
