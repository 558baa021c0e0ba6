/** The frozen business content of one attempt and its canonical fingerprint
    (src/keyprov_attempt.cpp). */
module KeyprovAttempt {
  import opened KeyprovBytes

  const BUSINESS_DOMAIN_V2C := "V2C_COMM"
  const MAX_ITEMS := 8

  datatype Version = Version(purpose: i32, version: u64)

  datatype Snapshot = Snapshot(
    businessDomain: string,
    purposes: seq<i32>,
    currentVersions: seq<Version>,
    deviceIdentityDigest: Bytes,
    recipientCertificateDigest: Bytes,
    certificateRefDigest: Bytes,
    wrappingSuites: seq<i32>,
    envelopeFormats: seq<i32>,
    protocolLockDigest: Bytes)

  // ---- What the unordered fields mean: the set of a list, the greatest version of each purpose ----

  function Elements(v: seq<i32>): set<i32>
  {
    set x | x in v
  }

  function PurposesOf(v: seq<Version>): set<i32>
  {
    set x | x in v :: x.purpose
  }

  ghost predicate IsGreatestVersion(v: seq<Version>, p: i32, n: u64)
  {
    && Version(p, n) in v
    && forall x :: x in v && x.purpose == p ==> x.version <= n
  }

  /** The greatest version v records for purpose p. */
  function GreatestVersion(v: seq<Version>, p: i32): (n: u64)
    requires p in PurposesOf(v)
    ensures IsGreatestVersion(v, p, n)
  {
    assert v == [v[0]] + v[1..];
    if p !in PurposesOf(v[1..]) then
      assert forall x :: x in v[1..] ==> x.purpose in PurposesOf(v[1..]);
      v[0].version
    else
      var n := GreatestVersion(v[1..], p);
      if v[0].purpose == p && v[0].version > n then v[0].version else n
  }

  function VersionMap(v: seq<Version>): map<i32, u64>
  {
    map p | p in PurposesOf(v) :: GreatestVersion(v, p)
  }

  // ---- Normal forms: what the encoder writes ----

  ghost predicate StrictlyIncreasing(v: seq<i32>)
  {
    forall i, j :: 0 <= i < j < |v| ==> v[i] < v[j]
  }

  function InsertInt(x: i32, v: seq<i32>): (r: seq<i32>)
    ensures forall y :: y in r <==> y == x || y in v
  {
    if v == [] then [x]
    else
      assert v == [v[0]] + v[1..];
      if x < v[0] then [x] + v
      else if x == v[0] then v
      else [v[0]] + InsertInt(x, v[1..])
  }

  lemma {:induction false} InsertIntKeepsOrder(x: i32, v: seq<i32>)
    requires StrictlyIncreasing(v)
    ensures StrictlyIncreasing(InsertInt(x, v))
  {
    if v != [] && x > v[0] {
      InsertIntKeepsOrder(x, v[1..]);
      var t := InsertInt(x, v[1..]);
      assert forall j :: 0 <= j < |t| ==> t[j] in t;
      assert forall y :: y in v[1..] ==> v[0] < y;
    }
  }

  /** The sorted list of the distinct elements of v. */
  function NormalInts(v: seq<i32>): (r: seq<i32>)
    ensures StrictlyIncreasing(r)
    ensures forall y :: y in r <==> y in v
    ensures Elements(r) == Elements(v)
  {
    if v == [] then []
    else
      assert v == [v[0]] + v[1..];
      InsertIntKeepsOrder(v[0], NormalInts(v[1..]));
      InsertInt(v[0], NormalInts(v[1..]))
  }

  /** A strictly increasing list is determined by its set of elements. */
  lemma {:induction false} StrictlyIncreasingUnique(a: seq<i32>, b: seq<i32>)
    requires StrictlyIncreasing(a) && StrictlyIncreasing(b)
    requires Elements(a) == Elements(b)
    ensures a == b
  {
    assert forall y :: y in a <==> y in Elements(a);
    assert forall y :: y in b <==> y in Elements(b);
    assert a == [] || a[0] in Elements(b);
    assert b == [] || b[0] in Elements(a);
    if a != [] {
      assert a[0] in b && b[0] in a;
      assert a == [a[0]] + a[1..] && b == [b[0]] + b[1..];
      assert a[0] == b[0];
      assert Elements(a[1..]) == Elements(a) - {a[0]};
      assert Elements(b[1..]) == Elements(b) - {b[0]};
      StrictlyIncreasingUnique(a[1..], b[1..]);
    }
  }

  function Purposes(v: seq<Version>): (r: seq<i32>)
    ensures |r| == |v| && forall i :: 0 <= i < |v| ==> r[i] == v[i].purpose
    ensures Elements(r) == PurposesOf(v)
  {
    var r := seq(|v|, i requires 0 <= i < |v| => v[i].purpose);
    assert forall x :: x in v ==> exists i :: 0 <= i < |v| && v[i] == x && r[i] == x.purpose;
    r
  }

  /** One entry per purpose, in increasing order, each with its greatest version. */
  function NormalVersions(v: seq<Version>): (r: seq<Version>)
    ensures |r| == |NormalInts(Purposes(v))|
  {
    var keys := NormalInts(Purposes(v));
    seq(|keys|, i requires 0 <= i < |keys| =>
      assert keys[i] in Elements(keys);
      Version(keys[i], GreatestVersion(v, keys[i])))
  }

  /** The normal forms of two version lists agree exactly when their purpose-to-greatest-version maps do. */
  lemma NormalVersionsMeaning(a: seq<Version>, b: seq<Version>)
    ensures NormalVersions(a) == NormalVersions(b) <==> VersionMap(a) == VersionMap(b)
  {
    var ka, kb := NormalInts(Purposes(a)), NormalInts(Purposes(b));
    if VersionMap(a) == VersionMap(b) {
      assert VersionMap(a).Keys == PurposesOf(a) && VersionMap(b).Keys == PurposesOf(b);
      StrictlyIncreasingUnique(ka, kb);
      forall i | 0 <= i < |ka| ensures NormalVersions(a)[i] == NormalVersions(b)[i] {
        assert ka[i] in Elements(ka);
        assert VersionMap(a)[ka[i]] == VersionMap(b)[ka[i]];
      }
    }
    if NormalVersions(a) == NormalVersions(b) {
      forall i | 0 <= i < |ka| ensures ka[i] == kb[i] {
        assert NormalVersions(a)[i] == NormalVersions(b)[i];
      }
      assert ka == kb;
      assert VersionMap(a).Keys == Elements(ka) == VersionMap(b).Keys;
      forall p | p in VersionMap(a).Keys ensures VersionMap(a)[p] == VersionMap(b)[p] {
        assert p in ka;
        var i :| 0 <= i < |ka| && ka[i] == p;
        assert NormalVersions(a)[i] == NormalVersions(b)[i];
      }
    }
  }

  // ---- Sorting and removing duplicates, as the source does it ----

  ghost predicate Sorted(v: seq<i32>)
  {
    forall i, j :: 0 <= i < j < |v| ==> v[i] <= v[j]
  }

  ghost predicate SortedVersions(v: seq<Version>)
  {
    forall i, j :: 0 <= i < j < |v| ==>
      v[i].purpose < v[j].purpose || (v[i].purpose == v[j].purpose && v[i].version <= v[j].version)
  }

  /** `sorted` is what std::sort leaves of v; keeping the first of each run of equal elements gives the normal form. */
  method SortDedupInt(v: seq<i32>, sorted: seq<i32>) returns (out: seq<i32>)
    requires Sorted(sorted) && Elements(sorted) == Elements(v)
    ensures out == NormalInts(v)
  {
    out := [];
    for i := 0 to |sorted|
      invariant StrictlyIncreasing(out)
      invariant forall y :: y in out <==> y in sorted[..i]
      invariant out == [] <==> i == 0
      invariant out != [] ==> out[|out| - 1] == sorted[i - 1]
    {
      assert sorted[..i + 1] == sorted[..i] + [sorted[i]];
      if out == [] || out[|out| - 1] != sorted[i] {
        assert forall k :: 0 <= k < |out| ==> out[k] in out;
        assert forall y :: y in sorted[..i] ==> y <= sorted[i];
        out := out + [sorted[i]];
      }
    }
    assert sorted[..|sorted|] == sorted;
    StrictlyIncreasingUnique(out, NormalInts(v));
  }

  /** The merge loop over the sorted (purpose, version) list: a later entry of the same purpose overwrites. */
  method SortDedupVersions(v: seq<Version>, sorted: seq<Version>) returns (out: seq<Version>)
    requires SortedVersions(sorted) && forall x :: x in sorted <==> x in v
    ensures out == NormalVersions(v)
  {
    hide MergesPrefix, SortedVersions, NormalVersions;
    out := [];
    MergesNothing();
    for i := 0 to |sorted|
      invariant MergesPrefix(out, sorted[..i])
      invariant out == [] <==> i == 0
      invariant out != [] ==> out[|out| - 1] == sorted[i - 1]
    {
      MergeStep(out, sorted, i);
      if out != [] && out[|out| - 1].purpose == sorted[i].purpose {
        out := out[|out| - 1 := sorted[i]];
      } else {
        out := out + [sorted[i]];
      }
    }
    assert sorted[..|sorted|] == sorted;
    MergedIsNormal(out, v, sorted);
  }

  /** The list built so far holds each purpose of a prefix once, in order, with its greatest version. */
  ghost predicate MergesPrefix(out: seq<Version>, prefix: seq<Version>)
  {
    && StrictlyIncreasing(Purposes(out))
    && PurposesOf(out) == PurposesOf(prefix)
    && forall x :: x in out ==> IsGreatestVersion(prefix, x.purpose, x.version)
  }

  lemma MergesNothing()
    ensures MergesPrefix([], [])
  {
  }

  lemma MergeOverwrites(out: seq<Version>, prefix: seq<Version>, x: Version)
    requires MergesPrefix(out, prefix) && SortedVersions(prefix + [x])
    requires out != [] && prefix != [] && out[|out| - 1] == prefix[|prefix| - 1] && out[|out| - 1].purpose == x.purpose
    ensures MergesPrefix(out[|out| - 1 := x], prefix + [x])
  {
    var n, longer := out[|out| - 1 := x], prefix + [x];
    assert Purposes(n) == Purposes(out);
    assert PurposesOf(n) == Elements(Purposes(n)) == PurposesOf(out);
    assert x.purpose in PurposesOf(prefix) by { assert prefix[|prefix| - 1] in prefix; }
    assert PurposesOf(longer) == PurposesOf(prefix);
    forall y | y in n ensures IsGreatestVersion(longer, y.purpose, y.version) {
      var k :| 0 <= k < |n| && n[k] == y;
      if k < |n| - 1 {
        assert out[k] in out;
        assert Purposes(out)[k] < Purposes(out)[|out| - 1];
      } else {
        assert longer[|prefix|] == x;
      }
    }
  }

  /** A later purpose is greater than every purpose so far. */
  lemma MergeIsAhead(out: seq<Version>, prefix: seq<Version>, x: Version)
    requires MergesPrefix(out, prefix) && SortedVersions(prefix + [x])
    requires out == [] <==> prefix == []
    requires out != [] ==> out[|out| - 1] == prefix[|prefix| - 1] && out[|out| - 1].purpose != x.purpose
    ensures forall k :: 0 <= k < |out| ==> out[k].purpose < x.purpose
    ensures forall z :: z in prefix ==> z.purpose != x.purpose
  {
    var longer := prefix + [x];
    assert longer[|prefix|] == x;
    forall k | 0 <= k < |out| ensures out[k].purpose < x.purpose {
      assert Purposes(out)[k] <= Purposes(out)[|out| - 1];
      assert longer[|prefix| - 1].purpose <= x.purpose;
    }
    forall z | z in prefix ensures z.purpose != x.purpose {
      assert z.purpose in PurposesOf(out);
    }
  }

  lemma MergeAppends(out: seq<Version>, prefix: seq<Version>, x: Version)
    requires MergesPrefix(out, prefix) && SortedVersions(prefix + [x])
    requires out == [] <==> prefix == []
    requires out != [] ==> out[|out| - 1] == prefix[|prefix| - 1] && out[|out| - 1].purpose != x.purpose
    ensures MergesPrefix(out + [x], prefix + [x])
  {
    MergeIsAhead(out, prefix, x);
    hide SortedVersions;
    var n, longer := out + [x], prefix + [x];
    assert longer[|prefix|] == x;
    assert Purposes(n) == Purposes(out) + [x.purpose];
    PurposesAppend(out, x);
    PurposesAppend(prefix, x);
  }

  lemma PurposesAppend(v: seq<Version>, x: Version)
    ensures PurposesOf(v + [x]) == PurposesOf(v) + {x.purpose}
  {
    assert (v + [x])[|v|] == x;
  }

  lemma MergeStep(out: seq<Version>, sorted: seq<Version>, i: nat)
    requires i < |sorted| && SortedVersions(sorted) && MergesPrefix(out, sorted[..i])
    requires out == [] <==> i == 0
    requires out != [] ==> out[|out| - 1] == sorted[i - 1]
    ensures MergesPrefix(
              if out != [] && out[|out| - 1].purpose == sorted[i].purpose
              then out[|out| - 1 := sorted[i]] else out + [sorted[i]],
              sorted[..i + 1])
  {
    var prefix, x := sorted[..i], sorted[i];
    var longer := prefix + [x];
    assert sorted[..i + 1] == longer;
    assert SortedVersions(longer) by {
      forall j, k | 0 <= j < k < |longer| ensures longer[j] == sorted[j] && longer[k] == sorted[k] {
      }
    }
    if out != [] && out[|out| - 1].purpose == x.purpose {
      MergeOverwrites(out, prefix, x);
    } else {
      MergeAppends(out, prefix, x);
    }
  }

  lemma MergedIsNormal(out: seq<Version>, v: seq<Version>, sorted: seq<Version>)
    requires MergesPrefix(out, sorted)
    requires forall x :: x in sorted <==> x in v
    ensures out == NormalVersions(v)
  {
    var keys := NormalInts(Purposes(v));
    assert PurposesOf(sorted) == PurposesOf(v);
    StrictlyIncreasingUnique(Purposes(out), keys);
    forall k | 0 <= k < |out| ensures out[k] == NormalVersions(v)[k] {
      assert out[k] in out;
      assert IsGreatestVersion(v, out[k].purpose, out[k].version);
      assert keys[k] in Elements(keys);
    }
  }

  // ---- The canonical encoding ----

  function Ascii(s: string): Bytes
  {
    seq(|s|, i requires 0 <= i < |s| => (s[i] as int) % 256)
  }

  function FingerprintTag(): Bytes
  {
    Ascii("TSP-KEYPROV-ATTEMPT-V1")
  }

  function EncodeInts(v: seq<i32>): Bytes
  {
    if v == [] then [] else BigEndian(AsU32(v[0]), 4) + EncodeInts(v[1..])
  }

  function EncodeVersions(v: seq<Version>): Bytes
  {
    if v == [] then []
    else BigEndian(AsU32(v[0].purpose), 4) + BigEndian(v[0].version, 8) + EncodeVersions(v[1..])
  }

  function CountedInts(v: seq<i32>): Bytes
  {
    BigEndian(|v| % 0x1_0000_0000, 4) + EncodeInts(v)
  }

  function CountedVersions(v: seq<Version>): Bytes
  {
    BigEndian(|v| % 0x1_0000_0000, 4) + EncodeVersions(v)
  }

  /** The bytes that are hashed, for the snapshots the source accepts. */
  function Encode(s: Snapshot): Bytes
  {
    FingerprintTag()
    + (BigEndian(|s.businessDomain|, 8) + Ascii(s.businessDomain))
    + CountedInts(NormalInts(s.purposes))
    + CountedVersions(NormalVersions(s.currentVersions))
    + s.deviceIdentityDigest
    + s.recipientCertificateDigest
    + CountedInts(NormalInts(s.wrappingSuites))
    + CountedInts(NormalInts(s.envelopeFormats))
    + s.protocolLockDigest
  }

  /** What the fingerprint function accepts. */
  predicate Acceptable(s: Snapshot)
  {
    && s.businessDomain == BUSINESS_DOMAIN_V2C
    && 0 < |s.purposes| <= MAX_ITEMS
    && |s.deviceIdentityDigest| == 32
    && |s.recipientCertificateDigest| == 32
    && |s.protocolLockDigest| == 32
  }

  /** The lists fit the 32-bit counts of the encoding, as every list in memory does. */
  predicate CountsFit(s: Snapshot)
  {
    && |s.currentVersions| < 0x1_0000_0000
    && |s.wrappingSuites| < 0x1_0000_0000
    && |s.envelopeFormats| < 0x1_0000_0000
  }

  function ComputeFingerprint(s: Snapshot): Result<Digest>
  {
    if s.businessDomain != BUSINESS_DOMAIN_V2C then Err("snapshot_domain_invalid")
    else if !(0 < |s.purposes| <= MAX_ITEMS) then Err("snapshot_purposes_invalid")
    else if !Acceptable(s) then Err("snapshot_digest_invalid")
    else Ok(Sha256(Encode(s)))
  }

  /** push_back of the count and of each element, most significant byte first. */
  method AppendCountedInts(b: Bytes, v: seq<i32>) returns (r: Bytes)
    ensures r == b + CountedInts(v)
  {
    r := b + BigEndian(|v| % 0x1_0000_0000, 4);
    for i := 0 to |v|
      invariant r + EncodeInts(v[i..]) == b + CountedInts(v)
    {
      assert v[i..][1..] == v[i + 1..];
      ghost var before := r;
      r := r + BigEndian(AsU32(v[i]), 4);
      assert r + EncodeInts(v[i + 1..]) == before + EncodeInts(v[i..]);
    }
  }

  method AppendCountedVersions(b: Bytes, v: seq<Version>) returns (r: Bytes)
    ensures r == b + CountedVersions(v)
  {
    r := b + BigEndian(|v| % 0x1_0000_0000, 4);
    for i := 0 to |v|
      invariant r + EncodeVersions(v[i..]) == b + CountedVersions(v)
    {
      assert v[i..][1..] == v[i + 1..];
      ghost var before := r;
      r := r + BigEndian(AsU32(v[i].purpose), 4) + BigEndian(v[i].version, 8);
      assert r + EncodeVersions(v[i + 1..]) == before + EncodeVersions(v[i..]);
    }
  }

  /** attemptFingerprintV1, buffer append by buffer append. */
  method ComputeAttemptFingerprintV1(s: Snapshot) returns (r: Result<Digest>)
    ensures r == ComputeFingerprint(s)
  {
    if s.businessDomain != BUSINESS_DOMAIN_V2C {
      return Err("snapshot_domain_invalid");
    }
    if |s.purposes| == 0 || |s.purposes| > MAX_ITEMS {
      return Err("snapshot_purposes_invalid");
    }
    if |s.deviceIdentityDigest| != 32 || |s.recipientCertificateDigest| != 32 || |s.protocolLockDigest| != 32 {
      return Err("snapshot_digest_invalid");
    }
    var b := FingerprintTag();
    b := b + (BigEndian(|s.businessDomain|, 8) + Ascii(s.businessDomain));
    b := AppendCountedInts(b, NormalInts(s.purposes));
    b := AppendCountedVersions(b, NormalVersions(s.currentVersions));
    b := b + s.deviceIdentityDigest;
    b := b + s.recipientCertificateDigest;
    b := AppendCountedInts(b, NormalInts(s.wrappingSuites));
    b := AppendCountedInts(b, NormalInts(s.envelopeFormats));
    b := b + s.protocolLockDigest;
    r := Ok(Sha256(b));
  }

  // ---- An independent reader of the encoding ----

  datatype Parsed<T> = Parsed(value: T, rest: Bytes) | Malformed

  function TakeBytes(b: Bytes, n: nat): Parsed<Bytes>
  {
    if |b| < n then Malformed else Parsed(b[..n], b[n..])
  }

  function DecodeInts(b: Bytes, n: nat): Parsed<seq<i32>>
  {
    if n == 0 then Parsed([], b)
    else if |b| < 4 then Malformed
    else
      var w := FromBigEndian(b[..4]);
      if w >= 0x1_0000_0000 then Malformed
      else
        match DecodeInts(b[4..], n - 1)
        case Malformed => Malformed
        case Parsed(t, rest) => Parsed([AsI32(w)] + t, rest)
  }

  function DecodeVersions(b: Bytes, n: nat): Parsed<seq<Version>>
  {
    if n == 0 then Parsed([], b)
    else if |b| < 12 then Malformed
    else
      var w, x := FromBigEndian(b[..4]), FromBigEndian(b[4..12]);
      if w >= 0x1_0000_0000 || x >= 0x1_0000_0000_0000_0000 then Malformed
      else
        match DecodeVersions(b[12..], n - 1)
        case Malformed => Malformed
        case Parsed(t, rest) => Parsed([Version(AsI32(w), x)] + t, rest)
  }

  function DecodeCountedInts(b: Bytes): Parsed<seq<i32>>
  {
    if |b| < 4 then Malformed else DecodeInts(b[4..], FromBigEndian(b[..4]))
  }

  function DecodeCountedVersions(b: Bytes): Parsed<seq<Version>>
  {
    if |b| < 4 then Malformed else DecodeVersions(b[4..], FromBigEndian(b[..4]))
  }

  /** What the fingerprint keeps of a snapshot: everything but the certificate reference digest, normalised. */
  datatype NormalForm = NormalForm(
    domain: Bytes,
    purposes: seq<i32>,
    versions: seq<Version>,
    deviceIdentity: Bytes,
    recipientCertificate: Bytes,
    suites: seq<i32>,
    formats: seq<i32>,
    protocolLock: Bytes)

  function Normalise(s: Snapshot): NormalForm
  {
    NormalForm(Ascii(s.businessDomain), NormalInts(s.purposes), NormalVersions(s.currentVersions),
               s.deviceIdentityDigest, s.recipientCertificateDigest,
               NormalInts(s.wrappingSuites), NormalInts(s.envelopeFormats), s.protocolLockDigest)
  }

  function Decode(b: Bytes): Option<NormalForm>
  {
    DecodeAfterTag(b, FingerprintTag())
  }

  function DecodeAfterTag(b: Bytes, tag: Bytes): Option<NormalForm>
  {
    match TakeBytes(b, |tag|)
    case Malformed => None
    case Parsed(t, rest) => if t != tag then None else DecodeDomain(rest)
  }

  function DecodeDomain(b: Bytes): Option<NormalForm>
  {
    if |b| < 8 then None
    else
      match TakeBytes(b[8..], FromBigEndian(b[..8]))
      case Malformed => None
      case Parsed(domain, rest) => DecodeBody(domain, rest)
  }

  function DecodeBody(domain: Bytes, b: Bytes): Option<NormalForm>
  {
    match DecodeCountedInts(b)
    case Malformed => None
    case Parsed(purposes, b3) =>
      match DecodeCountedVersions(b3)
      case Malformed => None
      case Parsed(versions, b4) => DecodeTail(domain, purposes, versions, b4)
  }

  function DecodeTail(domain: Bytes, purposes: seq<i32>, versions: seq<Version>, b: Bytes): Option<NormalForm>
  {
    if |b| < 64 then None
    else
      match DecodeCountedInts(b[64..])
      case Malformed => None
      case Parsed(suites, b5) =>
        match DecodeCountedInts(b5)
        case Malformed => None
        case Parsed(formats, b6) =>
          if |b6| != 32 then None
          else Some(NormalForm(domain, purposes, versions, b[..32], b[32..64], suites, formats, b6))
  }

  lemma {:induction false} DecodeIntsInverts(v: seq<i32>, rest: Bytes)
    ensures DecodeInts(EncodeInts(v) + rest, |v|) == Parsed(v, rest)
  {
    if v == [] {
      assert EncodeInts(v) + rest == rest;
    } else {
      var head, b := BigEndian(AsU32(v[0]), 4), EncodeInts(v) + rest;
      assert b[..4] == head;
      assert b[4..] == EncodeInts(v[1..]) + rest;
      Pow256Widths();
      BigEndianRoundTrip(AsU32(v[0]), 4);
      DecodeIntsInverts(v[1..], rest);
      assert [v[0]] + v[1..] == v;
    }
  }

  lemma {:induction false} DecodeVersionsInverts(v: seq<Version>, rest: Bytes)
    ensures DecodeVersions(EncodeVersions(v) + rest, |v|) == Parsed(v, rest)
  {
    if v == [] {
      assert EncodeVersions(v) + rest == rest;
    } else {
      var b := EncodeVersions(v) + rest;
      assert b[..4] == BigEndian(AsU32(v[0].purpose), 4);
      assert b[4..12] == BigEndian(v[0].version, 8);
      assert b[12..] == EncodeVersions(v[1..]) + rest;
      Pow256Widths();
      BigEndianRoundTrip(AsU32(v[0].purpose), 4);
      BigEndianRoundTrip(v[0].version, 8);
      DecodeVersionsInverts(v[1..], rest);
      assert [v[0]] + v[1..] == v;
    }
  }

  lemma DecodeCountedIntsInverts(v: seq<i32>, rest: Bytes)
    requires |v| < 0x1_0000_0000
    ensures DecodeCountedInts(CountedInts(v) + rest) == Parsed(v, rest)
  {
    var b := CountedInts(v) + rest;
    assert b[..4] == BigEndian(|v|, 4);
    assert b[4..] == EncodeInts(v) + rest;
    Pow256Widths();
    BigEndianRoundTrip(|v|, 4);
    DecodeIntsInverts(v, rest);
  }

  lemma DecodeCountedVersionsInverts(v: seq<Version>, rest: Bytes)
    requires |v| < 0x1_0000_0000
    ensures DecodeCountedVersions(CountedVersions(v) + rest) == Parsed(v, rest)
  {
    var b := CountedVersions(v) + rest;
    assert b[..4] == BigEndian(|v|, 4);
    assert b[4..] == EncodeVersions(v) + rest;
    Pow256Widths();
    BigEndianRoundTrip(|v|, 4);
    DecodeVersionsInverts(v, rest);
  }

  lemma {:induction false} InsertIntLength(x: i32, v: seq<i32>)
    ensures |InsertInt(x, v)| <= |v| + 1
  {
    if v != [] && x > v[0] { InsertIntLength(x, v[1..]); }
  }

  lemma {:induction false} NormalIntsLength(v: seq<i32>)
    ensures |NormalInts(v)| <= |v|
  {
    if v != [] {
      NormalIntsLength(v[1..]);
      InsertIntLength(v[0], NormalInts(v[1..]));
    }
  }

  lemma TakeInverts(x: Bytes, rest: Bytes)
    ensures TakeBytes(x + rest, |x|) == Parsed(x, rest)
  {
    assert (x + rest)[..|x|] == x && (x + rest)[|x|..] == rest;
  }

  lemma DomainInverts(domain: Bytes, rest: Bytes)
    requires |domain| < 0x1_0000_0000
    ensures var b := BigEndian(|domain|, 8) + domain + rest;
      |b| >= 8 && TakeBytes(b[8..], FromBigEndian(b[..8])) == Parsed(domain, rest)
  {
    var size := BigEndian(|domain|, 8);
    var b := size + domain + rest;
    assert b[..8] == size && b[8..] == domain + rest;
    Pow256Widths();
    BigEndianRoundTrip(|domain|, 8);
    TakeInverts(domain, rest);
  }

  lemma DecodeHeadInverts(tag: Bytes, domain: Bytes, rest: Bytes)
    requires |domain| < 0x1_0000_0000
    ensures DecodeAfterTag(tag + (BigEndian(|domain|, 8) + domain + rest), tag) == DecodeBody(domain, rest)
  {
    TakeInverts(tag, BigEndian(|domain|, 8) + domain + rest);
    DomainInverts(domain, rest);
  }

  /** Reading back what was encoded gives the normal form. */
  lemma DecodeInvertsEncode(s: Snapshot)
    requires Acceptable(s) && CountsFit(s)
    ensures Decode(Encode(s)) == Some(Normalise(s))
  {
    var n := Normalise(s);
    NormalIntsLength(s.purposes);
    NormalIntsLength(Purposes(s.currentVersions));
    NormalIntsLength(s.wrappingSuites);
    NormalIntsLength(s.envelopeFormats);
    var b4 := s.deviceIdentityDigest + s.recipientCertificateDigest
              + (CountedInts(n.suites) + (CountedInts(n.formats) + s.protocolLockDigest));
    var b3 := CountedVersions(n.versions) + b4;
    var b2 := CountedInts(n.purposes) + b3;
    assert Encode(s) == FingerprintTag() + (BigEndian(|n.domain|, 8) + n.domain + b2) by { EncodeSplits(s); }
    DecodeHeadInverts(FingerprintTag(), n.domain, b2);
    assert DecodeBody(n.domain, b2) == Some(n) by {
      DecodeCountedIntsInverts(n.purposes, b3);
      DecodeCountedVersionsInverts(n.versions, b4);
      DecodeTailInverts(s, n);
    }
  }

  lemma Regroup(x: Bytes, y: Bytes, z: Bytes)
    ensures (x + y) + z == x + (y + z)
  {
  }

  lemma EncodeSplits(s: Snapshot)
    ensures Encode(s) ==
      FingerprintTag() + (BigEndian(|s.businessDomain|, 8) + Ascii(s.businessDomain)
      + (CountedInts(NormalInts(s.purposes)) + (CountedVersions(NormalVersions(s.currentVersions))
      + (s.deviceIdentityDigest + s.recipientCertificateDigest
      + (CountedInts(NormalInts(s.wrappingSuites)) + (CountedInts(NormalInts(s.envelopeFormats))
      + s.protocolLockDigest))))))
  {
    var tag, domain := FingerprintTag(), BigEndian(|s.businessDomain|, 8) + Ascii(s.businessDomain);
    var p, v := CountedInts(NormalInts(s.purposes)), CountedVersions(NormalVersions(s.currentVersions));
    var d, c := s.deviceIdentityDigest, s.recipientCertificateDigest;
    var w, f := CountedInts(NormalInts(s.wrappingSuites)), CountedInts(NormalInts(s.envelopeFormats));
    var l := s.protocolLockDigest;
    Regroup(tag + domain + p + v + d + c + w, f, l);
    Regroup(tag + domain + p + v + d + c, w, f + l);
    Regroup(tag + domain + p + v, d, c);
    Regroup(tag + domain + p + v, d + c, w + (f + l));
    Regroup(tag + domain + p, v, d + c + (w + (f + l)));
    Regroup(tag + domain, p, v + (d + c + (w + (f + l))));
    Regroup(tag, domain, p + (v + (d + c + (w + (f + l)))));
  }

  lemma DecodeTailInverts(s: Snapshot, n: NormalForm)
    requires |s.deviceIdentityDigest| == 32 && |s.recipientCertificateDigest| == 32 && |s.protocolLockDigest| == 32
    requires |n.suites| < 0x1_0000_0000 && |n.formats| < 0x1_0000_0000
    ensures DecodeTail(n.domain, n.purposes, n.versions,
              s.deviceIdentityDigest + s.recipientCertificateDigest
              + (CountedInts(n.suites) + (CountedInts(n.formats) + s.protocolLockDigest)))
            == Some(NormalForm(n.domain, n.purposes, n.versions, s.deviceIdentityDigest,
                               s.recipientCertificateDigest, n.suites, n.formats, s.protocolLockDigest))
  {
    var b5 := CountedInts(n.formats) + s.protocolLockDigest;
    var b4 := CountedInts(n.suites) + b5;
    var b := s.deviceIdentityDigest + s.recipientCertificateDigest + b4;
    assert b[..32] == s.deviceIdentityDigest && b[32..64] == s.recipientCertificateDigest && b[64..] == b4;
    DecodeCountedIntsInverts(n.suites, b5);
    DecodeCountedIntsInverts(n.formats, s.protocolLockDigest);
  }

  /** The fingerprint identifies exactly the normalised content: two accepted snapshots have one
      fingerprint if and only if they have the same purposes, suites and formats as sets, the same
      greatest version for every purpose, and the same three digests. */
  lemma FingerprintIdentifiesContent(s: Snapshot, t: Snapshot)
    requires Acceptable(s) && CountsFit(s) && Acceptable(t) && CountsFit(t)
    ensures ComputeFingerprint(s) == ComputeFingerprint(t) <==> SameContent(s, t)
  {
    DecodeInvertsEncode(s);
    DecodeInvertsEncode(t);
    NormalVersionsMeaning(s.currentVersions, t.currentVersions);
    if SameContent(s, t) {
      StrictlyIncreasingUnique(NormalInts(s.purposes), NormalInts(t.purposes));
      StrictlyIncreasingUnique(NormalInts(s.wrappingSuites), NormalInts(t.wrappingSuites));
      StrictlyIncreasingUnique(NormalInts(s.envelopeFormats), NormalInts(t.envelopeFormats));
      assert Encode(s) == Encode(t);
    }
    if ComputeFingerprint(s) == ComputeFingerprint(t) {
      assert Normalise(s) == Normalise(t);
      assert Elements(NormalInts(s.purposes)) == Elements(NormalInts(t.purposes));
      assert Elements(NormalInts(s.wrappingSuites)) == Elements(NormalInts(t.wrappingSuites));
      assert Elements(NormalInts(s.envelopeFormats)) == Elements(NormalInts(t.envelopeFormats));
    }
  }

  /** The business content two snapshots share, said without the encoder. */
  ghost predicate SameContent(s: Snapshot, t: Snapshot)
  {
    && Elements(s.purposes) == Elements(t.purposes)
    && VersionMap(s.currentVersions) == VersionMap(t.currentVersions)
    && Elements(s.wrappingSuites) == Elements(t.wrappingSuites)
    && Elements(s.envelopeFormats) == Elements(t.envelopeFormats)
    && s.deviceIdentityDigest == t.deviceIdentityDigest
    && s.recipientCertificateDigest == t.recipientCertificateDigest
    && s.protocolLockDigest == t.protocolLockDigest
  }

  // ---- Which dimension of the business content changed ----

  datatype ChangeDimension =
    Unchanged | PurposeSet | CurrentVersions | DeviceIdentity | Certificate | SuiteFormat | ProtocolLock

  function ChangeOf(frozen: Snapshot, candidate: Snapshot): ChangeDimension
  {
    if frozen.businessDomain != candidate.businessDomain || frozen.purposes != candidate.purposes then PurposeSet
    else if frozen.currentVersions != candidate.currentVersions then CurrentVersions
    else if frozen.deviceIdentityDigest != candidate.deviceIdentityDigest then DeviceIdentity
    else if frozen.recipientCertificateDigest != candidate.recipientCertificateDigest
         || frozen.certificateRefDigest != candidate.certificateRefDigest then Certificate
    else if frozen.wrappingSuites != candidate.wrappingSuites
         || frozen.envelopeFormats != candidate.envelopeFormats then SuiteFormat
    else if frozen.protocolLockDigest != candidate.protocolLockDigest then ProtocolLock
    else Unchanged
  }

  // ---- Building a snapshot from the current inputs ----

  datatype Identity = Identity(ecuUid: string, deviceIdentityDigest: string, certificateRef: string)

  datatype KeyStatus = KeyStatus(purpose: string, businessKeyVersion: u64, active: bool)

  const PURPOSE_UPLINK: i32 := 1
  const PURPOSE_DOWNLINK: i32 := 2
  const SUITE_ECDH_ES_P256: i32 := 2
  const FORMAT_ECDH_ES_P256_V1: i32 := 1

  function PurposeFromString(name: string): i32
  {
    if name == "UPLINK_AEAD" then PURPOSE_UPLINK
    else if name == "DOWNLINK_AEAD" then PURPOSE_DOWNLINK
    else 0
  }

  function HexNibble(c: char): int
  {
    if '0' <= c <= '9' then c as int - '0' as int
    else if 'a' <= c <= 'f' then c as int - 'a' as int + 10
    else if 'A' <= c <= 'F' then c as int - 'A' as int + 10
    else -1
  }

  predicate IsHex(s: string)
  {
    forall i :: 0 <= i < |s| ==> HexNibble(s[i]) >= 0
  }

  function HexBytes(s: string): Bytes
    requires |s| % 2 == 0 && IsHex(s)
  {
    seq(|s| / 2, i requires 0 <= i < |s| / 2 => NibblePair(s[2 * i], s[2 * i + 1]))
  }

  function NibblePair(hi: char, lo: char): u8
    requires HexNibble(hi) >= 0 && HexNibble(lo) >= 0
  {
    HexNibble(hi) * 16 + HexNibble(lo)
  }

  /** keyprov_normalize_digest: an optional sha256: prefix, then hex, or else the characters themselves. */
  function NormalizeDigest(text: string): Option<Bytes>
  {
    var s := if "sha256:" <= text then text[7..] else text;
    if s != "" && |s| % 2 == 0 && IsHex(s) then
      if |s| / 2 <= 64 then Some(HexBytes(s)) else None
    else if |s| > 64 then None
    else Some(Ascii(s))
  }

  function KeptVersions(items: seq<KeyStatus>, purposes: seq<i32>): seq<Version>
  {
    if items == [] then []
    else
      var p := PurposeFromString(items[0].purpose);
      (if p != 0 && p in purposes then [Version(p, items[0].businessKeyVersion)] else [])
      + KeptVersions(items[1..], purposes)
  }

  function PurposeNumbers(purposes: seq<string>): seq<i32>
  {
    seq(|purposes|, i requires 0 <= i < |purposes| => PurposeFromString(purposes[i]))
  }

  /** The snapshot asks for the set of these purposes, none of them unknown, and holds for each the greatest version
      among its items. */
  ghost predicate Holds(s: Snapshot, domain: string, purposes: seq<string>, items: seq<KeyStatus>)
  {
    && s.businessDomain == domain == BUSINESS_DOMAIN_V2C && 0 < |s.purposes| <= MAX_ITEMS
    && s.purposes == NormalInts(PurposeNumbers(purposes)) && 0 !in s.purposes
    && s.currentVersions == NormalVersions(KeptVersions(items, s.purposes))
    && s.wrappingSuites == [SUITE_ECDH_ES_P256] && s.envelopeFormats == [FORMAT_ECDH_ES_P256_V1]
  }

  /** keyprov_build_attempt_snapshot, for an identity that passed its own structural check. */
  function BuildSnapshot(domain: string, purposes: seq<string>, identity: Identity, items: seq<KeyStatus>,
                         refDigest: Bytes, lock: Bytes): (r: Result<Snapshot>)
    ensures r.Ok? && |lock| == 32 ==> Acceptable(r.value) && ChangeOf(r.value, r.value) == Unchanged
    ensures r.Ok? ==> NormalizeDigest(identity.deviceIdentityDigest) == Some(r.value.deviceIdentityDigest)
    ensures r.Ok? ==> NormalizeDigest(identity.certificateRef) == Some(r.value.recipientCertificateDigest)
    ensures r.Ok? ==> Holds(r.value, domain, purposes, items)
  {
    if domain != BUSINESS_DOMAIN_V2C then Err("snapshot_domain_invalid")
    else if exists i :: 0 <= i < |purposes| && PurposeFromString(purposes[i]) == 0 then Err("snapshot_purpose_unknown")
    else
      var ps := NormalInts(PurposeNumbers(purposes));
      if ps == [] || |ps| > MAX_ITEMS then Err("snapshot_purposes_invalid")
      else
        var versions := NormalVersions(KeptVersions(items, ps));
        match NormalizeDigest(identity.deviceIdentityDigest)
        case None => Err("snapshot_device_identity_digest_invalid")
        case Some(device) =>
          if |device| != 32 then Err("snapshot_device_identity_digest_invalid")
          else
            match NormalizeDigest(identity.certificateRef)
            case None => Err("snapshot_recipient_certificate_digest_invalid")
            case Some(cert) =>
              if |cert| != 32 then Err("snapshot_recipient_certificate_digest_invalid")
              else if |lock| != 32 then Err("snapshot_protocol_lock_digest_invalid")
              else Ok(Snapshot(domain, ps, versions, device, cert, refDigest,
                               [SUITE_ECDH_ES_P256], [FORMAT_ECDH_ES_P256_V1], lock))
  }

  /** Different fingerprints of two built snapshots always show up as a change of some dimension. */
  lemma DifferentFingerprintIsAChange(frozen: Snapshot, candidate: Snapshot)
    requires Acceptable(frozen) && Acceptable(candidate)
    requires ComputeFingerprint(frozen) != ComputeFingerprint(candidate)
    ensures ChangeOf(frozen, candidate) != Unchanged
  {
    assert Encode(frozen) != Encode(candidate);
  }

  lemma {:induction false} KeptVersionsLength(items: seq<KeyStatus>, purposes: seq<i32>)
    ensures |KeptVersions(items, purposes)| <= |items|
  {
    if items != [] { KeptVersionsLength(items[1..], purposes); }
  }

  /** What is built from a list in memory has lists that fit the encoding. */
  lemma BuiltSnapshotFits(domain: string, purposes: seq<string>, identity: Identity, items: seq<KeyStatus>,
                          refDigest: Bytes, lock: Bytes)
    requires |items| < 0x1_0000_0000
    ensures var r := BuildSnapshot(domain, purposes, identity, items, refDigest, lock); r.Ok? ==> CountsFit(r.value)
  {
    var ps := NormalInts(seq(|purposes|, i requires 0 <= i < |purposes| => PurposeFromString(purposes[i])));
    KeptVersionsLength(items, ps);
    NormalIntsLength(Purposes(KeptVersions(items, ps)));
  }
}
