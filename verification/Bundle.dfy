/** The release executable: a launcher followed by its payloads, a manifest, and a trailer from which
the launcher finds them again. The manifest text, digests and their syntax are parameters. */
module Bundle {
  import opened Bytes

  /** "SANDCUBE_BUNDLE_V1\n" */
  const MAGIC: seq<Byte> := [83, 65, 78, 68, 67, 85, 66, 69, 95, 66, 85, 78, 68, 76, 69, 95, 86, 49, 10]
  const NAMES := ["sandcube-api", "containerd-runtime", "install-deps.sh"]
  const MANIFEST_LIMIT := 65536

  datatype Entry = Entry(name: string, offset: int, size: int, sha256: string)
  datatype Manifest = Manifest(version: string, entries: seq<Entry>)

  datatype Failure = NoPayload | BadManifestSize | BadManifest | BadVersion | BadEntries | BadBounds | BadChecksum
  datatype Result<T> = Ok(value: T) | Err(error: Failure)
  datatype Decoded = Parsed(manifest: Manifest) | Malformed

  predicate Alphanumeric(c: char) {
    '0' <= c <= '9' || 'A' <= c <= 'Z' || 'a' <= c <= 'z'
  }

  predicate ValidVersion(s: string) {
    && 1 <= |s| <= 80 && Alphanumeric(s[0])
    && forall i | 0 <= i < |s| :: Alphanumeric(s[i]) || s[i] == '.' || s[i] == '_' || s[i] == '-'
  }

  predicate ValidDigest(s: string) {
    |s| == 64 && forall i | 0 <= i < 64 :: '0' <= s[i] <= '9' || 'a' <= s[i] <= 'f'
  }

  // ----- What a bundle is -----

  function NamesOf(entries: seq<Entry>): seq<string> {
    seq(|entries|, i requires 0 <= i < |entries| => entries[i].name)
  }

  /** The ranges are nonempty, in order, disjoint, and end before `start`. */
  ghost predicate Ranges(entries: seq<Entry>, start: int) {
    && (forall i | 0 <= i < |entries| :: 0 <= entries[i].offset && 0 < entries[i].size)
    && (forall i | 0 <= i < |entries| :: entries[i].offset + entries[i].size <= start)
    && (forall i, j | 0 <= i < j < |entries| :: entries[i].offset + entries[i].size <= entries[j].offset)
  }

  ghost predicate Digests(entries: seq<Entry>) {
    forall i | 0 <= i < |entries| :: ValidDigest(entries[i].sha256)
  }

  ghost predicate ValidManifest(m: Manifest, start: int) {
    && ValidVersion(m.version) && multiset(NamesOf(m.entries)) == multiset(NAMES)
    && Ranges(m.entries, start) && Digests(m.entries)
  }

  /** A body, a manifest, the manifest's length and the magic. */
  function Assembled(body: seq<Byte>, text: seq<Byte>): seq<Byte> {
    body + text + LittleEndian(|text|, 8) + MAGIC
  }

  /** The file is a bundle with this manifest. */
  ghost predicate IsBundle(
    file: seq<Byte>, body: seq<Byte>, text: seq<Byte>, m: Manifest, decode: seq<Byte> -> Decoded) {
    && file == Assembled(body, text) && body != [] && 0 < |text| <= MANIFEST_LIMIT
    && decode(text) == Parsed(m) && ValidManifest(m, |body|)
  }

  // ----- Reading -----

  /** The walk over the entries, with the end of the previous one. */
  method CheckEntries(entries: seq<Entry>, start: nat) returns (failure: Result<nat>)
    ensures failure.Ok? <==> Ranges(entries, start) && Digests(entries)
  {
    var previous := 0;
    for i := 0 to |entries|
      invariant 0 <= previous <= start && Ranges(entries[..i], previous) && Digests(entries[..i])
      invariant previous == if i == 0 then 0 else entries[i - 1].offset + entries[i - 1].size
    {
      var e := entries[i];
      if !(e.offset >= previous && e.size > 0 && e.offset <= start && e.size <= start - e.offset) {
        assert i > 0 ==> entries[i - 1].offset + entries[i - 1].size == previous;
        return Err(BadBounds);
      }
      if !ValidDigest(e.sha256) {
        return Err(BadChecksum);
      }
      previous := e.offset + e.size;
    }
    assert entries[..|entries|] == entries;
    failure := Ok(previous);
  }

  lemma EightBytes()
    ensures Power(256, 8) == 0x1_0000_0000_0000_0000
  {
  }

  /** The trailer of an assembled file leads back to its parts. */
  lemma Trailer(file: seq<Byte>, body: seq<Byte>, text: seq<Byte>)
    requires file == Assembled(body, text) && |text| < 0x1_0000_0000_0000_0000
    ensures |file| == |body| + |text| + 27 && file[|file| - 19..] == MAGIC
    ensures FromLittleEndian(file[|file| - 27..|file| - 19]) == |text|
    ensures file[..|body|] == body && file[|body|..|body| + |text|] == text
  {
    assert file[|file| - 27..|file| - 19] == LittleEndian(|text|, 8);
    EightBytes();
    LittleEndianRoundTrip(|text|, 8);
  }

  /** A file with a plausible trailer is assembled from the parts it points at. */
  lemma Parts(file: seq<Byte>, start: nat, length: nat)
    requires |file| == start + length + 27 && file[|file| - 19..] == MAGIC
    requires FromLittleEndian(file[|file| - 27..|file| - 19]) == length
    ensures file == Assembled(file[..start], file[start..start + length])
  {
    LittleEndianOf(file[|file| - 27..|file| - 19]);
    var end := |file| - 19;
    assert file == file[..start] + file[start..start + length] + file[start + length..end] + file[end..];
  }

  /** A file is a bundle in at most one way. */
  lemma OneReading(file: seq<Byte>, body: seq<Byte>, text: seq<Byte>, m: Manifest, decode: seq<Byte> -> Decoded)
    requires IsBundle(file, body, text, m, decode)
    ensures |file| >= 27 && file[|file| - 19..] == MAGIC
    ensures |text| == FromLittleEndian(file[|file| - 27..|file| - 19]) && |body| == |file| - 27 - |text|
    ensures body == file[..|body|] && text == file[|body|..|body| + |text|]
  {
    Trailer(file, body, text);
  }

  method ReadManifest(text: seq<Byte>, start: nat, decode: seq<Byte> -> Decoded) returns (r: Result<Manifest>)
    ensures r.Ok? ==> decode(text) == Parsed(r.value) && ValidManifest(r.value, start)
    ensures forall m | decode(text) == Parsed(m) && ValidManifest(m, start) :: r == Ok(m)
  {
    var d := decode(text);
    if d.Malformed? {
      return Err(BadManifest);
    }
    if !ValidVersion(d.manifest.version) {
      return Err(BadVersion);
    }
    if multiset(NamesOf(d.manifest.entries)) != multiset(NAMES) {
      return Err(BadEntries);
    }
    var checked := CheckEntries(d.manifest.entries, start);
    r := if checked.Ok? then Ok(d.manifest) else Err(checked.error);
  }

  /** `Bundle#initialize`: succeeds on exactly the bundles, with their manifest. */
  method Read(file: seq<Byte>, decode: seq<Byte> -> Decoded) returns (r: Result<Manifest>)
    ensures r.Ok? ==> exists body, text :: IsBundle(file, body, text, r.value, decode)
    ensures forall body, text, m | IsBundle(file, body, text, m, decode) :: r == Ok(m)
  {
    forall body, text, m | IsBundle(file, body, text, m, decode) ensures |file| >= 27 {
      OneReading(file, body, text, m, decode);
    }
    if |file| < |MAGIC| + 8 {
      return Err(NoPayload);
    }
    r := ReadTrailer(file, decode);
  }

  method ReadTrailer(file: seq<Byte>, decode: seq<Byte> -> Decoded) returns (r: Result<Manifest>)
    requires |file| >= 27
    ensures r.Ok? ==> exists body, text :: IsBundle(file, body, text, r.value, decode)
    ensures forall body, text, m | IsBundle(file, body, text, m, decode) :: r == Ok(m)
  {
    var pos := |file| - 19;
    var length := FromLittleEndian(file[pos - 8..pos]);
    var start := pos - 8 - length;
    forall body, text, m | IsBundle(file, body, text, m, decode)
      ensures file[pos..] == MAGIC && 0 < length <= MANIFEST_LIMIT && length < pos - 8
      ensures text == file[start..start + length] && ValidManifest(m, start) && decode(text) == Parsed(m)
    {
      OneReading(file, body, text, m, decode);
    }
    if file[pos..] != MAGIC {
      return Err(NoPayload);
    }
    if !(0 < length <= MANIFEST_LIMIT && length < pos - 8) {
      return Err(BadManifestSize);
    }
    Parts(file, start, length);
    r := ReadManifest(file[start..start + length], start, decode);
    assert r.Ok? ==> IsBundle(file, file[..start], file[start..start + length], r.value, decode);
  }

  // ----- Writing -----

  /** Where the writer puts each payload. */
  ghost predicate Placed(
    entries: seq<Entry>, launcher: seq<Byte>, payloads: seq<seq<Byte>>, digest: seq<Byte> -> string)
    requires |entries| <= |payloads| && |entries| <= |NAMES|
  {
    forall i | 0 <= i < |entries| ::
      entries[i] == Entry(NAMES[i], |launcher| + |Join(payloads[..i])|, |payloads[i]|, digest(payloads[i]))
  }

  /** `package.cr`: the launcher, the payloads in order, the manifest and the trailer. */
  method Package(
    version: string, launcher: seq<Byte>, payloads: seq<seq<Byte>>, encode: Manifest -> seq<Byte>,
    digest: seq<Byte> -> string)
    returns (r: Result<seq<Byte>>, m: Manifest)
    requires |payloads| == |NAMES|
    ensures r.Ok? <==> ValidVersion(version)
    ensures r.Ok? ==> m.version == version && |m.entries| == |NAMES| && Placed(m.entries, launcher, payloads, digest)
    ensures r.Ok? ==> r.value == Assembled(launcher + Join(payloads), encode(m))
  {
    if !ValidVersion(version) {
      return Err(BadVersion), Manifest(version, []);
    }
    var output := launcher;
    var entries := [];
    for i := 0 to |NAMES|
      invariant |entries| == i && output == launcher + Join(payloads[..i])
      invariant Placed(entries, launcher, payloads, digest)
    {
      var offset := |output|;
      output := output + payloads[i];
      JoinNext(payloads, i);
      entries := entries + [Entry(NAMES[i], offset, |output| - offset, digest(payloads[i]))];
    }
    assert payloads[..|payloads|] == payloads;
    m := Manifest(version, entries);
    var text := encode(m);
    r := Ok(output + text + LittleEndian(|text|, 8) + MAGIC);
  }

  /** Each recorded range ends before the manifest, and where the next one begins. */
  lemma RangeEnds(
    entries: seq<Entry>, launcher: seq<Byte>, payloads: seq<seq<Byte>>, digest: seq<Byte> -> string, i: nat)
    requires |payloads| == |NAMES| == |entries| && Placed(entries, launcher, payloads, digest) && i < |NAMES|
    ensures entries[i].offset + entries[i].size == |launcher| + |Join(payloads[..i + 1])| <= |launcher + Join(payloads)|
    ensures i + 1 < |NAMES| ==> entries[i].offset + entries[i].size == entries[i + 1].offset
  {
    JoinNext(payloads, i);
    JoinPrefix(payloads, i + 1);
  }

  /** The recorded range of the file is the payload. */
  predicate Holds(file: seq<Byte>, e: Entry, payload: seq<Byte>) {
    0 <= e.offset <= e.offset + e.size <= |file| && file[e.offset..e.offset + e.size] == payload
  }

  lemma StillHolds(body: seq<Byte>, file: seq<Byte>, e: Entry, payload: seq<Byte>)
    requires body <= file && Holds(body, e, payload)
    ensures Holds(file, e, payload)
  {
  }

  /** Each recorded range holds its payload. */
  lemma RangeHoldsPayload(
    entries: seq<Entry>, launcher: seq<Byte>, payloads: seq<seq<Byte>>, digest: seq<Byte> -> string, i: nat)
    requires |payloads| == |NAMES| == |entries| && Placed(entries, launcher, payloads, digest) && i < |NAMES|
    ensures Holds(launcher + Join(payloads), entries[i], payloads[i])
  {
    var e := entries[i];
    assert e.offset == |launcher| + |Join(payloads[..i])| && e.size == |payloads[i]|;
    JoinNext(payloads, i);
    JoinPrefix(payloads, i + 1);
    Inside(launcher, Join(payloads), Join(payloads[..i]), payloads[i]);
  }

  lemma Inside(front: seq<Byte>, whole: seq<Byte>, before: seq<Byte>, part: seq<Byte>)
    requires before + part <= whole
    ensures |front| + |before| + |part| <= |front + whole|
    ensures (front + whole)[|front| + |before|..|front| + |before| + |part|] == part
  {
  }

  /** The writer's manifest is acceptable exactly when no payload is empty. */
  lemma PlacedIsValid(m: Manifest, launcher: seq<Byte>, payloads: seq<seq<Byte>>, digest: seq<Byte> -> string)
    requires |payloads| == |NAMES| == |m.entries| && Placed(m.entries, launcher, payloads, digest)
    requires ValidVersion(m.version) && forall s :: ValidDigest(digest(s))
    ensures ValidManifest(m, |launcher + Join(payloads)|) <==> forall i | 0 <= i < |payloads| :: payloads[i] != []
  {
    assert NamesOf(m.entries) == NAMES;
    forall i: nat | i < |NAMES|
      ensures m.entries[i].offset + m.entries[i].size <= |launcher + Join(payloads)|
      ensures i + 1 < |NAMES| ==> m.entries[i].offset + m.entries[i].size == m.entries[i + 1].offset
    {
      RangeEnds(m.entries, launcher, payloads, digest, i);
    }
    assert forall i | 0 <= i < |payloads| :: m.entries[i].size > 0 <==> payloads[i] != [];
    assert m.entries[0].offset <= m.entries[1].offset <= m.entries[2].offset;
  }

  /** Reading what was written gives back its manifest, exactly when no payload is empty and the
      manifest is neither empty nor too long; every recorded range of the file is its payload. The
      length of a manifest is a 64-bit number. */
  method RoundTrip(
    version: string, launcher: seq<Byte>, payloads: seq<seq<Byte>>, encode: Manifest -> seq<Byte>,
    decode: seq<Byte> -> Decoded, digest: seq<Byte> -> string)
    returns (file: seq<Byte>, m: Manifest, r: Result<Manifest>)
    requires ValidVersion(version) && |payloads| == |NAMES| && forall s :: ValidDigest(digest(s))
    requires forall x :: decode(encode(x)) == Parsed(x)
    ensures |encode(m)| < 0x1_0000_0000_0000_0000 ==>
              (r == Ok(m) <==>
               (forall i | 0 <= i < |payloads| :: payloads[i] != []) && 0 < |encode(m)| <= MANIFEST_LIMIT)
    ensures |encode(m)| < 0x1_0000_0000_0000_0000 && r.Ok? ==> r == Ok(m)
    ensures |m.entries| == |NAMES| && forall i | 0 <= i < |NAMES| :: Holds(file, m.entries[i], payloads[i])
  {
    var packaged;
    packaged, m := Package(version, launcher, payloads, encode, digest);
    file := packaged.value;
    r := Read(file, decode);
    if |encode(m)| < 0x1_0000_0000_0000_0000 {
      ReadAssembled(file, launcher + Join(payloads), encode(m), m, decode, r);
    }
    PackagedIsBundle(launcher, payloads, m, encode(m), decode, digest);
    forall i | 0 <= i < |NAMES| ensures Holds(file, m.entries[i], payloads[i]) {
      RangeHoldsPayload(m.entries, launcher, payloads, digest, i);
      StillHolds(launcher + Join(payloads), file, m.entries[i], payloads[i]);
    }
  }

  /** The reader's answer on an assembled file, whatever its parts. */
  lemma ReadAssembled(
    file: seq<Byte>, body: seq<Byte>, text: seq<Byte>, m: Manifest, decode: seq<Byte> -> Decoded, r: Result<Manifest>)
    requires file == Assembled(body, text) && |text| < 0x1_0000_0000_0000_0000 && decode(text) == Parsed(m)
    requires r.Ok? ==> exists b, t :: IsBundle(file, b, t, r.value, decode)
    requires forall b, t, x | IsBundle(file, b, t, x, decode) :: r == Ok(x)
    ensures r == Ok(m) <==> IsBundle(file, body, text, m, decode)
    ensures r.Ok? ==> r == Ok(m)
  {
    if r.Ok? {
      var b, t :| IsBundle(file, b, t, r.value, decode);
      SameParts(file, body, text, b, t, r.value, decode);
    }
  }

  /** A packaged file is a bundle exactly when no payload is empty and the manifest fits. */
  lemma PackagedIsBundle(
    launcher: seq<Byte>, payloads: seq<seq<Byte>>, m: Manifest, text: seq<Byte>, decode: seq<Byte> -> Decoded,
    digest: seq<Byte> -> string)
    requires |payloads| == |NAMES| == |m.entries| && Placed(m.entries, launcher, payloads, digest)
    requires ValidVersion(m.version) && (forall s :: ValidDigest(digest(s))) && decode(text) == Parsed(m)
    ensures IsBundle(Assembled(launcher + Join(payloads), text), launcher + Join(payloads), text, m, decode)
       <==> (forall i | 0 <= i < |payloads| :: payloads[i] != []) && 0 < |text| <= MANIFEST_LIMIT
  {
    var body := launcher + Join(payloads);
    PlacedIsValid(m, launcher, payloads, digest);
    assert ValidManifest(m, |body|) ==> m.entries[0].offset + m.entries[0].size <= |body|;
  }

  lemma SameParts(
    file: seq<Byte>, body: seq<Byte>, text: seq<Byte>, b: seq<Byte>, t: seq<Byte>, m: Manifest,
    decode: seq<Byte> -> Decoded)
    requires file == Assembled(body, text) && |text| < 0x1_0000_0000_0000_0000 && IsBundle(file, b, t, m, decode)
    ensures b == body && t == text
  {
    Trailer(file, body, text);
    OneReading(file, b, t, m, decode);
  }
}
