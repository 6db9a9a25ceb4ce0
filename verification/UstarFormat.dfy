/** What a ustar archive of regular files and directories is (POSIX.1-2017, pax utility, "ustar
Interchange Format"), said without parsing: which bytes describe which members, in every spelling
that writers use. */
module UstarFormat {
  import opened Bytes

  const SLASH: Byte := 47
  const BACKSLASH: Byte := 92
  const DOT: Byte := 46

  /** A path below the destination, as its components. */
  type Path = seq<seq<Byte>>

  datatype Member = Directory(path: Path) | File(path: Path, mode: nat, content: seq<Byte>)

  function Data(m: Member): seq<Byte> {
    if m.File? then m.content else []
  }

  function Zeros(n: nat): (s: seq<Byte>)
    ensures |s| == n && forall i | 0 <= i < n :: s[i] == 0
  {
    seq(n, _ => 0)
  }

  // ----- Fields -----

  /** The field holds this text: it is filled by it, or a NUL ends it. */
  predicate Text(field: seq<Byte>, s: seq<Byte>) {
    s <= field && 0 !in s && (|s| == |field| || field[|s|] == 0)
  }

  predicate Blank(s: seq<Byte>) {
    forall i | 0 <= i < |s| :: s[i] == 32 || 9 <= s[i] <= 13
  }

  /** `n` in `k` octal digits. */
  function Octal(n: nat, k: nat): (s: seq<Byte>)
    ensures |s| == k
  {
    if k == 0 then [] else Octal(n / 8, k - 1) + [(48 + n % 8) as Byte]
  }

  predicate WrittenAs(field: seq<Byte>, n: nat, lead: seq<Byte>, k: nat, trail: seq<Byte>) {
    Blank(lead) && Blank(trail) && n < Power(8, k) && Text(field, lead + Octal(n, k) + trail)
  }

  /** The field holds the number: octal digits with blanks around them, or blanks alone for zero. */
  ghost predicate Writes(field: seq<Byte>, n: nat) {
    exists lead, k, trail :: WrittenAs(field, n, lead, k, trail)
  }

  /** The sum of some bytes. */
  function Weight(s: seq<Byte>): nat {
    if s == [] then 0 else Weight(s[..|s| - 1]) + s[|s| - 1] as nat
  }

  // ----- Names -----

  function JoinPath(path: Path): seq<Byte> {
    if path == [] then [] else if |path| == 1 then path[0] else path[0] + [SLASH] + JoinPath(path[1..])
  }

  /** A component that leads nowhere: empty, as between two slashes and after the last, or a dot. */
  predicate Filler(part: seq<Byte>) {
    part == [] || part == [DOT]
  }

  /** The components of the path in order, with any filler before, between and after them. */
  predicate Spells(parts: seq<seq<Byte>>, path: Path) {
    if parts == [] then path == []
    else if Filler(parts[0]) then Spells(parts[1..], path)
    else path != [] && path[0] == parts[0] && Spells(parts[1..], path[1..])
  }

  ghost predicate SpelledAs(name: seq<Byte>, parts: seq<seq<Byte>>, path: Path) {
    && parts != [] && (forall i | 0 <= i < |parts| :: SLASH !in parts[i]) && JoinPath(parts) == name
    && [DOT, DOT] !in parts && Spells(parts, path)
  }

  /** The name is relative, has no backslash and no "..", and leads to the path. */
  ghost predicate Names(name: seq<Byte>, path: Path) {
    && (name == [] || name[0] != SLASH) && BACKSLASH !in name
    && exists parts :: SpelledAs(name, parts, path)
  }

  /** The prefix field goes in front, with a slash, if it is not empty. */
  function FullName(prefix: seq<Byte>, name: seq<Byte>): seq<Byte> {
    if prefix == [] then name else prefix + [SLASH] + name
  }

  ghost predicate NamedBy(h: seq<Byte>, prefix: seq<Byte>, name: seq<Byte>, path: Path)
    requires |h| == 512
  {
    Text(h[345..500], prefix) && Text(h[0..100], name) && Names(FullName(prefix, name), path)
  }

  ghost predicate Named(h: seq<Byte>, path: Path)
    requires |h| == 512
  {
    exists prefix, name :: NamedBy(h, prefix, name, path)
  }

  // ----- Headers and archives -----

  /** The block is a header of the member: its checksum, its name, its type, its size and its mode. */
  ghost predicate Describes(h: seq<Byte>, m: Member) {
    && |h| == 512 && Checked(h) && Named(h, m.path) && Writes(h[124..136], |Data(m)|)
    && (if m.Directory? then h[156] == 53 else h[156] in {0, 48} && m.path != [] && HasMode(h[100..108], m.mode))
  }

  /** The checksum is the sum of all bytes, with spaces in its own place. */
  ghost predicate Checked(h: seq<Byte>)
    requires |h| == 512
  {
    Writes(h[148..156], Weight(h[..148]) + 8 * 32 + Weight(h[156..]))
  }

  /** The permission bits of the number in the field. */
  ghost predicate HasMode(field: seq<Byte>, mode: nat) {
    exists n: nat :: Writes(field, n) && mode == n % 512
  }

  /** Where the member that begins at 0 ends: header and data, in whole blocks. */
  function BlocksOf(m: Member): nat {
    512 + (|Data(m)| + 511) / 512 * 512
  }

  /** The member is the first of the archive; whatever fills up its last block is not looked at. */
  ghost predicate Leads(input: seq<Byte>, m: Member) {
    |input| >= BlocksOf(m) && Describes(input[..512], m) && input[512..512 + |Data(m)|] == Data(m)
  }

  /** The members one after the other, two zero blocks, and nothing but zeros after them. */
  ghost predicate IsArchive(input: seq<Byte>, ms: seq<Member>)
    decreases |ms|
  {
    if ms == [] then |input| >= 1024 && input == Zeros(|input|)
    else Leads(input, ms[0]) && IsArchive(input[BlocksOf(ms[0])..], ms[1..])
  }
}
