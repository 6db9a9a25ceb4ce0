/** The parser of ustar archives, and the proof that it accepts exactly the archives. */
module UstarParser {
  import opened Bytes
  import opened Options
  import opened UstarFormat

  // ----- Header fields -----

  /** `field`: the bytes before the first NUL. */
  function Field(b: seq<Byte>): (s: seq<Byte>)
    ensures |s| <= |b| && forall i | 0 <= i < |s| :: s[i] != 0
  {
    if b == [] || b[0] == 0 then [] else [b[0]] + Field(b[1..])
  }

  predicate Space(c: Byte) {
    c == 32 || 9 <= c <= 13
  }

  function Strip(s: seq<Byte>): seq<Byte> {
    if s == [] then []
    else if Space(s[0]) then Strip(s[1..])
    else if Space(s[|s| - 1]) then Strip(s[..|s| - 1])
    else s
  }

  predicate OctalDigits(s: seq<Byte>) {
    forall i | 0 <= i < |s| :: 48 <= s[i] <= 55
  }

  function OctalValue(s: seq<Byte>): nat
    requires OctalDigits(s)
  {
    if s == [] then 0 else OctalValue(s[..|s| - 1]) * 8 + (s[|s| - 1] as nat - 48)
  }

  /** `number`: an octal field, blank meaning zero. */
  function Number(b: seq<Byte>): Option<nat> {
    var value := Strip(Field(b));
    if value == [] then Some(0) else if OctalDigits(value) then Some(OctalValue(value)) else None
  }

  /** The sum of the header's first `n` bytes, its checksum field counted as spaces. */
  function Sum(h: seq<Byte>, n: nat): nat
    requires n <= |h|
  {
    if n == 0 then 0 else Sum(h, n - 1) + if 148 <= n - 1 < 156 then 32 else h[n - 1] as nat
  }

  // ----- Names -----

  function Split(s: seq<Byte>): (parts: seq<seq<Byte>>)
    ensures parts != [] && forall i | 0 <= i < |parts| :: SLASH !in parts[i]
  {
    if s == [] then [[]]
    else
      var rest := Split(s[1..]);
      if s[0] == SLASH then [[]] + rest else [[s[0]] + rest[0]] + rest[1..]
  }

  predicate Kept(part: seq<Byte>) {
    part != [] && part != [DOT]
  }

  function Components(parts: seq<seq<Byte>>): Path {
    if parts == [] then [] else (if Kept(parts[0]) then [parts[0]] else []) + Components(parts[1..])
  }

  predicate Unsafe(name: seq<Byte>) {
    || (name != [] && name[0] == SLASH)
    || BACKSLASH in name
    || [DOT, DOT] in Split(name)
  }

  function NameOf(h: seq<Byte>): seq<Byte>
    requires |h| == 512
  {
    var prefix := Field(h[345..500]);
    if prefix == [] then Field(h[0..100]) else prefix + [SLASH] + Field(h[0..100])
  }

  // ----- Members -----

  datatype Head = Head(path: Path, directory: bool, size: nat, mode: Option<nat>)

  predicate Zero(s: seq<Byte>) {
    forall i | 0 <= i < |s| :: s[i] == 0
  }

  /** What a header block says, if it is acceptable at all. */
  function HeadOf(h: seq<Byte>): Option<Head>
    requires |h| == 512
  {
    var sum, size, name := Number(h[148..156]), Number(h[124..136]), NameOf(h);
    if sum != Some(Sum(h, 512)) || Unsafe(name) || h[156] !in {0, 48, 53} || size.None? then None
    else
      var head := Head(Components(Split(name)), h[156] == 53, size.value, Number(h[100..108]));
      if head.directory && head.size != 0 then None
      else if head.path == [] && !head.directory then None
      else Some(head)
  }

  function Padding(size: nat): nat {
    (512 - size % 512) % 512
  }

  /** What follows an archive's members: two zero blocks and nothing but zeros after them. */
  predicate Terminated(input: seq<Byte>) {
    |input| >= 1024 && Zero(input)
  }

  /** What a parse of the rest makes of the whole. */
  function Continued(done: seq<Member>, rest: Option<seq<Member>>): Option<seq<Member>> {
    if rest.None? then None else Some(done + rest.value)
  }

  predicate Whole(head: Head, data: seq<Byte>) {
    head.directory || (|data| >= head.size && head.mode.Some?)
  }

  /** A header's member, given the bytes that follow it. */
  function Contents(head: Head, data: seq<Byte>): Member
    requires Whole(head, data)
  {
    if head.directory then Directory(head.path) else File(head.path, head.mode.value % 512, data[..head.size])
  }

  function MemberOf(head: Head, input: seq<Byte>): Member
    requires |input| >= 512 + head.size && (head.directory || head.mode.Some?)
  {
    Contents(head, input[512..])
  }

  function NextAt(head: Head): nat {
    512 + head.size + Padding(head.size)
  }

  /** The members of an archive, without any limits; none if it is malformed. */
  function Parse(input: seq<Byte>): Option<seq<Member>> {
    if |input| < 512 then None
    else if Zero(input[..512]) then if Terminated(input) then Some([]) else None
    else
      var h := HeadOf(input[..512]);
      if h.None? || |input| < NextAt(h.value) || (!h.value.directory && h.value.mode.None?) then None
      else Continued([MemberOf(h.value, input)], Parse(input[NextAt(h.value)..]))
  }

  // ----- Fields -----

  lemma {:induction false} FieldIsText(field: seq<Byte>)
    ensures Text(field, Field(field))
  {
    if field != [] && field[0] != 0 {
      FieldIsText(field[1..]);
      var s := Field(field[1..]);
      assert field == [field[0]] + field[1..];
    }
  }

  lemma {:induction false} OneText(field: seq<Byte>, s: seq<Byte>)
    requires Text(field, s)
    ensures Field(field) == s
  {
    if s != [] {
      assert s[0] == field[0] && s[1..] <= field[1..];
      OneText(field[1..], s[1..]);
    }
  }

  /** Stripping takes blanks from both ends and nothing else. */
  lemma {:induction false} StripParts(s: seq<Byte>) returns (lead: seq<Byte>, trail: seq<Byte>)
    ensures s == lead + Strip(s) + trail && Blank(lead) && Blank(trail)
  {
    lead, trail := [], [];
    if s != [] && Space(s[0]) {
      lead, trail := StripParts(s[1..]);
      assert s == [s[0]] + (lead + Strip(s) + trail) == [s[0]] + lead + Strip(s) + trail;
      lead := [s[0]] + lead;
    } else if s != [] && Space(s[|s| - 1]) {
      var n := |s| - 1;
      lead, trail := StripParts(s[..n]);
      assert s == (lead + Strip(s) + trail) + [s[n]] == lead + Strip(s) + (trail + [s[n]]);
      trail := trail + [s[n]];
    }
  }

  lemma {:induction false} Stripped(lead: seq<Byte>, d: seq<Byte>, trail: seq<Byte>)
    requires Blank(lead) && Blank(trail) && OctalDigits(d)
    ensures Strip(lead + d + trail) == d
    decreases |lead| + |trail|
  {
    var s := lead + d + trail;
    if lead != [] {
      Stripped(lead[1..], d, trail);
      assert s[1..] == lead[1..] + d + trail;
    } else if trail != [] {
      var rest := trail[..|trail| - 1];
      if d == [] {
        Stripped([], d, trail[1..]);
        assert s == trail && trail[1..] == [] + d + trail[1..];
      } else {
        Stripped([], d, rest);
        assert s[0] == d[0] && s[..|s| - 1] == [] + d + rest;
      }
    } else {
      assert s == d;
    }
  }

  lemma {:induction false} OctalRoundTrip(n: nat, k: nat)
    requires n < Power(8, k)
    ensures OctalDigits(Octal(n, k)) && OctalValue(Octal(n, k)) == n
  {
    if k != 0 {
      OctalRoundTrip(n / 8, k - 1);
      assert Octal(n, k)[..k - 1] == Octal(n / 8, k - 1);
    }
  }

  lemma {:induction false} OctalOf(d: seq<Byte>)
    requires OctalDigits(d)
    ensures OctalValue(d) < Power(8, |d|) && Octal(OctalValue(d), |d|) == d
  {
    if d != [] {
      var front, last := d[..|d| - 1], d[|d| - 1];
      OctalOf(front);
      assert OctalValue(d) / 8 == OctalValue(front) && OctalValue(d) % 8 == last as nat - 48;
      assert d == front + [last];
    }
  }

  /** A number is read from exactly the fields that hold it. */
  lemma NumberExact(field: seq<Byte>, n: nat)
    ensures Number(field) == Some(n) <==> Writes(field, n)
  {
    if Number(field) == Some(n) {
      FieldIsText(field);
      var lead, trail := StripParts(Field(field));
      var d := Strip(Field(field));
      assert OctalDigits(d) && OctalValue(d) == n;
      OctalOf(d);
      assert WrittenAs(field, n, lead, |d|, trail);
    }
    if Writes(field, n) {
      var lead, k, trail :| WrittenAs(field, n, lead, k, trail);
      OneText(field, lead + Octal(n, k) + trail);
      OctalRoundTrip(n, k);
      Stripped(lead, Octal(n, k), trail);
      assert k == 0 ==> Power(8, k) == 1;
    }
  }

  lemma {:induction false} SumIsWeight(h: seq<Byte>, n: nat)
    requires n <= |h| == 512
    ensures Sum(h, n) == if n <= 148 then Weight(h[..n])
                         else if n <= 156 then Weight(h[..148]) + 32 * (n - 148)
                         else Weight(h[..148]) + 256 + Weight(h[156..n])
  {
    if n != 0 {
      SumIsWeight(h, n - 1);
      if n <= 148 {
        assert h[..n][..n - 1] == h[..n - 1];
      } else if n > 156 {
        assert h[156..n][..n - 157] == h[156..n - 1];
      }
    }
  }

  // ----- Names -----

  lemma {:induction false} SplitWhole(part: seq<Byte>)
    requires SLASH !in part
    ensures Split(part) == [part]
  {
    if part != [] {
      SplitWhole(part[1..]);
      assert [part[0]] + part[1..] == part;
    }
  }

  lemma {:induction false} SplitFirst(part: seq<Byte>, s: seq<Byte>)
    requires SLASH !in part
    ensures Split(part + [SLASH] + s) == [part] + Split(s)
  {
    var all := part + [SLASH] + s;
    if part == [] {
      assert all == [SLASH] + s && all[1..] == s;
    } else {
      SplitFirst(part[1..], s);
      assert all[1..] == part[1..] + [SLASH] + s;
      assert all[0] == part[0] && [part[0]] + part[1..] == part;
      assert ([part[1..]] + Split(s))[1..] == Split(s);
    }
  }

  /** Splitting a joined name gives its parts back. */
  lemma {:induction false} SplitJoin(parts: seq<seq<Byte>>)
    requires parts != [] && forall i | 0 <= i < |parts| :: SLASH !in parts[i]
    ensures Split(JoinPath(parts)) == parts
  {
    if |parts| == 1 {
      SplitWhole(parts[0]);
    } else {
      SplitFirst(parts[0], JoinPath(parts[1..]));
      SplitJoin(parts[1..]);
    }
  }

  /** Joining the parts of a split name gives the name back. */
  lemma {:induction false} JoinSplit(s: seq<Byte>)
    ensures JoinPath(Split(s)) == s
  {
    if s != [] {
      var rest := Split(s[1..]);
      JoinSplit(s[1..]);
      assert s == [s[0]] + s[1..];
      if s[0] == SLASH {
        assert Split(s)[1..] == rest;
      } else {
        JoinFirst([s[0]], rest);
      }
    }
  }

  lemma JoinFirst(more: seq<Byte>, rest: seq<seq<Byte>>)
    requires rest != []
    ensures JoinPath([more + rest[0]] + rest[1..]) == more + JoinPath(rest)
  {
    var parts := [more + rest[0]] + rest[1..];
    if |rest| == 1 {
      assert parts[0] == more + rest[0];
    } else {
      assert parts[1..] == rest[1..];
      assert more + rest[0] + [SLASH] + JoinPath(rest[1..]) == more + (rest[0] + [SLASH] + JoinPath(rest[1..]));
    }
  }

  /** The components kept are exactly those that the parts spell. */
  lemma {:induction false} ComponentsExact(parts: seq<seq<Byte>>, path: Path)
    ensures Components(parts) == path <==> Spells(parts, path)
  {
    if parts != [] {
      if Kept(parts[0]) {
        var rest := Components(parts[1..]);
        assert Components(parts) == [parts[0]] + rest;
        if path != [] {
          ComponentsExact(parts[1..], path[1..]);
          assert path == [path[0]] + path[1..];
          assert ([parts[0]] + rest)[0] == parts[0] && ([parts[0]] + rest)[1..] == rest;
        }
      } else {
        ComponentsExact(parts[1..], path);
        assert Components(parts) == Components(parts[1..]);
      }
    }
  }

  /** A name is accepted, and leads to a path, exactly as the format says. */
  lemma NameExact(name: seq<Byte>, path: Path)
    ensures !Unsafe(name) && Components(Split(name)) == path <==> Names(name, path)
  {
    JoinSplit(name);
    ComponentsExact(Split(name), path);
    if Names(name, path) {
      var parts :| SpelledAs(name, parts, path);
      SplitJoin(parts);
    }
    if !Unsafe(name) && Components(Split(name)) == path {
      assert SpelledAs(name, Split(name), path);
    }
  }

  lemma NamedExact(h: seq<Byte>, path: Path)
    requires |h| == 512
    ensures !Unsafe(NameOf(h)) && Components(Split(NameOf(h))) == path
       <==> Named(h, path)
  {
    NameExact(NameOf(h), path);
    FieldIsText(h[345..500]);
    FieldIsText(h[0..100]);
    if Named(h, path) {
      var prefix, name :| NamedBy(h, prefix, name, path);
      OneText(h[345..500], prefix);
      OneText(h[0..100], name);
    }
    if Names(NameOf(h), path) {
      assert NamedBy(h, Field(h[345..500]), Field(h[0..100]), path);
    }
  }

  // ----- Headers -----

  /** What the parser has read agrees with the member. */
  predicate Agrees(head: Head, m: Member) {
    && head.path == m.path && head.directory == m.Directory? && head.size == |Data(m)|
    && (m.File? ==> head.mode.Some? && m.mode == head.mode.value % 512)
  }

  lemma ModeExact(field: seq<Byte>, mode: nat)
    ensures Number(field).Some? && mode == Number(field).value % 512 <==> HasMode(field, mode)
  {
    if Number(field).Some? {
      NumberExact(field, Number(field).value);
    }
    if HasMode(field, mode) {
      var n: nat :| Writes(field, n) && mode == n % 512;
      NumberExact(field, n);
    }
  }

  lemma CheckExact(h: seq<Byte>)
    requires |h| == 512
    ensures Number(h[148..156]) == Some(Sum(h, 512)) <==> Checked(h)
  {
    SumIsWeight(h, 512);
    assert h[156..512] == h[156..];
    NumberExact(h[148..156], Sum(h, 512));
  }

  /** What decides whether a block is a header of the member, field by field. */
  predicate Reads(h: seq<Byte>, m: Member)
    requires |h| == 512
  {
    && Number(h[148..156]) == Some(Sum(h, 512))
    && !Unsafe(NameOf(h)) && Components(Split(NameOf(h))) == m.path
    && Number(h[124..136]) == Some(|Data(m)|)
    && (if m.Directory? then h[156] == 53
        else
          && h[156] in {0, 48} && m.path != []
          && Number(h[100..108]).Some? && m.mode == Number(h[100..108]).value % 512)
  }

  lemma HeadReads(h: seq<Byte>, m: Member)
    requires |h| == 512
    ensures HeadOf(h).Some? && Agrees(HeadOf(h).value, m) <==> Reads(h, m)
  {
  }

  /** A header is read as a member exactly when it describes it. */
  lemma HeadExact(h: seq<Byte>, m: Member)
    requires |h| == 512
    ensures HeadOf(h).Some? && Agrees(HeadOf(h).value, m) <==> Describes(h, m)
  {
    HeadReads(h, m);
    CheckExact(h);
    NamedExact(h, m.path);
    NumberExact(h[124..136], |Data(m)|);
    if m.File? {
      ModeExact(h[100..108], m.mode);
    }
  }

  /** A block of zeros is no header: its checksum would be that of its eight spaces. */
  lemma ZeroDescribesNothing(h: seq<Byte>, m: Member)
    requires Describes(h, m)
    ensures !Zero(h)
  {
    if Zero(h) {
      var n := Weight(h[..148]) + 8 * 32 + Weight(h[156..]);
      NumberExact(h[148..156], n);
      OneText(h[148..156], []);
    }
  }

  // ----- Archives -----

  lemma Blocks(head: Head, m: Member)
    requires head.size == |Data(m)|
    ensures NextAt(head) == BlocksOf(m)
  {
  }

  /** A complete member in front is read on its own. */
  lemma ParseStep(input: seq<Byte>, head: Head)
    requires |input| >= NextAt(head) && !Zero(input[..512]) && HeadOf(input[..512]) == Some(head)
    requires head.directory || head.mode.Some?
    ensures Parse(input) == Continued([MemberOf(head, input)], Parse(input[NextAt(head)..]))
  {
  }

  /** A member that leads is read first. */
  lemma LeadsParsed(input: seq<Byte>, m: Member)
    requires Leads(input, m)
    ensures |input| >= 512 && !Zero(input[..512])
    ensures Parse(input) == Continued([m], Parse(input[BlocksOf(m)..]))
  {
    var h := input[..512];
    HeadExact(h, m);
    ZeroDescribesNothing(h, m);
    AgreesParsed(input, HeadOf(h).value, m);
  }

  lemma AgreesParsed(input: seq<Byte>, head: Head, m: Member)
    requires |input| >= BlocksOf(m) && !Zero(input[..512]) && HeadOf(input[..512]) == Some(head) && Agrees(head, m)
    requires input[512..512 + |Data(m)|] == Data(m)
    ensures Parse(input) == Continued([m], Parse(input[BlocksOf(m)..]))
  {
    Blocks(head, m);
    ParseStep(input, head);
    assert input[512..][..head.size] == input[512..512 + head.size];
    assert MemberOf(head, input) == m;
  }

  /** The first member that is read leads. */
  lemma ParsedLeads(input: seq<Byte>)
    requires |input| >= 512 && !Zero(input[..512]) && Parse(input).Some?
    ensures Parse(input).value != [] && Leads(input, Parse(input).value[0])
  {
    var h := input[..512];
    var head := HeadOf(h).value;
    var m := MemberOf(head, input);
    ParseStep(input, head);
    assert Parse(input).value[0] == m;
    assert input[512..][..head.size] == input[512..512 + head.size];
    assert head.directory ==> head.size == 0;
    HeadExact(h, m);
    Blocks(head, m);
  }

  /** The parser accepts exactly the archives, and reads exactly their members. */
  lemma {:induction false} ParseExact(input: seq<Byte>, ms: seq<Member>)
    ensures Parse(input) == Some(ms) <==> IsArchive(input, ms)
    decreases |ms|
  {
    if ms == [] {
      assert Zero(input) <==> input == Zeros(|input|);
      if |input| >= 512 && !Zero(input[..512]) && Parse(input).Some? {
        ParsedLeads(input);
      }
    } else {
      var m := ms[0];
      if Leads(input, m) {
        LeadsParsed(input, m);
        ParseExact(input[BlocksOf(m)..], ms[1..]);
        assert ms == [m] + ms[1..];
        var rest := Parse(input[BlocksOf(m)..]);
        assert rest.Some? ==> ([m] + rest.value)[1..] == rest.value;
      } else if Parse(input) == Some(ms) {
        ParsedLeads(input);
      }
    }
  }

  lemma ParsesArchives(input: seq<Byte>)
    ensures forall ms :: IsArchive(input, ms) <==> Parse(input) == Some(ms)
  {
    forall ms ensures IsArchive(input, ms) <==> Parse(input) == Some(ms) {
      ParseExact(input, ms);
    }
  }
}
