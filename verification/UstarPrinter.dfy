/** A printer for ustar archives, in the spellings that writers use, and the proof that extraction
inverts it. */
module UstarPrinter {
  import opened Bytes
  import opened Options
  import opened UstarFormat
  import opened UstarParser
  import opened BuildContext

  /** Header bytes that extraction does not look at: owner, time, everything from the link name to
      the device numbers, and the unused end. */
  datatype Extra = Extra(owner: seq<Byte>, time: seq<Byte>, middle: seq<Byte>, tail: seq<Byte>)

  /** A member, the spelling of its path over the prefix and the name field, and its type. */
  datatype Item = Item(
    member: Member, prefix: seq<seq<Byte>>, name: seq<seq<Byte>>, kind: Byte, extra: Extra)

  // ----- Printing -----

  function Padded(s: seq<Byte>, n: nat): (r: seq<Byte>)
    requires |s| <= n
    ensures |r| == n
  {
    s + Zeros(n - |s|)
  }

  function ModeOf(m: Member): nat {
    if m.File? then m.mode else 493
  }

  predicate PlainParts(parts: seq<seq<Byte>>) {
    forall i | 0 <= i < |parts| ::
      SLASH !in parts[i] && BACKSLASH !in parts[i] && 0 !in parts[i] && parts[i] != [DOT, DOT]
  }

  /** The parts spell the path, with filler anywhere, and do not begin with a slash. */
  predicate GoodSpelling(x: Item) {
    && PlainParts(x.prefix) && PlainParts(x.name) && x.name != [] && Spells(x.prefix + x.name, x.member.path)
    && (if x.prefix == [] then |x.name| == 1 || x.name[0] != [] else x.prefix[0] != [])
  }

  /** What fits in a header. */
  predicate Printable(x: Item) {
    && GoodSpelling(x) && |JoinPath(x.name)| <= 100 && |JoinPath(x.prefix)| <= 155
    && (if x.member.Directory? then x.kind == 53 else x.kind in {0, 48} && x.member.path != [])
    && ModeOf(x.member) < 512 && |Data(x.member)| < Power(8, 11)
    && |x.extra.owner| == 16 && |x.extra.time| == 12 && |x.extra.middle| == 188 && |x.extra.tail| == 12
  }

  /** The fields before the checksum. */
  function Front(x: Item): (s: seq<Byte>)
    requires Printable(x)
    ensures |s| == 148
  {
    Padded(JoinPath(x.name), 100) + (Octal(ModeOf(x.member), 7) + [0]) + x.extra.owner
    + (Octal(|Data(x.member)|, 11) + [0]) + x.extra.time
  }

  /** The fields after it. */
  function Back(x: Item): (s: seq<Byte>)
    requires Printable(x)
    ensures |s| == 356
  {
    [x.kind] + x.extra.middle + Padded(JoinPath(x.prefix), 155) + x.extra.tail
  }

  function Checksum(x: Item): nat
    requires Printable(x)
  {
    Weight(Front(x)) + 8 * 32 + Weight(Back(x))
  }

  function Header(x: Item): (s: seq<Byte>)
    requires Printable(x)
    ensures |s| == 512
  {
    Front(x) + (Octal(Checksum(x), 6) + [0, 32]) + Back(x)
  }

  function PrintItem(x: Item): seq<Byte>
    requires Printable(x)
  {
    Header(x) + Data(x.member) + Zeros(BlocksOf(x.member) - 512 - |Data(x.member)|)
  }

  function Print(items: seq<Item>): seq<Byte>
    requires forall i | 0 <= i < |items| :: Printable(items[i])
  {
    if items == [] then [] else PrintItem(items[0]) + Print(items[1..])
  }

  /** A whole archive, with any amount of zero padding. */
  function Archive(items: seq<Item>, extra: nat): seq<Byte>
    requires forall i | 0 <= i < |items| :: Printable(items[i])
  {
    Print(items) + Zeros(1024 + extra)
  }

  // ----- Fields -----

  lemma PaddedText(s: seq<Byte>, n: nat)
    requires |s| <= n && 0 !in s
    ensures Text(Padded(s, n), s)
  {
  }

  lemma {:induction false} OctalPlain(n: nat, k: nat)
    ensures 0 !in Octal(n, k)
  {
    if k != 0 {
      OctalPlain(n / 8, k - 1);
    }
  }

  lemma PrintedNumber(n: nat, k: nat, t: seq<Byte>)
    requires n < Power(8, k) && t != [] && t[0] == 0
    ensures Writes(Octal(n, k) + t, n)
  {
    OctalPlain(n, k);
    assert [] + Octal(n, k) + [] == Octal(n, k);
    assert WrittenAs(Octal(n, k) + t, n, [], k, []);
  }

  lemma {:induction false} WeightBound(s: seq<Byte>)
    ensures Weight(s) <= 255 * |s|
  {
    if s != [] {
      WeightBound(s[..|s| - 1]);
    }
  }

  // ----- Names -----

  lemma {:induction false} JoinCut(a: seq<seq<Byte>>, b: seq<seq<Byte>>)
    requires a != [] && b != []
    ensures JoinPath(a + b) == JoinPath(a) + [SLASH] + JoinPath(b)
  {
    if |a| == 1 {
      assert (a + b)[1..] == b;
    } else {
      JoinCut(a[1..], b);
      assert (a + b)[1..] == a[1..] + b;
      var j := JoinPath(b);
      assert a[0] + [SLASH] + (JoinPath(a[1..]) + [SLASH] + j) == a[0] + [SLASH] + JoinPath(a[1..]) + [SLASH] + j;
    }
  }

  /** A joined name is made of its parts' bytes and slashes. */
  lemma {:induction false} JoinAvoids(parts: seq<seq<Byte>>, c: Byte)
    requires c != SLASH && forall i | 0 <= i < |parts| :: c !in parts[i]
    ensures c !in JoinPath(parts)
  {
    if |parts| > 1 {
      JoinAvoids(parts[1..], c);
    }
  }

  lemma JoinBegins(parts: seq<seq<Byte>>)
    requires parts != [] && SLASH !in parts[0] && (|parts| == 1 || parts[0] != [])
    ensures JoinPath(parts) == [] || JoinPath(parts)[0] != SLASH
    ensures parts[0] != [] ==> JoinPath(parts) != []
  {
  }

  /** The two name fields together name the member's path. */
  lemma SpellingNames(x: Item)
    requires GoodSpelling(x)
    ensures Names(FullName(JoinPath(x.prefix), JoinPath(x.name)), x.member.path)
  {
    var parts := x.prefix + x.name;
    if x.prefix == [] {
      assert parts == x.name;
    } else {
      JoinCut(x.prefix, x.name);
      JoinBegins(x.prefix);
    }
    JoinBegins(parts);
    JoinAvoids(parts, BACKSLASH);
    assert SpelledAs(JoinPath(parts), parts, x.member.path);
  }

  // ----- Headers -----

  /** The fields extraction reads are the ones that were printed. */
  lemma FieldsPrinted(x: Item)
    requires Printable(x)
    ensures var h := Header(x);
            && h[0..100] == Padded(JoinPath(x.name), 100) && h[345..500] == Padded(JoinPath(x.prefix), 155)
            && h[100..108] == Octal(ModeOf(x.member), 7) + [0]
            && h[124..136] == Octal(|Data(x.member)|, 11) + [0] && h[156] == x.kind
            && h[148..156] == Octal(Checksum(x), 6) + [0, 32] && h[..148] == Front(x) && h[156..] == Back(x)
  {
  }

  lemma NamePrinted(x: Item)
    requires Printable(x)
    ensures Named(Header(x), x.member.path)
  {
    FieldsPrinted(x);
    JoinAvoids(x.name, 0);
    JoinAvoids(x.prefix, 0);
    PaddedText(JoinPath(x.name), 100);
    PaddedText(JoinPath(x.prefix), 155);
    SpellingNames(x);
    assert NamedBy(Header(x), JoinPath(x.prefix), JoinPath(x.name), x.member.path);
  }

  lemma ChecksumPrinted(x: Item)
    requires Printable(x)
    ensures Checked(Header(x))
  {
    FieldsPrinted(x);
    WeightBound(Front(x));
    WeightBound(Back(x));
    assert Power(8, 6) == 262144;
    PrintedNumber(Checksum(x), 6, [0, 32]);
  }

  lemma ModePrinted(mode: nat)
    requires mode < 512
    ensures HasMode(Octal(mode, 7) + [0], mode)
  {
    assert Power(8, 7) == 2097152;
    PrintedNumber(mode, 7, [0]);
  }

  lemma SizePrinted(x: Item)
    requires Printable(x)
    ensures Writes(Header(x)[124..136], |Data(x.member)|)
  {
    FieldsPrinted(x);
    PrintedNumber(|Data(x.member)|, 11, [0]);
  }

  lemma KindPrinted(x: Item)
    requires Printable(x)
    ensures var h, m := Header(x), x.member;
            if m.Directory? then h[156] == 53
            else h[156] in {0, 48} && m.path != [] && HasMode(h[100..108], m.mode)
  {
    FieldsPrinted(x);
    ModePrinted(ModeOf(x.member));
  }

  /** A printed header describes its member, however the path is spelled and split. */
  lemma HeaderPrinted(x: Item)
    requires Printable(x)
    ensures Describes(Header(x), x.member)
  {
    NamePrinted(x);
    ChecksumPrinted(x);
    SizePrinted(x);
    KindPrinted(x);
  }

  // ----- Archives -----

  function MembersOf(items: seq<Item>): seq<Member> {
    if items == [] then [] else [items[0].member] + MembersOf(items[1..])
  }

  /** Where a header, its content and its padding end. */
  lemma Cut(h: seq<Byte>, content: seq<Byte>, pad: seq<Byte>, rest: seq<Byte>)
    ensures var input := h + content + pad + rest;
            && input[..|h|] == h && input[|h| + |content| + |pad|..] == rest && input[|h|..|h| + |content|] == content
  {
  }

  lemma ItemLeads(x: Item, rest: seq<Byte>)
    requires Printable(x)
    ensures Leads(PrintItem(x) + rest, x.member) && (PrintItem(x) + rest)[BlocksOf(x.member)..] == rest
  {
    HeaderPrinted(x);
    Cut(Header(x), Data(x.member), Zeros(BlocksOf(x.member) - 512 - |Data(x.member)|), rest);
  }

  lemma ArchiveFirst(items: seq<Item>, extra: nat)
    requires items != [] && forall i | 0 <= i < |items| :: Printable(items[i])
    ensures Archive(items, extra) == PrintItem(items[0]) + Archive(items[1..], extra)
  {
  }

  /** What is printed is an archive of the members. */
  lemma {:induction false} ArchivePrinted(items: seq<Item>, extra: nat)
    requires forall i | 0 <= i < |items| :: Printable(items[i])
    ensures IsArchive(Archive(items, extra), MembersOf(items))
  {
    if items == [] {
      assert Archive(items, extra) == Zeros(1024 + extra);
    } else {
      ArchiveFirst(items, extra);
      ArchivePrinted(items[1..], extra);
      ItemLeads(items[0], Archive(items[1..], extra));
      assert MembersOf(items)[1..] == MembersOf(items[1..]);
    }
  }

  /** Extracting a printed archive into an empty directory succeeds exactly when its members can stand
      together and the limits are kept, and then leaves exactly those paths, modes and bytes. */
  method ExtractPrinted(items: seq<Item>, extra: nat) returns (ok: bool, tree: Tree)
    requires forall i | 0 <= i < |items| :: Printable(items[i])
    ensures ok <==> Extractable(MembersOf(items), |Archive(items, extra)|)
    ensures ok ==> IsTree(MembersOf(items), tree)
  {
    var input := Archive(items, extra);
    ArchivePrinted(items, extra);
    ParsesArchives(input);
    var destination := new Destination();
    ok := destination.Extract(input);
    tree := destination.T();
  }
}
