/** Extraction of uploaded build contexts: POSIX ustar archives of regular files and directories
(POSIX.1-2017, pax utility, "ustar Interchange Format"), from the decompressed bytes. */
module BuildContext {
  import opened Bytes
  import opened Options
  import opened Totals
  import opened UstarFormat
  import opened UstarParser

  const MAX_EXPANDED := 256 * 1024 * 1024
  const MAX_ENTRIES := 10000

  // ----- The extracted tree -----

  datatype Node = Node(mode: nat, content: seq<Byte>)

  datatype Tree = Tree(dirs: set<Path>, files: map<Path, Node>)

  const EMPTY := Tree({}, map[])

  /** The nonempty prefixes of a path, itself included. */
  function Prefixes(path: Path): set<Path> {
    set i | 1 <= i <= |path| :: path[..i]
  }

  function Parent(path: Path): Path {
    if path == [] then [] else path[..|path| - 1]
  }

  /** The directories that a member needs. */
  function Needs(m: Member): set<Path> {
    Prefixes(if m.File? then Parent(m.path) else m.path)
  }

  /** The files of a tree are those that the members ask for. */
  ghost predicate FilesOf(ms: seq<Member>, files: map<Path, Node>) {
    && (forall p | p in files :: exists m :: m in ms && m == File(p, files[p].mode, files[p].content))
    && (forall m | m in ms && m.File? :: m.path in files && files[m.path] == Node(m.mode, m.content))
  }

  /** The directories of a tree are those that the members need. */
  ghost predicate DirsOf(ms: seq<Member>, dirs: set<Path>) {
    && (forall p | p in dirs :: exists m :: m in ms && p in Needs(m))
    && (forall m | m in ms :: Needs(m) <= dirs)
  }

  /** Exactly the files and directories that the members ask for. */
  ghost predicate IsTree(ms: seq<Member>, t: Tree) {
    FilesOf(ms, t.files) && DirsOf(ms, t.dirs)
  }

  /** No path is given twice. */
  ghost predicate Distinct(ms: seq<Member>) {
    forall i, j | 0 <= i < j < |ms| && ms[i].path == ms[j].path :: ms[i].path == []
  }

  /** No file stands where another member needs a directory. */
  ghost predicate Nests(ms: seq<Member>) {
    forall a, b | a in ms && b in ms && a.File? :: a.path !in Needs(b)
  }

  ghost predicate Consistent(ms: seq<Member>) {
    Distinct(ms) && Nests(ms)
  }

  /** The members ask for a tree that can exist and that stays within the limits; `length` is the
      length of the whole archive. */
  ghost predicate Extractable(ms: seq<Member>, length: int) {
    Consistent(ms) && |ms| <= MAX_ENTRIES && length <= MAX_EXPANDED + 1024
  }

  function Placed(t: Tree, m: Member): Tree {
    Tree(t.dirs + Needs(m), if m.File? then t.files[m.path := Node(m.mode, m.content)] else t.files)
  }

  /** The member collides with none of the paths and files that are there. */
  ghost predicate Fits(seen: set<Path>, t: Tree, m: Member) {
    && (m.path == [] || m.path !in seen)
    && (forall p | p in Needs(m) :: p !in t.files)
    && (m.File? ==> m.path !in t.dirs)
  }

  ghost predicate Seen(seen: set<Path>, ms: seq<Member>) {
    && (forall m | m in ms && m.path != [] :: m.path in seen)
    && (forall p | p in seen :: exists m :: m in ms && m.path == p)
  }

  lemma NeedsNotSelf(m: Member)
    ensures m.File? ==> m.path !in Needs(m)
  {
  }

  lemma FitsKeeps(seen: set<Path>, ms: seq<Member>, t: Tree, m: Member)
    requires IsTree(ms, t) && Seen(seen, ms) && Consistent(ms) && Fits(seen, t, m)
    requires m.File? ==> m.path != []
    ensures IsTree(ms + [m], Placed(t, m)) && Consistent(ms + [m])
  {
    NeedsNotSelf(m);
    NextTree(seen, ms, t, m);
    NextDistinct(seen, ms, m);
    NextNests(ms, t, m);
  }

  lemma NextTree(seen: set<Path>, ms: seq<Member>, t: Tree, m: Member)
    requires IsTree(ms, t) && Seen(seen, ms) && (m.path == [] || m.path !in seen)
    requires m.File? ==> m.path != []
    ensures IsTree(ms + [m], Placed(t, m))
  {
    NextFiles(seen, ms, t.files, m);
    NextDirs(ms, t.dirs, m);
  }

  lemma NextFiles(seen: set<Path>, ms: seq<Member>, files: map<Path, Node>, m: Member)
    requires FilesOf(ms, files) && Seen(seen, ms) && (m.File? ==> m.path != [] && m.path !in seen)
    ensures FilesOf(ms + [m], if m.File? then files[m.path := Node(m.mode, m.content)] else files)
  {
    var next := ms + [m];
    var after := if m.File? then files[m.path := Node(m.mode, m.content)] else files;
    assert m in next && forall x | x in ms :: x in next;
    forall p | p in after ensures exists x :: x in next && x == File(p, after[p].mode, after[p].content) {
      if m.File? && p == m.path {
        assert m == File(p, after[p].mode, after[p].content);
      } else {
        assert p in files;
      }
    }
  }

  lemma NextDirs(ms: seq<Member>, dirs: set<Path>, m: Member)
    requires DirsOf(ms, dirs)
    ensures DirsOf(ms + [m], dirs + Needs(m))
  {
  }

  lemma NextDistinct(seen: set<Path>, ms: seq<Member>, m: Member)
    requires Distinct(ms) && Seen(seen, ms) && (m.path == [] || m.path !in seen)
    ensures Distinct(ms + [m])
  {
  }

  lemma NextNests(ms: seq<Member>, t: Tree, m: Member)
    requires IsTree(ms, t) && Nests(ms) && (m.File? ==> m.path !in Needs(m))
    requires (forall p | p in Needs(m) :: p !in t.files) && (m.File? ==> m.path !in t.dirs)
    ensures Nests(ms + [m])
  {
  }

  /** A member that does not fit makes every list that it continues inconsistent. */
  lemma Clash(seen: set<Path>, ms: seq<Member>, t: Tree, m: Member, more: seq<Member>)
    requires IsTree(ms, t) && Seen(seen, ms) && !Fits(seen, t, m)
    ensures !Consistent(ms + [m] + more)
  {
    var all := ms + [m] + more;
    assert all[|ms|] == m && forall x | x in ms :: x in all;
    if m.path != [] && m.path in seen {
      var x :| x in ms && x.path == m.path;
      var i :| 0 <= i < |ms| && ms[i] == x;
      assert all[i] == x;
    } else if m.File? && m.path in t.dirs {
      var x :| x in ms && m.path in Needs(x);
    } else {
      var p :| p in Needs(m) && p in t.files;
      var x :| x in ms && x == File(p, t.files[p].mode, t.files[p].content);
    }
  }

  // ----- Containment -----

  /** A component that leads nowhere but down. */
  predicate SafePart(part: seq<Byte>) {
    Kept(part) && part != [DOT, DOT] && SLASH !in part && BACKSLASH !in part && 0 !in part
  }

  predicate SafePath(path: Path) {
    forall i | 0 <= i < |path| :: SafePart(path[i])
  }

  ghost predicate Contained(t: Tree) {
    && (forall p | p in t.dirs :: p != [] && SafePath(p))
    && (forall p | p in t.files :: p != [] && SafePath(p))
  }

  /** A split only cuts. */
  lemma {:induction false} SplitFrom(s: seq<Byte>, c: Byte)
    requires c !in s
    ensures forall i | 0 <= i < |Split(s)| :: c !in Split(s)[i]
  {
    if s != [] {
      SplitFrom(s[1..], c);
    }
  }

  lemma {:induction false} ComponentsFrom(parts: seq<seq<Byte>>, i: nat)
    requires i < |Components(parts)|
    ensures Components(parts)[i] in parts && Kept(Components(parts)[i])
  {
    var k := if Kept(parts[0]) then 1 else 0;
    if i >= k {
      ComponentsFrom(parts[1..], i - k);
    }
  }

  /** Whatever a header says, its path stays below the destination. */
  lemma HeadSafe(h: seq<Byte>)
    requires |h| == 512 && HeadOf(h).Some?
    ensures SafePath(HeadOf(h).value.path)
  {
    var name, path := NameOf(h), HeadOf(h).value.path;
    assert 0 !in name;
    SplitFrom(name, 0);
    SplitFrom(name, BACKSLASH);
    forall i | 0 <= i < |path| ensures SafePart(path[i]) {
      ComponentsFrom(Split(name), i);
    }
  }

  function Sizes(files: map<Path, Node>): map<Path, nat> {
    map p | p in files :: |files[p].content|
  }

  /** At most so many bytes in at most so many files. */
  ghost predicate Within(t: Tree, bytes: int, count: int) {
    Total(Sizes(t.files)) <= bytes && |t.files| <= count
  }

  lemma SizesWrite(files: map<Path, Node>, path: Path, node: Node)
    requires path !in files
    ensures Total(Sizes(files[path := node])) == Total(Sizes(files)) + |node.content|
    ensures |files[path := node]| == |files| + 1
  {
    assert Sizes(files[path := node]) == Sizes(files)[path := |node.content|];
    TotalWrite(Sizes(files), path, |node.content|);
    assert Sizes(files) - {path} == Sizes(files);
  }

  // ----- What parsing says about the rest -----

  lemma {:induction false} ParseLength(input: seq<Byte>)
    requires Parse(input).Some?
    ensures |input| >= 1024
  {
  }

  lemma ContinuedTwice(done: seq<Member>, m: Member, rest: Option<seq<Member>>)
    ensures Continued(done, Continued([m], rest)) == Continued(done + [m], rest)
  {
    assert rest.Some? ==> done + ([m] + rest.value) == done + [m] + rest.value;
  }

  /** A parse that succeeds takes the first header at its word. */
  lemma ParseFirst(input: seq<Byte>) returns (m: Member, more: seq<Member>)
    requires |input| >= 512 && !Zero(input[..512]) && Parse(input).Some?
    ensures HeadOf(input[..512]).Some? && NextAt(HeadOf(input[..512]).value) + 1024 <= |input|
    ensures m.path == HeadOf(input[..512]).value.path && m.Directory? == HeadOf(input[..512]).value.directory
    ensures Parse(input) == Some([m] + more)
  {
    var head := HeadOf(input[..512]).value;
    ParseLength(input[NextAt(head)..]);
    m, more := MemberOf(head, input), Parse(input[NextAt(head)..]).value;
  }

  // ----- The loop -----

  /** The members read so far are in place, within the limits. */
  ghost predicate Built(done: seq<Member>, seen: set<Path>, t: Tree, total: int, entries: int) {
    Seen(seen, done) && Consistent(done) && IsTree(done, t) && Contained(t) && Within(t, total, entries)
  }

  /** Where the loop is: what it has read, what it has made of it, and what is still to come. */
  ghost predicate Progress(
    input: seq<Byte>, rest: seq<Byte>, done: seq<Member>, seen: set<Path>, t: Tree, total: int, entries: int) {
    && Parse(input) == Continued(done, Parse(rest)) && total == |input| - |rest| <= MAX_EXPANDED
    && entries == |done| <= MAX_ENTRIES && Built(done, seen, t, total, entries)
  }

  ghost predicate Refused(input: seq<Byte>) {
    Parse(input).Some? ==> !Extractable(Parse(input).value, |input|)
  }

  /** A member with the path and kind of a header. */
  function Outline(head: Head): Member {
    if head.directory then Directory(head.path) else File(head.path, 0, [])
  }

  lemma TooMany(
    input: seq<Byte>, rest: seq<Byte>, done: seq<Member>, seen: set<Path>, t: Tree, total: int, entries: int)
    requires Progress(input, rest, done, seen, t, total, entries) && entries == MAX_ENTRIES
    requires |rest| >= 512 && !Zero(rest[..512])
    ensures Refused(input)
  {
  }

  lemma TooLarge(
    input: seq<Byte>, rest: seq<Byte>, done: seq<Member>, seen: set<Path>, t: Tree, total: int, entries: int)
    requires Progress(input, rest, done, seen, t, total, entries)
    requires |rest| >= 512 && !Zero(rest[..512]) && HeadOf(rest[..512]).Some?
    requires total + NextAt(HeadOf(rest[..512]).value) > MAX_EXPANDED
    ensures Refused(input)
  {
    if Parse(rest).Some? {
      var m, more := ParseFirst(rest);
    }
  }

  lemma Misfit(
    input: seq<Byte>, rest: seq<Byte>, done: seq<Member>, seen: set<Path>, t: Tree, total: int, entries: int)
    requires Progress(input, rest, done, seen, t, total, entries)
    requires |rest| >= 512 && !Zero(rest[..512]) && HeadOf(rest[..512]).Some?
    requires !Fits(seen, t, Outline(HeadOf(rest[..512]).value))
    ensures Refused(input)
  {
    if Parse(rest).Some? {
      var m, more := ParseFirst(rest);
      SameFit(seen, t, m, Outline(HeadOf(rest[..512]).value));
      Clash(seen, done, t, m, more);
      assert done + ([m] + more) == done + [m] + more;
    }
  }

  /** Only the path and the kind of a member decide whether it fits. */
  lemma SameFit(seen: set<Path>, t: Tree, m: Member, x: Member)
    requires m.path == x.path && m.Directory? == x.Directory?
    ensures Fits(seen, t, m) == Fits(seen, t, x)
  {
  }

  lemma Advance(
    input: seq<Byte>, rest: seq<Byte>, done: seq<Member>, seen: set<Path>, t: Tree, total: int, entries: int,
    head: Head)
    requires Progress(input, rest, done, seen, t, total, entries) && entries < MAX_ENTRIES
    requires |rest| >= NextAt(head) && !Zero(rest[..512]) && HeadOf(rest[..512]) == Some(head)
    requires (head.directory || head.mode.Some?) && Fits(seen, t, Outline(head))
    requires total + NextAt(head) <= MAX_EXPANDED
    ensures Progress(input, rest[NextAt(head)..], done + [MemberOf(head, rest)],
                     if head.path == [] then seen else seen + {head.path},
                     Placed(t, MemberOf(head, rest)), total + NextAt(head), entries + 1)
  {
    var m := MemberOf(head, rest);
    AdvanceParse(input, rest, done, head);
    SameFit(seen, t, m, Outline(head));
    HeadSafe(rest[..512]);
    AdvanceBuilt(seen, done, t, m, total, entries);
    assert (if m.File? then |m.content| else 0) <= NextAt(head);
  }

  lemma AdvanceParse(input: seq<Byte>, rest: seq<Byte>, done: seq<Member>, head: Head)
    requires Parse(input) == Continued(done, Parse(rest))
    requires |rest| >= NextAt(head) && !Zero(rest[..512]) && HeadOf(rest[..512]) == Some(head)
    requires head.directory || head.mode.Some?
    ensures Parse(input) == Continued(done + [MemberOf(head, rest)], Parse(rest[NextAt(head)..]))
  {
    ParseStep(rest, head);
    ContinuedTwice(done, MemberOf(head, rest), Parse(rest[NextAt(head)..]));
  }

  lemma AdvanceBuilt(seen: set<Path>, done: seq<Member>, t: Tree, m: Member, total: int, entries: int)
    requires Built(done, seen, t, total, entries) && Fits(seen, t, m) && SafePath(m.path) && (m.File? ==> m.path != [])
    ensures Built(done + [m], if m.path == [] then seen else seen + {m.path}, Placed(t, m),
                  total + if m.File? then |m.content| else 0, entries + 1)
  {
    FitsKeeps(seen, done, t, m);
    AdvanceSeen(seen, done, m);
    AdvanceBounds(seen, done, t, m, total, entries);
  }

  lemma AdvanceSeen(seen: set<Path>, done: seq<Member>, m: Member)
    requires Seen(seen, done)
    ensures Seen(if m.path == [] then seen else seen + {m.path}, done + [m])
  {
  }

  lemma AdvanceBounds(seen: set<Path>, done: seq<Member>, t: Tree, m: Member, total: int, entries: int)
    requires Contained(t) && Within(t, total, entries) && IsTree(done, t) && Seen(seen, done) && SafePath(m.path)
    requires (m.File? ==> m.path != []) && (m.path == [] || m.path !in seen)
    ensures Contained(Placed(t, m))
    ensures Within(Placed(t, m), total + if m.File? then |m.content| else 0, entries + 1)
  {
    NeedsSafe(m);
    if m.File? {
      SeenFiles(seen, done, t, m.path);
      SizesWrite(t.files, m.path, Node(m.mode, m.content));
    }
  }

  lemma NeedsSafe(m: Member)
    requires SafePath(m.path)
    ensures forall p | p in Needs(m) :: p != [] && SafePath(p)
  {
  }

  /** An extraction that was cut short has left part of one member at most. */
  ghost predicate Partly(t: Tree, u: Tree, head: Head) {
    && t.dirs <= u.dirs <= t.dirs + Needs(Outline(head))
    && (u.files == t.files
        || (head.path in u.files && |u.files[head.path].content| <= head.size
            && u.files == t.files[head.path := u.files[head.path]]))
  }

  lemma PartlyBounds(t: Tree, u: Tree, head: Head, total: int, entries: int)
    requires Contained(t) && Within(t, total, entries) && Partly(t, u, head)
    requires SafePath(head.path) && head.path != [] && head.path !in t.files
    ensures Contained(u) && Within(u, total + head.size, entries + 1)
  {
    if u.files != t.files {
      SizesWrite(t.files, head.path, u.files[head.path]);
    }
  }

  /** The destination directory. */
  class Destination {
    var dirs: set<Path>
    var files: map<Path, Node>

    function T(): Tree
      reads this
    {
      Tree(dirs, files)
    }

    constructor ()
      ensures T() == EMPTY
    {
      dirs, files := {}, map[];
    }

    /** `Dir.mkdir_p`: fails at the first prefix that is a file. */
    method MakeDirs(path: Path) returns (ok: bool)
      modifies `dirs
      ensures ok <==> forall p | p in Prefixes(path) :: p !in files
      ensures old(dirs) <= dirs <= old(dirs) + Prefixes(path)
      ensures ok ==> dirs == old(dirs) + Prefixes(path)
    {
      for i := 0 to |path|
        invariant forall k | 1 <= k <= i :: path[..k] !in files
        invariant dirs == old(dirs) + set k | 1 <= k <= i :: path[..k]
      {
        if path[..i + 1] in files {
          assert path[..i + 1] in Prefixes(path);
          return false;
        }
        dirs := dirs + {path[..i + 1]};
      }
      ok := true;
    }

    /** A regular file, opened for the first and only time. */
    method CreateFile(head: Head, data: seq<Byte>) returns (ok: bool)
      requires !head.directory && head.path != [] && head.path !in files
      modifies this
      ensures Partly(old(T()), T(), head)
      ensures ok <==> (forall p | p in Needs(Outline(head)) :: p !in old(files)) && head.path !in old(dirs)
                      && |data| >= head.size && head.mode.Some?
      ensures ok ==> T() == Tree(old(dirs) + Needs(Outline(head)),
                                 old(files)[head.path := Node(head.mode.value % 512, data[..head.size])])
    {
      NeedsNotSelf(Outline(head));
      ok := MakeDirs(Parent(head.path));
      if !ok || head.path in dirs {
        return false;
      }
      var content := if |data| < head.size then data else data[..head.size];
      files := files[head.path := Node(384, content)];
      if |content| != head.size || head.mode.None? {
        return false;
      }
      files := files[head.path := Node(head.mode.value % 512, content)];
    }

    /** The blocks after the first zero block, in reads of at most 4096 bytes. */
    method ReadPadding(rest: seq<Byte>, total: nat) returns (ok: bool)
      requires |rest| >= 512 && Zero(rest[..512]) && total <= MAX_EXPANDED
      ensures ok <==> Terminated(rest) && total + |rest| <= MAX_EXPANDED + 1024
    {
      if |rest| < 1024 || !Zero(rest[512..1024]) {
        return false;
      }
      assert Zero(rest[..1024]) by {
        assert rest[..1024] == rest[..512] + rest[512..1024];
      }
      var pos, sum := 1024, total;
      while pos < |rest|
        invariant 1024 <= pos <= |rest| && sum == total + pos - 1024 <= MAX_EXPANDED && Zero(rest[..pos])
      {
        var n := if |rest| - pos < 4096 then |rest| - pos else 4096;
        sum := sum + n;
        if !Zero(rest[pos..pos + n]) || sum > MAX_EXPANDED {
          return false;
        }
        assert rest[..pos + n] == rest[..pos] + rest[pos..pos + n];
        pos := pos + n;
      }
      assert rest[..pos] == rest;
      ok := true;
    }

    /** A directory or a file, unless its path was seen before or something is in the way. */
    method Place(seen: set<Path>, head: Head, data: seq<Byte>) returns (ok: bool)
      requires head.path != [] && (head.path !in seen ==> head.path !in files)
      modifies this
      ensures if head.path in seen then !ok && T() == old(T()) else Partly(old(T()), T(), head)
      ensures ok <==> Fits(seen, old(T()), Outline(head)) && Whole(head, data)
      ensures ok ==> T() == Placed(old(T()), Contents(head, data))
    {
      if head.path in seen {
        return false;
      }
      if head.directory {
        ok := MakeDirs(head.path);
      } else {
        ok := CreateFile(head, data);
      }
    }

    /** One member whose header was accepted. */
    method ExtractMember(
      ghost input: seq<Byte>, rest: seq<Byte>, ghost done: seq<Member>, seen: set<Path>, ghost total: int,
      ghost entries: int, head: Head)
      returns (ok: bool)
      requires Progress(input, rest, done, seen, T(), total, entries) && entries < MAX_ENTRIES
      requires |rest| >= 512 && !Zero(rest[..512]) && HeadOf(rest[..512]) == Some(head) && head.path != []
      requires total + NextAt(head) <= MAX_EXPANDED
      modifies this
      ensures !ok ==> Refused(input) && Contained(T()) && Within(T(), total + head.size, entries + 1)
      ensures ok ==> |rest| >= NextAt(head) && (head.directory || head.mode.Some?)
      ensures ok ==> Fits(seen, old(T()), Outline(head)) && T() == Placed(old(T()), MemberOf(head, rest))
    {
      HeadSafe(rest[..512]);
      SeenFiles(seen, done, T(), head.path);
      var known := head.path in seen;
      ok := Place(seen, head, rest[512..]);
      if !known {
        PartlyBounds(old(T()), T(), head, total, entries);
      }
      if !Fits(seen, old(T()), Outline(head)) {
        Misfit(input, rest, done, seen, old(T()), total, entries);
      }
      ok := ok && |rest| >= NextAt(head);
    }

    /** `extract`: whatever the bytes, what is written stays below the destination and within the limits;
        and it succeeds on exactly the archives of extractable members, in whatever spelling, leaving
        exactly their tree. */
    method Extract(input: seq<Byte>) returns (ok: bool)
      requires T() == EMPTY
      modifies this
      ensures Contained(T()) && Within(T(), MAX_EXPANDED, MAX_ENTRIES)
      ensures ok <==> exists ms :: IsArchive(input, ms) && Extractable(ms, |input|)
      ensures forall ms | ok && IsArchive(input, ms) :: IsTree(ms, T())
    {
      ok := Unpack(input);
      ParsesArchives(input);
    }

    /** The loop over the members, against what the parser makes of the whole. */
    method Unpack(input: seq<Byte>) returns (ok: bool)
      requires T() == EMPTY
      modifies this
      ensures Contained(T()) && Within(T(), MAX_EXPANDED, MAX_ENTRIES)
      ensures ok <==> Parse(input).Some? && Extractable(Parse(input).value, |input|)
      ensures ok ==> IsTree(Parse(input).value, T())
    {
      var rest, seen, total, entries := input, {}, 0, 0;
      ghost var done := [];
      NothingDone(input);
      while |rest| >= 512 && !Zero(rest[..512])
        invariant Progress(input, rest, done, seen, T(), total, entries)
        decreases |rest|
      {
        if entries + 1 > MAX_ENTRIES {
          TooMany(input, rest, done, seen, T(), total, entries);
          return false;
        }
        var h := HeadOf(rest[..512]);
        if h.None? {
          return false;
        }
        var head := h.value;
        if total + NextAt(head) > MAX_EXPANDED {
          TooLarge(input, rest, done, seen, T(), total, entries);
          return false;
        }
        ghost var before := T();
        if head.path != [] {
          ok := ExtractMember(input, rest, done, seen, total, entries, head);
          if !ok {
            return;
          }
        }
        if |rest| < NextAt(head) {
          return false;
        }
        Advance(input, rest, done, seen, before, total, entries, head);
        done := done + [MemberOf(head, rest)];
        seen := if head.path == [] then seen else seen + {head.path};
        total, entries := total + NextAt(head), entries + 1;
        rest := rest[NextAt(head)..];
      }
      if |rest| < 512 {
        return false;
      }
      ok := ReadPadding(rest, total);
      assert ok ==> done + [] == done;
    }
  }

  lemma NothingDone(input: seq<Byte>)
    ensures Progress(input, input, [], {}, EMPTY, 0, 0)
  {
    assert Parse(input).Some? ==> [] + Parse(input).value == Parse(input).value;
    assert Sizes(EMPTY.files) == map[];
  }

  lemma SeenFiles(seen: set<Path>, done: seq<Member>, t: Tree, path: Path)
    requires IsTree(done, t) && Seen(seen, done) && path != []
    ensures path !in seen ==> path !in t.files
  {
  }
}
