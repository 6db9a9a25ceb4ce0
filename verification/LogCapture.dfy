/** Bounded capture of process output: the log collector's loop over reads, and the in-memory buffer
behind foreground execution. Both must keep a prefix of the stream that does not depend on how the
stream was cut up. */
module LogCapture {
  import opened Bytes

  /** One mebibyte. */
  const LIMIT := 1048576

  /** The first `room` bytes of a stream, or all of it. */
  function Kept(stream: seq<Byte>, room: nat): seq<Byte> {
    if |stream| <= room then stream else stream[..room]
  }

  /** How much a file of that size still takes. */
  function Room(size: nat): nat {
    if size < LIMIT then LIMIT - size else 0
  }

  /** Keeping piece by piece is keeping the whole. */
  lemma KeptNext(stream: seq<Byte>, chunk: seq<Byte>, room: nat)
    ensures Kept(stream + chunk, room) == Kept(stream, room) + Kept(chunk, room - |Kept(stream, room)|)
  {
  }

  /** A log on disk: the output file and whether the marker file is beside it. */
  datatype Log = Log(file: seq<Byte>, marker: bool)

  /** All of the stream that fits was added, and the marker set exactly if something was cut. */
  ghost predicate Whole(before: Log, after: Log, stream: seq<Byte>) {
    && after.file == before.file + Kept(stream, Room(|before.file|))
    && after.marker == (before.marker || |stream| > Room(|before.file|))
  }

  /** Part of what fits was added, and the marker set only if something had to be cut. */
  ghost predicate Partial(before: Log, after: Log, stream: seq<Byte>) {
    && before.file <= after.file <= before.file + Kept(stream, Room(|before.file|))
    && (after.marker ==> before.marker || |stream| > Room(|before.file|))
  }

  lemma WholeThenWhole(a: Log, b: Log, c: Log, s: seq<Byte>, t: seq<Byte>)
    requires Whole(a, b, s) && Whole(b, c, t)
    ensures Whole(a, c, s + t)
  {
  }

  lemma WholeThenPartial(a: Log, b: Log, c: Log, s: seq<Byte>, t: seq<Byte>)
    requires Whole(a, b, s) && Partial(b, c, t)
    ensures Partial(a, c, s + t)
  {
  }

  lemma PartialOfMore(a: Log, b: Log, s: seq<Byte>, t: seq<Byte>)
    requires Partial(a, b, s) && s <= t
    ensures Partial(a, b, t)
  {
  }

  class Collector {
    var file: seq<Byte>
    var marker: bool
    // How many writes have failed.
    ghost var faults: nat

    function L(): Log
      reads this
    {
      Log(file, marker)
    }

    constructor ()
      ensures L() == Log([], false)
    {
      file, marker, faults := [], false, 0;
    }

    /** Takes one read, cut to what is left. A failing write may leave any part of it. */
    method Keep(chunk: seq<Byte>, left: nat, truncated: bool) returns (ok: bool)
      requires left == Room(|file|) && (truncated ==> marker)
      modifies this
      ensures if ok then Whole(old(L()), L(), chunk) else Partial(old(L()), L(), chunk)
      ensures faults == old(faults) + if ok then 0 else 1
    {
      if |chunk| > left && !truncated {
        ok := *;
        if !ok {
          faults := faults + 1;
          return;
        }
        marker := true;
      }
      var keep := Kept(chunk, left);
      if keep == [] {
        return true;
      }
      ok := *;
      if ok {
        file := file + keep;
      } else {
        faults := faults + 1;
        var part :| 0 <= part <= |keep|;
        file := file + keep[..part];
      }
    }

    /** The reads up to the end or the first failure; `done` is how many were made. */
    method CaptureSome(pieces: seq<seq<Byte>>) returns (ok: bool, done: nat, drained: nat)
      modifies this
      ensures done <= |pieces| && drained == |Join(pieces[..done])| && (ok ==> done == |pieces|)
      ensures if ok then Whole(old(L()), L(), Join(pieces[..done])) else Partial(old(L()), L(), Join(pieces[..done]))
      ensures faults == old(faults) + if ok then 0 else 1
    {
      var left: nat := if |file| < LIMIT then LIMIT - |file| else 0;
      var truncated := false;
      drained, done, ok := 0, 0, true;
      while done < |pieces|
        invariant done <= |pieces| && drained == |Join(pieces[..done])| && ok && faults == old(faults)
        invariant Whole(old(L()), L(), Join(pieces[..done])) && left == Room(|file|) && (truncated ==> marker)
      {
        var chunk := pieces[done];
        ghost var before := L();
        ok := Keep(chunk, left, truncated);
        JoinNext(pieces, done);
        drained, done := drained + |chunk|, done + 1;
        if !ok {
          WholeThenPartial(old(L()), before, L(), Join(pieces[..done - 1]), chunk);
          return;
        }
        WholeThenWhole(old(L()), before, L(), Join(pieces[..done - 1]), chunk);
        truncated := truncated || |chunk| > left;
        left := left - |Kept(chunk, left)|;
      }
    }

    /** `captureLog`: drains the stream to the end whatever fails, and when nothing fails keeps exactly
        what fits and marks exactly what was cut. */
    method Capture(pieces: seq<seq<Byte>>, broken: bool) returns (ok: bool, drained: nat)
      modifies this
      ensures drained == |Join(pieces)| && ok == (faults == old(faults) && !broken)
      ensures if ok then Whole(old(L()), L(), Join(pieces)) else Partial(old(L()), L(), Join(pieces))
    {
      var done;
      ok, done, drained := CaptureSome(pieces);
      assert pieces[..|pieces|] == pieces;
      JoinPrefix(pieces, done);
      if !ok {
        PartialOfMore(old(L()), L(), Join(pieces[..done]), Join(pieces));
      }
      ghost var captured := L();
      while done < |pieces|
        invariant done <= |pieces| && drained == |Join(pieces[..done])| && L() == captured
        invariant faults == old(faults) + if ok then 0 else 1
      {
        JoinNext(pieces, done);
        drained, done := drained + |pieces[done]|, done + 1;
      }
      ok := ok && !broken;
    }
  }

  /** `limitedBuffer`; `written` is everything that was ever written to it. */
  class LimitedBuffer {
    var content: seq<Byte>
    var truncated: bool
    ghost var written: seq<Byte>

    ghost predicate Valid()
      reads this
    {
      content == Kept(written, LIMIT) && truncated == (|written| > LIMIT)
    }

    constructor ()
      ensures Valid() && written == []
    {
      content, truncated, written := [], false, [];
    }

    /** Claims to have taken all of it, so that the writer never blocks. */
    method Write(p: seq<Byte>) returns (n: nat)
      requires Valid()
      modifies this
      ensures Valid() && written == old(written) + p && n == |p|
    {
      n := |p|;
      var left := LIMIT - |content|;
      KeptNext(written, p, LIMIT);
      if |p| > left {
        content, truncated := content + p[..left], true;
      } else {
        content := content + p;
      }
      written := written + p;
    }
  }

  /** The collector and the buffer agree on every stream, however each of them receives it. */
  method Agree(pieces: seq<seq<Byte>>, writes: seq<seq<Byte>>)
    returns (ok: bool, file: seq<Byte>, marked: bool, content: seq<Byte>, truncated: bool)
    requires Join(pieces) == Join(writes)
    ensures content == Kept(Join(pieces), LIMIT) && truncated == (|Join(pieces)| > LIMIT)
    ensures ok ==> file == content && marked == truncated
    ensures file <= content && (marked ==> truncated)
  {
    var collector := new Collector();
    var drained;
    ok, drained := collector.Capture(pieces, false);
    file, marked := collector.file, collector.marker;
    var buffer := new LimitedBuffer();
    for i := 0 to |writes|
      invariant buffer.Valid() && buffer.written == Join(writes[..i])
    {
      JoinNext(writes, i);
      var n := buffer.Write(writes[i]);
    }
    assert writes[..|writes|] == writes;
    content, truncated := buffer.content, buffer.truncated;
  }
}
