/** Watching a response go by: complete lines are looked at one at a time, lines that are too
    long are thrown away whole, and it makes no difference how the bytes arrive. */
module ContentProbe {
  import opened Text

  newtype byte = x: int | 0 <= x < 256

  const NEWLINE: byte := 10
  const LIMIT: nat := 65536

  /** What one line does to the probe's findings; JSON is not looked into here. */
  type Frame<!F> = (F, seq<byte>) -> F

  datatype Probe<F> = Probe(buffer: seq<byte>, discard: bool, truncated: bool, findings: F)

  function Start<F>(none: F): Probe<F> {
    Probe([], false, false, none)
  }

  function Appended<F>(p: Probe<F>, data: seq<byte>): Probe<F> {
    if p.discard then p
    else if |p.buffer| + |data| > LIMIT then p.(buffer := [], discard := true, truncated := true)
    else p.(buffer := p.buffer + data)
  }

  function EndLine<F>(frame: Frame<F>, p: Probe<F>): Probe<F> {
    p.(buffer := [], discard := false, findings := if p.discard then p.findings else frame(p.findings, p.buffer))
  }

  /** The probe after one byte, and after many. */
  function Step<F>(frame: Frame<F>, p: Probe<F>, b: byte): Probe<F> {
    if b == NEWLINE then EndLine(frame, p) else Appended(p, [b])
  }

  function Fed<F>(frame: Frame<F>, p: Probe<F>, data: seq<byte>): Probe<F> {
    if data == [] then p else Step(frame, Fed(frame, p, data[..|data| - 1]), data[|data| - 1])
  }

  /** Chunking never matters: feeding a and then b is feeding a + b. */
  lemma {:induction false} ChunkingIndependent<F>(frame: Frame<F>, p: Probe<F>, a: seq<byte>, b: seq<byte>)
    ensures Fed(frame, p, a + b) == Fed(frame, Fed(frame, p, a), b)
    decreases |b|
  {
    if b == [] {
      assert a + b == a;
    } else {
      var n := |b| - 1;
      assert (a + b)[..|a + b| - 1] == a + b[..n];
      ChunkingIndependent(frame, p, a, b[..n]);
    }
  }

  predicate OneLine(line: seq<byte>) {
    forall i :: 0 <= i < |line| ==> line[i] != 10
  }

  lemma FedOne<F>(frame: Frame<F>, p: Probe<F>, data: seq<byte>, b: byte)
    ensures Fed(frame, p, data + [b]) == Step(frame, Fed(frame, p, data), b)
  {
    assert (data + [b])[..|data|] == data;
  }

  /** A stretch without line ends may be appended in one go. */
  lemma {:induction false} AppendIsFed<F>(frame: Frame<F>, p: Probe<F>, data: seq<byte>)
    requires OneLine(data) && |p.buffer| <= LIMIT
    ensures Fed(frame, p, data) == Appended(p, data)
  {
    if data == [] {
      assert p.buffer + data == p.buffer;
    } else {
      var n := |data| - 1;
      AppendIsFed(frame, p, data[..n]);
      assert p.buffer + data[..n] + [data[n]] == p.buffer + data;
    }
  }

  // ---- what the probe has seen, read from the bytes alone --------------------------------

  /** The complete lines, and the unfinished one. */
  datatype Split = Split(lines: seq<seq<byte>>, tail: seq<byte>)

  function SplitLines(data: seq<byte>): Split {
    if data == [] then Split([], []) else
    var s, b := SplitLines(data[..|data| - 1]), data[|data| - 1];
    if b == 10 then Split(s.lines + [s.tail], []) else s.(tail := s.tail + [b])
  }

  function Joined(lines: seq<seq<byte>>): seq<byte> {
    if lines == [] then [] else Joined(lines[..|lines| - 1]) + lines[|lines| - 1] + [10]
  }

  lemma JoinedOne(lines: seq<seq<byte>>, line: seq<byte>)
    ensures Joined(lines + [line]) == Joined(lines) + line + [10]
  {
    assert (lines + [line])[..|lines|] == lines;
  }

  lemma OneLineMore(line: seq<byte>, b: byte)
    requires OneLine(line)
    ensures OneLine([]) && (b != 10 ==> OneLine(line + [b]))
  {
  }

  /** Splitting is what it should be: no piece holds a line end, and joining gives the bytes back. */
  lemma {:induction false} SplitMeans(data: seq<byte>)
    ensures var s := SplitLines(data);
            && data == Joined(s.lines) + s.tail && OneLine(s.tail)
            && forall i :: 0 <= i < |s.lines| ==> OneLine(s.lines[i])
  {
    if data == [] {
      assert Joined([]) + [] == data;
    } else {
      hide Joined, OneLine;
      var n := |data| - 1;
      var s, b := SplitLines(data[..n]), data[n];
      SplitMeans(data[..n]);
      SplitLast([], data);
      OneLineMore(s.tail, b);
      if b == 10 {
        JoinedOne(s.lines, s.tail);
        assert Joined(s.lines + [s.tail]) + [] == data;
      } else {
        Associate(Joined(s.lines), s.tail, [b]);
      }
    }
  }

  predicate Overlong(line: seq<byte>) {
    |line| > 65536
  }

  /** The findings from the lines that are not too long, in order. */
  function Findings<F>(frame: Frame<F>, none: F, lines: seq<seq<byte>>): F {
    if lines == [] then none else
    var before, last := Findings(frame, none, lines[..|lines| - 1]), lines[|lines| - 1];
    if Overlong(last) then before else frame(before, last)
  }

  predicate AnyOverlong(lines: seq<seq<byte>>) {
    exists i :: 0 <= i < |lines| && Overlong(lines[i])
  }

  /** The probe's whole state is a function of the bytes seen so far: findings come from every
      complete line of at most 64 KiB, longer lines leave nothing but the mark, and the
      buffer never holds more than the unfinished line. */
  lemma {:induction false} ProbeMeans<F>(frame: Frame<F>, none: F, data: seq<byte>)
    ensures var s := SplitLines(data);
            Fed(frame, Start(none), data) ==
            Probe(if Overlong(s.tail) then [] else s.tail, Overlong(s.tail), AnyOverlong(s.lines) || Overlong(s.tail),
                  Findings(frame, none, s.lines))
  {
    if data != [] {
      var n := |data| - 1;
      ProbeMeans(frame, none, data[..n]);
      var s := SplitLines(data[..n]);
      OverlongOne(s.lines, s.tail);
      assert (s.lines + [s.tail])[..|s.lines|] == s.lines;
    }
  }

  lemma OverlongOne(lines: seq<seq<byte>>, line: seq<byte>)
    ensures AnyOverlong(lines + [line]) <==> AnyOverlong(lines) || Overlong(line)
  {
    hide Overlong;
    var all := lines + [line];
    if i :| 0 <= i < |lines| && Overlong(lines[i]) { assert all[i] == lines[i]; }
    if Overlong(line) { assert all[|lines|] == line; }
  }

  // ---- the probe object --------------------------------------------------------------------

  /** The position of the first line end, or -1. */
  method IndexNewline(data: seq<byte>) returns (index: int)
    ensures -1 <= index < |data|
    ensures index >= 0 ==> data[index] == NEWLINE && OneLine(data[..index])
    ensures index < 0 ==> OneLine(data)
  {
    for i := 0 to |data|
      invariant OneLine(data[..i])
    {
      if data[i] == NEWLINE { return i; }
    }
    assert data[..|data|] == data;
    return -1;
  }

  class ContentProbe<F> {
    const frame: Frame<F>
    var buffer: seq<byte>
    var discard: bool
    var truncated: bool
    var findings: F

    ghost predicate Valid()
      reads this
    {
      |buffer| <= LIMIT
    }

    ghost function Abs(): Probe<F>
      reads this
    {
      Probe(buffer, discard, truncated, findings)
    }

    constructor (frame: Frame<F>, none: F)
      ensures Valid() && Abs() == Start(none) && this.frame == frame
    {
      this.frame, buffer, discard, truncated, findings := frame, [], false, false, none;
    }

    method Append(data: seq<byte>)
      requires Valid()
      modifies this
      ensures Valid() && Abs() == Appended(old(Abs()), data)
    {
      if discard { return; }
      if |buffer| + |data| > LIMIT {
        buffer, discard, truncated := [], true, true;
        return;
      }
      buffer := buffer + data;
    }

    /** A piece of a line and the line end after it. */
    method FinishLine(piece: seq<byte>)
      requires Valid() && OneLine(piece)
      modifies this
      ensures Valid() && Abs() == Fed(frame, old(Abs()), piece + [NEWLINE])
    {
      AppendIsFed(frame, Abs(), piece);
      FedOne(frame, Abs(), piece, NEWLINE);
      hide Fed;
      Append(piece);
      if !discard {
        findings := frame(findings, buffer);
      }
      buffer, discard := [], false;
    }

    method Feed(data: seq<byte>)
      requires Valid()
      modifies this
      ensures Valid() && Abs() == Fed(frame, old(Abs()), data)
    {
      var rest := data;
      ghost var done: seq<byte> := [];
      while |rest| > 0
        invariant Valid() && data == done + rest
        invariant Abs() == Fed(frame, old(Abs()), done)
        decreases |rest|
      {
        var index := IndexNewline(rest);
        if index < 0 {
          AppendIsFed(frame, Abs(), rest);
          ChunkingIndependent(frame, old(Abs()), done, rest);
          Append(rest);
          return;
        }
        ChunkingIndependent(frame, old(Abs()), done, rest[..index] + [NEWLINE]);
        FinishLine(rest[..index]);
        assert rest == rest[..index] + [NEWLINE] + rest[index + 1..];
        done := done + (rest[..index] + [NEWLINE]);
        rest := rest[index + 1..];
      }
      assert done == data;
    }
  }
}
