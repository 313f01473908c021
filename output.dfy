/**
 * The output side of main.go: the writer the generated text goes to, and the
 * NewLineTracer that sits in front of it (main.go:105-115, 258-265).
 */
module Output {
  import opened Wrappers

  newtype byte = x: int | 0 <= x < 256

  type Bytes = seq<byte>

  const Newline: byte := 10

  /** Whether the last byte of `s` is a newline. */
  predicate EndsInNewline(s: Bytes) {
    |s| > 0 && s[|s| - 1] == Newline
  }

  /** The concatenation of a sequence of chunks, in order. */
  function Concat(chunks: seq<Bytes>): (r: Bytes)
    ensures chunks == [] ==> r == []
  {
    if chunks == [] then [] else Concat(chunks[..|chunks| - 1]) + chunks[|chunks| - 1]
  }

  lemma {:induction false} ConcatAppend(a: seq<Bytes>, b: seq<Bytes>)
    ensures Concat(a + b) == Concat(a) + Concat(b)
    decreases |b|
  {
    if b == [] {
      assert a + b == a;
    } else {
      var b' := b[..|b| - 1];
      assert (a + b)[..|a + b| - 1] == a + b';
      ConcatAppend(a, b');
    }
  }

  lemma ConcatSnoc(a: seq<Bytes>, p: Bytes)
    ensures Concat(a + [p]) == Concat(a) + p
  {
    assert (a + [p])[..|a + [p]| - 1] == a;
  }

  /** The last byte of a concatenation comes from its last non-empty chunk. */
  lemma EndsInNewlineAppend(a: Bytes, b: Bytes)
    ensures EndsInNewline(a + b) == if |b| > 0 then EndsInNewline(b) else EndsInNewline(a)
  {
    if b == [] { assert a + b == a; }
  }

  /** The text the program leaves behind for `text`: a newline is added only when the text
      does not already end in one (main.go:263-265). */
  function Terminated(text: Bytes): (r: Bytes)
    ensures EndsInNewline(r)
    ensures text <= r && |r| <= |text| + 1
    ensures EndsInNewline(text) <==> r == text
  {
    if EndsInNewline(text) then text else text + [Newline]
  }

  /** Terminating twice adds nothing more. */
  lemma TerminatedIdempotent(text: Bytes)
    ensures Terminated(Terminated(text)) == Terminated(text)
  {
  }

  /** The pieces among `pieces`, written one per call, that a sink with `left` successful
      writes to go actually takes: those before its first failing call. */
  function Landed(left: Option<nat>, pieces: seq<Bytes>): (r: seq<Bytes>)
    ensures |r| <= |pieces| && r == pieces[..|r|]
    ensures left.None? ==> r == pieces
    ensures left.Some? ==> |r| == if left.value < |pieces| then left.value else |pieces|
  {
    if left.None? || |pieces| <= left.value then pieces else pieces[..left.value]
  }

  /** The count of successful writes a sink has left after `k` more write calls. */
  function LeftAfter(left: Option<nat>, k: nat): (r: Option<nat>)
    ensures left.None? <==> r.None?
    ensures left.Some? ==> r.value + k >= left.value && (r.value == 0 || r.value + k == left.value)
  {
    if left.None? then None else if k <= left.value then Some(left.value - k) else Some(0)
  }

  lemma LeftAfterStep(left: Option<nat>, k: nat)
    ensures LeftAfter(LeftAfter(left, k), 1) == LeftAfter(left, k + 1)
  {
  }

  lemma LeftAfterAdd(left: Option<nat>, j: nat, k: nat)
    ensures LeftAfter(LeftAfter(left, j), k) == LeftAfter(left, j + k)
  {
  }

  /** Writing two runs of pieces one after the other: the second run meets the sink as the
      first one left it. */
  lemma LandedAppend(left: Option<nat>, a: seq<Bytes>, b: seq<Bytes>)
    ensures Landed(left, a + b) == Landed(left, a) + Landed(LeftAfter(left, |a|), b)
  {
    if left.Some? {
      if |a| >= left.value {
        assert (a + b)[..left.value] == a[..left.value];
      } else if |a| + |b| <= left.value {
      } else {
        assert (a + b)[..left.value] == a + b[..left.value - |a|];
      }
    }
  }

  /** Two runs of writes compose: what is traced, what lands and what is left after both. */
  lemma WriteRunsCompose(left: Option<nat>, a: seq<Bytes>, b: seq<Bytes>)
    ensures Concat(a + b) == Concat(a) + Concat(b)
    ensures Concat(Landed(left, a + b)) == Concat(Landed(left, a)) + Concat(Landed(LeftAfter(left, |a|), b))
    ensures LeftAfter(LeftAfter(left, |a|), |b|) == LeftAfter(left, |a + b|)
  {
    ConcatAppend(a, b);
    LandedAppend(left, a, b);
    ConcatAppend(Landed(left, a), Landed(LeftAfter(left, |a|), b));
    LeftAfterAdd(left, |a|, |b|);
  }

  /** Writing one more piece: it lands exactly when the sink still had a successful write left. */
  lemma {:induction false} LandedSnoc(left: Option<nat>, pieces: seq<Bytes>, p: Bytes)
    ensures Landed(left, pieces + [p]) ==
      if LeftAfter(left, |pieces|) == Some(0) then Landed(left, pieces) else Landed(left, pieces) + [p]
  {
    if left.Some? && |pieces| < left.value {
      assert (pieces + [p])[..|pieces| + 1] == pieces + [p];
    } else if left.Some? {
      assert (pieces + [p])[..left.value] == pieces[..left.value];
    }
  }

  lemma AppendAssoc(a: Bytes, b: Bytes, c: Bytes)
    ensures (a + b) + c == a + (b + c)
  {
  }

  /** One more write call of WriteAll: what it traces, what lands and what is left. */
  lemma WriteStep(left: Option<nat>, pieces: seq<Bytes>, i: nat)
    requires i < |pieces|
    ensures Concat(pieces[..i + 1]) == Concat(pieces[..i]) + pieces[i]
    ensures Concat(Landed(left, pieces[..i + 1])) ==
      if LeftAfter(left, i) == Some(0) then Concat(Landed(left, pieces[..i]))
      else Concat(Landed(left, pieces[..i])) + pieces[i]
    ensures LeftAfter(left, i + 1) == LeftAfter(LeftAfter(left, i), 1)
  {
    var done := pieces[..i];
    assert pieces[..i + 1] == done + [pieces[i]];
    ConcatSnoc(done, pieces[i]);
    LandedSnoc(left, done, pieces[i]);
    ConcatSnoc(Landed(left, done), pieces[i]);
    LeftAfterStep(left, i);
  }

  /**
   * The destination of the generated text (standard output or the `-o` file), seen as an
   * io.Writer. Whether a write succeeds is outside the program's control; the model scripts
   * it: `left` is the number of writes that will still succeed (None: all of them), after
   * which every write fails with `fault` and writes nothing (a closed pipe, a full disk).
   */
  class Sink {
    var data: Bytes
    var left: Option<nat>
    const fault: string

    constructor (data: Bytes, left: Option<nat>, fault: string)
      ensures this.data == data && this.left == left && this.fault == fault
    {
      this.data := data;
      this.left := left;
      this.fault := fault;
    }

    /** Whether the next write will succeed. */
    predicate Healthy()
      reads this
    {
      left != Some(0)
    }

    /** io.Writer.Write: all of `p` is written, or nothing is and the fault is returned. */
    method Write(p: Bytes) returns (n: nat, err: Option<string>)
      modifies this
      ensures err.None? <==> old(Healthy())
      ensures err.None? ==> n == |p| && data == old(data) + p
      ensures err.Some? ==> n == 0 && data == old(data) && err.value == fault
      ensures left == LeftAfter(old(left), 1)
    {
      if left == Some(0) {
        n, err := 0, Some(fault);
      } else {
        data := data + p;
        n, err := |p|, None;
        if left.Some? {
          left := Some(left.value - 1);
        }
      }
    }
  }

  /**
   * main.go:105-115: a writer that forwards every write to `w` and remembers in
   * `hasNewLine` whether the last non-empty chunk ended in a newline. The ghost
   * field `traced` is every byte handed to it so far.
   */
  class NewLineTracer {
    const w: Sink
    var hasNewLine: bool
    ghost var traced: Bytes

    /** hasNewLine is exactly whether the text traced so far ends in a newline. */
    ghost predicate Valid()
      reads this
    {
      hasNewLine == EndsInNewline(traced)
    }

    /** `&NewLineTracer{w: output}` (main.go:258): nothing traced, so no newline yet. */
    constructor (w: Sink)
      ensures Valid() && this.w == w && traced == [] && !hasNewLine
    {
      this.w := w;
      hasNewLine := false;
      traced := [];
    }

    /** main.go:110-115. */
    method Write(p: Bytes) returns (n: nat, err: Option<string>)
      requires Valid()
      modifies this, w
      ensures Valid()
      ensures hasNewLine == if |p| > 0 then p[|p| - 1] == Newline else old(hasNewLine)
      ensures traced == old(traced) + p
      ensures err.None? <==> old(w.Healthy())
      ensures err.None? ==> n == |p| && w.data == old(w.data) + p
      ensures err.Some? ==> n == 0 && w.data == old(w.data) && err.value == w.fault
      ensures w.left == LeftAfter(old(w.left), 1)
    {
      if |p| > 0 {
        hasNewLine := p[|p| - 1] == Newline;
      }
      traced := traced + p;
      EndsInNewlineAppend(old(traced), p);
      n, err := w.Write(p);
    }

    /** One round of WriteAll: writes `pieces[i]`, after `pieces[..i]` went out from the
        state (`left0`, `data0`, `traced0`). */
    method WriteNext(pieces: seq<Bytes>, i: nat, ghost left0: Option<nat>, ghost data0: Bytes, ghost traced0: Bytes)
      returns (err: Option<string>)
      requires i < |pieces| && Valid()
      requires traced == traced0 + Concat(pieces[..i])
      requires w.data == data0 + Concat(Landed(left0, pieces[..i]))
      requires w.left == LeftAfter(left0, i)
      modifies this, w
      ensures Valid()
      ensures traced == traced0 + Concat(pieces[..i + 1])
      ensures w.data == data0 + Concat(Landed(left0, pieces[..i + 1]))
      ensures w.left == LeftAfter(left0, i + 1)
      ensures err.None? <==> LeftAfter(left0, i) != Some(0)
      ensures err.Some? ==> err.value == w.fault
    {
      WriteStep(left0, pieces, i);
      AppendAssoc(traced0, Concat(pieces[..i]), pieces[i]);
      AppendAssoc(data0, Concat(Landed(left0, pieces[..i])), pieces[i]);
      var _, e := Write(pieces[i]);
      err := e;
    }

    /**
     * Writes each piece in turn and ignores the errors, as the Gemini and Ollama backends
     * do with `fmt.Fprint(w, …)`: every piece is traced, those before the sink's first
     * failure land in it.
     */
    method WriteAll(pieces: seq<Bytes>)
      requires Valid()
      modifies this, w
      ensures Valid()
      ensures traced == old(traced) + Concat(pieces)
      ensures w.data == old(w.data) + Concat(Landed(old(w.left), pieces))
      ensures w.left == LeftAfter(old(w.left), |pieces|)
    {
      ghost var left0, data0, traced0 := w.left, w.data, traced;
      var i := 0;
      while i < |pieces|
        invariant 0 <= i <= |pieces|
        invariant Valid()
        invariant traced == traced0 + Concat(pieces[..i])
        invariant w.data == data0 + Concat(Landed(left0, pieces[..i]))
        invariant w.left == LeftAfter(left0, i)
      {
        var _ := WriteNext(pieces, i, left0, data0, traced0);
        i := i + 1;
      }
      assert pieces[..i] == pieces;
    }
  }
}
