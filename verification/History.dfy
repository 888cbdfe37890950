// Projections of a frame sequence onto one stream, and the orderings the protocol keeps.
// Sequences of frames grow at the end, so every projection is defined from the end.
module History {
  import opened Bytes
  import opened Mux

  /** The DATA payloads of stream `i`, in order. */
  function DataOf(fs: seq<Frame>, i: Id): seq<seq<Byte>> {
    if |fs| == 0 then []
    else DataOf(fs[..|fs| - 1], i) + Payloads(fs[|fs| - 1], i)
  }

  function Payloads(f: Frame, i: Id): seq<seq<Byte>> {
    if f.Data? && f.stream == i then [f.payload] else []
  }

  /** The stream ids mentioned by OPEN, DATA or CLOSE frames. */
  function Ids(fs: seq<Frame>): set<Id> {
    if |fs| == 0 then {} else Ids(fs[..|fs| - 1]) + Mentions(fs[|fs| - 1])
  }

  function Mentions(f: Frame): set<Id> {
    if f.Addressed() then {f.stream} else {}
  }

  /** An OPEN is the first frame of its stream, and every DATA or CLOSE comes after one. */
  predicate OpensFirst(fs: seq<Frame>) {
    forall k :: 0 <= k < |fs| && fs[k].Addressed() ==>
      if fs[k].Open? then fs[k].stream !in Ids(fs[..k]) else Open(fs[k].stream) in fs[..k]
  }

  /** Nothing is sent on stream `i` after its CLOSE. */
  predicate SilentAfterClose(fs: seq<Frame>, i: Id) {
    forall k :: 0 <= k < |fs| && (fs[k].Data? || fs[k].Close?) && fs[k].stream == i ==> Close(i) !in fs[..k]
  }

  lemma DataOfSnoc(fs: seq<Frame>, f: Frame)
    ensures forall i :: DataOf(fs + [f], i) == DataOf(fs, i) + Payloads(f, i)
  {
    assert (fs + [f])[..|fs|] == fs;
  }

  lemma IdsSnoc(fs: seq<Frame>, f: Frame)
    ensures Ids(fs + [f]) == Ids(fs) + Mentions(f)
  {
    assert (fs + [f])[..|fs|] == fs;
  }

  /** Without a frame that mentions `i` there is no DATA of `i`. */
  lemma {:induction false} NoIdNoData(fs: seq<Frame>, i: Id)
    requires i !in Ids(fs)
    ensures DataOf(fs, i) == []
  {
    if |fs| > 0 {
      NoIdNoData(fs[..|fs| - 1], i);
    }
  }

  lemma {:induction false} DataOfSplit(a: seq<Frame>, b: seq<Frame>, i: Id)
    ensures DataOf(a + b, i) == DataOf(a, i) + DataOf(b, i)
  {
    if |b| == 0 {
      assert a + b == a;
    } else {
      assert (a + b)[..|a + b| - 1] == a + b[..|b| - 1];
      DataOfSplit(a, b[..|b| - 1], i);
    }
  }

  lemma DataOfPrefix(a: seq<Frame>, b: seq<Frame>, i: Id)
    requires a <= b
    ensures DataOf(a, i) <= DataOf(b, i)
  {
    assert b == a + b[|a|..];
    DataOfSplit(a, b[|a|..], i);
  }

  /** Losing frames can only lose chunks: what is left keeps its order. */
  lemma {:induction false} DataOfSubsequence(a: seq<Frame>, b: seq<Frame>, i: Id)
    requires IsSubsequence(a, b)
    ensures IsSubsequence(DataOf(a, i), DataOf(b, i))
    decreases |b|
  {
    if |a| == 0 || |b| == 0 {
    } else {
      var front, last := b[..|b| - 1], b[|b| - 1];
      assert b == front + [last];
      if IsSubsequence(a, front) {
        DataOfSubsequence(a, front, i);
        SubsequenceExtend(DataOf(a, i), DataOf(front, i), Payloads(last, i));
      } else {
        DataOfSubsequence(a[..|a| - 1], front, i);
        if last.Data? && last.stream == i {
          SubsequenceTake(DataOf(a[..|a| - 1], i), DataOf(front, i), last.payload);
        } else {
          assert DataOf(a, i) == DataOf(a[..|a| - 1], i);
          assert DataOf(b, i) == DataOf(front, i);
        }
      }
    }
  }

  lemma {:induction false} IdsSubsequence(a: seq<Frame>, b: seq<Frame>)
    requires IsSubsequence(a, b)
    ensures Ids(a) <= Ids(b)
    decreases |b|
  {
    if |a| > 0 && |b| > 0 {
      if IsSubsequence(a, b[..|b| - 1]) {
        IdsSubsequence(a, b[..|b| - 1]);
      } else {
        IdsSubsequence(a[..|a| - 1], b[..|b| - 1]);
      }
    }
  }

  lemma {:induction false} IdsContain(fs: seq<Frame>, k: nat)
    requires k < |fs|
    ensures Mentions(fs[k]) <= Ids(fs)
  {
    if k < |fs| - 1 {
      IdsContain(fs[..|fs| - 1], k);
    }
  }

  lemma IdsOf(fs: seq<Frame>, f: Frame)
    requires f in fs
    ensures Mentions(f) <= Ids(fs)
  {
    var k :| 0 <= k < |fs| && fs[k] == f;
    IdsContain(fs, k);
  }

  /** A stream that is mentioned at all has an OPEN. */
  lemma {:induction false} OpenPrecedes(fs: seq<Frame>, i: Id)
    requires OpensFirst(fs) && i in Ids(fs)
    ensures Open(i) in fs
  {
    var front, last := fs[..|fs| - 1], fs[|fs| - 1];
    assert fs == front + [last];
    if i in Ids(front) {
      assert OpensFirst(front) by {
        forall k | 0 <= k < |front| && front[k].Addressed()
          ensures if front[k].Open? then front[k].stream !in Ids(front[..k]) else Open(front[k].stream) in front[..k]
        {
          assert front[..k] == fs[..k];
        }
      }
      OpenPrecedes(front, i);
    } else if !last.Open? {
      assert Open(last.stream) in fs[..|fs| - 1];
    }
  }

  lemma OpensFirstSnoc(fs: seq<Frame>, f: Frame)
    requires OpensFirst(fs)
    requires f.Addressed() ==> if f.Open? then f.stream !in Ids(fs) else Open(f.stream) in fs
    ensures OpensFirst(fs + [f])
  {
    var all := fs + [f];
    forall k | 0 <= k < |all| && all[k].Addressed()
      ensures if all[k].Open? then all[k].stream !in Ids(all[..k]) else Open(all[k].stream) in all[..k]
    {
      assert all[..k] == fs[..k];
      assert fs[..|fs|] == fs;
    }
  }

  lemma SilentAfterCloseSnoc(fs: seq<Frame>, f: Frame, i: Id)
    requires SilentAfterClose(fs, i)
    requires (f.Data? || f.Close?) && f.stream == i ==> Close(i) !in fs
    ensures SilentAfterClose(fs + [f], i)
  {
    var all := fs + [f];
    forall k | 0 <= k < |all| && (all[k].Data? || all[k].Close?) && all[k].stream == i
      ensures Close(i) !in all[..k]
    {
      assert all[..k] == fs[..k];
      assert fs[..|fs|] == fs;
    }
  }

  /** Once the CLOSE has been read, every DATA of the stream has been read. */
  lemma {:induction false} AllReadByClose(fs: seq<Frame>, n: nat, i: Id)
    requires n <= |fs| && SilentAfterClose(fs, i) && Close(i) in fs[..n]
    ensures DataOf(fs[..n], i) == DataOf(fs, i)
    decreases |fs| - n
  {
    if n == |fs| {
      assert fs[..n] == fs;
    } else {
      assert fs[..n + 1] == fs[..n] + [fs[n]];
      DataOfSnoc(fs[..n], fs[n]);
      AllReadByClose(fs, n + 1, i);
    }
  }
}
