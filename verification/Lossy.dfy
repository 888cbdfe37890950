// A wire that loses, mangles and replays whole records, and a codec that accepts each genuine record at most
// once: which frames the reader dispatches, and when they keep their order.
module Lossy {
  import opened Bytes
  import opened Mux
  import opened History
  import opened ReaderLoop
  import opened Wire

  // ── the codec and the wire ─────────────────────────────────────────────────

  ghost predicate Refuses<D>(c: Decoder<D>, d: D, record: seq<Byte>, accepted: D -> set<nat>) {
    c.decrypt(d, record).1 == None && accepted(c.decrypt(d, record).0) == accepted(d)
  }

  ghost predicate Opens<D>(c: Decoder<D>, d: D, record: seq<Byte>, plain: seq<Byte>, n: nat, accepted: D -> set<nat>) {
    && n !in accepted(d)
    && c.decrypt(d, record).1 == Some(plain) && accepted(c.decrypt(d, record).0) == accepted(d) + {n}
  }

  ghost predicate OpensOrRefuses<D>(c: Decoder<D>, d: D, record: seq<Byte>, plain: seq<Byte>, n: nat,
                                    accepted: D -> set<nat>)
  {
    Opens(c, d, record, plain, n, accepted) || Refuses(c, d, record, accepted)
  }

  /** A codec as seen from the wire: `accepted` tells which genuine records it has accepted. It accepts each of
      them at most once, may refuse any of them at any time, and refuses everything else. */
  ghost predicate AcceptsAtMostOnce<D(!new)>(c: Decoder<D>, genuine: seq<seq<Byte>>, frames: seq<Frame>,
                                             accepted: D -> set<nat>)
  {
    && |genuine| == |frames|
    && (forall d: D, n: nat :: n < |genuine| ==> OpensOrRefuses(c, d, genuine[n], Encode(frames[n]), n, accepted))
    && (forall d: D, record: seq<Byte> :: record in genuine || Refuses(c, d, record, accepted))
  }

  /** One with a replay window: a genuine record is refused only if it, or one sent after it, was accepted. */
  ghost predicate Windowed<D(!new)>(c: Decoder<D>, genuine: seq<seq<Byte>>, accepted: D -> set<nat>) {
    forall d: D, n: nat :: n < |genuine| && Refuses(c, d, genuine[n], accepted) ==> Reached(accepted(d), n)
  }

  /** The record or one sent after it is among these. */
  ghost predicate Reached(got: set<nat>, n: nat) {
    exists m: nat :: m in got && n <= m
  }

  predicate Arrives(record: seq<Byte>, x: Option<nat>, genuine: seq<seq<Byte>>) {
    match x
    case Some(n) => n < |genuine| && record == genuine[n]
    case None => record !in genuine
  }

  /** `from` says which genuine record, if any, each arrival is: records may be missing, mangled, or repeated. */
  predicate Arrivals(arrived: seq<seq<Byte>>, from: seq<Option<nat>>, genuine: seq<seq<Byte>>) {
    |arrived| == |from| && forall k :: 0 <= k < |arrived| ==> Arrives(arrived[k], from[k], genuine)
  }

  /** Sent after everything in the list. */
  predicate Newest(from: seq<Option<nat>>, n: nat) {
    forall a :: 0 <= a < |from| && from[a].Some? ==> from[a].value < n
  }

  /** A record that arrives for the first time was sent after all that arrived before it; replays may come
      at any time. */
  predicate InSendingOrder(from: seq<Option<nat>>) {
    forall b :: 0 <= b < |from| && from[b].Some? ==> from[b] in from[..b] || Newest(from[..b], from[b].value)
  }

  /** No record arrives behind one that was sent after it, not even a replay. */
  predicate NeverBack(from: seq<Option<nat>>) {
    forall a, b :: 0 <= a < b < |from| && from[a].Some? && from[b].Some? ==> from[a].value <= from[b].value
  }

  // ── what is dispatched ─────────────────────────────────────────────────────

  function TakenNow<D>(c: Decoder<D>, p: Progress<D>, record: seq<Byte>, x: Option<nat>): seq<nat> {
    if p.fatal.None? && x.Some? && c.decrypt(p.codec, record).1.Some? then [x.value] else []
  }

  /** The genuine records accepted, in the order of their acceptance. */
  function Taken<D>(c: Decoder<D>, d: D, arrived: seq<seq<Byte>>, from: seq<Option<nat>>): seq<nat>
    requires |arrived| == |from|
  {
    if |arrived| == 0 then []
    else
      var n := |arrived| - 1;
      Taken(c, d, arrived[..n], from[..n]) + TakenNow(c, OnRecords(c, AtStart(d), arrived[..n]), arrived[n], from[n])
  }

  function FramesAt(frames: seq<Frame>, ns: seq<nat>): (fs: seq<Frame>)
    requires Within(ns, |frames|)
    ensures |fs| == |ns| && forall k :: 0 <= k < |ns| ==> fs[k] == frames[ns[k]]
  {
    if |ns| == 0 then [] else FramesAt(frames, ns[..|ns| - 1]) + [frames[ns[|ns| - 1]]]
  }

  predicate Within(ns: seq<nat>, n: nat) {
    forall k :: 0 <= k < |ns| ==> ns[k] < n
  }

  predicate Distinct<T(==)>(xs: seq<T>) {
    forall a, b :: 0 <= a < b < |xs| ==> xs[a] != xs[b]
  }

  predicate Increasing(ns: seq<nat>) {
    forall a, b :: 0 <= a < b < |ns| ==> ns[a] < ns[b]
  }

  ghost predicate TakenOk<D>(p: Progress<D>, ns: seq<nat>, frames: seq<Frame>, accepted: D -> set<nat>) {
    && Within(ns, |frames|) && Distinct(ns) && p.out == FramesAt(frames, ns)
    && (p.fatal.None? ==> forall n: nat :: n in accepted(p.codec) <==> n in ns)
  }

  lemma FramesAtSnoc(frames: seq<Frame>, ns: seq<nat>, n: nat)
    requires Within(ns, |frames|) && n < |frames|
    ensures FramesAt(frames, ns + [n]) == FramesAt(frames, ns) + [frames[n]]
  {
    assert (ns + [n])[..|ns|] == ns;
  }

  lemma OpenedOne<D>(c: Decoder<D>, frames: seq<Frame>, accepted: D -> set<nat>, p: Progress<D>, ns: seq<nat>,
                     record: seq<Byte>, n: nat)
    requires TakenOk(p, ns, frames, accepted) && p.fatal.None? && n < |frames| && Encodable(frames[n])
    requires Opens(c, p.codec, record, Encode(frames[n]), n, accepted)
    ensures TakenOk(OnRecord(c, p, record), ns + [n], frames, accepted)
  {
    DecodeEncode(frames[n]);
    FramesAtSnoc(frames, ns, n);
  }

  lemma RefusedOne<D>(c: Decoder<D>, frames: seq<Frame>, accepted: D -> set<nat>, p: Progress<D>, ns: seq<nat>,
                      record: seq<Byte>)
    requires TakenOk(p, ns, frames, accepted) && p.fatal.None? && Refuses(c, p.codec, record, accepted)
    ensures TakenOk(OnRecord(c, p, record), ns, frames, accepted)
  {
  }

  lemma OneArrival<D(!new)>(c: Decoder<D>, genuine: seq<seq<Byte>>, frames: seq<Frame>, accepted: D -> set<nat>,
                            p: Progress<D>, ns: seq<nat>, record: seq<Byte>, x: Option<nat>)
    requires AcceptsAtMostOnce(c, genuine, frames, accepted) && AllSendable(frames) && Arrives(record, x, genuine)
    requires TakenOk(p, ns, frames, accepted)
    ensures TakenOk(OnRecord(c, p, record), ns + TakenNow(c, p, record, x), frames, accepted)
  {
    if p.fatal.Some? {
      assert ns + [] == ns;
    } else if x.Some? {
      var n := x.value;
      assert OpensOrRefuses(c, p.codec, genuine[n], Encode(frames[n]), n, accepted);
      if Refuses(c, p.codec, record, accepted) {
        RefusedOne(c, frames, accepted, p, ns, record);
        assert ns + [] == ns;
      } else {
        OpenedOne(c, frames, accepted, p, ns, record, n);
      }
    } else {
      assert record in genuine || Refuses(c, p.codec, record, accepted);
      RefusedOne(c, frames, accepted, p, ns, record);
      assert ns + [] == ns;
    }
  }

  /** Whatever the wire loses, mangles, repeats or reorders: the frames dispatched are those of the accepted
      records, in the order of acceptance, and no genuine record is dispatched twice. */
  lemma {:induction false} LossyWire<D(!new)>(c: Decoder<D>, d: D, genuine: seq<seq<Byte>>, frames: seq<Frame>,
                                              accepted: D -> set<nat>, arrived: seq<seq<Byte>>, from: seq<Option<nat>>)
    requires AcceptsAtMostOnce(c, genuine, frames, accepted) && AllSendable(frames)
    requires accepted(d) == {} && Arrivals(arrived, from, genuine)
    ensures TakenOk(OnRecords(c, AtStart(d), arrived), Taken(c, d, arrived, from), frames, accepted)
  {
    if |arrived| > 0 {
      var n := |arrived| - 1;
      LossyWire(c, d, genuine, frames, accepted, arrived[..n], from[..n]);
      OneArrival(c, genuine, frames, accepted, OnRecords(c, AtStart(d), arrived[..n]),
                 Taken(c, d, arrived[..n], from[..n]), arrived[n], from[n]);
    }
  }

  // ── when the order is kept ─────────────────────────────────────────────────

  lemma {:induction false} IncreasingIsSubsequence(frames: seq<Frame>, ns: seq<nat>, top: nat)
    requires top <= |frames| && Within(ns, top) && Increasing(ns)
    ensures IsSubsequence(FramesAt(frames, ns), frames[..top])
    decreases top
  {
    if |ns| > 0 {
      var front := ns[..|ns| - 1];
      assert 0 <= ns[0] < top;
      assert frames[..top] == frames[..top - 1] + [frames[top - 1]];
      if ns[|ns| - 1] == top - 1 {
        IncreasingIsSubsequence(frames, front, top - 1);
        SubsequenceTake(FramesAt(frames, front), frames[..top - 1], frames[top - 1]);
      } else {
        assert forall k :: 0 <= k < |ns| ==> ns[k] <= ns[|ns| - 1];
        IncreasingIsSubsequence(frames, ns, top - 1);
        SubsequenceSkip(FramesAt(frames, ns), frames[..top - 1], frames[top - 1]);
      }
    }
  }

  lemma LastIsNewest(ns: seq<nat>, top: nat)
    requires |ns| > 0 && ns[|ns| - 1] == top - 1
    requires Within(ns[..|ns| - 1], top - 1) && Increasing(ns[..|ns| - 1])
    ensures Within(ns, top) && Increasing(ns)
  {
    assert forall k :: 0 <= k < |ns| - 1 ==> ns[k] == ns[..|ns| - 1][k];
  }

  lemma {:induction false} SubsequenceIsIncreasing(frames: seq<Frame>, ns: seq<nat>, top: nat)
    requires top <= |frames| && Within(ns, |frames|) && Distinct(frames)
    requires IsSubsequence(FramesAt(frames, ns), frames[..top])
    ensures Within(ns, top) && Increasing(ns)
    decreases top
  {
    if |ns| > 0 {
      var n := |ns| - 1;
      var fs, front := FramesAt(frames, ns), frames[..top - 1];
      assert frames[..top][..top - 1] == front;
      if IsSubsequence(fs, front) {
        SubsequenceIsIncreasing(frames, ns, top - 1);
      } else {
        assert fs[..n] == FramesAt(frames, ns[..n]);
        SubsequenceIsIncreasing(frames, ns[..n], top - 1);
        LastIsNewest(ns, top);
      }
    }
  }

  /** The frames keep their order exactly when the records were accepted in theirs (frames that are equal
      cannot show it). */
  lemma LossyOrderIff<D(!new)>(c: Decoder<D>, d: D, genuine: seq<seq<Byte>>, frames: seq<Frame>,
                               accepted: D -> set<nat>, arrived: seq<seq<Byte>>, from: seq<Option<nat>>)
    requires AcceptsAtMostOnce(c, genuine, frames, accepted) && AllSendable(frames)
    requires accepted(d) == {} && Arrivals(arrived, from, genuine)
    ensures Increasing(Taken(c, d, arrived, from)) ==> IsSubsequence(OnRecords(c, AtStart(d), arrived).out, frames)
    ensures Distinct(frames) ==>
              (IsSubsequence(OnRecords(c, AtStart(d), arrived).out, frames) <==> Increasing(Taken(c, d, arrived, from)))
  {
    LossyWire(c, d, genuine, frames, accepted, arrived, from);
    var ns := Taken(c, d, arrived, from);
    assert frames[..|frames|] == frames;
    if Increasing(ns) {
      IncreasingIsSubsequence(frames, ns, |frames|);
    } else if Distinct(frames) && IsSubsequence(FramesAt(frames, ns), frames) {
      SubsequenceIsIncreasing(frames, ns, |frames|);
    }
  }

  /** What was taken had arrived. */
  lemma {:induction false} TakenArrived<D>(c: Decoder<D>, d: D, arrived: seq<seq<Byte>>, from: seq<Option<nat>>)
    requires |arrived| == |from|
    ensures forall k :: 0 <= k < |Taken(c, d, arrived, from)| ==> Some(Taken(c, d, arrived, from)[k]) in from
  {
    if |arrived| > 0 {
      TakenArrived(c, d, arrived[..|arrived| - 1], from[..|arrived| - 1]);
    }
  }

  /** A wire on which nothing comes back keeps the order, whatever the codec refuses. */
  lemma {:induction false} NeverBackIncreases<D(!new)>(c: Decoder<D>, d: D, genuine: seq<seq<Byte>>,
                                                       frames: seq<Frame>, accepted: D -> set<nat>,
                                                       arrived: seq<seq<Byte>>, from: seq<Option<nat>>)
    requires AcceptsAtMostOnce(c, genuine, frames, accepted) && AllSendable(frames)
    requires accepted(d) == {} && Arrivals(arrived, from, genuine) && NeverBack(from)
    ensures Increasing(Taken(c, d, arrived, from))
  {
    if |arrived| > 0 {
      var n := |arrived| - 1;
      NeverBackIncreases(c, d, genuine, frames, accepted, arrived[..n], from[..n]);
      LossyWire(c, d, genuine, frames, accepted, arrived, from);
      TakenArrived(c, d, arrived[..n], from[..n]);
      AppendedLast(Taken(c, d, arrived[..n], from[..n]),
                   TakenNow(c, OnRecords(c, AtStart(d), arrived[..n]), arrived[n], from[n]), from, n);
    }
  }

  lemma AppendedLast(ns: seq<nat>, now: seq<nat>, from: seq<Option<nat>>, n: nat)
    requires n < |from| && NeverBack(from) && Increasing(ns) && Distinct(ns + now)
    requires forall k :: 0 <= k < |ns| ==> Some(ns[k]) in from[..n]
    requires now == [] || (from[n].Some? && now == [from[n].value])
    ensures Increasing(ns + now)
  {
    if now != [] {
      forall k | 0 <= k < |ns|
        ensures ns[k] < now[0]
      {
        assert (ns + now)[k] != (ns + now)[|ns|];
      }
    }
  }

  predicate AllTaken(ns: seq<nat>, from: seq<Option<nat>>) {
    forall a :: 0 <= a < |from| && from[a].Some? ==> from[a].value in ns
  }

  predicate AllArrived(ns: seq<nat>, from: seq<Option<nat>>) {
    forall k :: 0 <= k < |ns| ==> Some(ns[k]) in from
  }

  /** The reader of a codec with a window: in order, and until a fatal streak nothing that arrived is missing. */
  ghost predicate WindowOk<D>(p: Progress<D>, ns: seq<nat>, from: seq<Option<nat>>, frames: seq<Frame>,
                              accepted: D -> set<nat>)
  {
    TakenOk(p, ns, frames, accepted) && Increasing(ns) && AllArrived(ns, from) && (p.fatal.None? ==> AllTaken(ns, from))
  }

  /** A record is accepted when it first arrives, and never again. */
  lemma WindowOrder<D(!new)>(c: Decoder<D>, genuine: seq<seq<Byte>>, frames: seq<Frame>, accepted: D -> set<nat>,
                             d: D, ns: seq<nat>, from: seq<Option<nat>>, n: nat)
    requires AcceptsAtMostOnce(c, genuine, frames, accepted) && Windowed(c, genuine, accepted) && n < |genuine|
    requires (forall m: nat :: m in accepted(d) <==> m in ns) && AllTaken(ns, from) && AllArrived(ns, from)
    requires Some(n) in from || Newest(from, n)
    ensures if Some(n) in from then n in ns && c.decrypt(d, genuine[n]).1.None?
            else c.decrypt(d, genuine[n]).1.Some? && forall k :: 0 <= k < |ns| ==> ns[k] < n
  {
    assert OpensOrRefuses(c, d, genuine[n], Encode(frames[n]), n, accepted);
    if Some(n) in from {
      assert n in ns;
    } else {
      FirstIsTaken(c, genuine, accepted, d, ns, from, n);
    }
  }

  lemma TakenGrows(ns: seq<nat>, from: seq<Option<nat>>, now: seq<nat>, x: Option<nat>)
    requires AllArrived(ns, from) && Increasing(ns) && AllTaken(ns, from)
    requires (now == [] && (x.Some? ==> x.value in ns))
             || (x.Some? && now == [x.value] && forall k :: 0 <= k < |ns| ==> ns[k] < x.value)
    ensures AllArrived(ns + now, from + [x]) && Increasing(ns + now) && AllTaken(ns + now, from + [x])
  {
    assert x in from + [x];
    if now != [] {
      assert x.value in ns + now;
    }
  }

  lemma StillArrived(ns: seq<nat>, from: seq<Option<nat>>, x: Option<nat>)
    requires AllArrived(ns, from)
    ensures AllArrived(ns + [], from + [x]) && ns + [] == ns
  {
  }

  lemma WindowArrival<D(!new)>(c: Decoder<D>, genuine: seq<seq<Byte>>, frames: seq<Frame>, accepted: D -> set<nat>,
                               p: Progress<D>, ns: seq<nat>, from: seq<Option<nat>>, record: seq<Byte>, x: Option<nat>)
    requires AcceptsAtMostOnce(c, genuine, frames, accepted) && Windowed(c, genuine, accepted) && AllSendable(frames)
    requires Arrives(record, x, genuine) && WindowOk(p, ns, from, frames, accepted)
    requires x.Some? ==> x in from || Newest(from, x.value)
    ensures WindowOk(OnRecord(c, p, record), ns + TakenNow(c, p, record, x), from + [x], frames, accepted)
  {
    OneArrival(c, genuine, frames, accepted, p, ns, record, x);
    if p.fatal.Some? {
      StillArrived(ns, from, x);
    } else {
      if x.Some? {
        WindowOrder(c, genuine, frames, accepted, p.codec, ns, from, x.value);
      }
      TakenGrows(ns, from, TakenNow(c, p, record, x), x);
    }
  }

  lemma WindowStart<D(!new)>(d: D, frames: seq<Frame>, accepted: D -> set<nat>)
    requires accepted(d) == {}
    ensures WindowOk(AtStart(d), [], [], frames, accepted)
  {
  }

  lemma WindowLast<D(!new)>(c: Decoder<D>, genuine: seq<seq<Byte>>, frames: seq<Frame>, accepted: D -> set<nat>,
                            p: Progress<D>, ns: seq<nat>, arrived: seq<seq<Byte>>, from: seq<Option<nat>>)
    requires AcceptsAtMostOnce(c, genuine, frames, accepted) && Windowed(c, genuine, accepted) && AllSendable(frames)
    requires |from| > 0 && Arrivals(arrived, from, genuine) && InSendingOrder(from)
    requires WindowOk(p, ns, from[..|from| - 1], frames, accepted)
    ensures var n := |from| - 1;
            WindowOk(OnRecord(c, p, arrived[n]), ns + TakenNow(c, p, arrived[n], from[n]), from, frames, accepted)
  {
    var n := |from| - 1;
    ArrivalsFront(arrived, from, genuine);
    WindowArrival(c, genuine, frames, accepted, p, ns, from[..n], arrived[n], from[n]);
  }

  lemma LastRecord<D>(c: Decoder<D>, p: Progress<D>, records: seq<seq<Byte>>)
    requires |records| > 0
    ensures var n := |records| - 1; OnRecords(c, p, records) == OnRecord(c, OnRecords(c, p, records[..n]), records[n])
  {
  }

  lemma LastTaken<D>(c: Decoder<D>, d: D, arrived: seq<seq<Byte>>, from: seq<Option<nat>>)
    requires |arrived| == |from| > 0
    ensures var n := |arrived| - 1;
            Taken(c, d, arrived, from)
            == Taken(c, d, arrived[..n], from[..n])
               + TakenNow(c, OnRecords(c, AtStart(d), arrived[..n]), arrived[n], from[n])
  {
  }

  /** With a replay window replays may come at any time: whatever arrived was accepted when it first did. */
  lemma {:induction false} WindowIncreases<D(!new)>(c: Decoder<D>, d: D, genuine: seq<seq<Byte>>,
                                                    frames: seq<Frame>, accepted: D -> set<nat>,
                                                    arrived: seq<seq<Byte>>, from: seq<Option<nat>>)
    requires AcceptsAtMostOnce(c, genuine, frames, accepted) && AllSendable(frames) && Windowed(c, genuine, accepted)
    requires accepted(d) == {} && Arrivals(arrived, from, genuine) && InSendingOrder(from)
    ensures WindowOk(OnRecords(c, AtStart(d), arrived), Taken(c, d, arrived, from), from, frames, accepted)
  {
    if |arrived| > 0 {
      var n := |arrived| - 1;
      assert InSendingOrder(from[..n]) && Arrivals(arrived[..n], from[..n], genuine) by {
        ArrivalsFront(arrived, from, genuine);
      }
      WindowIncreases(c, d, genuine, frames, accepted, arrived[..n], from[..n]);
      WindowLast(c, genuine, frames, accepted, OnRecords(c, AtStart(d), arrived[..n]),
                 Taken(c, d, arrived[..n], from[..n]), arrived, from);
      LastRecord(c, AtStart(d), arrived);
      LastTaken(c, d, arrived, from);
    } else {
      WindowStart(d, frames, accepted);
    }
  }

  lemma FirstIsTaken<D(!new)>(c: Decoder<D>, genuine: seq<seq<Byte>>, accepted: D -> set<nat>, d: D, ns: seq<nat>,
                              from: seq<Option<nat>>, n: nat)
    requires Windowed(c, genuine, accepted) && n < |genuine| && Newest(from, n)
    requires forall m: nat :: m in accepted(d) <==> m in ns
    requires forall k :: 0 <= k < |ns| ==> Some(ns[k]) in from
    ensures !Refuses(c, d, genuine[n], accepted) && forall k :: 0 <= k < |ns| ==> ns[k] < n
  {
  }

  lemma ArrivalsFront(arrived: seq<seq<Byte>>, from: seq<Option<nat>>, genuine: seq<seq<Byte>>)
    requires |from| > 0 && InSendingOrder(from) && Arrivals(arrived, from, genuine)
    ensures var n := |from| - 1;
            && InSendingOrder(from[..n]) && Arrivals(arrived[..n], from[..n], genuine)
            && Arrives(arrived[n], from[n], genuine) && from == from[..n] + [from[n]]
            && (from[n].Some? ==> from[n] in from[..n] || Newest(from[..n], from[n].value))
  {
    var front := from[..|from| - 1];
    forall b | 0 <= b < |front| && front[b].Some?
      ensures front[b] in front[..b] || Newest(front[..b], front[b].value)
    {
      assert front[..b] == from[..b];
    }
  }

  /** Lossy wire: if nothing comes back, or the codec keeps a replay window and nothing overtakes, the frames
      dispatched are a subsequence of those sent, and so are each stream's chunks. */
  lemma LossyOrder<D(!new)>(c: Decoder<D>, d: D, genuine: seq<seq<Byte>>, frames: seq<Frame>,
                            accepted: D -> set<nat>, arrived: seq<seq<Byte>>, from: seq<Option<nat>>, i: Id)
    requires AcceptsAtMostOnce(c, genuine, frames, accepted) && AllSendable(frames)
    requires accepted(d) == {} && Arrivals(arrived, from, genuine)
    requires NeverBack(from) || (Windowed(c, genuine, accepted) && InSendingOrder(from))
    ensures var out := OnRecords(c, AtStart(d), arrived).out;
            IsSubsequence(out, frames) && IsSubsequence(DataOf(out, i), DataOf(frames, i))
  {
    if NeverBack(from) {
      NeverBackIncreases(c, d, genuine, frames, accepted, arrived, from);
    } else {
      WindowIncreases(c, d, genuine, frames, accepted, arrived, from);
    }
    LossyOrderIff(c, d, genuine, frames, accepted, arrived, from);
    DataOfSubsequence(OnRecords(c, AtStart(d), arrived).out, frames, i);
  }

  // ── such codecs exist ──────────────────────────────────────────────────────

  function IndexOf(records: seq<seq<Byte>>, record: seq<Byte>): (n: nat)
    requires record in records
    ensures n < |records| && records[n] == record
  {
    if records[0] == record then 0 else IndexOf(records[1..], record) + 1
  }

  /** A sliding window of `width` positions behind the latest record accepted. */
  ghost predicate TooOld(got: set<nat>, n: nat, width: nat) {
    exists m: nat :: m in got && n + width < m
  }

  ghost function AcceptInWindow(genuine: seq<seq<Byte>>, frames: seq<Frame>, width: nat, got: set<nat>,
                                record: seq<Byte>): (set<nat>, Option<seq<Byte>>)
    requires |genuine| == |frames|
  {
    if record !in genuine then (got, None)
    else
      var n := IndexOf(genuine, record);
      if n in got || TooOld(got, n, width) then (got, None) else (got + {n}, Some(Encode(frames[n])))
  }

  /** Sliding windows of any width meet both contracts, whenever no two genuine records are equal. */
  lemma WindowedCodecExists(genuine: seq<seq<Byte>>, frames: seq<Frame>, width: nat)
    requires |genuine| == |frames| && Distinct(genuine)
    ensures exists c: Decoder<set<nat>>, accepted: set<nat> -> set<nat> ::
              AcceptsAtMostOnce(c, genuine, frames, accepted) && Windowed(c, genuine, accepted) && accepted({}) == {}
  {
    var c := Decoder((d: set<nat>, record: seq<Byte>) => AcceptInWindow(genuine, frames, width, d, record));
    var accepted := (d: set<nat>) => d;
    forall d: set<nat>, n: nat | n < |genuine|
      ensures OpensOrRefuses(c, d, genuine[n], Encode(frames[n]), n, accepted)
      ensures Refuses(c, d, genuine[n], accepted) ==> Reached(accepted(d), n)
    {
      assert genuine[n] in genuine;
      if TooOld(d, n, width) {
        var m: nat :| m in d && n + width < m;
        assert m in d && n <= m;
      }
    }
    assert AcceptsAtMostOnce(c, genuine, frames, accepted);
    assert Windowed(c, genuine, accepted);
  }

  // ── and what a refused record does that comes again ────────────────────────

  datatype Wary = Wary(ready: bool, got: set<nat>)

  /** A codec that refuses the first record it is shown and then accepts each genuine one once. */
  function RefuseFirst(genuine: seq<seq<Byte>>, frames: seq<Frame>, d: Wary, record: seq<Byte>)
    : (Wary, Option<seq<Byte>>)
    requires |genuine| == |frames|
  {
    if !d.ready || record !in genuine then (Wary(true, d.got), None)
    else
      var n := IndexOf(genuine, record);
      if n in d.got then (d, None) else (Wary(true, d.got + {n}), Some(Encode(frames[n])))
  }

  function Got(d: Wary): set<nat> {
    d.got
  }

  lemma WaryCodec(genuine: seq<seq<Byte>>, frames: seq<Frame>) returns (c: Decoder<Wary>)
    requires |genuine| == |frames| && Distinct(genuine)
    ensures AcceptsAtMostOnce(c, genuine, frames, Got)
    ensures forall d: Wary, record: seq<Byte> :: c.decrypt(d, record) == RefuseFirst(genuine, frames, d, record)
  {
    c := Decoder((d: Wary, record: seq<Byte>) => RefuseFirst(genuine, frames, d, record));
    forall d: Wary, n: nat | n < |genuine|
      ensures OpensOrRefuses(c, d, genuine[n], Encode(frames[n]), n, Got)
    {
      assert genuine[n] in genuine;
    }
  }

  /** At most once is not enough for the order: a record that is refused, overtaken and then replayed is
      dispatched behind the one that overtook it, although nothing overtook anything when it first arrived. */
  lemma RefusedThenReplayed(r: seq<Byte>, q: seq<Byte>, f: Frame, g: Frame) returns (c: Decoder<Wary>)
    requires r != q && f != g && Encodable(f) && Encodable(g)
    ensures AcceptsAtMostOnce(c, [r, q], [f, g], Got)
    ensures InSendingOrder([Some(0), Some(1), Some(0)])
    ensures OnRecords(c, AtStart(Wary(false, {})), [r, q, r]).out == [g, f]
    ensures !IsSubsequence([g, f], [f, g])
  {
    c := WaryCodec([r, q], [f, g]);
    WarySteps(c, r, q, f, g);
    ThreeRecords(c, AtStart(Wary(false, {})), r, q, r);
    ReversedPair(f, g);
    OverOrder();
  }

  lemma WarySteps(c: Decoder<Wary>, r: seq<Byte>, q: seq<Byte>, f: Frame, g: Frame)
    requires r != q && Encodable(f) && Encodable(g)
    requires forall d: Wary, record: seq<Byte> :: c.decrypt(d, record) == RefuseFirst([r, q], [f, g], d, record)
    ensures OnRecord(c, OnRecord(c, OnRecord(c, AtStart(Wary(false, {})), r), q), r).out == [g, f]
  {
    WaryDecrypts(r, q, f, g);
    DecodeEncode(f);
    DecodeEncode(g);
    var p1 := OnRecord(c, AtStart(Wary(false, {})), r);
    assert p1 == Progress(Wary(true, {}), 1, [], None);
    var p2 := OnRecord(c, p1, q);
    assert p2 == Progress(Wary(true, {1}), 0, [g], None);
  }

  lemma WaryDecrypts(r: seq<Byte>, q: seq<Byte>, f: Frame, g: Frame)
    requires r != q
    ensures RefuseFirst([r, q], [f, g], Wary(false, {}), r) == (Wary(true, {}), None)
    ensures RefuseFirst([r, q], [f, g], Wary(true, {}), q) == (Wary(true, {1}), Some(Encode(g)))
    ensures RefuseFirst([r, q], [f, g], Wary(true, {1}), r) == (Wary(true, {0, 1}), Some(Encode(f)))
  {
    assert [r, q][0] == r && [r, q][1] == q;
    assert IndexOf([r, q], q) == 1 && IndexOf([r, q], r) == 0;
    assert {1} + {0} == {0, 1} && {} + {1} == {1};
  }

  lemma OverOrder()
    ensures InSendingOrder([Some(0), Some(1), Some(0)])
  {
    var from: seq<Option<nat>> := [Some(0), Some(1), Some(0)];
    assert from[..1] == [Some(0)] && from[2] == from[..2][0];
  }

  lemma ThreeRecords<D>(c: Decoder<D>, p: Progress<D>, a: seq<Byte>, b: seq<Byte>, e: seq<Byte>)
    ensures OnRecords(c, p, [a, b, e]) == OnRecord(c, OnRecord(c, OnRecord(c, p, a), b), e)
  {
    OnRecordsSnoc(c, p, [], a);
    OnRecordsSnoc(c, p, [a], b);
    OnRecordsSnoc(c, p, [a, b], e);
    assert [] + [a] == [a] && [a] + [b] == [a, b] && [a, b] + [e] == [a, b, e];
  }

  lemma ReversedPair(f: Frame, g: Frame)
    requires f != g
    ensures !IsSubsequence([g, f], [f, g])
  {
    assert [f, g][..1] == [f] && [f][..0] == [] && [g, f][..1] == [g];
    assert !IsSubsequence([g], []) && !IsSubsequence([g, f], []);
    assert !IsSubsequence([g, f], [f]);
  }
}
