/**
 * The chunk assembler inside `getLibrary`. The enumeration callback appends
 * each item to the in-flight chunk (or, past `maxItems`, emits a last
 * chunk); the enrichment callback of an item flushes the chunk when that
 * item is the last one, when the buffer holds exactly `itemsInChunk` items,
 * or when `chunkTimeSec` has elapsed. The order in which the two kinds of
 * callback arrive is an input: a sequence of events.
 */
module ChunkAssembly {

  /** One call of the caller's completion: `(items, chunkNum, isLast)`. */
  datatype Emission = Emission(items: seq<string>, chunkNum: nat, isLast: bool)

  /**
   * The fetch result's `count` and the chunking options of one `getLibrary`
   * call; `chunkTimeSec` is in the same integer unit as the clock.
   */
  datatype ChunkConfig = ChunkConfig(total: nat, maxItems: int, itemsInChunk: int, chunkTimeSec: int)

  /** The closure's captured `chunk`, `chunkNum`, `chunkStartTime`, and the completions made so far. */
  datatype ChunkState = ChunkState(chunk: seq<string>, chunkNum: nat, chunkStart: int, emitted: seq<Emission>)

  /** An enumeration callback for `index`, or the enrichment callback for `index` arriving at time `now`. */
  datatype Event = Enumerated(index: nat, item: string) | Completed(index: nat, now: int)

  function Abs(x: int): nat {
    if x < 0 then -x else x
  }

  /** The state when enumeration starts at time `t0`. */
  function Start(t0: int): ChunkState {
    ChunkState([], 0, t0, [])
  }

  /** The non-final flush condition, checked only when the completed item is not the last. */
  predicate FlushDue(cfg: ChunkConfig, s: ChunkState, now: int) {
    || (cfg.itemsInChunk > 0 && |s.chunk| == cfg.itemsInChunk)
    || (cfg.chunkTimeSec > 0 && Abs(now - s.chunkStart) >= cfg.chunkTimeSec)
  }

  /** The enumeration callback: past `maxItems` it emits a last chunk and appends nothing. */
  function OnEnumerated(cfg: ChunkConfig, s: ChunkState, index: nat, item: string): ChunkState {
    if cfg.maxItems > 0 && index + 1 > cfg.maxItems then
      s.(emitted := s.emitted + [Emission(s.chunk, s.chunkNum, true)])
    else
      s.(chunk := s.chunk + [item])
  }

  /** The enrichment callback of item `index`, finishing at time `now`. */
  function OnCompleted(cfg: ChunkConfig, s: ChunkState, index: nat, now: int): ChunkState {
    if index == cfg.total - 1 then
      s.(emitted := s.emitted + [Emission(s.chunk, s.chunkNum, true)])
    else if FlushDue(cfg, s, now) then
      ChunkState([], s.chunkNum + 1, now, s.emitted + [Emission(s.chunk, s.chunkNum, false)])
    else
      s
  }

  function Step(cfg: ChunkConfig, s: ChunkState, e: Event): ChunkState {
    match e
    case Enumerated(i, item) => OnEnumerated(cfg, s, i, item)
    case Completed(i, now) => OnCompleted(cfg, s, i, now)
  }

  /** The state after a sequence of callbacks, in arrival order. */
  function Run(cfg: ChunkConfig, s: ChunkState, events: seq<Event>): ChunkState
    decreases |events|
  {
    if events == [] then s
    else Step(cfg, Run(cfg, s, events[..|events| - 1]), events[|events| - 1])
  }

  /** Callbacks the enumeration of a `total`-element fetch result can produce. */
  ghost predicate ValidEvents(cfg: ChunkConfig, events: seq<Event>) {
    forall k :: 0 <= k < |events| ==> events[k].index < cfg.total
  }

  /** All items of a sequence of completions, in order. */
  function Flatten(es: seq<Emission>): seq<string> {
    if es == [] then [] else Flatten(es[..|es| - 1]) + es[|es| - 1].items
  }

  /** The number of non-final completions. */
  function NonFinalCount(es: seq<Emission>): nat {
    if es == [] then 0 else NonFinalCount(es[..|es| - 1]) + (if es[|es| - 1].isLast then 0 else 1)
  }

  lemma RunSnoc(cfg: ChunkConfig, s: ChunkState, events: seq<Event>, e: Event)
    ensures Run(cfg, s, events + [e]) == Step(cfg, Run(cfg, s, events), e)
  {
    assert (events + [e])[..|events|] == events;
  }

  // ----- one callback -----

  /** The last index emits the buffer as the last chunk and keeps the buffer and `chunkNum`. */
  lemma FinalFlush(cfg: ChunkConfig, s: ChunkState, now: int)
    requires cfg.total > 0
    ensures var s' := OnCompleted(cfg, s, cfg.total - 1, now);
      s'.emitted == s.emitted + [Emission(s.chunk, s.chunkNum, true)] &&
      s'.chunk == s.chunk && s'.chunkNum == s.chunkNum && s'.chunkStart == s.chunkStart
  {
  }

  /** An index beyond a positive `maxItems` emits a last chunk and appends nothing. */
  lemma MaxItemsFlush(cfg: ChunkConfig, s: ChunkState, index: nat, item: string)
    requires cfg.maxItems > 0 && index + 1 > cfg.maxItems
    ensures var s' := OnEnumerated(cfg, s, index, item);
      s'.emitted == s.emitted + [Emission(s.chunk, s.chunkNum, true)] &&
      s'.chunk == s.chunk && s'.chunkNum == s.chunkNum
  {
  }

  /**
   * A completion that is not the last flushes exactly when the buffer size
   * equals `itemsInChunk` or the chunk timer has run out; a flush emits a
   * non-final chunk, advances `chunkNum` by one, empties the buffer and
   * restarts the timer, and otherwise nothing changes.
   */
  lemma NonFinalFlush(cfg: ChunkConfig, s: ChunkState, index: nat, now: int)
    requires index != cfg.total - 1
    ensures var s' := OnCompleted(cfg, s, index, now);
      if (cfg.itemsInChunk > 0 && |s.chunk| == cfg.itemsInChunk) ||
         (cfg.chunkTimeSec > 0 && Abs(now - s.chunkStart) >= cfg.chunkTimeSec)
      then s' == ChunkState([], s.chunkNum + 1, now, s.emitted + [Emission(s.chunk, s.chunkNum, false)])
      else s' == s
  {
  }

  /**
   * A callback either emits nothing and keeps `chunkNum`, or emits the buffer
   * under the current number as the last chunk and keeps `chunkNum`, or emits
   * it as a non-final chunk and advances `chunkNum` by exactly one.
   */
  lemma ChunkNumOnlyOnFlush(cfg: ChunkConfig, s: ChunkState, e: Event)
    ensures var s' := Step(cfg, s, e);
      || (s'.emitted == s.emitted && s'.chunkNum == s.chunkNum)
      || (s'.emitted == s.emitted + [Emission(s.chunk, s.chunkNum, true)] && s'.chunkNum == s.chunkNum)
      || (s'.emitted == s.emitted + [Emission(s.chunk, s.chunkNum, false)] && s'.chunkNum == s.chunkNum + 1)
  {
  }

  // ----- whole enumerations -----

  /** Every completion carries the number of non-final completions before it, and `n` counts them all. */
  ghost predicate Numbered(es: seq<Emission>, n: nat) {
    && n == NonFinalCount(es)
    && forall k :: 0 <= k < |es| ==> es[k].chunkNum == NonFinalCount(es[..k])
  }

  ghost predicate WellNumbered(s: ChunkState) {
    Numbered(s.emitted, s.chunkNum)
  }

  /** Emitting under the current number keeps the numbering, and a non-final chunk advances the count. */
  lemma {:induction false} NumberedSnoc(es: seq<Emission>, n: nat, x: Emission)
    requires Numbered(es, n) && x.chunkNum == n
    ensures Numbered(es + [x], n + (if x.isLast then 0 else 1))
  {
    var es' := es + [x];
    assert es'[..|es|] == es;
    forall k | 0 <= k < |es'|
      ensures es'[k].chunkNum == NonFinalCount(es'[..k])
    {
      if k < |es| {
        assert es'[..k] == es[..k];
      }
    }
  }

  lemma {:induction false} StepKeepsNumbering(cfg: ChunkConfig, s: ChunkState, e: Event)
    requires WellNumbered(s)
    ensures WellNumbered(Step(cfg, s, e))
  {
    ChunkNumOnlyOnFlush(cfg, s, e);
    var s' := Step(cfg, s, e);
    if s'.emitted == s.emitted + [Emission(s.chunk, s.chunkNum, true)] {
      NumberedSnoc(s.emitted, s.chunkNum, Emission(s.chunk, s.chunkNum, true));
    } else if s'.emitted == s.emitted + [Emission(s.chunk, s.chunkNum, false)] {
      NumberedSnoc(s.emitted, s.chunkNum, Emission(s.chunk, s.chunkNum, false));
    }
  }

  /**
   * Chunk numbers are 0-based and consecutive over the non-final chunks: in
   * any arrival order, each completion is numbered by the non-final
   * completions before it, and `chunkNum` counts them.
   */
  lemma {:induction false} ChunkNumbering(cfg: ChunkConfig, t0: int, events: seq<Event>)
    ensures WellNumbered(Run(cfg, Start(t0), events))
    decreases |events|
  {
    if events != [] {
      ChunkNumbering(cfg, t0, events[..|events| - 1]);
      StepKeepsNumbering(cfg, Run(cfg, Start(t0), events[..|events| - 1]), events[|events| - 1]);
    }
  }

  /** Every non-final completion holds exactly `itemsInChunk` items. */
  ghost predicate SizedNonFinal(cfg: ChunkConfig, es: seq<Emission>) {
    forall k :: 0 <= k < |es| && !es[k].isLast ==> |es[k].items| == cfg.itemsInChunk
  }

  /** With a size threshold and no time threshold, a callback flushes a non-final chunk only when it is full. */
  lemma {:induction false} StepKeepsSized(cfg: ChunkConfig, s: ChunkState, e: Event)
    requires cfg.itemsInChunk > 0 && cfg.chunkTimeSec <= 0
    requires SizedNonFinal(cfg, s.emitted)
    ensures SizedNonFinal(cfg, Step(cfg, s, e).emitted)
  {
    var s' := Step(cfg, s, e);
    if s'.emitted != s.emitted {
      var x := s'.emitted[|s.emitted|];
      assert s'.emitted == s.emitted + [x];
      assert !x.isLast ==> e.Completed? && FlushDue(cfg, s, e.now) && x.items == s.chunk;
      forall k | 0 <= k < |s'.emitted| && !s'.emitted[k].isLast
        ensures |s'.emitted[k].items| == cfg.itemsInChunk
      {
        if k < |s.emitted| {
          assert s'.emitted[k] == s.emitted[k];
        }
      }
    }
  }

  /**
   * With a positive `itemsInChunk` and no time threshold, every non-final
   * chunk holds exactly `itemsInChunk` items, in any arrival order of the
   * callbacks.
   */
  lemma {:induction false} NonFinalChunksFull(cfg: ChunkConfig, t0: int, events: seq<Event>)
    requires cfg.itemsInChunk > 0 && cfg.chunkTimeSec <= 0
    ensures SizedNonFinal(cfg, Run(cfg, Start(t0), events).emitted)
    decreases |events|
  {
    if events != [] {
      NonFinalChunksFull(cfg, t0, events[..|events| - 1]);
      StepKeepsSized(cfg, Run(cfg, Start(t0), events[..|events| - 1]), events[|events| - 1]);
    }
  }

  /** An empty fetch result produces no callbacks, so no completion is ever made. */
  lemma EmptyFetchEmitsNothing(cfg: ChunkConfig, t0: int, events: seq<Event>)
    requires cfg.total == 0 && ValidEvents(cfg, events)
    ensures Run(cfg, Start(t0), events).emitted == []
  {
  }

  /** Item `i` enumerated and then enriched before item `i + 1` is enumerated, for the first `n` items. */
  function Sequential(items: seq<string>, times: seq<int>, n: nat): (evs: seq<Event>)
    requires n <= |items| && n <= |times|
    ensures |evs| == 2 * n
  {
    if n == 0 then []
    else Sequential(items, times, n - 1) + [Enumerated(n - 1, items[n - 1]), Completed(n - 1, times[n - 1])]
  }

  /** What holds after the first `i` items of a sequential delivery, `i` below the total. */
  ghost predicate SequentialSoFar(cfg: ChunkConfig, items: seq<string>, i: nat, s: ChunkState)
    requires i <= |items|
  {
    && (forall k :: 0 <= k < |s.emitted| ==> !s.emitted[k].isLast)
    && Flatten(s.emitted) + s.chunk == items[..i]
    && (cfg.itemsInChunk > 0 && cfg.chunkTimeSec <= 0 ==>
          |s.chunk| < cfg.itemsInChunk &&
          forall k :: 0 <= k < |s.emitted| ==> |s.emitted[k].items| == cfg.itemsInChunk)
  }

  lemma FlattenSnoc(es: seq<Emission>, e: Emission)
    ensures Flatten(es + [e]) == Flatten(es) + e.items
  {
    assert (es + [e])[..|es|] == es;
  }

  /** Running one more enumerate-then-complete pair. */
  lemma RunPair(cfg: ChunkConfig, items: seq<string>, times: seq<int>, t0: int, n: nat)
    requires 0 < n <= |items| && n <= |times|
    ensures Run(cfg, Start(t0), Sequential(items, times, n)) ==
      OnCompleted(cfg, OnEnumerated(cfg, Run(cfg, Start(t0), Sequential(items, times, n - 1)), n - 1, items[n - 1]),
                  n - 1, times[n - 1])
  {
    var e1, e2 := Enumerated(n - 1, items[n - 1]), Completed(n - 1, times[n - 1]);
    RunSnoc(cfg, Start(t0), Sequential(items, times, n - 1), e1);
    RunSnoc(cfg, Start(t0), Sequential(items, times, n - 1) + [e1], e2);
    assert Sequential(items, times, n) == Sequential(items, times, n - 1) + [e1] + [e2];
  }

  /** One pair that is not the last keeps `SequentialSoFar`. */
  lemma {:induction false} PairKeepsSoFar(cfg: ChunkConfig, items: seq<string>, n: nat, now: int, prev: ChunkState)
    requires 0 < n < cfg.total && n <= |items|
    requires cfg.maxItems <= 0 || cfg.total <= cfg.maxItems
    requires SequentialSoFar(cfg, items, n - 1, prev)
    ensures SequentialSoFar(cfg, items, n, OnCompleted(cfg, OnEnumerated(cfg, prev, n - 1, items[n - 1]), n - 1, now))
  {
    var mid := OnEnumerated(cfg, prev, n - 1, items[n - 1]);
    assert mid == prev.(chunk := prev.chunk + [items[n - 1]]);
    assert items[..n] == items[..n - 1] + [items[n - 1]];
    assert Flatten(mid.emitted) + mid.chunk == items[..n];
    var s := OnCompleted(cfg, mid, n - 1, now);
    var fixedSize := cfg.itemsInChunk > 0 && cfg.chunkTimeSec <= 0;
    if FlushDue(cfg, mid, now) {
      var e := Emission(mid.chunk, mid.chunkNum, false);
      assert s == ChunkState([], mid.chunkNum + 1, now, mid.emitted + [e]);
      FlattenSnoc(mid.emitted, e);
      forall k | 0 <= k < |s.emitted|
        ensures !s.emitted[k].isLast
        ensures fixedSize ==> |s.emitted[k].items| == cfg.itemsInChunk
      {
        if k < |mid.emitted| {
          assert s.emitted[k] == mid.emitted[k];
        } else {
          assert s.emitted[k] == e;
        }
      }
    } else {
      assert s == mid;
      assert fixedSize ==> |mid.chunk| != cfg.itemsInChunk;
    }
  }

  lemma {:induction false} SequentialPrefix(cfg: ChunkConfig, items: seq<string>, times: seq<int>, t0: int, n: nat)
    requires cfg.total == |items| == |times| && n < cfg.total
    requires cfg.maxItems <= 0 || cfg.total <= cfg.maxItems
    ensures SequentialSoFar(cfg, items, n, Run(cfg, Start(t0), Sequential(items, times, n)))
    decreases n
  {
    if n == 0 {
      assert items[..0] == [];
    } else {
      SequentialPrefix(cfg, items, times, t0, n - 1);
      RunPair(cfg, items, times, t0, n);
      PairKeepsSoFar(cfg, items, n, times[n - 1], Run(cfg, Start(t0), Sequential(items, times, n - 1)));
    }
  }

  /**
   * Sequential delivery of a whole fetch result (no `maxItems` cut): the
   * completions partition the items in order, with no loss and no
   * duplicate, and exactly the final completion is flagged last. With a
   * positive `itemsInChunk` and no time threshold, every non-final chunk
   * holds exactly `itemsInChunk` items.
   */
  lemma {:induction false} SequentialDelivery(cfg: ChunkConfig, items: seq<string>, times: seq<int>, t0: int)
    requires cfg.total == |items| == |times| && cfg.total > 0
    requires cfg.maxItems <= 0 || cfg.total <= cfg.maxItems
    ensures var s := Run(cfg, Start(t0), Sequential(items, times, |items|));
      && |s.emitted| > 0
      && Flatten(s.emitted) == items
      && (forall k :: 0 <= k < |s.emitted| ==> (s.emitted[k].isLast <==> k == |s.emitted| - 1))
      && (cfg.itemsInChunk > 0 && cfg.chunkTimeSec <= 0 ==>
            forall k :: 0 <= k < |s.emitted| - 1 ==> |s.emitted[k].items| == cfg.itemsInChunk)
  {
    var n := |items|;
    var prev := Run(cfg, Start(t0), Sequential(items, times, n - 1));
    SequentialPrefix(cfg, items, times, t0, n - 1);
    RunPair(cfg, items, times, t0, n);
    var mid := OnEnumerated(cfg, prev, n - 1, items[n - 1]);
    assert mid == prev.(chunk := prev.chunk + [items[n - 1]]);
    assert items[..n - 1] + [items[n - 1]] == items;
    FlattenSnoc(mid.emitted, Emission(mid.chunk, mid.chunkNum, true));
  }

  /**
   * Outside the sequential order the partition fails. The last item's
   * enrichment finishes first and emits the buffer as the last chunk without
   * clearing it; the first item's enrichment then finds the time threshold
   * passed and emits the same items again, as a non-final chunk after the
   * last one.
   */
  lemma OutOfOrderRepeatsItems()
    ensures var s := Run(ChunkConfig(2, 0, 0, 1), Start(0),
                         [Enumerated(0, "a"), Enumerated(1, "b"), Completed(1, 0), Completed(0, 5)]);
      && s.emitted == [Emission(["a", "b"], 0, true), Emission(["a", "b"], 0, false)]
      && Flatten(s.emitted) == ["a", "b", "a", "b"]
  {
    var cfg := ChunkConfig(2, 0, 0, 1);
    var e0, e1, e2, e3 := Enumerated(0, "a"), Enumerated(1, "b"), Completed(1, 0), Completed(0, 5);
    var last := Emission(["a", "b"], 0, true);
    RunSnoc(cfg, Start(0), [], e0);
    assert [] + [e0] == [e0];
    RunSnoc(cfg, Start(0), [e0], e1);
    assert [e0] + [e1] == [e0, e1];
    assert Run(cfg, Start(0), [e0, e1]) == ChunkState(["a", "b"], 0, 0, []);
    RunSnoc(cfg, Start(0), [e0, e1], e2);
    assert [e0, e1] + [e2] == [e0, e1, e2];
    assert Run(cfg, Start(0), [e0, e1, e2]) == ChunkState(["a", "b"], 0, 0, [last]);
    RunSnoc(cfg, Start(0), [e0, e1, e2], e3);
    assert [e0, e1, e2] + [e3] == [e0, e1, e2, e3];
    FlattenSnoc([last], Emission(["a", "b"], 0, false));
    FlattenSnoc([], last);
  }

  /**
   * An item whose enrichment never finishes is still delivered when another
   * item's completion flushes the buffer it sits in.
   */
  lemma UncompletedItemStillArrives()
    ensures Run(ChunkConfig(2, 0, 0, 0), Start(0), [Enumerated(0, "a"), Enumerated(1, "b"), Completed(1, 0)]).emitted
      == [Emission(["a", "b"], 0, true)]
  {
    var cfg := ChunkConfig(2, 0, 0, 0);
    var evs := [Enumerated(0, "a"), Enumerated(1, "b"), Completed(1, 0)];
    assert Run(cfg, Start(0), evs[..2]) == ChunkState(["a", "b"], 0, 0, []) by {
      assert evs[..2][..1] == [Enumerated(0, "a")];
      assert [Enumerated(0, "a")][..0] == [];
    }
    assert evs[..3] == evs;
  }

  /** Every item enumerated (in order) before any enrichment finishes. */
  function Enumerations(items: seq<string>, n: nat): (evs: seq<Event>)
    requires n <= |items|
    ensures |evs| == n
    ensures forall k :: 0 <= k < n ==> evs[k] == Enumerated(k, items[k])
  {
    if n == 0 then [] else Enumerations(items, n - 1) + [Enumerated(n - 1, items[n - 1])]
  }

  /** Enumeration callbacks in index order, with no enrichment finishing, only fill the buffer. */
  lemma {:induction false} EnumerationsFillBuffer(cfg: ChunkConfig, items: seq<string>, t0: int, evs: seq<Event>)
    requires |evs| <= |items|
    requires forall k :: 0 <= k < |evs| ==> evs[k] == Enumerated(k, items[k])
    requires cfg.maxItems <= 0 || |items| <= cfg.maxItems
    ensures Run(cfg, Start(t0), evs) == ChunkState(items[..|evs|], 0, t0, [])
    decreases |evs|
  {
    if evs != [] {
      var m := |evs| - 1;
      EnumerationsFillBuffer(cfg, items, t0, evs[..m]);
      assert items[..m + 1] == items[..m] + [items[m]];
    } else {
      assert items[..0] == [];
    }
  }

  /** How many enrichment callbacks for `index` a sequence of callbacks holds. */
  function Arrivals(order: seq<Event>, index: nat): nat {
    if order == [] then 0
    else Arrivals(order[..|order| - 1], index) + (if order[|order| - 1].Completed? && order[|order| - 1].index == index then 1 else 0)
  }

  lemma {:induction false} CompletionsAfterFullBuffer(cfg: ChunkConfig, items: seq<string>, t0: int, order: seq<Event>)
    requires cfg.total == |items| > 0
    requires !(cfg.itemsInChunk > 0 && cfg.itemsInChunk == |items|) && cfg.chunkTimeSec <= 0
    requires forall k :: 0 <= k < |order| ==> order[k].Completed?
    ensures var s := Run(cfg, ChunkState(items, 0, t0, []), order);
      && s.chunk == items && s.chunkNum == 0 && s.chunkStart == t0
      && |s.emitted| == Arrivals(order, |items| - 1)
      && forall k :: 0 <= k < |s.emitted| ==> s.emitted[k] == Emission(items, 0, true)
    decreases |order|
  {
    if order != [] {
      var m := |order| - 1;
      CompletionsAfterFullBuffer(cfg, items, t0, order[..m]);
    }
  }

  /**
   * When every item is enumerated before any enrichment finishes (the usual
   * case, since enumeration is synchronous and enrichment asynchronous), the
   * buffer already holds the whole fetch result at every completion, so the
   * exact-size test never fires unless `itemsInChunk` equals the total:
   * without a time threshold the one and only completion is the whole
   * result, numbered 0 and flagged last, whatever order completions arrive in.
   */
  lemma {:induction false} AllEnumeratedFirst(cfg: ChunkConfig, items: seq<string>, t0: int, order: seq<Event>)
    requires cfg.total == |items| > 0
    requires cfg.maxItems <= 0 || |items| <= cfg.maxItems
    requires !(cfg.itemsInChunk > 0 && cfg.itemsInChunk == |items|) && cfg.chunkTimeSec <= 0
    requires forall k :: 0 <= k < |order| ==> order[k].Completed?
    requires Arrivals(order, |items| - 1) == 1
    ensures Run(cfg, Start(t0), Enumerations(items, |items|) + order).emitted == [Emission(items, 0, true)]
  {
    EnumerationsFillBuffer(cfg, items, t0, Enumerations(items, |items|));
    assert items[..|items|] == items;
    RunAppend(cfg, Start(t0), Enumerations(items, |items|), order);
    CompletionsAfterFullBuffer(cfg, items, t0, order);
  }

  lemma {:induction false} RunAppend(cfg: ChunkConfig, s: ChunkState, a: seq<Event>, b: seq<Event>)
    ensures Run(cfg, s, a + b) == Run(cfg, Run(cfg, s, a), b)
    decreases |b|
  {
    if b == [] {
      assert a + b == a;
    } else {
      var m := |b| - 1;
      RunAppend(cfg, s, a, b[..m]);
      assert (a + b)[..|a + b| - 1] == a + b[..m];
    }
  }

  /** The closure state of one `getLibrary` call, updated by its two callbacks. */
  class ChunkAssembler {
    const cfg: ChunkConfig
    var chunk: seq<string>
    var chunkNum: nat
    var chunkStartTime: int
    var emitted: seq<Emission>

    function State(): ChunkState
      reads this
    {
      ChunkState(chunk, chunkNum, chunkStartTime, emitted)
    }

    /** An empty chunk numbered 0, its timer started at `startTime`. */
    constructor (cfg: ChunkConfig, startTime: int)
      ensures this.cfg == cfg && State() == Start(startTime)
    {
      this.cfg := cfg;
      chunk := [];
      chunkNum := 0;
      chunkStartTime := startTime;
      emitted := [];
    }

    /** The enumeration callback for item `index`. */
    method Append(index: nat, item: string)
      modifies this
      ensures State() == OnEnumerated(cfg, old(State()), index, item)
    {
      if cfg.maxItems > 0 && index + 1 > cfg.maxItems {
        emitted := emitted + [Emission(chunk, chunkNum, true)];
        return;
      }
      chunk := chunk + [item];
    }

    /** The enrichment callback for item `index`, arriving at time `now`. */
    method Complete(index: nat, now: int)
      modifies this
      ensures State() == OnCompleted(cfg, old(State()), index, now)
    {
      if index == cfg.total - 1 {
        emitted := emitted + [Emission(chunk, chunkNum, true)];
      } else if (cfg.itemsInChunk > 0 && |chunk| == cfg.itemsInChunk) ||
                (cfg.chunkTimeSec > 0 && Abs(now - chunkStartTime) >= cfg.chunkTimeSec) {
        emitted := emitted + [Emission(chunk, chunkNum, false)];
        chunkNum := chunkNum + 1;
        chunk := [];
        chunkStartTime := now;
      }
    }
  }
}
