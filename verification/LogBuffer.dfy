/** The ring buffer of src/log_buffer.rs: a bounded window over an unbounded history. */
module LogBuffer {
  import opened Basics

  datatype Entry = Entry(id: nat, ts: int, level: string, target: string, message: string)

  function Limit(limit: nat): (r: nat)
    ensures 1 <= r <= 2000
  {
    Clamp(limit, 1, 2000)
  }

  function Take<T>(s: seq<T>, n: nat): seq<T> {
    if n < |s| then s[..n] else s
  }

  function Last<T>(s: seq<T>, n: nat): seq<T> {
    if n < |s| then s[|s| - n..] else s
  }

  function Newer(entries: seq<Entry>, afterId: nat): seq<Entry> {
    if entries == [] then []
    else (if entries[0].id > afterId then [entries[0]] else []) + Newer(entries[1..], afterId)
  }

  /** The id of the k-th push since `new`: counted from 1, saturating at the 64-bit maximum. */
  function IdOf(k: nat): nat {
    Min(k + 1, U64_MAX)
  }

  predicate Numbered(history: seq<Entry>) {
    forall k :: 0 <= k < |history| ==> history[k].id == IdOf(k)
  }

  /** The entries are the newest part of the history. */
  ghost predicate Window(history: seq<Entry>, entries: seq<Entry>) {
    |entries| <= |history| && entries == history[|history| - |entries|..]
  }

  lemma WindowAfterPush(history: seq<Entry>, entry: Entry, capacity: nat)
    ensures Window(history + [entry], Last(history, capacity) + [entry])
    ensures |Last(history, capacity)| == Min(capacity, |history|)
  {
  }

  lemma NumberedAfterPush(history: seq<Entry>, entry: Entry)
    requires Numbered(history) && entry.id == IdOf(|history|)
    ensures Numbered(history + [entry])
  {
  }

  lemma WindowShorter(history: seq<Entry>, entries: seq<Entry>)
    requires Window(history, entries) && entries != []
    ensures Window(history, entries[1..])
  {
  }

  lemma WindowIsLast(history: seq<Entry>, entries: seq<Entry>, capacity: nat)
    requires Window(history, entries) && |entries| == Min(capacity, |history|)
    ensures entries == Last(history, capacity)
  {
  }

  class LogBuffer {
    var nextId: nat
    var entries: seq<Entry>
    var capacity: nat
    ghost var history: seq<Entry>  // every entry ever pushed

    ghost predicate Valid()
      reads this
    {
      && capacity >= 100
      && nextId == IdOf(|history|)
      && Numbered(history)
      && entries == Last(history, capacity)
    }

    constructor (cap: nat)
      ensures Valid() && history == [] && capacity == Max(cap, 100)
    {
      nextId := 1;
      entries := [];
      capacity := Max(cap, 100);
      history := [];
    }

    method Push(ts: int, level: string, target: string, message: string)
      requires Valid()
      modifies this
      ensures Valid() && capacity == old(capacity)
      ensures history == old(history) + [Entry(IdOf(|old(history)|), ts, level, target, message)]
      ensures entries == history[|history| - Min(capacity, |history|)..]
    {
      var id := nextId;
      nextId := Min(nextId + 1, U64_MAX);
      var entry := Entry(id, ts, level, target, message);
      entries := entries + [entry];
      history := history + [entry];
      ghost var all := history;
      WindowAfterPush(old(history), entry, capacity);
      while |entries| > capacity
        invariant capacity == old(capacity) && nextId == old(Min(nextId + 1, U64_MAX)) && history == all
        invariant Window(all, entries) && |entries| >= Min(capacity, |all|)
      {
        WindowShorter(all, entries);
        entries := entries[1..];
      }
      WindowIsLast(all, entries, capacity);
      NumberedAfterPush(old(history), entry);
    }

    /** The oldest entries after `afterId`: for a tailer that has read `afterId` entries, the
        next ones of the history that are still in the window, none if it has read them all. */
    function Since(afterId: nat, limit: nat): (r: seq<Entry>)
      requires Valid()
      reads this
      ensures |history| < U64_MAX ==> r == NextBatch(history, capacity, afterId, limit)
    {
      SinceReadsOn(history, capacity, afterId, limit);
      Take(Newer(entries, afterId), Limit(limit))
    }

    /** The newest entries, oldest first: a suffix of everything pushed. */
    function Recent(limit: nat): (r: seq<Entry>)
      requires Valid()
      reads this
      ensures r == history[|history| - Min(Min(Max(limit, 1), 2000), Min(capacity, |history|))..]
    {
      Last(entries, Limit(limit))
    }
  }

  lemma {:induction false} NewerThanAll(entries: seq<Entry>, afterId: nat)
    requires forall k :: 0 <= k < |entries| ==> entries[k].id > afterId
    ensures Newer(entries, afterId) == entries
  {
    if entries != [] {
      NewerThanAll(entries[1..], afterId);
    }
  }

  lemma {:induction false} NewerSkipsOld(old_: seq<Entry>, fresh_: seq<Entry>, afterId: nat)
    requires forall k :: 0 <= k < |old_| ==> old_[k].id <= afterId
    requires forall k :: 0 <= k < |fresh_| ==> fresh_[k].id > afterId
    ensures Newer(old_ + fresh_, afterId) == fresh_
  {
    if old_ == [] {
      NewerThanAll(fresh_, afterId);
      assert old_ + fresh_ == fresh_;
    } else {
      NewerSkipsOld(old_[1..], fresh_, afterId);
      assert (old_ + fresh_)[1..] == old_[1..] + fresh_;
    }
  }

  /** What a tailer that has read the first `seen` entries gets: the next entries of the
      history, unless the window has already moved past some of them. */
  function NextBatch(history: seq<Entry>, capacity: nat, seen: nat, limit: nat): seq<Entry> {
    var from := Max(seen, |history| - capacity);
    if from < |history| then history[from..Min(from + Min(Max(limit, 1), 2000), |history|)] else []
  }

  /** Of the entries from `lo` on, those after id `cut` are the ones from position `cut` on. */
  lemma {:induction false} WindowSplits(history: seq<Entry>, lo: nat, cut: nat)
    requires Numbered(history) && |history| < U64_MAX && lo <= cut <= |history|
    ensures Newer(history[lo..], cut) == history[cut..]
    decreases cut - lo
  {
    if lo < cut {
      assert history[lo..][0] == history[lo] && history[lo].id == lo + 1;
      assert history[lo..][1..] == history[lo + 1..];
      WindowSplits(history, lo + 1, cut);
    } else {
      assert forall k :: 0 <= k < |history[lo..]| ==> history[lo..][k] == history[lo + k];
      NewerThanAll(history[lo..], cut);
    }
  }

  lemma NewerInWindow(history: seq<Entry>, capacity: nat, seen: nat)
    requires Numbered(history) && |history| < U64_MAX && seen <= |history|
    ensures Newer(Last(history, capacity), seen) == history[Max(seen, Max(0, |history| - capacity))..]
  {
    var lo := |history| - |Last(history, capacity)|;
    assert Last(history, capacity) == history[lo..];
    if lo <= seen {
      WindowSplits(history, lo, seen);
    } else {
      assert forall k :: 0 <= k < |history[lo..]| ==> history[lo..][k] == history[lo + k];
      NewerThanAll(history[lo..], seen);
    }
  }

  lemma NothingBeyond(history: seq<Entry>, capacity: nat, seen: nat)
    requires Numbered(history) && |history| <= seen
    ensures Newer(Last(history, capacity), seen) == []
  {
    NewerSkipsOld(Last(history, capacity), [], seen);
    assert Last(history, capacity) + [] == Last(history, capacity);
  }

  lemma TakeIsSlice(history: seq<Entry>, from: nat, limit: nat)
    requires from < |history|
    ensures Take(history[from..], Limit(limit)) == history[from..Min(from + Limit(limit), |history|)]
  {
  }

  lemma SinceReadsOn(history: seq<Entry>, capacity: nat, seen: nat, limit: nat)
    requires Numbered(history)
    ensures |history| < U64_MAX ==>
              Take(Newer(Last(history, capacity), seen), Limit(limit)) == NextBatch(history, capacity, seen, limit)
  {
    if |history| <= seen {
      NothingBeyond(history, capacity, seen);
    } else if |history| < U64_MAX {
      var from := Max(seen, Max(0, |history| - capacity));
      NewerInWindow(history, capacity, seen);
      if from < |history| {
        TakeIsSlice(history, from, limit);
      }
    }
  }

  /** A tailer interleaved with writers. */
  datatype Action = Write(entry: Entry) | Poll(limit: nat)

  datatype Tail = Tail(history: seq<Entry>, lastId: nat, got: seq<Entry>)

  /** One step; a poll asks `since` with the id of the last entry it has seen. */
  function Act(t: Tail, capacity: nat, a: Action): Tail {
    match a
    case Write(e) => t.(history := t.history + [e.(id := IdOf(|t.history|))])
    case Poll(limit) =>
      var batch := Take(Newer(Last(t.history, capacity), t.lastId), Limit(limit));
      if batch == [] then t
      else t.(lastId := batch[|batch| - 1].id, got := t.got + batch)
  }

  function Tailing(actions: seq<Action>, capacity: nat): Tail {
    if actions == [] then Tail([], 0, [])
    else Act(Tailing(actions[..|actions| - 1], capacity), capacity, actions[|actions| - 1])
  }

  /** Every poll happens before the window has moved past the tailer. */
  predicate KeepsUp(actions: seq<Action>, capacity: nat) {
    forall k :: 0 <= k < |actions| && actions[k].Poll? ==>
      var t := Tailing(actions[..k], capacity);
      |t.history| - t.lastId <= capacity
  }

  ghost predicate ReadAPrefix(t: Tail) {
    && Numbered(t.history)
    && t.lastId <= |t.history|
    && t.got == t.history[..t.lastId]
  }

  lemma ReadOn(history: seq<Entry>, from: nat, to: nat)
    requires from < to <= |history| && Numbered(history) && |history| < U64_MAX
    ensures history[..from] + history[from..to] == history[..to]
    ensures history[from..to] != [] && history[from..to][to - from - 1].id == to
  {
  }

  /** A tailer that keeps up gets what follows what it has read. */
  lemma NextFollows(history: seq<Entry>, capacity: nat, seen: nat, limit: nat)
    requires seen < |history| && |history| - seen <= capacity
    ensures NextBatch(history, capacity, seen, limit) == history[seen..Min(seen + Limit(limit), |history|)]
  {
  }

  lemma PollReadsOn(t: Tail, capacity: nat, limit: nat)
    requires ReadAPrefix(t) && |t.history| < U64_MAX && |t.history| - t.lastId <= capacity
    ensures ReadAPrefix(Act(t, capacity, Poll(limit)))
  {
    SinceReadsOn(t.history, capacity, t.lastId, limit);
    if t.lastId < |t.history| {
      var to := Min(t.lastId + Limit(limit), |t.history|);
      NextFollows(t.history, capacity, t.lastId, limit);
      ReadOn(t.history, t.lastId, to);
      assert Act(t, capacity, Poll(limit)) == Tail(t.history, to, t.history[..to]);
    } else {
      assert NextBatch(t.history, capacity, t.lastId, limit) == [];
    }
  }

  /** However writes and polls interleave, a tailer that keeps up has read exactly a prefix
      of the history: every entry once, in order, none skipped. */
  lemma {:induction false} TailerMissesNothing(actions: seq<Action>, capacity: nat)
    requires KeepsUp(actions, capacity) && |actions| < U64_MAX
    ensures ReadAPrefix(Tailing(actions, capacity))
    ensures |Tailing(actions, capacity).history| <= |actions|
  {
    if actions != [] {
      var n := |actions| - 1;
      var before := actions[..n];
      assert forall k :: 0 <= k < n ==> before[..k] == actions[..k] && before[k] == actions[k];
      TailerMissesNothing(before, capacity);
      var t := Tailing(before, capacity);
      match actions[n] {
        case Write(e) =>
          assert (t.history + [e.(id := IdOf(|t.history|))])[..t.lastId] == t.history[..t.lastId];
        case Poll(limit) =>
          assert actions[n].Poll?;
          PollReadsOn(t, capacity, limit);
      }
    }
  }

  /** The exact condition: a poll continues where the tailer stopped if and only if the tailer
      is at most `capacity` entries behind; otherwise precisely the entries that fell out of
      the window are skipped. */
  lemma PollContinuesIffInWindow(history: seq<Entry>, capacity: nat, seen: nat, limit: nat)
    requires Numbered(history) && |history| < U64_MAX && seen < |history| && capacity > 0
    ensures var batch := Take(Newer(Last(history, capacity), seen), Limit(limit));
            && batch != []
            && (batch[0] == history[seen] <==> |history| - seen <= capacity)
            && batch[0].id == Max(seen, |history| - capacity) + 1
            && |batch| == Min(Min(Max(limit, 1), 2000), |history| - Max(seen, |history| - capacity))
  {
    SinceReadsOn(history, capacity, seen, limit);
  }
}
