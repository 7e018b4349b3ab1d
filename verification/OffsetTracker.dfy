/**
 * ContiguousOffsetTracker (simulator/logitrack_sim/main.py): a partition's commit
 * advances only over a completed prefix of the registered offsets.
 */
module OffsetTracker {
  import opened Common

  datatype TopicPartition = TopicPartition(topic: string, partition: int)

  /** What happened on one partition: the offsets registered, in order, and those completed. */
  datatype History = History(registered: seq<int>, done: set<int>)

  const NO_HISTORY := History([], {})

  /** Length of the longest prefix of `registered` whose offsets are all done. */
  function Prefix(registered: seq<int>, done: set<int>): (n: nat)
    ensures n <= |registered|
    ensures forall i :: 0 <= i < n ==> registered[i] in done
    ensures n < |registered| ==> registered[n] !in done
  {
    if registered == [] || registered[0] !in done then 0
    else 1 + Prefix(registered[1..], done)
  }

  ghost predicate WellFormed(h: History) {
    Increasing(h.registered) && h.done <= Elements(h.registered)
  }

  predicate MayRegister(h: History, offset: int) {
    h.registered == [] || h.registered[|h.registered| - 1] < offset
  }

  function Registered(h: History, offset: int): History {
    h.(registered := h.registered + [offset])
  }

  /** Offsets still awaiting the contiguous prefix: what the deque holds. */
  function Pending(h: History): seq<int> {
    h.registered[Prefix(h.registered, h.done)..]
  }

  function Completed(h: History, offset: int): History {
    h.(done := h.done + {offset})
  }

  /** One past the completed prefix; None while nothing has been completed from the start. */
  function Watermark(h: History): Option<int> {
    var n := Prefix(h.registered, h.done);
    if n == 0 then None else Some(h.registered[n - 1] + 1)
  }

  /** The position to commit when `offset` completes, if the prefix grew. */
  function Commit(h: History, offset: int): Option<int> {
    if Prefix(h.registered, h.done + {offset}) > Prefix(h.registered, h.done)
    then Watermark(Completed(h, offset)) else None
  }

  /** The prefix is the only length that is fully done and cannot be extended. */
  lemma {:induction false} PrefixUnique(registered: seq<int>, done: set<int>, n: nat)
    requires n <= |registered|
    requires forall i :: 0 <= i < n ==> registered[i] in done
    requires n < |registered| ==> registered[n] !in done
    ensures n == Prefix(registered, done)
  {
    if registered != [] && registered[0] in done {
      PrefixUnique(registered[1..], done, n - 1);
    }
  }

  /** Registering or completing more never shrinks the prefix. */
  lemma PrefixMonotone(h: History, later: History)
    requires h.registered <= later.registered && h.done <= later.done
    ensures Prefix(h.registered, h.done) <= Prefix(later.registered, later.done)
  {
    assert forall i :: 0 <= i < Prefix(h.registered, h.done) ==> later.registered[i] == h.registered[i];
  }

  /** A commit names one past the longest completed prefix: every registered offset below it is done. */
  lemma {:induction false} CommitIsContiguous(h: History, offset: int)
    requires WellFormed(h) && offset in h.registered
    requires Commit(h, offset).Some?
    ensures forall o :: o in h.registered && o < Commit(h, offset).value ==> o in h.done + {offset}
    ensures forall i :: 0 <= i < |h.registered| && h.registered[i] !in h.done + {offset}
                        ==> Commit(h, offset).value <= h.registered[i]
  {
    var n := Prefix(h.registered, h.done + {offset});
    forall i | 0 <= i < |h.registered|
      ensures h.registered[i] < Commit(h, offset).value ==> h.registered[i] in h.done + {offset}
      ensures h.registered[i] !in h.done + {offset} ==> Commit(h, offset).value <= h.registered[i]
    {
      if i >= n { IncreasingAt(h.registered, n - 1, i); }
      if i < n - 1 { IncreasingAt(h.registered, i, n - 1); }
    }
  }

  /** Completing an offset commits exactly when everything registered before it is done. */
  lemma {:induction false} CommitsExactlyAtTheFront(h: History, offset: int)
    requires WellFormed(h) && offset in h.registered && offset !in h.done
    ensures Commit(h, offset).Some? <==> forall o :: o in h.registered && o < offset ==> o in h.done
  {
    var n := Prefix(h.registered, h.done);
    var k :| 0 <= k < |h.registered| && h.registered[k] == offset;
    forall i | 0 <= i < |h.registered| && i != k ensures h.registered[i] < offset <==> i < k {
      if i < k { IncreasingAt(h.registered, i, k); } else { IncreasingAt(h.registered, k, i); }
    }
    assert n <= k;
    assert h.registered[n] in h.registered;
    if n < k {
      PrefixUnique(h.registered, h.done + {offset}, n);
    } else {
      PrefixMonotone(h, Completed(h, offset));
    }
    hide Increasing, Elements, Watermark;
  }

  /** Along any later registrations and completions, commits on a partition strictly increase. */
  lemma {:induction false} CommitsIncrease(h: History, first: int, later: History, second: int)
    requires WellFormed(h) && WellFormed(later)
    requires first in h.registered && second in later.registered
    requires h.registered <= later.registered && Completed(h, first).done <= later.done
    requires Commit(h, first).Some? && Commit(later, second).Some?
    ensures Commit(h, first).value < Commit(later, second).value
  {
    PrefixMonotone(Completed(h, first), later);
    var n := Prefix(h.registered, h.done + {first});
    var m := Prefix(later.registered, later.done + {second});
    assert later.registered[n - 1] == h.registered[n - 1];
    IncreasingAt(later.registered, n - 1, m - 1);
  }

  /** Nothing is left pending exactly when everything registered is done. */
  lemma DrainsIffAllDone(h: History)
    ensures Pending(h) == [] <==> forall i :: 0 <= i < |h.registered| ==> h.registered[i] in h.done
  {
  }

  /** What the three dictionaries hold for one key. */
  datatype Track = Track(pending: seq<int>, completed: set<int>, lastSeen: int)

  /** The while loop of `complete`: pop the finished head as long as there is one. */
  function Sweep(pending: seq<int>, completed: set<int>, committed: Option<int>): (seq<int>, set<int>, Option<int>) {
    if pending == [] || pending[0] !in completed then (pending, completed, committed)
    else Sweep(pending[1..], completed - {pending[0]}, Some(pending[0] + 1))
  }

  function RegisterTrack(t: Option<Track>, offset: int): Option<Track> {
    if t.None? then Some(Track([] + [offset], {}, offset))
    else if offset <= t.value.lastSeen then None
    else Some(Track(t.value.pending + [offset], t.value.completed, offset))
  }

  function CompleteTrack(t: Option<Track>, offset: int): Option<(Track, Option<int>)> {
    if t.None? || offset !in t.value.pending then None
    else
      var swept := Sweep(t.value.pending, t.value.completed + {offset}, None);
      Some((Track(swept.0, swept.1, t.value.lastSeen), swept.2))
  }

  /** The track is exactly what the history accounts for. */
  ghost predicate Tracks(h: History, t: Option<Track>) {
    && WellFormed(h)
    && (t.None? <==> h.registered == [])
    && (t.Some? ==>
      && t.value.pending == Pending(h)
      && t.value.completed == h.done * Elements(Pending(h))
      && t.value.lastSeen == h.registered[|h.registered| - 1])
  }

  lemma {:induction false} ElementsCons(s: seq<int>)
    requires s != []
    ensures Elements(s) == {s[0]} + Elements(s[1..])
  {
    if |s| > 1 {
      ElementsCons(s[..|s| - 1]);
      assert s[1..][..|s| - 2] == s[..|s| - 1][1..];
    }
  }

  lemma RegisteredPending(h: History, offset: int)
    requires WellFormed(h) && MayRegister(h, offset)
    ensures Prefix(h.registered + [offset], h.done) == Prefix(h.registered, h.done)
    ensures Pending(Registered(h, offset)) == Pending(h) + [offset]
  {
    FreshOffset(h, offset);
    var n := Prefix(h.registered, h.done);
    PrefixUnique(h.registered + [offset], h.done, n);
    assert (h.registered + [offset])[n..] == Pending(h) + [offset];
  }

  lemma ElementsAppend(s: seq<int>, o: int)
    ensures Elements(s + [o]) == Elements(s) + {o}
  {
    assert (s + [o])[..|s|] == s;
  }

  lemma RegisteredWellFormed(h: History, offset: int)
    requires WellFormed(h) && MayRegister(h, offset)
    ensures WellFormed(Registered(h, offset))
  {
    ElementsAppend(h.registered, offset);
    assert (h.registered + [offset])[..|h.registered|] == h.registered;
  }

  lemma DoneWithin(done: set<int>, s: seq<int>, offset: int)
    requires offset !in done
    ensures done * Elements(s + [offset]) == done * Elements(s)
  {
    ElementsAppend(s, offset);
  }

  /** Registering is refused exactly out of order, and otherwise extends the history by one offset. */
  lemma {:induction false} RegisterRefines(h: History, t: Option<Track>, offset: int)
    requires Tracks(h, t)
    ensures RegisterTrack(t, offset).Some? <==> MayRegister(h, offset)
    ensures MayRegister(h, offset) ==> Tracks(Registered(h, offset), RegisterTrack(t, offset))
  {
    if MayRegister(h, offset) {
      RegisteredWellFormed(h, offset);
      RegisteredPending(h, offset);
      FreshOffset(h, offset);
      DoneWithin(h.done, Pending(h), offset);
    }
  }

  lemma FreshOffset(h: History, offset: int)
    requires WellFormed(h) && MayRegister(h, offset)
    ensures offset !in h.done
  {
    if offset in h.done {
      ElementsMembers(h.registered, offset);
      var i :| 0 <= i < |h.registered| && h.registered[i] == offset;
      if i < |h.registered| - 1 { IncreasingAt(h.registered, i, |h.registered| - 1); }
      assert false;
    }
  }

  /** The deque after its head was popped: the head is smaller than everything left. */
  lemma HeadIsFresh(registered: seq<int>, p: nat)
    requires Increasing(registered) && p < |registered|
    ensures registered[p] !in Elements(registered[p + 1..])
    ensures registered[p..][1..] == registered[p + 1..]
  {
    forall i | p < i < |registered| ensures registered[p] < registered[i] { IncreasingAt(registered, p, i); }
    ElementsMembers(registered[p + 1..], registered[p]);
  }

  /** From any point of the deque, the sweep stops exactly at the end of the completed prefix. */
  lemma {:induction false} SweepStopsAtPrefix(registered: seq<int>, done: set<int>, p: nat, committed: Option<int>)
    requires Increasing(registered) && p <= Prefix(registered, done)
    ensures Sweep(registered[p..], done * Elements(registered[p..]), committed) ==
            (var n := Prefix(registered, done);
             (registered[n..], done * Elements(registered[n..]), if n == p then committed else Some(registered[n - 1] + 1)))
    decreases |registered| - p
  {
    if p < |registered| {
      ElementsCons(registered[p..]);
      HeadIsFresh(registered, p);
      hide Increasing, Elements, Prefix;
      if p < Prefix(registered, done) {
        assert done * Elements(registered[p..]) - {registered[p]} == done * Elements(registered[p + 1..]);
        SweepStopsAtPrefix(registered, done, p + 1, Some(registered[p] + 1));
      }
    }
  }

  lemma WithinGains(done: set<int>, all: set<int>, offset: int)
    requires offset in all
    ensures done * all + {offset} == (done + {offset}) * all
  {
  }

  lemma CompletedWellFormed(h: History, offset: int)
    requires WellFormed(h) && offset in Pending(h)
    ensures WellFormed(Completed(h, offset))
    ensures h.registered != []
  {
    assert offset in h.registered;
    ElementsMembers(h.registered, offset);
  }

  /** Completing is refused exactly for offsets not pending; otherwise it commits as the history says. */
  lemma {:induction false} CompleteRefines(h: History, t: Option<Track>, offset: int)
    requires Tracks(h, t)
    ensures CompleteTrack(t, offset).Some? <==> offset in Pending(h)
    ensures offset in Pending(h) ==>
              && Tracks(Completed(h, offset), Some(CompleteTrack(t, offset).value.0))
              && CompleteTrack(t, offset).value.1 == Commit(h, offset)
  {
    hide Elements, Increasing, Sweep;
    if offset in Pending(h) {
      ElementsMembers(Pending(h), offset);
      CompletedWellFormed(h, offset);
      PrefixMonotone(h, Completed(h, offset));
      WithinGains(h.done, Elements(Pending(h)), offset);
      SweepStopsAtPrefix(h.registered, h.done + {offset}, Prefix(h.registered, h.done), None);
      hide WellFormed, Prefix;
    }
  }

  /** Completed offsets are always pending ones, and all bookkeeping empties once everything is done. */
  lemma {:induction false} BookkeepingDrains(h: History, t: Option<Track>)
    requires Tracks(h, t) && t.Some?
    ensures forall o :: o in t.value.completed ==> o in t.value.pending
    ensures (forall i :: 0 <= i < |h.registered| ==> h.registered[i] in h.done)
            ==> t.value.pending == [] && t.value.completed == {}
  {
    DrainsIffAllDone(h);
    forall o | o in t.value.completed ensures o in t.value.pending { ElementsMembers(t.value.pending, o); }
  }

  class ContiguousOffsetTracker {
    var pending: map<TopicPartition, seq<int>>
    var completed: map<TopicPartition, set<int>>
    var lastSeen: map<TopicPartition, int>

    ghost predicate Valid()
      reads this
    {
      pending.Keys == completed.Keys == lastSeen.Keys
    }

    /** The dictionaries' rows for one key. */
    ghost function TrackOf(key: TopicPartition): Option<Track>
      requires Valid()
      reads this
    {
      if key in pending then Some(Track(pending[key], completed[key], lastSeen[key])) else None
    }

    constructor ()
      ensures Valid() && forall key :: TrackOf(key) == None
    {
      pending, completed, lastSeen := map[], map[], map[];
    }

    method Register(topic: string, partition: int, offset: int) returns (r: Result<()>)
      requires Valid()
      modifies this
      ensures Valid()
      ensures r.Ok? <==> RegisterTrack(old(TrackOf(TopicPartition(topic, partition))), offset).Some?
      ensures r.Ok? ==> TrackOf(TopicPartition(topic, partition))
                        == RegisterTrack(old(TrackOf(TopicPartition(topic, partition))), offset)
      ensures forall key :: r.Refused? || key != TopicPartition(topic, partition) ==> TrackOf(key) == old(TrackOf(key))
    {
      var key := TopicPartition(topic, partition);
      var queue, finished := [], {};
      if key in pending {
        queue, finished := pending[key], completed[key];
      }
      if key in lastSeen && offset <= lastSeen[key] {
        return Refused;
      }
      pending := pending[key := queue + [offset]];
      completed := completed[key := finished];
      lastSeen := lastSeen[key := offset];
      r := Ok(());
    }

    method Complete(topic: string, partition: int, offset: int) returns (r: Result<Option<int>>)
      requires Valid()
      modifies this
      ensures Valid()
      ensures r.Ok? <==> CompleteTrack(old(TrackOf(TopicPartition(topic, partition))), offset).Some?
      ensures r.Ok? ==> TrackOf(TopicPartition(topic, partition)).Some?
      ensures r.Ok? ==> CompleteTrack(old(TrackOf(TopicPartition(topic, partition))), offset)
                        == Some((TrackOf(TopicPartition(topic, partition)).value, r.value))
      ensures forall key :: r.Refused? || key != TopicPartition(topic, partition) ==> TrackOf(key) == old(TrackOf(key))
    {
      var key := TopicPartition(topic, partition);
      if key !in pending || offset !in pending[key] {
        return Refused;
      }
      var queue, finished := pending[key], completed[key] + {offset};
      var committed: Option<int> := None;
      while queue != [] && queue[0] in finished
        invariant Sweep(queue, finished, committed) == Sweep(pending[key], completed[key] + {offset}, None)
        decreases |queue|
      {
        queue, finished, committed := queue[1..], finished - {queue[0]}, Some(queue[0] + 1);
      }
      pending := pending[key := queue];
      completed := completed[key := finished];
      r := Ok(committed);
    }
  }
}
