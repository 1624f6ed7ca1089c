/** The per-tab message queue of plugin/background.js (`messageQueue`,
    `enqueueMessage`, `flushQueue`) and the two `trySend` calls each opened
    tab receives. */
module PluginQueue {
  import opened Wire

  /** Messages older than this many milliseconds are dropped at flush time. */
  const FreshnessMs := 10000

  /** `{msg, timestamp}` */
  datatype Entry = Entry(msg: Submission, timestamp: int)

  /** The filter `flushQueue` applies, at time `now`. */
  predicate IsFresh(e: Entry, now: int) {
    now - e.timestamp <= FreshnessMs
  }

  /** `queue.filter(IsFresh)`, order kept: never longer than the queue, and
      only queued entries that are fresh. */
  function Fresh(q: seq<Entry>, now: int): (r: seq<Entry>)
    ensures |r| <= |q|
    ensures forall i :: 0 <= i < |r| ==> r[i] in q && IsFresh(r[i], now)
    decreases |q|
  {
    if q == [] then []
    else Fresh(q[..|q| - 1], now) + (if IsFresh(q[|q| - 1], now) then [q[|q| - 1]] else [])
  }

  /** The messages of a list of entries, in order. */
  function Messages(q: seq<Entry>): (r: seq<Submission>)
    ensures |r| == |q|
    ensures forall i :: 0 <= i < |q| ==> r[i] == q[i].msg
  {
    if q == [] then [] else Messages(q[..|q| - 1]) + [q[|q| - 1].msg]
  }

  /** The list stored for a tab; a tab without an entry has none. */
  function Stored(queues: map<int, seq<Entry>>, tabId: int): seq<Entry> {
    if tabId in queues then queues[tabId] else []
  }

  /** An entry survives the filter exactly when it was queued and is fresh. */
  lemma {:induction false} FreshMembers(q: seq<Entry>, now: int, e: Entry)
    ensures e in Fresh(q, now) <==> e in q && IsFresh(e, now)
    decreases |q|
  {
    if q != [] {
      var init := q[..|q| - 1];
      FreshMembers(init, now, e);
      assert q == init + [q[|q| - 1]];
    }
  }

  /** Filtering distributes over concatenation, so queueing order is
      delivery order. */
  lemma {:induction false} FreshAppend(a: seq<Entry>, b: seq<Entry>, now: int)
    ensures Fresh(a + b, now) == Fresh(a, now) + Fresh(b, now)
    decreases |b|
  {
    if b == [] {
      assert a + b == a;
    } else {
      var init := b[..|b| - 1];
      FreshAppend(a, init, now);
      assert (a + b)[..|a + b| - 1] == a + init;
      assert (a + b)[|a + b| - 1] == b[|b| - 1];
    }
  }

  /** When every entry is fresh nothing is dropped. */
  lemma {:induction false} FreshAll(q: seq<Entry>, now: int)
    requires forall i :: 0 <= i < |q| ==> IsFresh(q[i], now)
    ensures Fresh(q, now) == q
    decreases |q|
  {
    if q != [] {
      FreshAll(q[..|q| - 1], now);
    }
  }

  /** When no entry is fresh everything is dropped. */
  lemma {:induction false} FreshNone(q: seq<Entry>, now: int)
    requires forall i :: 0 <= i < |q| ==> !IsFresh(q[i], now)
    ensures Fresh(q, now) == []
    decreases |q|
  {
    if q != [] {
      FreshNone(q[..|q| - 1], now);
    }
  }

  lemma MessagesAppend(a: seq<Entry>, b: seq<Entry>)
    ensures Messages(a + b) == Messages(a) + Messages(b)
  {
  }

  /** An entry queued at the moment of the flush is delivered, last. */
  lemma FreshLast(q: seq<Entry>, m: Submission, now: int)
    ensures Messages(Fresh(q + [Entry(m, now)], now)) == Messages(Fresh(q, now)) + [m]
  {
    var e := Entry(m, now);
    assert (q + [e])[..|q + [e]| - 1] == q;
    assert Fresh(q + [e], now) == Fresh(q, now) + [e];
    var f := Fresh(q, now);
    assert (f + [e])[..|f + [e]| - 1] == f;
  }

  /** A message queued at `t` is still delivered 10 s later and dropped
      one millisecond after. */
  lemma Window(m: Submission, t: int)
    ensures Fresh([Entry(m, t)], t + FreshnessMs) == [Entry(m, t)]
    ensures Fresh([Entry(m, t)], t + FreshnessMs + 1) == []
  {
    FreshAll([Entry(m, t)], t + FreshnessMs);
    FreshNone([Entry(m, t)], t + FreshnessMs + 1);
  }

  class MessageQueue {
    /** `messageQueue`: tab id to its pending entries. */
    var queues: map<int, seq<Entry>>

    /** Every list the map holds has at least one entry. */
    ghost predicate Valid()
      reads this
    {
      forall t :: t in queues ==> queues[t] != []
    }

    constructor ()
      ensures Valid() && queues == map[]
    {
      queues := map[];
    }

    /** `enqueueMessage(tabId, msg)` at time `now`: appends to the tab's list,
        creating it when absent; other tabs are untouched. */
    method Enqueue(tabId: int, msg: Submission, now: int)
      requires Valid()
      modifies this
      ensures Valid()
      ensures queues == old(queues)[tabId := Stored(old(queues), tabId) + [Entry(msg, now)]]
    {
      var q := if tabId in queues then queues[tabId] else [];
      queues := queues[tabId := q + [Entry(msg, now)]];
    }

    /** `flushQueue(tabId)` at time `now`.  Without a list nothing happens.
        Otherwise the fresh entries are kept in order; when there are none
        the list is deleted and nothing is injected; else the content script
        is injected, the list is deleted (before the injection callback
        runs) and the fresh messages are delivered in queueing order. */
    method Flush(tabId: int, now: int) returns (injected: bool, delivered: seq<Submission>)
      requires Valid()
      modifies this
      ensures Valid()
      ensures tabId !in old(queues) ==> !injected && delivered == [] && queues == old(queues)
      ensures tabId in old(queues) ==>
                && queues == old(queues) - {tabId}
                && delivered == Messages(Fresh(old(queues)[tabId], now))
                && (injected <==> delivered != [])
    {
      if tabId !in queues || queues[tabId] == [] {
        return false, [];
      }
      var queue := queues[tabId];
      var valid: seq<Entry> := [];
      var i := 0;
      while i < |queue|
        invariant 0 <= i <= |queue|
        invariant valid == Fresh(queue[..i], now)
      {
        assert queue[..i + 1][..i] == queue[..i];
        if now - queue[i].timestamp <= FreshnessMs {
          valid := valid + [queue[i]];
        }
        i := i + 1;
      }
      assert queue[..i] == queue;
      if valid == [] {
        queues := queues - {tabId};
        return false, [];
      }
      injected := true;
      queues := queues - {tabId};
      delivered := [];
      var j := 0;
      while j < |valid|
        invariant 0 <= j <= |valid|
        invariant delivered == Messages(valid[..j])
      {
        assert valid[..j + 1][..j] == valid[..j];
        delivered := delivered + [valid[j].msg];
        j := j + 1;
      }
      assert valid[..j] == valid;
    }

    /** `trySend()`: queue the payload, then flush.  The payload itself is
        always delivered, last, after whatever is still fresh for the tab. */
    method TrySend(tabId: int, payload: Submission, now: int) returns (injected: bool, delivered: seq<Submission>)
      requires Valid()
      modifies this
      ensures Valid()
      ensures injected && queues == old(queues) - {tabId}
      ensures delivered == Messages(Fresh(Stored(old(queues), tabId), now)) + [payload]
    {
      ghost var q := Stored(queues, tabId);
      Enqueue(tabId, payload, now);
      FreshLast(q, payload, now);
      injected, delivered := Flush(tabId, now);
      assert queues == old(queues)[tabId := q + [Entry(payload, now)]] - {tabId};
    }

    /** A second flush right after a first delivers nothing. */
    method FlushTwice(tabId: int, now1: int, now2: int) returns (first: seq<Submission>, second: seq<Submission>)
      requires Valid()
      modifies this
      ensures Valid()
      ensures first == Messages(Fresh(Stored(old(queues), tabId), now1))
      ensures second == [] && tabId !in queues
    {
      var injected;
      injected, first := Flush(tabId, now1);
      injected, second := Flush(tabId, now2);
    }

    /** `openTabAndSendMessage` calls `trySend` twice for a fresh tab (on
        `complete` and after 800 ms), in either order; nothing deduplicates,
        so the tab receives the payload twice. */
    method OpenedTab(tabId: int, payload: Submission, t1: int, t2: int) returns (first: seq<Submission>, second: seq<Submission>)
      requires Valid() && tabId !in queues
      modifies this
      ensures Valid()
      ensures first == [payload] && second == [payload]
    {
      var injected;
      injected, first := TrySend(tabId, payload, t1);
      injected, second := TrySend(tabId, payload, t2);
    }
  }
}
