/**
 * The generation history (src/utils/history.ts): a most-recent-first list
 * of what the tool generated, capped at MaxHistoryEntries. The persisted
 * namespace is modelled as the `entries` field of a HistoryStore.
 */
module History {
  import opened Optional

  const MaxHistoryEntries: nat := 10

  datatype EntryKind = Project | Page | Component

  /** What a command hands to `add`: an entry without its timestamp. */
  datatype Draft = Draft(kind: EntryKind, path: string, framework: Option<string>, name: string)

  datatype HistoryEntry = HistoryEntry(
    kind: EntryKind, path: string, framework: Option<string>, name: string, timestamp: int)

  /** `{ ...entry, timestamp: Date.now() }`, the clock reading given as `now`. */
  function Stamp(d: Draft, now: int): (e: HistoryEntry)
    ensures e.kind == d.kind && e.path == d.path && e.framework == d.framework && e.name == d.name
    ensures e.timestamp == now
  {
    HistoryEntry(d.kind, d.path, d.framework, d.name, now)
  }

  /** The first `n` elements of `s`, or all of it when it is shorter. */
  function Take<T>(s: seq<T>, n: nat): (r: seq<T>)
    ensures |r| == if |s| <= n then |s| else n
    ensures forall i :: 0 <= i < |r| ==> r[i] == s[i]
  {
    if |s| <= n then s else s[..n]
  }

  /**
   * The list `add` stores: the new entry in front (`unshift`), then the
   * previous entries in order, cut back to MaxHistoryEntries (`splice`).
   */
  function Pushed(entries: seq<HistoryEntry>, e: HistoryEntry): (r: seq<HistoryEntry>)
    ensures |r| == if |entries| < MaxHistoryEntries then |entries| + 1 else MaxHistoryEntries
    ensures |r| <= MaxHistoryEntries
    ensures r[0] == e
    ensures forall i :: 1 <= i < |r| ==> r[i] == entries[i - 1]
  {
    Take([e] + entries, MaxHistoryEntries)
  }

  /** What `removeLast` returns and stores: the head, and the rest. */
  function Popped(entries: seq<HistoryEntry>): (r: (Option<HistoryEntry>, seq<HistoryEntry>))
    ensures entries == [] ==> r == (None, [])
    ensures entries != [] ==> r.0 == Some(entries[0]) && [entries[0]] + r.1 == entries
  {
    if entries == [] then (None, []) else (Some(entries[0]), entries[1..])
  }

  /** The list after adding `adds[0]`, then `adds[1]`, and so on. */
  function Replay(entries: seq<HistoryEntry>, adds: seq<HistoryEntry>): seq<HistoryEntry>
    decreases |adds|
  {
    if adds == [] then entries else Replay(Pushed(entries, adds[0]), adds[1..])
  }

  function Reversed<T>(s: seq<T>): (r: seq<T>)
    ensures |r| == |s|
    ensures forall i :: 0 <= i < |s| ==> r[i] == s[|s| - 1 - i]
  {
    if s == [] then [] else Reversed(s[1..]) + [s[0]]
  }

  lemma TakeOfTake<T>(x: seq<T>, y: seq<T>, n: nat)
    ensures Take(x + Take(y, n), n) == Take(x + y, n)
  {
    if |y| > n {
      var a, b := Take(x + Take(y, n), n), Take(x + y, n);
      assert |a| == |b|;
      forall i | 0 <= i < |a| ensures a[i] == b[i] {
        if i >= |x| { assert (x + Take(y, n))[i] == y[i - |x|]; }
      }
    }
  }

  /**
   * Whatever was added, the list holds the most recent additions first,
   * then the older entries, never more than MaxHistoryEntries of them.
   */
  lemma {:induction false} ReplayKeepsNewest(entries: seq<HistoryEntry>, adds: seq<HistoryEntry>)
    requires |entries| <= MaxHistoryEntries
    ensures Replay(entries, adds) == Take(Reversed(adds) + entries, MaxHistoryEntries)
    decreases |adds|
  {
    if adds != [] {
      var a, rest := adds[0], adds[1..];
      var pushed := Pushed(entries, a);
      ReplayKeepsNewest(pushed, rest);
      TakeOfTake(Reversed(rest), [a] + entries, MaxHistoryEntries);
      assert Reversed(adds) == Reversed(rest) + [a];
      assert Reversed(rest) + ([a] + entries) == Reversed(adds) + entries;
    }
  }

  /**
   * Eleven additions to an empty history: the first one is evicted and the
   * other ten remain, most recent first.
   */
  lemma ElevenAddsEvictFirst(adds: seq<HistoryEntry>)
    requires |adds| == 11
    ensures var r := Replay([], adds);
      |r| == 10 && (forall i :: 0 <= i < 10 ==> r[i] == adds[10 - i]) &&
      ((forall j :: 1 <= j < 11 ==> adds[j] != adds[0]) ==> adds[0] !in r)
  {
    ReplayKeepsNewest([], adds);
    assert Reversed(adds) + [] == Reversed(adds);
  }

  class HistoryStore {
    /** The persisted `entries` list; an unset key reads as []. */
    var entries: seq<HistoryEntry>

    constructor()
      ensures entries == []
    {
      entries := [];
    }

    /** `add`: put the stamped entry first and keep at most MaxHistoryEntries. */
    method Add(draft: Draft, now: int)
      modifies this
      ensures entries == Pushed(old(entries), Stamp(draft, now))
      ensures |entries| <= MaxHistoryEntries && entries[0] == Stamp(draft, now)
    {
      var es := GetAll();
      es := [Stamp(draft, now)] + es;
      if |es| > MaxHistoryEntries {
        es := es[..MaxHistoryEntries];
      }
      entries := es;
    }

    /** `getLast`: the most recent entry, or null for an empty history. */
    method GetLast() returns (last: Option<HistoryEntry>)
      ensures entries == [] <==> last == None
      ensures entries != [] ==> last == Some(entries[0])
    {
      var es := GetAll();
      last := if |es| > 0 then Some(es[0]) else None;
    }

    method GetAll() returns (all: seq<HistoryEntry>)
      ensures all == entries
    {
      all := entries;
    }

    method Clear()
      modifies this
      ensures entries == []
    {
      entries := [];
    }

    /** `removeLast`: drop and return the most recent entry (`shift`). */
    method RemoveLast() returns (last: Option<HistoryEntry>)
      modifies this
      ensures (last, entries) == Popped(old(entries))
      ensures old(entries) == [] ==> last == None && entries == []
      ensures old(entries) != [] ==> last == Some(old(entries)[0]) && entries == old(entries)[1..]
    {
      var es := GetAll();
      if |es| == 0 {
        return None;
      }
      last := Some(es[0]);
      es := es[1..];
      entries := es;
    }
  }
}
