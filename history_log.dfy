/**
 * The record of the last generations: a `deque(maxlen=5)` of one-line
 * summaries, appended to after every successful display.
 */
module HistoryLog {
  import opened Strings

  /** The deque's `maxlen`. */
  const MaxLen: nat := 5

  /** The last `n` elements of `s`, or all of them when there are fewer. */
  function LastN<T>(s: seq<T>, n: nat): seq<T>
  {
    if |s| <= n then s else s[|s| - n..]
  }

  /**
   * `append` on a bounded deque: the entry goes to the right end and, when
   * that makes one too many, the leftmost (oldest) entry is dropped.
   */
  function DequeAppend(entries: seq<string>, entry: string): seq<string>
  {
    LastN(entries + [entry], MaxLen)
  }

  /** A sequence of appends, first to last. */
  function AppendAll(entries: seq<string>, newer: seq<string>): seq<string>
    decreases |newer|
  {
    if newer == [] then entries else AppendAll(DequeAppend(entries, newer[0]), newer[1..])
  }

  lemma LastNOfLastN<T>(a: seq<T>, b: seq<T>, n: nat)
    ensures LastN(LastN(a, n) + b, n) == LastN(a + b, n)
  {
    if |a| > n {
      var la := a[|a| - n..];
      var lhs := (la + b)[|b|..];
      var rhs := (a + b)[|a| + |b| - n..];
      assert |lhs| == |rhs| == n;
      forall i | 0 <= i < n
        ensures lhs[i] == rhs[i]
      {
        if |b| + i < n {
          assert lhs[i] == la[|b| + i] == a[|a| - n + |b| + i];
        } else {
          assert lhs[i] == b[|b| + i - n];
        }
      }
      assert LastN(la + b, n) == lhs;
    }
  }

  /**
   * However many entries are appended, the log holds at most `MaxLen` of
   * them: the newest ones, in the order they were appended.
   */
  lemma {:induction false} AppendAllKeepsNewest(entries: seq<string>, newer: seq<string>)
    requires |entries| <= MaxLen
    ensures AppendAll(entries, newer) == LastN(entries + newer, MaxLen)
    ensures |AppendAll(entries, newer)| <= MaxLen
    decreases |newer|
  {
    if newer != [] {
      var next := DequeAppend(entries, newer[0]);
      AppendAllKeepsNewest(next, newer[1..]);
      LastNOfLastN(entries + [newer[0]], newer[1..], MaxLen);
      assert entries + [newer[0]] + newer[1..] == entries + newer;
    }
  }

  /** Six appends to an empty log: the first entry is gone, the other five remain in order. */
  lemma SixthAppendEvictsFirst(six: seq<string>)
    requires |six| == 6
    ensures AppendAll([], six) == six[1..]
  {
    AppendAllKeepsNewest([], six);
    assert [] + six == six;
  }

  /** The summary line of one generation. */
  function FormatEntry(topic: string, outcomes: seq<string>, ageGroup: string, language: string): string
  {
    "Topic: " + topic + ", Outcomes: " + Join(outcomes, ", ") + ", Age: " + ageGroup + ", Lang: " + language
  }

  /**
   * With the outcomes taken from the comma-separated field, the summary
   * shows the field as typed with a space inserted after every comma.
   */
  lemma EntryOfOutcomesField(topic: string, field: string, ageGroup: string, language: string)
    ensures FormatEntry(topic, Split(field, ','), ageGroup, language)
         == "Topic: " + topic + ", Outcomes: " + ReplaceAll(field, ",", ", ") + ", Age: " + ageGroup + ", Lang: " + language
  {
    JoinOfSplit(field, ',', ", ");
    assert [','] == ",";
  }

  /** The application's history deque. */
  class History {
    var entries: seq<string>

    ghost predicate Valid()
      reads this
    {
      |entries| <= MaxLen
    }

    /** `deque(maxlen=5)`: empty. */
    constructor()
      ensures Valid() && entries == []
    {
      entries := [];
    }

    /** `history.append(entry)`. */
    method Append(entry: string)
      requires Valid()
      modifies this
      ensures Valid()
      ensures entries == DequeAppend(old(entries), entry)
    {
      entries := entries + [entry];
      if |entries| > MaxLen {
        entries := entries[1..];
      }
    }
  }
}
