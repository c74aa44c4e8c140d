/** The pure part of the search session: which notes a query keeps
    (the `filteredNotes` computed property of ComfyNotes/Components/SearchBar.swift). */
module SearchFilter {
  import opened Notes

  /** ASCII case folding, standing in for the locale-aware folding of
      Foundation's `localizedCaseInsensitiveContains`. */
  function FoldChar(c: char): char {
    if 'A' <= c <= 'Z' then (c as int + 32) as char else c
  }

  function Fold(s: string): string {
    seq(|s|, i requires 0 <= i < |s| => FoldChar(s[i]))
  }

  /** `needle` occurs in `hay` starting at position `i`. */
  predicate OccursAt(hay: string, needle: string, i: int) {
    0 <= i && i + |needle| <= |hay| && hay[i..i + |needle|] == needle
  }

  /** Plain substring containment. */
  predicate Contains(hay: string, needle: string) {
    exists i | 0 <= i <= |hay| - |needle| :: OccursAt(hay, needle, i)
  }

  /** A note name matches a query when it contains it, ignoring case. */
  predicate Matches(name: string, query: string) {
    Contains(Fold(name), Fold(query))
  }

  /** `xs` is obtained from `ys` by deleting elements, keeping the order. */
  predicate IsSubsequence<T(==)>(xs: seq<T>, ys: seq<T>)
    decreases |ys|
  {
    |xs| <= |ys| &&
    (xs == [] ||
     (xs[0] == ys[0] && IsSubsequence(xs[1..], ys[1..])) ||
     IsSubsequence(xs, ys[1..]))
  }

  /** Swift's order-preserving `filter` with the name-matching closure. The
      result is a subsequence of the input that keeps every occurrence of a
      matching note and nothing else; together these fix it uniquely. */
  function Filter(notes: seq<Note>, query: string): (r: seq<Note>)
    ensures IsSubsequence(r, notes)
    ensures forall n :: multiset(r)[n] == if Matches(n.name, query) then multiset(notes)[n] else 0
    ensures forall n :: n in r <==> n in notes && Matches(n.name, query)
  {
    if notes == [] then []
    else
      var rest := Filter(notes[1..], query);
      assert notes == [notes[0]] + notes[1..];
      if Matches(notes[0].name, query) then [notes[0]] + rest else rest
  }

  /** `filteredNotes`: the whole list, in store order, for an empty query;
      otherwise the notes whose name matches the query. */
  function FilteredNotes(notes: seq<Note>, text: string): (r: seq<Note>)
    ensures IsSubsequence(r, notes)
    ensures forall n :: n in r ==> n in notes
    ensures forall n :: multiset(r)[n] == if text == [] || Matches(n.name, text) then multiset(notes)[n] else 0
  {
    if |text| == 0 then SubsequenceReflexive(notes); notes else Filter(notes, text)
  }

  /** `maxSelectableIndex`: 0 for an empty list, otherwise the last index. */
  function MaxSelectableIndex(filtered: seq<Note>): (m: int)
    ensures 0 <= m
    ensures filtered == [] ==> m == 0
    ensures filtered != [] ==> m < |filtered| && m + 1 == |filtered|
  {
    if |filtered| == 0 then 0 else |filtered| - 1
  }

  lemma EmptyQueryKeepsStoreOrder(notes: seq<Note>)
    ensures FilteredNotes(notes, "") == notes
  {
  }

  lemma {:induction false} SubsequenceReflexive<T>(xs: seq<T>)
    ensures IsSubsequence(xs, xs)
  {
    if xs != [] {
      SubsequenceReflexive(xs[1..]);
    }
  }

  lemma FoldSlice(s: string, i: int, j: int)
    requires 0 <= i <= j <= |s|
    ensures Fold(s[i..j]) == Fold(s)[i..j]
  {
  }

  lemma ContainsTransitive(h: string, m: string, n: string)
    requires Contains(h, m) && Contains(m, n)
    ensures Contains(h, n)
  {
    var i :| 0 <= i <= |h| - |m| && OccursAt(h, m, i);
    var j :| 0 <= j <= |m| - |n| && OccursAt(m, n, j);
    forall k | 0 <= k < |n| ensures h[i + j + k] == n[k] {
      assert h[i + j + k] == h[i..i + |m|][j + k] == m[j + k];
      assert m[j + k] == m[j..j + |n|][k];
    }
    assert h[i + j..i + j + |n|] == n;
    assert OccursAt(h, n, i + j);
  }

  /** A query that (ignoring case) contains another one matches fewer names. */
  lemma MatchesNarrow(name: string, q1: string, q2: string)
    requires Contains(Fold(q2), Fold(q1))
    ensures Matches(name, q2) ==> Matches(name, q1)
  {
    if Matches(name, q2) {
      ContainsTransitive(Fold(name), Fold(q2), Fold(q1));
    }
  }

  lemma {:induction false} FilterNarrows(notes: seq<Note>, q1: string, q2: string)
    requires forall n :: n in notes && Matches(n.name, q2) ==> Matches(n.name, q1)
    ensures IsSubsequence(Filter(notes, q2), Filter(notes, q1))
  {
    if notes != [] {
      FilterNarrows(notes[1..], q1, q2);
    }
  }

  /** Typing more never brings a note back: if the new query contains the old
      one (ignoring case), the new list is a subsequence of the old one. */
  lemma RefiningQueryNarrows(notes: seq<Note>, q1: string, q2: string)
    requires Contains(Fold(q2), Fold(q1))
    ensures IsSubsequence(FilteredNotes(notes, q2), FilteredNotes(notes, q1))
  {
    if q1 == [] {
    } else {
      assert q2 != [];
      forall n | n in notes && Matches(n.name, q2) ensures Matches(n.name, q1) {
        MatchesNarrow(n.name, q1, q2);
      }
      FilterNarrows(notes, q1, q2);
    }
  }

  /** The special case of extending the query by typing at its end. */
  lemma ExtendingQueryNarrows(notes: seq<Note>, query: string, typed: string)
    ensures IsSubsequence(FilteredNotes(notes, query + typed), FilteredNotes(notes, query))
  {
    var q2 := query + typed;
    FoldSlice(q2, 0, |query|);
    assert q2[0..|query|] == query;
    assert OccursAt(Fold(q2), Fold(query), 0);
    RefiningQueryNarrows(notes, query, q2);
  }
}
