/** `get_mingw_in_path`: the entries of PATH whose ASCII-lower-cased text
    contains "mingw", in PATH order, or `None` when there are none or PATH is
    unset. PATH is given already split into its entries. */
module Mingw {
  import opened Wrappers
  import opened Text

  /** The test applied to one PATH entry. */
  predicate IsMingw(entry: string) {
    Contains(ToAsciiLower(entry), "mingw")
  }

  /** The `filter_map`/`collect` over the entries: keeps the matching ones in
      their original order. */
  function MingwEntries(entries: seq<string>): (r: seq<string>)
    ensures |r| <= |entries|
    ensures forall k :: 0 <= k < |r| ==> IsMingw(r[k]) && r[k] in entries
    ensures forall e :: e in entries && IsMingw(e) ==> e in r
    decreases |entries|
  {
    if entries == [] then []
    else (if IsMingw(entries[0]) then [entries[0]] else []) + MingwEntries(entries[1..])
  }

  /** `get_mingw_in_path` itself, with PATH unset given as `None`. */
  function MingwInPath(path: Option<seq<string>>): (r: Option<seq<string>>)
    ensures r.Some? ==> path.Some? && |r.value| > 0 && r.value == MingwEntries(path.value)
    ensures r.None? <==> (path.None? || forall e :: e in path.value ==> !IsMingw(e))
  {
    match path
    case None => None
    case Some(entries) =>
      var found := MingwEntries(entries);
      if |found| > 0 then
        assert IsMingw(found[0]) && found[0] in entries;
        Some(found)
      else None
  }

  /** `a` is an in-order subsequence of `b`. */
  predicate IsSubsequence(a: seq<string>, b: seq<string>)
    decreases |b|
  {
    if a == [] then true
    else if b == [] then false
    else if a[0] == b[0] then IsSubsequence(a[1..], b[1..])
    else IsSubsequence(a, b[1..])
  }

  /** Skipping one more element of `b` keeps a subsequence a subsequence. */
  lemma {:induction false} SubsequenceOfLonger(a: seq<string>, x: string, b: seq<string>)
    requires IsSubsequence(a, b)
    ensures IsSubsequence(a, [x] + b)
    decreases |b|, 1
  {
    assert ([x] + b)[1..] == b;
    if a != [] && a[0] == x {
      SubsequenceDropFirst(a, b);
    }
  }

  /** Dropping the first element of a subsequence keeps it a subsequence. */
  lemma {:induction false} SubsequenceDropFirst(a: seq<string>, b: seq<string>)
    requires a != [] && IsSubsequence(a, b)
    ensures IsSubsequence(a[1..], b)
    decreases |b|, 0
  {
    assert [b[0]] + b[1..] == b;
    if a[0] == b[0] {
      SubsequenceOfLonger(a[1..], b[0], b[1..]);
    } else {
      SubsequenceDropFirst(a, b[1..]);
      SubsequenceOfLonger(a[1..], b[0], b[1..]);
    }
  }

  /** The filter keeps entries in PATH order: its result is a subsequence of
      PATH. */
  lemma {:induction false} MingwEntriesInOrder(entries: seq<string>)
    ensures IsSubsequence(MingwEntries(entries), entries)
    decreases |entries|
  {
    if entries != [] {
      var rest := MingwEntries(entries[1..]);
      MingwEntriesInOrder(entries[1..]);
      if IsMingw(entries[0]) {
        assert MingwEntries(entries) == [entries[0]] + rest;
        assert ([entries[0]] + rest)[1..] == rest;
      } else {
        assert MingwEntries(entries) == rest;
        SubsequenceOfLonger(rest, entries[0], entries[1..]);
        assert [entries[0]] + entries[1..] == entries;
      }
    }
  }

  /** Filtering a concatenation filters each part and keeps them in order. */
  lemma {:induction false} MingwEntriesAppend(a: seq<string>, b: seq<string>)
    ensures MingwEntries(a + b) == MingwEntries(a) + MingwEntries(b)
    decreases |a|
  {
    if a != [] {
      assert (a + b)[0] == a[0];
      assert (a + b)[1..] == a[1..] + b;
      MingwEntriesAppend(a[1..], b);
    } else {
      assert a + b == b;
    }
  }

  /** Filtering twice is filtering once. */
  lemma {:induction false} MingwEntriesIdempotent(entries: seq<string>)
    ensures MingwEntries(MingwEntries(entries)) == MingwEntries(entries)
    decreases |entries|
  {
    if entries != [] {
      var head := if IsMingw(entries[0]) then [entries[0]] else [];
      MingwEntriesIdempotent(entries[1..]);
      MingwEntriesAppend(head, MingwEntries(entries[1..]));
      if IsMingw(entries[0]) {
        assert MingwEntries(head) == head by {
          assert head[1..] == [];
        }
      }
    }
  }

  /** The five characters of `entry` at `i` spell "mingw" ignoring ASCII case. */
  predicate MingwWindowAt(entry: string, i: int) {
    0 <= i && i + 5 <= |entry| && ToAsciiLower(entry[i..i + 5]) == "mingw"
  }

  /** An entry matches exactly when some five-character window of it spells
      "mingw" ignoring ASCII case. */
  lemma MingwWindow(entry: string)
    ensures IsMingw(entry) <==> exists i :: MingwWindowAt(entry, i)
  {
    var low := ToAsciiLower(entry);
    ContainsIff(low, "mingw");
    if IsMingw(entry) {
      var i :| OccursAt(low, "mingw", i);
      ToAsciiLowerSlice(entry, i, i + 5);
      assert MingwWindowAt(entry, i);
    }
    if exists i :: MingwWindowAt(entry, i) {
      var i :| MingwWindowAt(entry, i);
      ToAsciiLowerSlice(entry, i, i + 5);
      assert OccursAt(low, "mingw", i);
    }
  }
}
