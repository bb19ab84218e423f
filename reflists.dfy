/** Operations on the reference lists the aggregator keeps: the de-duplicating
    append used by the search-result merger and the rosetta prefix list, and
    Java's `List.remove(Object)`, which drops the first equal element. */
module RefLists {

  /** No element occurs twice. */
  predicate NoDup<T(==)>(s: seq<T>) {
    forall i, j :: 0 <= i < j < |s| ==> s[i] != s[j]
  }

  /** The list `existing` after `for (x : incoming) if (!list.contains(x)) list.add(x);`,
      defined from the last step backwards, the way a loop builds it. */
  function MergeRefs<T(==)>(existing: seq<T>, incoming: seq<T>): seq<T>
    decreases |incoming|
  {
    if incoming == [] then existing
    else
      var m := MergeRefs(existing, incoming[..|incoming| - 1]);
      var x := incoming[|incoming| - 1];
      if x in m then m else m + [x]
  }

  /** Reference definition, read from the front: the incoming entries not yet
      present, in incoming order, each kept at its first occurrence. */
  function NewEntries<T(==)>(present: seq<T>, incoming: seq<T>): seq<T>
    decreases |incoming|
  {
    if incoming == [] then []
    else if incoming[0] in present then NewEntries(present, incoming[1..])
    else [incoming[0]] + NewEntries(present + [incoming[0]], incoming[1..])
  }

  /** The de-duplicating append loop itself. */
  method AppendMissing<T(==)>(existing: seq<T>, incoming: seq<T>) returns (merged: seq<T>)
    ensures merged == MergeRefs(existing, incoming)
  {
    merged := existing;
    var i := 0;
    while i < |incoming|
      invariant 0 <= i <= |incoming|
      invariant merged == MergeRefs(existing, incoming[..i])
    {
      assert incoming[..i + 1][..i] == incoming[..i];
      if incoming[i] !in merged {
        merged := merged + [incoming[i]];
      }
      i := i + 1;
    }
    assert incoming[..|incoming|] == incoming;
  }

  /** Merging in two steps is merging the concatenation. */
  lemma {:induction false} MergeRefsConcat<T>(existing: seq<T>, a: seq<T>, b: seq<T>)
    ensures MergeRefs(existing, a + b) == MergeRefs(MergeRefs(existing, a), b)
    decreases |b|
  {
    if b == [] {
      assert a + b == a;
    } else {
      var b' := b[..|b| - 1];
      assert (a + b)[..|a + b| - 1] == a + b';
      assert (a + b)[|a + b| - 1] == b[|b| - 1];
      MergeRefsConcat(existing, a, b');
    }
  }

  /** The merged list is the old list followed by exactly the new entries, in
      incoming order: nothing existing is dropped or moved. */
  lemma {:induction false} MergeRefsIsAppend<T>(existing: seq<T>, incoming: seq<T>)
    ensures MergeRefs(existing, incoming) == existing + NewEntries(existing, incoming)
    decreases |incoming|
  {
    if incoming == [] {
    } else {
      var x, rest := incoming[0], incoming[1..];
      assert incoming == [x] + rest;
      MergeRefsConcat(existing, [x], rest);
      assert [x][..0] == [];
      if x in existing {
        MergeRefsIsAppend(existing, rest);
      } else {
        MergeRefsIsAppend(existing + [x], rest);
      }
    }
  }

  /** The entries the merge appends are incoming entries that were not present,
      each appended once. */
  lemma {:induction false} NewEntriesAreNew<T>(present: seq<T>, incoming: seq<T>)
    ensures forall x :: x in NewEntries(present, incoming) ==> x in incoming && x !in present
    ensures NoDup(NewEntries(present, incoming))
    decreases |incoming|
  {
    if incoming != [] {
      var x, rest := incoming[0], incoming[1..];
      if x in present {
        NewEntriesAreNew(present, rest);
      } else {
        NewEntriesAreNew(present + [x], rest);
        var tail := NewEntries(present + [x], rest);
        assert x !in tail;
        forall i, j | 0 <= i < j < |[x] + tail| ensures ([x] + tail)[i] != ([x] + tail)[j] {
          if i > 0 {
            assert ([x] + tail)[i] == tail[i - 1] && ([x] + tail)[j] == tail[j - 1];
          } else {
            assert ([x] + tail)[j] in tail;
          }
        }
      }
    }
  }

  /** Every incoming entry is in the merge. */
  lemma {:induction false} MergeRefsHasIncoming<T>(existing: seq<T>, incoming: seq<T>)
    ensures forall x :: x in incoming ==> x in MergeRefs(existing, incoming)
  {
    forall x | x in incoming ensures x in MergeRefs(existing, incoming) {
      MergeRefsElements(existing, incoming, x);
    }
  }

  /** An element is in the merge exactly when it was in either list. */
  lemma {:induction false} MergeRefsElements<T>(existing: seq<T>, incoming: seq<T>, x: T)
    ensures x in MergeRefs(existing, incoming) <==> x in existing || x in incoming
    decreases |incoming|
  {
    if incoming != [] {
      var init := incoming[..|incoming| - 1];
      assert incoming == init + [incoming[|incoming| - 1]];
      MergeRefsElements(existing, init, x);
    }
  }

  /** Merging into a duplicate-free list keeps it duplicate-free. */
  lemma {:induction false} MergeRefsNoDup<T>(existing: seq<T>, incoming: seq<T>)
    requires NoDup(existing)
    ensures NoDup(MergeRefs(existing, incoming))
    decreases |incoming|
  {
    if incoming != [] {
      MergeRefsNoDup(existing, incoming[..|incoming| - 1]);
    }
  }

  /** The merge keeps the old list as its prefix, so its first element survives. */
  lemma {:induction false} MergeRefsKeepsPrefix<T>(existing: seq<T>, incoming: seq<T>)
    ensures existing <= MergeRefs(existing, incoming)
    decreases |incoming|
  {
    if incoming != [] {
      MergeRefsKeepsPrefix(existing, incoming[..|incoming| - 1]);
    }
  }

  /** Merging the same incoming list a second time changes nothing. */
  lemma {:induction false} MergeRefsIdempotent<T>(existing: seq<T>, incoming: seq<T>)
    ensures MergeRefs(MergeRefs(existing, incoming), incoming) == MergeRefs(existing, incoming)
  {
    var m := MergeRefs(existing, incoming);
    forall x | x in incoming ensures x in m {
      MergeRefsElements(existing, incoming, x);
    }
    MergeRefsOfPresent(m, incoming);
  }

  /** Merging entries that are all present already is the identity. */
  lemma {:induction false} MergeRefsOfPresent<T>(existing: seq<T>, incoming: seq<T>)
    requires forall x :: x in incoming ==> x in existing
    ensures MergeRefs(existing, incoming) == existing
    decreases |incoming|
  {
    if incoming != [] {
      var init := incoming[..|incoming| - 1];
      assert forall x :: x in init ==> x in incoming;
      MergeRefsOfPresent(existing, init);
    }
  }

  /** Java's `List.remove(Object)`: drops the first element equal to `x`. */
  function RemoveFirst<T(==)>(s: seq<T>, x: T): (r: seq<T>)
    ensures x !in s ==> r == s
    ensures x in s ==> |r| == |s| - 1
    ensures multiset(r) == multiset(s) - multiset{x}
  {
    if s == [] then []
    else
      assert s == [s[0]] + s[1..];
      if s[0] == x then s[1..]
      else [s[0]] + RemoveFirst(s[1..], x)
  }
}
