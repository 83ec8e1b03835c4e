/**
 * The append-if-unseen loop shared by the constraint and trigger merges of
 * training consolidation and by all three merges of the encoder (pattern
 * consolidation deepens a match instead of skipping it):
 * copy the existing list, then append each incoming item whose key is not among
 * the keys of the EXISTING items. Keys are never refreshed from the items
 * appended during the loop, so duplicates inside one batch all survive.
 */
module Dedup {

  /** The key set the source builds from the existing list before looping. */
  function Keys<T(==,!new)>(xs: seq<T>, key: T -> string): (ks: set<string>)
    ensures forall x :: x in xs ==> key(x) in ks
  {
    set x | x in xs :: key(x)
  }

  /** Reference definition: the items of `xs`, in order, whose key is not in `keys`. */
  function Unseen<T(==,!new)>(keys: set<string>, xs: seq<T>, key: T -> string): (r: seq<T>)
    ensures |r| <= |xs|
    ensures forall x :: x in r <==> x in xs && key(x) !in keys
  {
    if xs == [] then []
    else (if key(xs[0]) in keys then [] else [xs[0]]) + Unseen(keys, xs[1..], key)
  }

  /** The source's `for` loop: `merged` grows, `keys` stays fixed. */
  function AppendLoop<T(==,!new)>(merged: seq<T>, keys: set<string>, incoming: seq<T>, key: T -> string): seq<T>
    decreases |incoming|
  {
    if incoming == [] then merged
    else AppendLoop(if key(incoming[0]) in keys then merged else merged + [incoming[0]], keys, incoming[1..], key)
  }

  lemma {:induction false} AppendLoopIsUnseen<T(!new)>(merged: seq<T>, keys: set<string>, incoming: seq<T>, key: T -> string)
    ensures AppendLoop(merged, keys, incoming, key) == merged + Unseen(keys, incoming, key)
    decreases |incoming|
  {
    if incoming != [] {
      var step := if key(incoming[0]) in keys then merged else merged + [incoming[0]];
      AppendLoopIsUnseen(step, keys, incoming[1..], key);
      assert merged + Unseen(keys, incoming, key)
          == merged + ((if key(incoming[0]) in keys then [] else [incoming[0]]) + Unseen(keys, incoming[1..], key));
    }
  }

  /** `merged = list(existing)` followed by the loop over `incoming`. */
  function AppendUnseen<T(==,!new)>(existing: seq<T>, incoming: seq<T>, key: T -> string): (r: seq<T>)
    ensures |existing| <= |r|
    ensures r[..|existing|] == existing
    ensures r[|existing|..] == Unseen(Keys(existing, key), incoming, key)
    ensures forall x :: x in r[|existing|..] <==> x in incoming && key(x) !in Keys(existing, key)
  {
    AppendLoopIsUnseen(existing, Keys(existing, key), incoming, key);
    AppendLoop(existing, Keys(existing, key), incoming, key)
  }

  /** No item is appended whose key some existing item already has. */
  lemma NoExistingKeyAppended<T(!new)>(existing: seq<T>, incoming: seq<T>, key: T -> string, x: T)
    requires x in incoming && exists e :: e in existing && key(e) == key(x)
    ensures x !in AppendUnseen(existing, incoming, key)[|existing|..]
  {
  }

  /** Merging the same batch a second time appends nothing more. */
  lemma {:induction false} AppendUnseenIdempotent<T(!new)>(existing: seq<T>, incoming: seq<T>, key: T -> string)
    ensures AppendUnseen(AppendUnseen(existing, incoming, key), incoming, key) == AppendUnseen(existing, incoming, key)
  {
    var m := AppendUnseen(existing, incoming, key);
    var ks := Keys(m, key);
    assert forall x :: x in incoming ==> key(x) in ks by {
      forall x | x in incoming
        ensures key(x) in ks
      {
        if key(x) !in Keys(existing, key) {
          assert x in m[|existing|..];
          assert x in m;
        } else {
          var e :| e in existing && key(e) == key(x);
          assert e in m by { assert m[..|existing|] == existing; }
        }
      }
    }
    UnseenEmpty(ks, incoming, key);
    var r := AppendUnseen(m, incoming, key);
    assert r == r[..|m|] + r[|m|..];
  }

  lemma {:induction false} UnseenEmpty<T(!new)>(keys: set<string>, xs: seq<T>, key: T -> string)
    requires forall x :: x in xs ==> key(x) in keys
    ensures Unseen(keys, xs, key) == []
    decreases |xs|
  {
    if xs != [] {
      assert xs[0] in xs;
      assert forall x :: x in xs[1..] ==> x in xs;
      UnseenEmpty(keys, xs[1..], key);
    }
  }

  /** Merging a list into itself gives the list back. */
  lemma AppendUnseenSelf<T(!new)>(existing: seq<T>, key: T -> string)
    ensures AppendUnseen(existing, existing, key) == existing
  {
    UnseenEmpty(Keys(existing, key), existing, key);
    var m := AppendUnseen(existing, existing, key);
    assert m == m[..|existing|] + m[|existing|..];
  }

  /** Two incoming items with the same unseen key are both appended. */
  lemma BatchDuplicatesKept<T(!new)>(existing: seq<T>, x: T, key: T -> string)
    requires key(x) !in Keys(existing, key)
    ensures AppendUnseen(existing, [x, x], key) == existing + [x, x]
  {
    var m := AppendUnseen(existing, [x, x], key);
    assert [x, x][1..] == [x];
    assert Unseen(Keys(existing, key), [x, x], key) == [x, x];
    assert m == m[..|existing|] + m[|existing|..];
  }
}
