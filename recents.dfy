/** The most-recently-used emoji list, kept in one storage slot and
    deduplicated by hexcode. */
module Recents {
  import opened Emoji

  /** `s.slice(0, end)`: the first `end` elements, where a negative `end`
      counts back from the end of the array. */
  function SliceTo<T>(s: seq<T>, end: int): (r: seq<T>)
    ensures |r| <= |s| && r == s[..|r|]
    ensures 0 <= end ==> |r| <= end
    ensures 0 <= end <= |s| ==> |r| == end
    ensures |s| <= end ==> r == s
    ensures end < 0 && -end <= |s| ==> |r| == |s| + end
    ensures |s| < -end ==> r == []
  {
    if end < 0 then (if |s| + end <= 0 then [] else s[..|s| + end])
    else if end < |s| then s[..end]
    else s
  }

  /** The entries of `s` whose hexcode differs from `hexcode`, in order. */
  function WithoutHexcode(s: seq<EmojiRecord>, hexcode: string): (r: seq<EmojiRecord>)
    ensures |r| <= |s|
    ensures forall x :: x in r <==> x in s && x.hexcode != hexcode
  {
    if s == [] then []
    else
      assert s == [s[0]] + s[1..];
      if s[0].hexcode == hexcode then WithoutHexcode(s[1..], hexcode)
      else [s[0]] + WithoutHexcode(s[1..], hexcode)
  }

  /** How many entries of `s` carry `hexcode`. */
  function CountHexcode(s: seq<EmojiRecord>, hexcode: string): nat
  {
    if s == [] then 0
    else (if s[0].hexcode == hexcode then 1 else 0) + CountHexcode(s[1..], hexcode)
  }

  /** No two entries of `s` share a hexcode. */
  predicate DistinctHexcodes(s: seq<EmojiRecord>)
  {
    forall i, j :: 0 <= i < j < |s| ==> s[i].hexcode != s[j].hexcode
  }

  /** `a` is `b` with some entries left out, the rest in their order. */
  predicate IsSubsequence<T(==)>(a: seq<T>, b: seq<T>)
    decreases |b|
  {
    if a == [] then true
    else if b == [] then false
    else if a[0] == b[0] then IsSubsequence(a[1..], b[1..])
    else IsSubsequence(a, b[1..])
  }

  /** The list `addOrUpdateRecent(emoji, maxCount)` writes back when the slot
      held `stored`: `emoji` first, then what `getRecents(maxCount)` returned
      minus the entries with `emoji`'s hexcode, all cut to `maxCount`. */
  function AddOrUpdate(stored: seq<EmojiRecord>, emoji: EmojiRecord, maxCount: int): (r: seq<EmojiRecord>)
    ensures forall x :: x in r ==> x == emoji || (x in stored && x.hexcode != emoji.hexcode)
    ensures |r| <= |stored| + 1
  {
    SliceTo([emoji] + WithoutHexcode(SliceTo(stored, maxCount), emoji.hexcode), maxCount)
  }

  /** The storage slot. `slot` is the value stored under the key
      `PicMo:recents`, `None` when the key is absent. */
  class RecentsStore {
    var slot: Option<seq<EmojiRecord>>

    constructor(initial: Option<seq<EmojiRecord>>)
      ensures slot == initial
    {
      slot := initial;
    }

    /** The list a read of the slot yields: an absent key reads as `[]`. */
    function Stored(): seq<EmojiRecord>
      reads this
    {
      slot.GetOr([])
    }

    /** `clear`: the key is removed. */
    method Clear()
      modifies this
      ensures slot == None
    {
      slot := None;
    }

    /** `getRecents`: the stored list cut to `maxCount`; the slot is only read. */
    method GetRecents(maxCount: int) returns (recents: seq<EmojiRecord>)
      ensures recents == SliceTo(Stored(), maxCount)
      ensures 0 <= maxCount ==> |recents| <= maxCount
      ensures slot == None ==> recents == []
    {
      var read := slot.GetOr([]);
      recents := SliceTo(read, maxCount);
    }

    /** `addOrUpdateRecent`: the slot now holds `AddOrUpdate` of the old list. */
    method AddOrUpdateRecent(emoji: EmojiRecord, maxCount: int)
      modifies this
      ensures slot == Some(AddOrUpdate(old(Stored()), emoji, maxCount))
    {
      var current := GetRecents(maxCount);
      var recents := SliceTo([emoji] + WithoutHexcode(current, emoji.hexcode), maxCount);
      slot := Some(recents);
    }
  }

  /** After `clear`, every `getRecents` is empty, and the store still takes
      new entries. */
  method ClearThenAdd(store: RecentsStore, emoji: EmojiRecord, maxCount: int)
    returns (afterClear: seq<EmojiRecord>, afterAdd: seq<EmojiRecord>)
    requires 1 <= maxCount
    modifies store
    ensures afterClear == [] && afterAdd == [emoji]
  {
    store.Clear();
    afterClear := store.GetRecents(maxCount);
    store.AddOrUpdateRecent(emoji, maxCount);
    assert WithoutHexcode([], emoji.hexcode) == [];
    afterAdd := store.GetRecents(maxCount);
  }

  // ---------------------------------------------------------------------
  // Facts about filtering, counting and subsequences

  lemma {:induction false} CountAbsent(s: seq<EmojiRecord>, hexcode: string)
    requires forall x :: x in s ==> x.hexcode != hexcode
    ensures CountHexcode(s, hexcode) == 0
  {
    if s != [] {
      assert s[0] in s;
      assert forall x :: x in s[1..] ==> x in s;
      CountAbsent(s[1..], hexcode);
    }
  }

  lemma {:induction false} WithoutAbsent(s: seq<EmojiRecord>, hexcode: string)
    requires forall x :: x in s ==> x.hexcode != hexcode
    ensures WithoutHexcode(s, hexcode) == s
  {
    if s != [] {
      assert s[0] in s;
      assert forall x :: x in s[1..] ==> x in s;
      WithoutAbsent(s[1..], hexcode);
      assert s == [s[0]] + s[1..];
    }
  }

  lemma {:induction false} WithoutIsSubsequence(s: seq<EmojiRecord>, hexcode: string)
    ensures IsSubsequence(WithoutHexcode(s, hexcode), s)
  {
    if s != [] {
      WithoutIsSubsequence(s[1..], hexcode);
      var rest := WithoutHexcode(s[1..], hexcode);
      if s[0].hexcode == hexcode {
        // s[0] cannot start `rest`, so matching skips it
        if rest != [] {
          assert rest[0] in rest;
        }
      } else {
        assert ([s[0]] + rest)[1..] == rest;
      }
    }
  }

  lemma {:induction false} PrefixIsSubsequence<T>(a: seq<T>, b: seq<T>, k: nat)
    requires IsSubsequence(a, b) && k <= |a|
    ensures IsSubsequence(a[..k], b)
    decreases |b|
  {
    if k > 0 && b != [] {
      if a[0] == b[0] {
        PrefixIsSubsequence(a[1..], b[1..], k - 1);
        assert a[..k][1..] == a[1..][..k - 1];
      } else {
        PrefixIsSubsequence(a, b[1..], k);
      }
    }
  }

  lemma {:induction false} ExtendIsSubsequence<T>(a: seq<T>, b: seq<T>, t: seq<T>)
    requires IsSubsequence(a, b)
    ensures IsSubsequence(a, b + t)
    decreases |b|
  {
    if a != [] {
      assert (b + t)[1..] == b[1..] + t;
      if a[0] == b[0] {
        ExtendIsSubsequence(a[1..], b[1..], t);
      } else {
        ExtendIsSubsequence(a, b[1..], t);
      }
    }
  }

  lemma {:induction false} WithoutKeepsDistinct(s: seq<EmojiRecord>, hexcode: string)
    requires DistinctHexcodes(s)
    ensures DistinctHexcodes(WithoutHexcode(s, hexcode))
  {
    if s != [] {
      assert DistinctHexcodes(s[1..]);
      WithoutKeepsDistinct(s[1..], hexcode);
      var rest := WithoutHexcode(s[1..], hexcode);
      if s[0].hexcode != hexcode {
        forall x | x in rest ensures x.hexcode != s[0].hexcode {
          var k :| 0 <= k < |s[1..]| && s[1..][k] == x;
          assert s[k + 1] == x;
        }
        var r := [s[0]] + rest;
        forall i, j | 0 <= i < j < |r| ensures r[i].hexcode != r[j].hexcode {
          if i == 0 {
            assert r[j] == rest[j - 1];
            assert r[j] in rest;
          } else {
            assert r[i] == rest[i - 1] && r[j] == rest[j - 1];
          }
        }
      }
    }
  }

  // ---------------------------------------------------------------------
  // The promises of getRecents and addOrUpdateRecent

  /** `getRecents(n)` returns at most `n` entries, none for `n = 0`, and
      nothing when the key is absent. */
  lemma GetRecentsBound(stored: seq<EmojiRecord>, n: int)
    requires 0 <= n
    ensures |SliceTo(stored, n)| <= n
    ensures n == 0 ==> SliceTo(stored, n) == []
    ensures SliceTo<EmojiRecord>([], n) == []
  {
  }

  /** With room for one entry, the new emoji is first. */
  lemma AddOrUpdateFront(stored: seq<EmojiRecord>, emoji: EmojiRecord, n: int)
    requires 1 <= n
    ensures |AddOrUpdate(stored, emoji, n)| >= 1
    ensures AddOrUpdate(stored, emoji, n)[0] == emoji
  {
  }

  /** The list written back never exceeds `maxCount`; with `maxCount = 0` it is empty. */
  lemma AddOrUpdateBound(stored: seq<EmojiRecord>, emoji: EmojiRecord, n: int)
    requires 0 <= n
    ensures |AddOrUpdate(stored, emoji, n)| <= n
    ensures n == 0 ==> AddOrUpdate(stored, emoji, n) == []
  {
  }

  /** Exactly one entry carries the new emoji's hexcode (none when `n = 0`). */
  lemma {:induction false} AddOrUpdateUnique(stored: seq<EmojiRecord>, emoji: EmojiRecord, n: int)
    requires 0 <= n
    ensures CountHexcode(AddOrUpdate(stored, emoji, n), emoji.hexcode) == if n == 0 then 0 else 1
  {
    var r := AddOrUpdate(stored, emoji, n);
    if n == 0 {
      assert r == [];
    } else {
      var rest := WithoutHexcode(SliceTo(stored, n), emoji.hexcode);
      assert r == ([emoji] + rest)[..|r|];
      assert r[1..] == rest[..|r| - 1];
      forall x | x in r[1..] ensures x.hexcode != emoji.hexcode {
        var k :| 0 <= k < |r[1..]| && r[1..][k] == x;
        assert rest[k] == x;
        assert x in rest;
      }
      CountAbsent(r[1..], emoji.hexcode);
    }
  }

  /** The entries after the new one are the first `n` stored entries minus
      those with its hexcode, in their order, as many as fit. */
  lemma {:induction false} AddOrUpdateRest(stored: seq<EmojiRecord>, emoji: EmojiRecord, n: int)
    requires 1 <= n
    ensures var r := AddOrUpdate(stored, emoji, n);
            var rest := WithoutHexcode(SliceTo(stored, n), emoji.hexcode);
            && |r| == 1 + (if n - 1 < |rest| then n - 1 else |rest|)
            && r[1..] == rest[..|r| - 1]
            && IsSubsequence(r[1..], stored)
  {
    var r := AddOrUpdate(stored, emoji, n);
    var front := SliceTo(stored, n);
    var rest := WithoutHexcode(front, emoji.hexcode);
    assert r == ([emoji] + rest)[..|r|];
    assert r[1..] == rest[..|r| - 1];
    WithoutIsSubsequence(front, emoji.hexcode);
    PrefixIsSubsequence(rest, front, |r| - 1);
    assert stored == front + stored[|front|..];
    ExtendIsSubsequence(r[1..], front, stored[|front|..]);
  }

  /** A list without duplicate hexcodes stays without them. */
  lemma {:induction false} AddOrUpdateKeepsDistinct(stored: seq<EmojiRecord>, emoji: EmojiRecord, n: int)
    requires DistinctHexcodes(stored)
    ensures DistinctHexcodes(AddOrUpdate(stored, emoji, n))
  {
    var front := SliceTo(stored, n);
    assert DistinctHexcodes(front);
    WithoutKeepsDistinct(front, emoji.hexcode);
    var rest := WithoutHexcode(front, emoji.hexcode);
    var all := [emoji] + rest;
    forall i, j | 0 <= i < j < |all| ensures all[i].hexcode != all[j].hexcode {
      assert all[j] == rest[j - 1];
      assert all[j] in rest;
      if i > 0 {
        assert all[i] == rest[i - 1];
      }
    }
    assert DistinctHexcodes(all);
    var r := AddOrUpdate(stored, emoji, n);
    assert r == all[..|r|];
  }

  /** Adding the same emoji twice in a row leaves what adding it once left. */
  lemma {:induction false} AddOrUpdateIdempotent(stored: seq<EmojiRecord>, emoji: EmojiRecord, n: int)
    requires 0 <= n
    ensures AddOrUpdate(AddOrUpdate(stored, emoji, n), emoji, n) == AddOrUpdate(stored, emoji, n)
  {
    var once := AddOrUpdate(stored, emoji, n);
    if n == 0 {
      assert once == [];
    } else {
      var rest := WithoutHexcode(SliceTo(stored, n), emoji.hexcode);
      var tail := rest[..|once| - 1];
      assert once == ([emoji] + rest)[..|once|];
      assert once == [emoji] + tail;
      assert SliceTo(once, n) == once;
      forall x | x in tail ensures x.hexcode != emoji.hexcode {
        var k :| 0 <= k < |tail| && tail[k] == x;
        assert rest[k] == x;
        assert x in rest;
      }
      WithoutAbsent(tail, emoji.hexcode);
      assert ([emoji] + tail)[1..] == tail;
      assert WithoutHexcode(once, emoji.hexcode) == tail;
    }
  }

  // ---------------------------------------------------------------------
  // Cutting before or after removing the old entry

  /** The list-level description of the operation: remove every entry with
      the new emoji's hexcode, put the emoji first, then cut to `maxCount`. */
  function DedupThenCut(stored: seq<EmojiRecord>, emoji: EmojiRecord, maxCount: int): seq<EmojiRecord>
  {
    SliceTo([emoji] + WithoutHexcode(stored, emoji.hexcode), maxCount)
  }

  lemma {:induction false} WithoutLength(s: seq<EmojiRecord>, hexcode: string)
    ensures |WithoutHexcode(s, hexcode)| + CountHexcode(s, hexcode) == |s|
  {
    if s != [] {
      WithoutLength(s[1..], hexcode);
    }
  }

  lemma {:induction false} WithoutAppend(a: seq<EmojiRecord>, b: seq<EmojiRecord>, hexcode: string)
    ensures WithoutHexcode(a + b, hexcode) == WithoutHexcode(a, hexcode) + WithoutHexcode(b, hexcode)
  {
    if a != [] {
      assert (a + b)[0] == a[0] && (a + b)[1..] == a[1..] + b;
      WithoutAppend(a[1..], b, hexcode);
    } else {
      assert a + b == b;
    }
  }

  lemma {:induction false} DistinctCountAtMostOne(s: seq<EmojiRecord>, hexcode: string)
    requires DistinctHexcodes(s)
    ensures CountHexcode(s, hexcode) <= 1
  {
    if s != [] {
      assert DistinctHexcodes(s[1..]);
      if s[0].hexcode == hexcode {
        forall x | x in s[1..] ensures x.hexcode != hexcode {
          var k :| 0 <= k < |s[1..]| && s[1..][k] == x;
          assert s[k + 1] == x;
        }
        CountAbsent(s[1..], hexcode);
      } else {
        DistinctCountAtMostOne(s[1..], hexcode);
      }
    }
  }

  /** Cutting to `maxCount` before removing the old entry, as the code does,
      gives the same list as removing it first and then cutting, whenever
      the stored hexcodes are distinct, as `AddOrUpdateKeepsDistinct` keeps
      them from an empty slot on. */
  lemma {:induction false} AddOrUpdateMatchesDedupThenCut(stored: seq<EmojiRecord>, emoji: EmojiRecord, n: int)
    requires 0 <= n && DistinctHexcodes(stored)
    ensures AddOrUpdate(stored, emoji, n) == DedupThenCut(stored, emoji, n)
  {
    var h := emoji.hexcode;
    if n > 0 && n < |stored| {
      var front := stored[..n];
      assert SliceTo(stored, n) == front;
      assert stored == front + stored[n..];
      WithoutAppend(front, stored[n..], h);
      assert DistinctHexcodes(front);
      DistinctCountAtMostOne(front, h);
      WithoutLength(front, h);
      var kept := WithoutHexcode(front, h);
      var all := WithoutHexcode(stored, h);
      assert all == kept + WithoutHexcode(stored[n..], h);
      assert |kept| >= n - 1;
      assert ([emoji] + kept)[..n] == ([emoji] + all)[..n];
    }
  }

  /** With a duplicated hexcode the two readings part: the code keeps only
      what survives in the first `maxCount` entries. */
  lemma CutFirstDiffersOnDuplicates()
    ensures var a := EmojiRecord("1f600", "a", "a", None, [], false);
            var b := EmojiRecord("1f600", "b", "b", None, [], false);
            var c := EmojiRecord("1f601", "c", "c", None, [], false);
            AddOrUpdate([a, b, c], a, 2) == [a] && DedupThenCut([a, b, c], a, 2) == [a, c]
  {
    var a := EmojiRecord("1f600", "a", "a", None, [], false);
    var b := EmojiRecord("1f600", "b", "b", None, [], false);
    var c := EmojiRecord("1f601", "c", "c", None, [], false);
    assert [a, b, c][..2] == [a, b];
    assert [a, b][1..] == [b] && [b][1..] == [];
    assert [a, b, c][1..] == [b, c] && [b, c][1..] == [c] && [c][1..] == [];
    assert WithoutHexcode([a, b], a.hexcode) == [];
    assert WithoutHexcode([a, b, c], a.hexcode) == [c];
  }
}
