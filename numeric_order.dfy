/**
 * The order handlePNGSequenceUpload puts the selected files in
 * (src/Utils/PngUtils.ts): `files.sort((a, b) => numA - numB)` where each
 * number is the file name's key. `Array.prototype.sort` is stable, so the
 * result is the unique sequence that is ordered by key and keeps the input
 * order among files of equal key; SortBy computes it by insertion.
 */
module NumericOrder {
  import opened FilenameKey

  /** A selected file: its name and an opaque identity standing for the `File` object. */
  datatype File = File(name: string, id: nat)

  /** The number the comparator of handlePNGSequenceUpload computes for a file: 0 for a name
      without digits, otherwise the value of the name's first maximal run of digits. */
  function FileKey(f: File): (k: nat)
    ensures NoDigits(f.name) ==> k == 0
    ensures forall i: nat, run: string :: FirstRunAt(f.name, i, run) ==> k == DecimalValue(run)
  {
    assert forall i: nat, run: string :: FirstRunAt(f.name, i, run) ==> Key(f.name) == DecimalValue(run) by {
      forall i: nat, run: string | FirstRunAt(f.name, i, run)
        ensures Key(f.name) == DecimalValue(run)
      {
        KeyOfFirstRun(f.name, i, run);
      }
    }
    Key(f.name)
  }

  predicate SortedBy<T>(s: seq<T>, key: T -> nat) {
    forall i, j :: 0 <= i < j < |s| ==> key(s[i]) <= key(s[j])
  }

  /** The elements of `s` whose key is `k`, in their order in `s`. */
  function WithKey<T>(s: seq<T>, key: T -> nat, k: nat): seq<T> {
    if s == [] then []
    else (if key(s[0]) == k then [s[0]] else []) + WithKey(s[1..], key, k)
  }

  /** A stable sort of `input` by `key`: ordered by key, and every group of equal keys
      appears in the same order as in `input`. */
  ghost predicate IsStableSortBy<T>(input: seq<T>, output: seq<T>, key: T -> nat) {
    SortedBy(output, key) && forall k :: WithKey(output, key, k) == WithKey(input, key, k)
  }

  /** Places `x` before the first element of `s` whose key is at least `x`'s. */
  function Insert<T>(x: T, s: seq<T>, key: T -> nat): (r: seq<T>)
    requires SortedBy(s, key)
    ensures SortedBy(r, key)
    ensures |r| == |s| + 1
    ensures multiset(r) == multiset(s) + multiset{x}
    ensures r[0] == x || (s != [] && r[0] == s[0])
  {
    if s == [] || key(x) <= key(s[0]) then
      [x] + s
    else
      var rest := Insert(x, s[1..], key);
      assert s == [s[0]] + s[1..];
      [s[0]] + rest
  }

  /** The elements of `s` ordered by key, equal keys in input order. */
  function SortBy<T>(s: seq<T>, key: T -> nat): (r: seq<T>)
    ensures SortedBy(r, key)
    ensures |r| == |s|
    ensures multiset(r) == multiset(s)
  {
    if s == [] then
      []
    else
      assert s == [s[0]] + s[1..];
      Insert(s[0], SortBy(s[1..], key), key)
  }

  lemma WithKeyCons<T>(x: T, s: seq<T>, key: T -> nat, k: nat)
    ensures WithKey([x] + s, key, k) == (if key(x) == k then [x] else []) + WithKey(s, key, k)
  {
    assert ([x] + s)[1..] == s;
  }

  /** Inserting `x` adds it in front of the other elements of its key. */
  lemma {:induction false} InsertWithKey<T>(x: T, s: seq<T>, key: T -> nat, k: nat)
    requires SortedBy(s, key)
    ensures WithKey(Insert(x, s, key), key, k) == (if key(x) == k then [x] else []) + WithKey(s, key, k)
  {
    if s == [] || key(x) <= key(s[0]) {
      WithKeyCons(x, s, key, k);
    } else {
      assert s == [s[0]] + s[1..];
      WithKeyCons(s[0], Insert(x, s[1..], key), key, k);
      InsertWithKey(x, s[1..], key, k);
      WithKeyCons(s[0], s[1..], key, k);
    }
  }

  /** SortBy is stable: the elements of each key keep their input order. */
  lemma {:induction false} SortByStable<T>(s: seq<T>, key: T -> nat, k: nat)
    ensures WithKey(SortBy(s, key), key, k) == WithKey(s, key, k)
  {
    if s != [] {
      assert s == [s[0]] + s[1..];
      InsertWithKey(s[0], SortBy(s[1..], key), key, k);
      SortByStable(s[1..], key, k);
      WithKeyCons(s[0], s[1..], key, k);
    }
  }

  lemma SortByIsStableSort<T>(s: seq<T>, key: T -> nat)
    ensures IsStableSortBy(s, SortBy(s, key), key)
  {
    forall k: nat {
      SortByStable(s, key, k);
    }
  }

  /** No element of key `k` in `s` means an empty group. */
  lemma {:induction false} WithKeyAbsent<T>(s: seq<T>, key: T -> nat, k: nat)
    requires forall j :: 0 <= j < |s| ==> key(s[j]) != k
    ensures WithKey(s, key, k) == []
  {
    if s != [] {
      WithKeyAbsent(s[1..], key, k);
    }
  }

  /** An element of `s` whose key is below `s[0]`'s is impossible when `s` is sorted,
      so the group of such a key is empty. */
  lemma BelowHeadAbsent<T>(s: seq<T>, key: T -> nat, k: nat)
    requires SortedBy(s, key) && |s| > 0 && k < key(s[0])
    ensures WithKey(s, key, k) == []
  {
    assert forall j :: 0 < j < |s| ==> key(s[0]) <= key(s[j]);
    WithKeyAbsent(s, key, k);
  }

  /** Removing the same first element from two sequences with equal groups keeps the groups equal. */
  lemma DropEqualHeads<T>(a: seq<T>, b: seq<T>, key: T -> nat)
    requires a != [] && b != [] && a[0] == b[0]
    requires forall k :: WithKey(a, key, k) == WithKey(b, key, k)
    ensures forall k :: WithKey(a[1..], key, k) == WithKey(b[1..], key, k)
  {
    forall k: nat
      ensures WithKey(a[1..], key, k) == WithKey(b[1..], key, k)
    {
      var head := if key(a[0]) == k then [a[0]] else [];
      assert WithKey(a, key, k) == head + WithKey(a[1..], key, k);
      assert WithKey(b, key, k) == head + WithKey(b[1..], key, k);
      assert WithKey(a[1..], key, k) == (head + WithKey(a[1..], key, k))[|head|..];
      assert WithKey(b[1..], key, k) == (head + WithKey(b[1..], key, k))[|head|..];
    }
  }

  /** Two sequences ordered by key with the same group for every key are equal. */
  lemma {:induction false} StableSortUnique<T>(a: seq<T>, b: seq<T>, key: T -> nat)
    requires SortedBy(a, key) && SortedBy(b, key)
    requires forall k :: WithKey(a, key, k) == WithKey(b, key, k)
    ensures a == b
    decreases |a|
  {
    if a != [] {
      assert WithKey(b, key, key(a[0])) == WithKey(a, key, key(a[0])) != [];
    }
    if b != [] {
      assert WithKey(a, key, key(b[0])) == WithKey(b, key, key(b[0])) != [];
    }
    if a != [] && b != [] {
      var ka, kb := key(a[0]), key(b[0]);
      if ka < kb {
        BelowHeadAbsent(b, key, ka);
      }
      if kb < ka {
        BelowHeadAbsent(a, key, kb);
      }
      assert WithKey(a, key, ka)[0] == a[0];
      assert WithKey(b, key, kb)[0] == b[0];
      DropEqualHeads(a, b, key);
      StableSortUnique(a[1..], b[1..], key);
      assert a == [a[0]] + a[1..];
      assert b == [b[0]] + b[1..];
    }
  }

  /** Any stable sort of `s` by `key` is SortBy(s, key). */
  lemma StableSortIsSortBy<T>(s: seq<T>, t: seq<T>, key: T -> nat)
    requires IsStableSortBy(s, t, key)
    ensures t == SortBy(s, key)
  {
    SortByIsStableSort(s, key);
    StableSortUnique(t, SortBy(s, key), key);
  }

  /** A selection whose names hold no digit is left in the order it was given. */
  lemma NoDigitNamesKeepOrder(s: seq<File>)
    requires forall j :: 0 <= j < |s| ==> NoDigits(s[j].name)
    ensures SortBy(s, FileKey) == s
  {
    assert forall j :: 0 <= j < |s| ==> FileKey(s[j]) == 0;
    StableSortIsSortBy(s, s, FileKey);
  }

  /** Three elements whose keys rank them second, first and third. */
  lemma SortThree<T>(x: T, y: T, z: T, key: T -> nat)
    requires key(y) < key(x) < key(z)
    ensures SortBy([x, y, z], key) == [y, x, z]
  {
    SortPair(y, z, key);
    assert [x, y, z][1..] == [y, z];
    assert [y, z][1..] == [z];
    assert Insert(x, [z], key) == [x, z];
    assert Insert(x, [y, z], key) == [y] + [x, z];
  }

  lemma SortPair<T>(y: T, z: T, key: T -> nat)
    requires key(y) <= key(z)
    ensures SortBy([y, z], key) == [y, z]
  {
    assert [y, z][1..] == [z] && [z][1..] == [];
    assert SortBy([z], key) == Insert(z, [], key) == [z];
    assert Insert(y, [z], key) == [y, z];
  }

  /** `frame2.png, frame1.png, frame10.png` is ordered `frame1.png, frame2.png, frame10.png`;
      stated for any digit-free prefix such as `frame` and any rest such as `.png`. */
  lemma FrameOrderExample(prefix: string, rest: string, f2: File, f1: File, f10: File)
    requires NoDigits(prefix) && (rest == [] || !IsDigit(rest[0]))
    requires f2.name == prefix + NatToString(2) + rest
    requires f1.name == prefix + NatToString(1) + rest
    requires f10.name == prefix + NatToString(10) + rest
    ensures SortBy([f2, f1, f10], FileKey) == [f1, f2, f10]
  {
    KeyOfRenderedNumber(prefix, 2, rest);
    KeyOfRenderedNumber(prefix, 1, rest);
    KeyOfRenderedNumber(prefix, 10, rest);
    SortThree(f2, f1, f10, FileKey);
  }
}
