/**
 * The value side of an image attachment and the projection of an owner's
 * images to display strings: Java's `int` compareTo on `ord`, the ascending
 * sort by `ord`, and the `uuid + "_" + fileName` mapping. Both owners (Board
 * and Item) project through these definitions.
 */
module ImageOrder {
  import opened Basics

  const INT_MIN: int := -0x8000_0000
  const INT_MAX: int := 0x7fff_ffff

  /** Java `int` range. */
  predicate IsInt32(x: int) {
    INT_MIN <= x <= INT_MAX
  }

  /** Two's-complement wrap-around of a mathematical integer into Java `int`. */
  function Wrap32(x: int): (r: int)
    ensures IsInt32(r)
    ensures IsInt32(x) ==> r == x
    ensures (x - r) % 0x1_0000_0000 == 0
  {
    (x - INT_MIN) % 0x1_0000_0000 + INT_MIN
  }

  /** What an image contributes to ordering and projection. */
  datatype ImageRecord = ImageRecord(uuid: string, fileName: string, ord: int)

  /** `compareTo` as written: `this.ord - other.ord`, evaluated in 32-bit arithmetic. */
  function CompareTo(self: ImageRecord, other: ImageRecord): (r: int)
    ensures IsInt32(r)
    ensures IsInt32(self.ord - other.ord) ==> r == self.ord - other.ord
  {
    Wrap32(self.ord - other.ord)
  }

  /** Without overflow, the sign of compareTo is the order of the two ords. */
  lemma CompareToSign(a: ImageRecord, b: ImageRecord)
    requires IsInt32(a.ord - b.ord)
    ensures CompareTo(a, b) < 0 <==> a.ord < b.ord
    ensures CompareTo(a, b) == 0 <==> a.ord == b.ord
    ensures CompareTo(a, b) > 0 <==> a.ord > b.ord
  {
  }

  /** Without overflow in either direction, compareTo is antisymmetric. */
  lemma CompareToAntisymmetric(a: ImageRecord, b: ImageRecord)
    requires IsInt32(a.ord - b.ord) && IsInt32(b.ord - a.ord)
    ensures CompareTo(a, b) == -CompareTo(b, a)
  {
  }

  /** Ords produced by `addImage` are set sizes: non-negative Java ints never overflow the subtraction. */
  lemma NonNegativeOrdsDoNotOverflow(a: ImageRecord, b: ImageRecord)
    requires 0 <= a.ord <= INT_MAX && 0 <= b.ord <= INT_MAX
    ensures IsInt32(a.ord - b.ord) && IsInt32(b.ord - a.ord)
    ensures CompareTo(a, b) <= 0 <==> a.ord <= b.ord
  {
  }

  /** Outside that range the subtraction wraps: the smallest int compares greater than 1. */
  lemma CompareToWrapsAtIntMin(a: ImageRecord, b: ImageRecord)
    requires a.ord == INT_MIN && b.ord == 1
    ensures a.ord < b.ord && CompareTo(a, b) == INT_MAX
  {
  }

  /** Ascending by ord. */
  ghost predicate SortedByOrd(s: seq<ImageRecord>) {
    forall i, j :: 0 <= i < j < |s| ==> s[i].ord <= s[j].ord
  }

  /** Any two images of `s` with the same ord are the same image. */
  ghost predicate OrdIsKey(s: seq<ImageRecord>) {
    forall x, y :: x in s && y in s && x.ord == y.ord ==> x == y
  }

  /** Insert `x` into an ord-sorted sequence, before the first element whose ord is not smaller. */
  function Insert(x: ImageRecord, s: seq<ImageRecord>): (r: seq<ImageRecord>)
    requires SortedByOrd(s)
    ensures SortedByOrd(r)
    ensures multiset(r) == multiset(s) + multiset{x}
    decreases |s|
  {
    if s == [] then [x]
    else if x.ord <= s[0].ord then [x] + s
    else
      var t := Insert(x, s[1..]);
      assert s == [s[0]] + s[1..];
      assert forall k :: 0 <= k < |t| ==> s[0].ord <= t[k].ord by {
        forall k | 0 <= k < |t| ensures s[0].ord <= t[k].ord {
          assert t[k] in multiset(s[1..]) + multiset{x};
        }
      }
      [s[0]] + t
  }

  /** The images in ascending ord order (the stream's `sorted()`). */
  function SortByOrd(s: seq<ImageRecord>): (r: seq<ImageRecord>)
    ensures SortedByOrd(r)
    ensures multiset(r) == multiset(s)
    ensures |r| == |s|
    decreases |s|
  {
    if s == [] then []
    else
      assert s == [s[0]] + s[1..];
      Insert(s[0], SortByOrd(s[1..]))
  }

  /** The display string of one image. */
  function Format(r: ImageRecord): string {
    r.uuid + "_" + r.fileName
  }

  /** The display strings of `s`, position by position. */
  function FormatAll(s: seq<ImageRecord>): (names: seq<string>)
    ensures |names| == |s|
    ensures forall i :: 0 <= i < |s| ==> names[i] == Format(s[i])
  {
    seq(|s|, i requires 0 <= i < |s| => Format(s[i]))
  }

  /** The `fileNames` list of the transfer object: sort by ord, then format each image. */
  function FileNames(images: seq<ImageRecord>): (names: seq<string>)
    ensures |names| == |images|
  {
    var sorted := SortByOrd(images);
    assert forall k :: 0 <= k < |sorted| ==> sorted[k] in multiset(images);
    FormatAll(sorted)
  }

  /** Dropping the head of a sequence removes one occurrence of it from the multiset. */
  lemma MultisetTail<T>(s: seq<T>)
    requires |s| > 0
    ensures multiset(s[1..]) == multiset(s) - multiset{s[0]}
  {
    assert s == [s[0]] + s[1..];
  }

  /** The first elements of two ord-sorted arrangements of the same images, keyed by ord, agree. */
  lemma SortedHeadsAgree(a: seq<ImageRecord>, b: seq<ImageRecord>)
    requires |a| > 0
    requires SortedByOrd(a) && SortedByOrd(b)
    requires multiset(a) == multiset(b)
    requires OrdIsKey(a)
    ensures |b| > 0 && b[0] == a[0]
  {
    assert a[0] in multiset(b);
    var k :| 0 <= k < |b| && b[k] == a[0];
    assert b[0] in multiset(a);
    var j :| 0 <= j < |a| && a[j] == b[0];
    assert b[0].ord <= a[0].ord by { assert b[0].ord <= b[k].ord; }
    assert a[0].ord <= b[0].ord by { assert a[0].ord <= a[j].ord; }
    assert a[j] in a && a[0] in a;
  }

  /** Ord stays a key when the head is dropped. */
  lemma OrdIsKeyTail(a: seq<ImageRecord>)
    requires |a| > 0 && OrdIsKey(a)
    ensures OrdIsKey(a[1..])
  {
    forall x, y | x in a[1..] && y in a[1..] && x.ord == y.ord ensures x == y {
      assert x in a && y in a;
    }
  }

  /** Two ord-sorted sequences holding the same images, in which ord identifies an image, are equal. */
  lemma {:induction false} SortedPermutationUnique(a: seq<ImageRecord>, b: seq<ImageRecord>)
    requires SortedByOrd(a) && SortedByOrd(b)
    requires multiset(a) == multiset(b)
    requires OrdIsKey(a)
    ensures a == b
    decreases |a|
  {
    if a == [] {
      assert |multiset(b)| == 0;
    } else {
      SortedHeadsAgree(a, b);
      MultisetTail(a);
      MultisetTail(b);
      OrdIsKeyTail(a);
      SortedPermutationUnique(a[1..], b[1..]);
      assert a == [a[0]] + a[1..];
      assert b == [b[0]] + b[1..];
    }
  }

  /** When ord identifies an image, the projection does not depend on the order the images are listed in. */
  lemma FileNamesOrderIndependent(a: seq<ImageRecord>, b: seq<ImageRecord>)
    requires multiset(a) == multiset(b)
    requires OrdIsKey(a)
    ensures FileNames(a) == FileNames(b)
  {
    var sa, sb := SortByOrd(a), SortByOrd(b);
    assert OrdIsKey(sa) by {
      forall x, y | x in sa && y in sa && x.ord == y.ord ensures x == y {
        assert x in multiset(a) && y in multiset(a);
      }
    }
    SortedPermutationUnique(sa, sb);
  }

  /**
   * If the images, in some iteration order, are a permutation of `appended`
   * whose i-th element has ord i (what a run of `addImage` from empty
   * produces), the projection lists them in append order.
   */
  lemma FileNamesInAppendOrder(images: seq<ImageRecord>, appended: seq<ImageRecord>)
    requires multiset(images) == multiset(appended)
    requires forall i :: 0 <= i < |appended| ==> appended[i].ord == i
    ensures FileNames(images) == FormatAll(appended)
  {
    var sorted := SortByOrd(images);
    assert OrdIsKey(appended) by {
      forall x, y | x in appended && y in appended && x.ord == y.ord ensures x == y {
        var i :| 0 <= i < |appended| && appended[i] == x;
        var j :| 0 <= j < |appended| && appended[j] == y;
      }
    }
    SortedPermutationUnique(appended, sorted);
  }

  /**
   * Two repetition-free listings of the same images, each looked up in
   * `records`, project to the same file names when no two of the images
   * share an ord: the hash set's iteration order does not show.
   */
  lemma EnumerationsProjectAlike<T>(o1: seq<T>, o2: seq<T>, records: map<T, ImageRecord>)
    requires Distinct(o1) && Distinct(o2)
    requires forall x :: x in o1 <==> x in o2
    requires forall x :: x in o1 ==> x in records
    requires forall x, y :: x in o1 && y in o1 && records[x].ord == records[y].ord ==> x == y
    ensures FileNames(MapSeq(records, o1)) == FileNames(MapSeq(records, o2))
  {
    var images := set x | x in o1;
    EnumerationMultiset(o1, images);
    EnumerationMultiset(o2, images);
    MapSeqPermutation(records, o1, o2);
    var rs := MapSeq(records, o1);
    assert OrdIsKey(rs) by {
      forall r, q | r in rs && q in rs && r.ord == q.ord ensures r == q {
        var i :| 0 <= i < |rs| && rs[i] == r;
        var j :| 0 <= j < |rs| && rs[j] == q;
        assert o1[i] in o1 && o1[j] in o1;
      }
    }
    FileNamesOrderIndependent(rs, MapSeq(records, o2));
  }

  /**
   * A repetition-free listing `order` of the images that `history` lists in
   * creation order (the i-th created has ord i) projects to the file names
   * of `history`, in creation order.
   */
  lemma EnumerationProjectsInCreationOrder<T>(order: seq<T>, history: seq<T>, records: map<T, ImageRecord>)
    requires Distinct(order) && Distinct(history)
    requires forall x :: x in order <==> x in history
    requires forall x :: x in history ==> x in records
    requires forall i :: 0 <= i < |history| ==> records[history[i]].ord == i
    ensures FileNames(MapSeq(records, order)) == FormatAll(MapSeq(records, history))
  {
    var images := set x | x in history;
    EnumerationMultiset(order, images);
    EnumerationMultiset(history, images);
    MapSeqPermutation(records, order, history);
    FileNamesInAppendOrder(MapSeq(records, order), MapSeq(records, history));
  }
}
