/** Pushing a file over ADB as part files that the phone's shell puts together again, and writing a
    chunk in place with `dd`. */
module AdbPush {
  import opened Wrappers
  import opened Models
  import opened Bytes
  import opened Chunks
  import opened Text

  // ----- names of parts -----

  function Zeroes(n: nat): (s: string)
    ensures |s| == n
    ensures forall k :: 0 <= k < n ==> s[k] == '0'
  {
    seq(n, k => '0')
  }

  /** At least `width` digits. */
  function Padded(n: nat, width: nat): string {
    var s := Decimal(n);
    if |s| < width then Zeroes(width - |s|) + s else s
  }

  function PartName(i: nat): string { Padded(i, 8) }

  /** The order in which the shell lists names. */
  predicate Before(a: string, b: string) {
    b != "" && (a == "" || a[0] < b[0] || (a[0] == b[0] && Before(a[1..], b[1..])))
  }

  lemma {:induction false} BeforeIsStrict(a: string, b: string)
    ensures !(Before(a, b) && Before(b, a)) && !Before(a, a)
  {
    if a != "" {
      BeforeIsStrict(a[1..], if b == "" then "" else b[1..]);
    }
  }

  lemma {:induction false} SameBeginning(a: string, x: char, b: string, y: char)
    requires |a| == |b|
    ensures Before(a, b) ==> Before(a + [x], b + [y])
    ensures a == b && x < y ==> Before(a + [x], b + [y])
  {
    if a != "" {
      SameBeginning(a[1..], x, b[1..], y);
      assert (a + [x])[1..] == a[1..] + [x] && (b + [y])[1..] == b[1..] + [y];
    }
  }

  function Ten(k: nat): (p: nat)
    ensures p > 0
  {
    if k == 0 then 1 else 10 * Ten(k - 1)
  }

  /** Exactly `width` digits. */
  function Fixed(n: nat, width: nat): (s: string)
    ensures |s| == width
  {
    if width == 0 then "" else Fixed(n / 10, width - 1) + [Digit(n % 10)]
  }

  lemma {:induction false} ZeroFixed(width: nat)
    ensures Fixed(0, width) == Zeroes(width)
  {
    if width > 0 {
      ZeroFixed(width - 1);
      assert Digit(0) == '0';
    }
  }

  lemma {:induction false} PaddedIsFixed(n: nat, width: nat)
    requires 0 < width && n < Ten(width)
    ensures Padded(n, width) == Fixed(n, width) && |Decimal(n)| <= width
    decreases width
  {
    if n < 10 {
      ZeroFixed(width - 1);
      assert n / 10 == 0 && n % 10 == n;
      if width == 1 { assert Fixed(n / 10, 0) == ""; }
    } else {
      assert width > 1 by { assert Ten(1) == 10 * Ten(0); }
      PaddedIsFixed(n / 10, width - 1);
      var s := Decimal(n / 10);
      assert Decimal(n) == s + [Digit(n % 10)];
      if |s| < width - 1 {
        assert Zeroes(width - |s| - 1) + (s + [Digit(n % 10)]) == Zeroes(width - 1 - |s|) + s + [Digit(n % 10)];
      }
    }
  }

  lemma {:induction false} FixedOrder(i: nat, j: nat, width: nat)
    requires i < j < Ten(width)
    ensures Before(Fixed(i, width), Fixed(j, width))
  {
    if width > 0 {
      if i / 10 < j / 10 { FixedOrder(i / 10, j / 10, width - 1); }
      SameBeginning(Fixed(i / 10, width - 1), Digit(i % 10), Fixed(j / 10, width - 1), Digit(j % 10));
    }
  }

  const MAX_PARTS := 1_0000_0000

  lemma TenToTheEighth()
    ensures Ten(8) == MAX_PARTS
  {
    assert Ten(4) == 10000;
    assert Ten(8) == 10000 * Ten(4);
  }

  lemma TenToTheSeventh()
    ensures Ten(7) == 1000_0000
  {
    assert Ten(4) == 10000;
  }

  lemma OneIsOne()
    ensures Decimal(1)[0] == '1'
  { }

  lemma {:induction false} FirstDigit(n: nat, k: nat)
    requires n >= Ten(k)
    ensures Decimal(n)[0] == Decimal(n / Ten(k))[0]
  {
    if k > 0 {
      DivTwice(n, k);
      FirstDigit(n / 10, k - 1);
      assert Decimal(n)[0] == Decimal(n / 10)[0];
    }
  }

  lemma DivTwice(n: nat, k: nat)
    requires k > 0 && n >= Ten(k)
    ensures n >= 10 && n / 10 >= Ten(k - 1) && n / Ten(k) == n / 10 / Ten(k - 1)
  {
    var t := Ten(k - 1);
    assert Ten(k) == 10 * t;
    DivBounds(n, 10 * t);
    DivBounds(n / 10, t);
    CoversIff(t, n / (10 * t), n / 10);
  }

  function Quotient(n: nat, d: nat): nat
    requires d > 0
  {
    n / d
  }

  lemma {:induction false} FixedFirst(n: nat, width: nat)
    requires width > 0 && n < Ten(width)
    ensures Quotient(n, Ten(width - 1)) < 10 && Fixed(n, width)[0] == Digit(Quotient(n, Ten(width - 1)))
  {
    if width > 1 {
      if n >= Ten(width - 1) { DivTwice(n, width - 1); } else { SmallQuotient(n, width); }
      FixedFirst(n / 10, width - 1);
    } else {
      assert Ten(0) == 1 && Ten(1) == 10;
    }
  }

  lemma SmallQuotient(n: nat, width: nat)
    requires width > 1 && n < Ten(width - 1)
    ensures n / Ten(width - 1) == 0 == n / 10 / Ten(width - 2)
  {
    assert Ten(width - 1) == 10 * Ten(width - 2);
    CoversIff(Ten(width - 1), 0, n);
    CoversIff(Ten(width - 2), 0, n / 10);
  }

  lemma {:induction false} DigitCount(n: nat, k: nat)
    requires n >= Ten(k)
    ensures |Decimal(n)| > k
  {
    if k > 0 {
      DivTwice(n, k);
      DigitCount(n / 10, k - 1);
    }
  }

  lemma PastTheLast()
    ensures !Before(PartName(MAX_PARTS - 1), PartName(MAX_PARTS))
  {
    hide Decimal, Ten, Fixed;
    TenToTheEighth();
    TenToTheSeventh();
    DigitCount(MAX_PARTS, 8);
    PaddedIsFixed(MAX_PARTS - 1, 8);
    FixedFirst(MAX_PARTS - 1, 8);
    FirstDigit(MAX_PARTS, 8);
    OneIsOne();
    assert PartName(MAX_PARTS - 1)[0] == '9';
    assert PartName(MAX_PARTS)[0] == '1';
  }

  /** The parts are listed in the order of their numbers exactly when there are at most 10^8. */
  lemma PartsInOrderIff(count: nat)
    ensures (forall i, j :: 0 <= i < j < count ==> Before(PartName(i), PartName(j))) <==> count <= MAX_PARTS
  {
    hide PartName, Before;
    if count <= MAX_PARTS {
      forall i, j | 0 <= i < j < count ensures Before(PartName(i), PartName(j)) { InOrder(i, j); }
    } else {
      PastTheLast();
      assert 0 <= MAX_PARTS - 1 < MAX_PARTS < count;
    }
  }

  lemma InOrder(i: nat, j: nat)
    requires i < j < MAX_PARTS
    ensures Before(PartName(i), PartName(j))
  {
    TenToTheEighth();
    PaddedIsFixed(i, 8);
    PaddedIsFixed(j, 8);
    FixedOrder(i, j, 8);
    hide Padded, Fixed, Before, Ten;
  }

  lemma {:induction false} ZeroesValue(n: nat, s: string)
    requires AllDigits(s)
    ensures AllDigits(Zeroes(n) + s) && DigitsValue(Zeroes(n) + s) == DigitsValue(s)
    decreases |s|, n
  {
    var t := Zeroes(n) + s;
    if s != "" {
      ZeroesValue(n, s[..|s| - 1]);
      assert t[..|t| - 1] == Zeroes(n) + s[..|s| - 1];
    } else if n > 0 {
      ZeroesValue(n - 1, s);
      assert t[..|t| - 1] == Zeroes(n - 1) + s;
      assert t[|t| - 1] == '0';
    }
  }

  /** Different parts have different names. */
  lemma NamesDiffer(i: nat, j: nat)
    requires PartName(i) == PartName(j)
    ensures i == j
  {
    NameValue(i);
    NameValue(j);
  }

  lemma NameValue(i: nat)
    ensures AllDigits(PartName(i)) && DigitsValue(PartName(i)) == i
  {
    DecimalValue(i);
    if |Decimal(i)| < 8 { ZeroesValue(8 - |Decimal(i)|, Decimal(i)); }
    hide DigitsValue, Decimal;
  }

  // ----- the directory of parts -----

  type Dir = map<string, Data>

  predicate Ascending(names: seq<string>) { forall i, j :: 0 <= i < j < |names| ==> Before(names[i], names[j]) }

  /** A listing of the directory: every name once, in order. */
  ghost predicate IsListing(names: seq<string>, dir: Dir) {
    Ascending(names) && forall name :: name in names <==> name in dir
  }

  /** `cat` of the names in the order listed. */
  function Cat(names: seq<string>, dir: Dir): Data
    requires forall name :: name in names ==> name in dir
  {
    if names == [] then [] else Cat(names[..|names| - 1], dir) + dir[names[|names| - 1]]
  }

  predicate SameMembers(a: seq<string>, b: seq<string>) {
    (forall x :: x in a ==> x in b) && (forall x :: x in b ==> x in a)
  }

  lemma SameLast(a: seq<string>, b: seq<string>)
    requires Ascending(a) && Ascending(b) && SameMembers(a, b) && a != [] && b != []
    ensures a[|a| - 1] == b[|b| - 1] && SameMembers(a[..|a| - 1], b[..|b| - 1])
  {
    var x, y := a[|a| - 1], b[|b| - 1];
    assert x in b && y in a;
    if x != y {
      var i :| 0 <= i < |b| && b[i] == x;
      var j :| 0 <= j < |a| && a[j] == y;
      BeforeIsStrict(x, y);
    }
    hide Before;
    var a1, b1 := a[..|a| - 1], b[..|b| - 1];
    forall z | z in a1 ensures z in b1 { InButLast(a, b, z); }
    forall z | z in b1 ensures z in a1 { InButLast(b, a, z); }
  }

  lemma InButLast(a: seq<string>, b: seq<string>, z: string)
    requires Ascending(a) && a != [] && b != [] && a[|a| - 1] == b[|b| - 1]
    requires z in a[..|a| - 1] && z in b
    ensures z in b[..|b| - 1]
  {
    var i :| 0 <= i < |a| - 1 && a[i] == z;
    BeforeIsStrict(z, a[|a| - 1]);
    assert z != b[|b| - 1];
    var j :| 0 <= j < |b| && b[j] == z;
    assert b[..|b| - 1][j] == z;
  }

  lemma FirstIsMember(a: seq<string>)
    ensures a == [] || a[0] in a
  { }

  /** A directory has only one listing. */
  lemma {:induction false} OneListing(a: seq<string>, b: seq<string>)
    requires Ascending(a) && Ascending(b) && SameMembers(a, b)
    ensures a == b
  {
    FirstIsMember(a);
    FirstIsMember(b);
    if a != [] {
      SameLast(a, b);
      hide SameMembers, Before;
      OneListing(a[..|a| - 1], b[..|b| - 1]);
    }
  }

  function Names(count: nat): (r: seq<string>)
    ensures |r| == count
    ensures forall i :: 0 <= i < count ==> r[i] == PartName(i)
  {
    seq(count, i requires 0 <= i < count => PartName(i))
  }

  function ChunkData(src: Data, chunkSize: nat, i: nat): Data
    requires i < Count(|src|, chunkSize)
  {
    Slice(src, ChunkAt(0, |src|, chunkSize, i))
  }

  predicate IsPart(name: string, src: Data, chunkSize: nat) { name in Names(Count(|src|, chunkSize)) }

  lemma PartIsPart(src: Data, chunkSize: nat, i: nat)
    requires i < Count(|src|, chunkSize)
    ensures IsPart(PartName(i), src, chunkSize)
  {
    assert Names(Count(|src|, chunkSize))[i] == PartName(i);
  }

  /** The part is there in its full length. */
  predicate Sized(dir: Dir, src: Data, chunkSize: nat, i: nat)
    requires i < Count(|src|, chunkSize)
  {
    PartName(i) in dir && |dir[PartName(i)]| == |ChunkData(src, chunkSize, i)|
  }

  predicate Whole(dir: Dir, src: Data, chunkSize: nat, i: nat)
    requires i < Count(|src|, chunkSize)
  {
    PartName(i) in dir && dir[PartName(i)] == ChunkData(src, chunkSize, i)
  }

  /** What does not belong to this file has no bytes. */
  ghost predicate NothingForeign(dir: Dir, src: Data, chunkSize: nat) {
    forall name :: name in dir && !IsPart(name, src, chunkSize) ==> dir[name] == []
  }

  /** The listed names that are parts of this file. */
  function Own(names: seq<string>, src: Data, chunkSize: nat): seq<string> {
    if names == [] then []
    else
      var before, last := Own(names[..|names| - 1], src, chunkSize), names[|names| - 1];
      if IsPart(last, src, chunkSize) then before + [last] else before
  }

  lemma {:induction false} OwnMembers(names: seq<string>, src: Data, chunkSize: nat)
    ensures forall z :: z in Own(names, src, chunkSize) <==> z in names && IsPart(z, src, chunkSize)
  {
    hide IsPart;
    if names != [] {
      OwnMembers(names[..|names| - 1], src, chunkSize);
      assert names == names[..|names| - 1] + [names[|names| - 1]];
    }
  }

  lemma {:induction false} OwnAscending(names: seq<string>, src: Data, chunkSize: nat)
    requires Ascending(names)
    ensures Ascending(Own(names, src, chunkSize))
  {
    hide IsPart, Before;
    if names != [] {
      var rest, last := names[..|names| - 1], names[|names| - 1];
      OwnAscending(rest, src, chunkSize);
      OwnMembers(rest, src, chunkSize);
      var own := Own(rest, src, chunkSize);
      forall i | 0 <= i < |own| ensures Before(own[i], last) {
        assert own[i] in own;
        var j :| 0 <= j < |rest| && rest[j] == own[i];
      }
    }
  }

  /** So the listing has the parts in the order of their numbers. */
  lemma OwnIsNames(dir: Dir, src: Data, chunkSize: nat, names: seq<string>)
    requires Count(|src|, chunkSize) <= MAX_PARTS && IsListing(names, dir)
    requires forall i: nat :: i < Count(|src|, chunkSize) ==> Sized(dir, src, chunkSize, i)
    ensures Own(names, src, chunkSize) == Names(Count(|src|, chunkSize))
  {
    hide PartName, Before, Own, ChunkData;
    var count := Count(|src|, chunkSize);
    assert forall i: nat :: i < count && Sized(dir, src, chunkSize, i) ==> Names(count)[i] in dir;
    PartsInOrderIff(count);
    OwnAscending(names, src, chunkSize);
    OwnMembers(names, src, chunkSize);
    OneListing(Own(names, src, chunkSize), Names(count));
  }

  /** Parts of other files only ever add bytes. */
  lemma {:induction false} CatOwn(dir: Dir, src: Data, chunkSize: nat, names: seq<string>)
    requires forall name :: name in names ==> name in dir
    ensures forall name :: name in Own(names, src, chunkSize) ==> name in dir
    ensures var c, own := Cat(names, dir), Cat(Own(names, src, chunkSize), dir);
            if forall name :: name in names && !IsPart(name, src, chunkSize) ==> dir[name] == [] then c == own
            else |c| > |own|
  {
    hide IsPart;
    OwnMembers(names, src, chunkSize);
    if names != [] {
      var rest, last := names[..|names| - 1], names[|names| - 1];
      CatOwn(dir, src, chunkSize, rest);
      assert names == rest + [last];
      var own := Own(rest, src, chunkSize);
      if IsPart(last, src, chunkSize) { assert (own + [last])[..|own|] == own; }
    }
  }

  lemma SameHalves(a: Data, b: Data, c: Data, d: Data)
    requires |a| == |b|
    ensures a + c == b + d <==> a == b && c == d
  {
    var left, right := a + c, b + d;
    assert a == left[..|a|] && c == left[|a|..] && b == right[..|b|] && d == right[|b|..];
  }

  /** Parts of the right sizes make up a first part of the source exactly when each is whole. */
  lemma {:induction false} CatNames(dir: Dir, src: Data, chunkSize: nat, n: nat)
    requires n <= Count(|src|, chunkSize) && forall i: nat :: i < n ==> Sized(dir, src, chunkSize, i)
    ensures forall name :: name in Names(n) ==> name in dir
    ensures |Cat(Names(n), dir)| == UpTo(|src|, chunkSize, n)
    ensures Cat(Names(n), dir) == src[..UpTo(|src|, chunkSize, n)] <==>
      forall i: nat :: i < n ==> Whole(dir, src, chunkSize, i)
  {
    hide PartName, ChunkData, UpTo;
    NoBytes(|src|, chunkSize);
    if n > 0 {
      CatNames(dir, src, chunkSize, n - 1);
      ChunkAfter(src, chunkSize, n - 1);
      assert Names(n)[..n - 1] == Names(n - 1);
      assert Sized(dir, src, chunkSize, n - 1);
      assert Whole(dir, src, chunkSize, n - 1) <==> dir[PartName(n - 1)] == ChunkData(src, chunkSize, n - 1);
      SameHalves(Cat(Names(n - 1), dir), src[..UpTo(|src|, chunkSize, n - 1)], dir[PartName(n - 1)],
        ChunkData(src, chunkSize, n - 1));
    }
  }

  lemma NoBytes(size: nat, chunkSize: nat)
    ensures UpTo(size, chunkSize, 0) == 0
  { }

  lemma ChunkAfter(src: Data, chunkSize: nat, i: nat)
    requires i < Count(|src|, chunkSize)
    ensures src[..UpTo(|src|, chunkSize, i + 1)] == src[..UpTo(|src|, chunkSize, i)] + ChunkData(src, chunkSize, i)
  {
    Adjacent(|src|, chunkSize, i);
    assert UpTo(|src|, chunkSize, i + 1) == End(ChunkAt(0, |src|, chunkSize, i));
    hide ChunkAt, UpTo;
  }

  /** Putting the parts together in the order the shell lists them gives the source exactly when
      every part of the right size has the right bytes and nothing foreign has any, for up to 10^8
      parts. */
  lemma CatIsSourceIff(dir: Dir, src: Data, chunkSize: nat, names: seq<string>)
    requires Count(|src|, chunkSize) <= MAX_PARTS && IsListing(names, dir)
    requires forall i: nat :: i < Count(|src|, chunkSize) ==> Sized(dir, src, chunkSize, i)
    ensures Cat(names, dir) == src <==>
      && (forall i: nat :: i < Count(|src|, chunkSize) ==> Whole(dir, src, chunkSize, i))
      && NothingForeign(dir, src, chunkSize)
  {
    hide Names, Cat, Own, Ascending, Whole, IsPart, PartName, ChunkData, UpTo;
    var count := Count(|src|, chunkSize);
    OwnIsNames(dir, src, chunkSize, names);
    CatOwn(dir, src, chunkSize, names);
    CatNames(dir, src, chunkSize, count);
    LastEnd(|src|, chunkSize);
    assert src[..|src|] == src;
  }

  // ----- the push -----

  /** What becomes of one chunk: it is pushed, or the transfer is cut, or it stops before. */
  datatype Fate = Arrives | CutAfter(length: nat) | Stops

  /** One turn of the loop. A part of the right size is taken as pushed already. */
  function PushOne(dir: Dir, src: Data, chunkSize: nat, i: nat, fate: Fate): (Dir, bool)
    requires i < Count(|src|, chunkSize)
  {
    var name, data := PartName(i % TWO_TO_32), ChunkData(src, chunkSize, i);
    if fate == Stops then (dir, false)
    else if name in dir && |dir[name]| == |data| then (dir, true)
    else match fate
      case Arrives => (dir[name := data], true)
      case CutAfter(length) => (dir[name := data[..Min(length, |data|)]], false)
  }

  /** The loop from a chunk on; it stops where `fates` ends. */
  function PushFrom(dir: Dir, src: Data, chunkSize: nat, fates: seq<Fate>, i: nat): (Dir, bool)
    requires i <= Count(|src|, chunkSize)
    decreases Count(|src|, chunkSize) - i
  {
    if i == Count(|src|, chunkSize) then (dir, true)
    else if i >= |fates| then (dir, false)
    else
      var (dir1, ok) := PushOne(dir, src, chunkSize, i, fates[i]);
      if ok then PushFrom(dir1, src, chunkSize, fates, i + 1) else (dir1, false)
  }

  /** Every part of the right size has the right bytes, and nothing foreign has any. */
  ghost predicate DirOk(dir: Dir, src: Data, chunkSize: nat) {
    && (forall i: nat :: i < Count(|src|, chunkSize) && Sized(dir, src, chunkSize, i) ==> Whole(dir, src, chunkSize, i))
    && NothingForeign(dir, src, chunkSize)
  }

  ghost predicate FirstSized(dir: Dir, src: Data, chunkSize: nat, n: nat)
    requires n <= Count(|src|, chunkSize)
  {
    forall i: nat :: i < n ==> Sized(dir, src, chunkSize, i)
  }

  /** Storing a first part of a chunk changes no other part. */
  lemma StoreOther(dir: Dir, src: Data, chunkSize: nat, i: nat, data: Data, j: nat)
    requires i < Count(|src|, chunkSize) && j < Count(|src|, chunkSize) && i != j
    ensures Sized(dir[PartName(i) := data], src, chunkSize, j) <==> Sized(dir, src, chunkSize, j)
    ensures Whole(dir[PartName(i) := data], src, chunkSize, j) <==> Whole(dir, src, chunkSize, j)
  {
    hide PartName, ChunkData;
    if PartName(i) == PartName(j) { NamesDiffer(i, j); }
  }

  lemma StoreKeeps(dir: Dir, src: Data, chunkSize: nat, i: nat, data: Data)
    requires i < Count(|src|, chunkSize) && data <= ChunkData(src, chunkSize, i)
    requires !Sized(dir, src, chunkSize, i)
    ensures DirOk(dir[PartName(i) := data], src, chunkSize) <==> DirOk(dir, src, chunkSize)
  {
    var dir1 := dir[PartName(i) := data];
    assert Sized(dir1, src, chunkSize, i) ==> Whole(dir1, src, chunkSize, i);
    hide PartName, ChunkData, Sized, Whole, IsPart;
    PartIsPart(src, chunkSize, i);
    forall j: nat | j < Count(|src|, chunkSize) && j != i
      ensures Sized(dir1, src, chunkSize, j) <==> Sized(dir, src, chunkSize, j)
      ensures Whole(dir1, src, chunkSize, j) <==> Whole(dir, src, chunkSize, j)
    {
      StoreOther(dir, src, chunkSize, i, data, j);
    }
  }

  lemma StoreSized(dir: Dir, src: Data, chunkSize: nat, i: nat)
    requires i < Count(|src|, chunkSize) && FirstSized(dir, src, chunkSize, i)
    ensures FirstSized(dir[PartName(i) := ChunkData(src, chunkSize, i)], src, chunkSize, i + 1)
  {
    var dir1 := dir[PartName(i) := ChunkData(src, chunkSize, i)];
    assert Sized(dir1, src, chunkSize, i);
    hide PartName, ChunkData, Sized;
    forall j: nat | j < i ensures Sized(dir1, src, chunkSize, j) {
      StoreOther(dir, src, chunkSize, i, ChunkData(src, chunkSize, i), j);
    }
  }

  /** A turn makes a directory no better and no worse. */
  lemma OneKeeps(dir: Dir, src: Data, chunkSize: nat, i: nat, fate: Fate)
    requires Count(|src|, chunkSize) <= TWO_TO_32 && i < Count(|src|, chunkSize) && FirstSized(dir, src, chunkSize, i)
    ensures var (dir1, ok) := PushOne(dir, src, chunkSize, i, fate);
            && (DirOk(dir1, src, chunkSize) <==> DirOk(dir, src, chunkSize))
            && (ok ==> FirstSized(dir1, src, chunkSize, i + 1))
  {
    hide PartName, ChunkData, DirOk;
    assert i % TWO_TO_32 == i;
    var data := ChunkData(src, chunkSize, i);
    if fate != Stops && !Sized(dir, src, chunkSize, i) {
      match fate
      case Arrives =>
        StoreKeeps(dir, src, chunkSize, i, data);
        StoreSized(dir, src, chunkSize, i);
      case CutAfter(length) => StoreKeeps(dir, src, chunkSize, i, data[..Min(length, |data|)]);
    }
  }

  lemma {:induction false} PushKeeps(dir: Dir, src: Data, chunkSize: nat, fates: seq<Fate>, i: nat)
    requires Count(|src|, chunkSize) <= TWO_TO_32 && i <= Count(|src|, chunkSize) && FirstSized(dir, src, chunkSize, i)
    ensures var (dir1, ok) := PushFrom(dir, src, chunkSize, fates, i);
            && (DirOk(dir1, src, chunkSize) <==> DirOk(dir, src, chunkSize))
            && (ok ==> FirstSized(dir1, src, chunkSize, Count(|src|, chunkSize)))
    decreases Count(|src|, chunkSize) - i
  {
    hide DirOk, FirstSized, PushOne;
    if i < Count(|src|, chunkSize) && i < |fates| {
      OneKeeps(dir, src, chunkSize, i, fates[i]);
      var (dir1, ok) := PushOne(dir, src, chunkSize, i, fates[i]);
      if ok { PushKeeps(dir1, src, chunkSize, fates, i + 1); }
    }
  }

  /** Where a run that nothing interrupts gets to: no part of the right size is pushed again, and all
      the others are pushed whole. */
  lemma {:induction false} SmoothRun(dir: Dir, src: Data, chunkSize: nat, fates: seq<Fate>, i: nat)
    requires Count(|src|, chunkSize) <= TWO_TO_32 && i <= Count(|src|, chunkSize)
    requires |fates| >= Count(|src|, chunkSize) && forall k :: i <= k < Count(|src|, chunkSize) ==> fates[k] == Arrives
    ensures var (dir1, ok) := PushFrom(dir, src, chunkSize, fates, i);
            && ok
            && (forall j: nat :: i <= j < Count(|src|, chunkSize) ==>
                 if Sized(dir, src, chunkSize, j) then PartName(j) in dir1 && dir1[PartName(j)] == dir[PartName(j)]
                 else Whole(dir1, src, chunkSize, j))
            && (forall name :: (forall j: nat :: i <= j < Count(|src|, chunkSize) ==> name != PartName(j)) ==>
                 (name in dir1 <==> name in dir) && (name in dir ==> dir1[name] == dir[name]))
    decreases Count(|src|, chunkSize) - i
  {
    hide PartName, ChunkData, PushOne, PushFrom, Count;
    if i < Count(|src|, chunkSize) {
      var (dir1, ok) := PushOne(dir, src, chunkSize, i, Arrives);
      PushTurn(dir, src, chunkSize, fates, i);
      OneArrives(dir, src, chunkSize, i);
      SmoothRun(dir1, src, chunkSize, fates, i + 1);
      forall j: nat | i < j < Count(|src|, chunkSize)
        ensures PartName(j) != PartName(i) && (Sized(dir1, src, chunkSize, j) <==> Sized(dir, src, chunkSize, j))
      {
        if PartName(j) == PartName(i) { NamesDiffer(i, j); }
      }
      assert forall j: nat :: i < j < Count(|src|, chunkSize) ==> PartName(i) != PartName(j);
    } else {
      PushEnds(dir, src, chunkSize, fates);
    }
  }

  /** A part that is cut leaves what arrived of it; as long as that is not all, the part is pushed
      again by the next run that comes to it. */
  lemma CutIsRepeated(dir: Dir, src: Data, chunkSize: nat, i: nat, length: nat)
    requires Count(|src|, chunkSize) <= TWO_TO_32 && i < Count(|src|, chunkSize)
    requires !Sized(dir, src, chunkSize, i) && length < |ChunkData(src, chunkSize, i)|
    ensures var (dir1, ok) := PushOne(dir, src, chunkSize, i, CutAfter(length));
            && !ok && PartName(i) in dir1 && dir1[PartName(i)] == ChunkData(src, chunkSize, i)[..length]
            && !Sized(dir1, src, chunkSize, i)
            && PushOne(dir1, src, chunkSize, i, Arrives) == (dir[PartName(i) := ChunkData(src, chunkSize, i)], true)
  {
    hide PartName, ChunkData, Count;
    assert i % TWO_TO_32 == i;
    var name, data := PartName(i), ChunkData(src, chunkSize, i);
    var dir1 := dir[name := data[..length]];
    assert PushOne(dir, src, chunkSize, i, CutAfter(length)) == (dir1, false);
    assert PushOne(dir1, src, chunkSize, i, Arrives) == (dir1[name := data], true);
    StoreTwice(dir, name, data[..length], data);
  }

  lemma StoreTwice(dir: Dir, name: string, a: Data, b: Data)
    ensures dir[name := a][name := b] == dir[name := b]
  { }

  lemma OneArrives(dir: Dir, src: Data, chunkSize: nat, i: nat)
    requires Count(|src|, chunkSize) <= TWO_TO_32 && i < Count(|src|, chunkSize)
    ensures var (dir1, ok) := PushOne(dir, src, chunkSize, i, Arrives);
            && ok
            && (if Sized(dir, src, chunkSize, i) then dir1 == dir else Whole(dir1, src, chunkSize, i))
            && (forall name :: name != PartName(i) ==>
                 (name in dir1 <==> name in dir) && (name in dir ==> dir1[name] == dir[name]))
  {
    assert i % TWO_TO_32 == i;
    hide PartName, ChunkData;
  }

  function Runs(dir: Dir, src: Data, chunkSize: nat, runs: seq<seq<Fate>>): Dir
    decreases runs
  {
    if runs == [] then dir else Runs(PushFrom(dir, src, chunkSize, runs[0], 0).0, src, chunkSize, runs[1..])
  }

  lemma {:induction false} RunsKeep(dir: Dir, src: Data, chunkSize: nat, runs: seq<seq<Fate>>)
    requires Count(|src|, chunkSize) <= TWO_TO_32
    ensures DirOk(Runs(dir, src, chunkSize, runs), src, chunkSize) <==> DirOk(dir, src, chunkSize)
    decreases runs
  {
    hide DirOk, PushFrom;
    if runs != [] {
      PushKeeps(dir, src, chunkSize, runs[0], 0);
      RunsKeep(PushFrom(dir, src, chunkSize, runs[0], 0).0, src, chunkSize, runs[1..]);
    }
  }

  /** Reassembly. From any directory, after any number of runs cut off anywhere, the first run that
      gets through the loop leaves parts that, put together in the order the shell lists them, are
      the source exactly when every part of the right size at the start had the right bytes and
      nothing foreign had any, as in an empty directory; for up to 10^8 chunks. */
  lemma ReassemblesIff(start: Dir, src: Data, chunkSize: nat, runs: seq<seq<Fate>>, last: seq<Fate>, names: seq<string>)
    requires Count(|src|, chunkSize) <= MAX_PARTS
    requires var (dir, ok) := PushFrom(Runs(start, src, chunkSize, runs), src, chunkSize, last, 0);
             ok && IsListing(names, dir)
    ensures var dir := PushFrom(Runs(start, src, chunkSize, runs), src, chunkSize, last, 0).0;
            Cat(names, dir) == src <==> DirOk(start, src, chunkSize)
    ensures DirOk(map[], src, chunkSize)
  {
    hide Runs, PushFrom, Cat, PartName, ChunkData;
    var before := Runs(start, src, chunkSize, runs);
    RunsKeep(start, src, chunkSize, runs);
    PushKeeps(before, src, chunkSize, last, 0);
    CatIsSourceIff(PushFrom(before, src, chunkSize, last, 0).0, src, chunkSize, names);
  }

  // ----- the loop itself -----

  /** The local file, read from where the last read ended. */
  class SourceFile {
    const data: Data
    var position: nat

    constructor (data: Data)
      ensures this.data == data && position == 0
    {
      this.data := data;
      position := 0;
    }

    /** `read_exact`: fails when the file is too short. */
    method ReadExact(length: nat) returns (piece: Option<Data>)
      modifies this
      ensures old(position) + length <= |data| ==>
        piece == Some(data[old(position)..old(position) + length]) && position == old(position) + length
      ensures old(position) + length > |data| ==> piece == None
    {
      if position + length > |data| {
        position := Max(position, |data|);
        return None;
      }
      piece := Some(data[position..position + length]);
      position := position + length;
    }
  }

  const BUFFER_SIZE := 1024 * 1024

  method SkipLocalBytes(source: SourceFile, length: nat)
    requires source.position + length <= |source.data|
    modifies source
    ensures source.position == old(source.position) + length
  {
    var left: nat := length;
    while left > 0
      invariant left <= length && source.position + left == old(source.position) + length
    {
      var n := Min(left, BUFFER_SIZE);
      var piece := source.ReadExact(n);
      left := left - n;
    }
  }

  lemma JoinSlices(data: Data, a: nat, b: nat, c: nat)
    requires a <= b <= c <= |data|
    ensures data[a..b] + data[b..c] == data[a..c]
  { }

  method WriteTempChunk(source: SourceFile, length: nat) returns (output: Data)
    requires source.position + length <= |source.data|
    modifies source
    ensures source.position == old(source.position) + length
    ensures output == source.data[old(source.position)..old(source.position) + length]
  {
    output := [];
    var left: nat := length;
    while left > 0
      invariant left <= length && source.position + left == old(source.position) + length
      invariant output == source.data[old(source.position)..source.position]
    {
      var n := Min(left, BUFFER_SIZE);
      ghost var p0, p := old(source.position), source.position;
      var piece := source.ReadExact(n);
      JoinSlices(source.data, p0, p, p + n);
      output := output + piece.value;
      left := left - n;
    }
  }

  /** The read position is at the start of each chunk, whether the ones before were skipped or
      pushed, so every part holds its own chunk. */
  method PushFileChunks(source: SourceFile, chunkSize: nat, dir: Dir, fates: seq<Fate>) returns (dir1: Dir, ok: bool)
    requires source.position == 0
    modifies source
    ensures (dir1, ok) == PushFrom(dir, source.data, chunkSize, fates, 0)
    ensures ok ==> source.position == |source.data|
  {
    hide PartName, ChunkData, UpTo, PushFrom;
    var size := |source.data|;
    var c := if chunkSize > 1 then chunkSize else 1;
    var count := if size == 0 then 1 else DivCeil(size, c);
    dir1 := dir;
    NoBytes(size, chunkSize);
    for i := 0 to count
      invariant source.position == UpTo(size, chunkSize, i)
      invariant PushFrom(dir, source.data, chunkSize, fates, 0) == PushFrom(dir1, source.data, chunkSize, fates, i)
    {
      PushTurn(dir1, source.data, chunkSize, fates, i);
      if i >= |fates| || fates[i] == Stops { return dir1, false; }
      var offset := i * c;
      var remaining := if offset <= size then size - offset else 0;
      var length := if size == 0 then 0 else Min(remaining, c);
      AtChunk(source.data, chunkSize, i, offset, length);
      var name := PartName(i % TWO_TO_32);
      if name in dir1 && |dir1[name]| == length {
        SkipLocalBytes(source, length);
        continue;
      }
      var temp := WriteTempChunk(source, length);
      match fates[i]
      case Arrives => dir1 := dir1[name := temp];
      case CutAfter(n) => return dir1[name := temp[..Min(n, |temp|)]], false;
    }
    LastEnd(size, chunkSize);
    PushEnds(dir1, source.data, chunkSize, fates);
    ok := true;
  }

  lemma PushEnds(dir: Dir, src: Data, chunkSize: nat, fates: seq<Fate>)
    ensures PushFrom(dir, src, chunkSize, fates, Count(|src|, chunkSize)) == (dir, true)
  { }

  lemma PushTurn(dir: Dir, src: Data, chunkSize: nat, fates: seq<Fate>, i: nat)
    requires i < Count(|src|, chunkSize)
    ensures PushFrom(dir, src, chunkSize, fates, i) == (
      if i >= |fates| then (dir, false)
      else
        var (dir1, ok) := PushOne(dir, src, chunkSize, i, fates[i]);
        if ok then PushFrom(dir1, src, chunkSize, fates, i + 1) else (dir1, false))
  {
    hide PushOne;
  }

  /** The loop's own length of a chunk that starts at `offset`. */
  function LoopLength(size: nat, c: nat, offset: nat): nat {
    if size == 0 then 0 else Min(if offset <= size then size - offset else 0, c)
  }

  /** The loop's own arithmetic finds chunk `i` where the read position is. */
  lemma AtChunk(src: Data, chunkSize: nat, i: nat, offset: nat, length: nat)
    requires i < Count(|src|, chunkSize)
    requires offset == i * AtLeastOne(chunkSize) && length == LoopLength(|src|, AtLeastOne(chunkSize), offset)
    ensures UpTo(|src|, chunkSize, i + 1) == UpTo(|src|, chunkSize, i) + length <= |src|
    ensures ChunkData(src, chunkSize, i) == src[UpTo(|src|, chunkSize, i)..UpTo(|src|, chunkSize, i) + length]
  {
    Adjacent(|src|, chunkSize, i);
    ChunkNumbers(|src|, chunkSize, i, offset);
    assert UpTo(|src|, chunkSize, i + 1) == End(ChunkAt(0, |src|, chunkSize, i));
    hide ChunkAt, UpTo;
  }

  lemma ChunkNumbers(size: nat, chunkSize: nat, i: nat, offset: nat)
    requires i < Count(size, chunkSize) && offset == i * AtLeastOne(chunkSize)
    ensures ChunkAt(0, size, chunkSize, i).length == LoopLength(size, AtLeastOne(chunkSize), offset)
  {
    if size > 0 { InFile(size, AtLeastOne(chunkSize), i); }
  }

  // ----- writing in place -----

  const MEBIBYTE := 1_048_576

  /** The block size and the number of blocks `dd` is told to seek. */
  function BlockAndSeek(offset: nat): (nat, nat) {
    if offset % MEBIBYTE == 0 then (MEBIBYTE, offset / MEBIBYTE)
    else if offset % 4096 == 0 then (4096, offset / 4096)
    else (1, offset)
  }

  lemma WholeBlocks(n: nat, block: nat, k: nat)
    requires block > 0
    ensures n % block == 0 ==> block * (n / block) == n
    ensures block * k == n ==> n % block == 0
  {
    DivBounds(n, block);
    CoversIff(block, k, n);
  }

  /** Seeking whole blocks always ends at the chunk's offset, and no larger one of the three block
      sizes would. */
  lemma SeekIsExact(offset: nat)
    ensures var (block, seek) := BlockAndSeek(offset);
            && block * seek == offset
            && (forall k: nat :: MEBIBYTE * k == offset ==> block == MEBIBYTE)
            && (forall k: nat :: 4096 * k == offset ==> block >= 4096)
  {
    forall k: nat ensures MEBIBYTE * k == offset ==> offset % MEBIBYTE == 0 { WholeBlocks(offset, MEBIBYTE, k); }
    forall k: nat ensures 4096 * k == offset ==> offset % 4096 == 0 { WholeBlocks(offset, 4096, k); }
    WholeBlocks(offset, MEBIBYTE, 0);
    WholeBlocks(offset, 4096, 0);
  }
}
