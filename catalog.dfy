/** The photo store on disk: directories and files laid out as
    <root>/<YY-MM-DD>/<apartment>/<file id>.jpg, and the batch save that
    fills it (main.py, save_photos_batch). */
module Catalog {

  /** A file system path, one string per component. */
  type Path = seq<string>

  function Digit(d: nat): (c: char)
    requires d < 10
    ensures '0' <= c <= '9'
  {
    (('0' as int) + d) as char
  }

  /** The number a two-character decimal field denotes. */
  function DecimalValue(f: string): int
    requires |f| == 2
  {
    (f[0] as int - '0' as int) * 10 + (f[1] as int - '0' as int)
  }

  /** n written with exactly two decimal digits, zero-padded, as strftime
      writes %y, %m and %d. */
  function TwoDigits(n: nat): (r: string)
    requires n < 100
    ensures |r| == 2 && '0' <= r[0] <= '9' && '0' <= r[1] <= '9'
    ensures DecimalValue(r) == n
  {
    [Digit(n / 10), Digit(n % 10)]
  }

  /** The date folder name, datetime.strftime("%y-%m-%d"): the year modulo
      100, the month and the day, each as two digits. */
  function DateBucket(year: nat, month: nat, day: nat): (r: string)
    requires 1 <= month <= 12 && 1 <= day <= 31
    ensures |r| == 8 && r[2] == '-' && r[5] == '-'
    ensures DecimalValue(r[..2]) == year % 100
    ensures DecimalValue(r[3..5]) == month
    ensures DecimalValue(r[6..8]) == day
  {
    var r := TwoDigits(year % 100) + "-" + TwoDigits(month) + "-" + TwoDigits(day);
    assert r[..2] == TwoDigits(year % 100);
    assert r[3..5] == TwoDigits(month);
    assert r[6..8] == TwoDigits(day);
    r
  }

  /** Two days share a folder exactly when they agree on day, month and
      the last two digits of the year. */
  lemma DateBucketSame(y1: nat, m1: nat, d1: nat, y2: nat, m2: nat, d2: nat)
    requires 1 <= m1 <= 12 && 1 <= d1 <= 31 && 1 <= m2 <= 12 && 1 <= d2 <= 31
    ensures DateBucket(y1, m1, d1) == DateBucket(y2, m2, d2)
        <==> y1 % 100 == y2 % 100 && m1 == m2 && d1 == d2
  {
    var b1, b2 := DateBucket(y1, m1, d1), DateBucket(y2, m2, d2);
    if b1 == b2 {
      assert b1[..2] == b2[..2] && b1[3..5] == b2[3..5] && b1[6..8] == b2[6..8];
    }
  }

  /** Where one photo of a batch is written: the file "<id>.jpg" in the
      folder <root>/<date>/<apartment>. */
  function PhotoPath(root: Path, date: string, apartment: string, fileId: string): Path
  {
    root + [date, apartment, fileId + ".jpg"]
  }

  /** Distinct file ids never share a path, so no photo of a batch
      overwrites another. */
  lemma PhotoPathInjective(root: Path, date: string, apartment: string, a: string, b: string)
    ensures PhotoPath(root, date, apartment, a) == PhotoPath(root, date, apartment, b) <==> a == b
  {
    if PhotoPath(root, date, apartment, a) == PhotoPath(root, date, apartment, b) {
      var n := |root| + 2;
      assert PhotoPath(root, date, apartment, a)[n] == a + ".jpg";
      assert PhotoPath(root, date, apartment, b)[n] == b + ".jpg";
      assert (a + ".jpg")[..|a|] == a;
      assert (b + ".jpg")[..|b|] == b;
    }
  }

  /** All non-empty prefixes of p: what os.makedirs(p, exist_ok=True)
      guarantees exists afterwards. */
  function Prefixes(p: Path): (r: set<Path>)
    ensures p != [] ==> p in r
    ensures forall q :: q in r ==> 1 <= |q| <= |p| && q == p[..|q|]
  {
    assert p != [] ==> p[..|p|] == p;
    set k | 1 <= k <= |p| :: p[..k]
  }

  /** The ids of a batch whose transfer fails, in batch order: one error
      report each. */
  function Failed(ids: seq<string>, fetchable: set<string>): (r: seq<string>)
    ensures |r| <= |ids|
    ensures forall x :: x in r <==> x in ids && x !in fetchable
  {
    if ids == [] then []
    else
      var last := ids[|ids| - 1];
      assert ids == ids[..|ids| - 1] + [last];
      Failed(ids[..|ids| - 1], fetchable) + (if last in fetchable then [] else [last])
  }

  /** One report per failing occurrence: an id whose transfer fails is
      reported as often as it occurs in the batch, any other id never. */
  lemma {:induction false} FailedCounts(ids: seq<string>, fetchable: set<string>, x: string)
    ensures multiset(Failed(ids, fetchable))[x] == if x in fetchable then 0 else multiset(ids)[x]
  {
    if ids != [] {
      var init, last := ids[..|ids| - 1], ids[|ids| - 1];
      assert ids == init + [last];
      FailedCounts(init, fetchable, x);
    }
  }

  /** The paths a batch writes: one per id whose transfer succeeds. */
  function Stored(root: Path, date: string, apartment: string,
                  ids: seq<string>, fetchable: set<string>): (r: set<Path>)
    ensures forall p :: p in r ==> |p| >= 1 && p[..|p| - 1] == root + [date, apartment]
  {
    set x | x in ids && x in fetchable :: PhotoPath(root, date, apartment, x)
  }

  lemma StoredStep(root: Path, date: string, apartment: string,
                   ids: seq<string>, fetchable: set<string>, i: nat)
    requires i < |ids|
    ensures Stored(root, date, apartment, ids[..i + 1], fetchable)
         == Stored(root, date, apartment, ids[..i], fetchable)
            + (if ids[i] in fetchable then {PhotoPath(root, date, apartment, ids[i])} else {})
  {
    assert ids[..i + 1] == ids[..i] + [ids[i]];
  }

  /** A photo ends up at its path exactly when its id is in the batch and
      its transfer succeeds. */
  lemma StoredExactly(root: Path, date: string, apartment: string,
                      ids: seq<string>, fetchable: set<string>, x: string)
    ensures PhotoPath(root, date, apartment, x) in Stored(root, date, apartment, ids, fetchable)
        <==> x in ids && x in fetchable
  {
    var p := PhotoPath(root, date, apartment, x);
    if p in Stored(root, date, apartment, ids, fetchable) {
      var y :| y in ids && y in fetchable && p == PhotoPath(root, date, apartment, y);
      PhotoPathInjective(root, date, apartment, x, y);
    }
  }

  /** Every file of files sits in a directory of dirs. */
  ghost predicate InDirs(files: set<Path>, dirs: set<Path>)
  {
    forall p :: p in files ==> |p| >= 1 && p[..|p| - 1] in dirs
  }

  /** Adding a batch to files whose folders exist keeps every file in an
      existing directory. */
  lemma BatchInDirs(files: set<Path>, dirs: set<Path>, root: Path, date: string,
                    apartment: string, ids: seq<string>, fetchable: set<string>)
    requires InDirs(files, dirs) && root + [date, apartment] in dirs
    ensures InDirs(files + Stored(root, date, apartment, ids, fetchable), dirs)
  {
    var batch := Stored(root, date, apartment, ids, fetchable);
    assert forall p :: p in batch ==> p[..|p| - 1] == root + [date, apartment];
  }

  /** The directories and files on disk under the photo root. */
  class Store {
    var dirs: set<Path>
    var files: set<Path>

    /** Every file sits in an existing directory. */
    ghost predicate Valid()
      reads this
    {
      InDirs(files, dirs)
    }

    /** os.makedirs(PHOTOS_DIR, exist_ok=True) at start-up, over whatever
        directories and files earlier runs left behind. */
    constructor (root: Path, dirs0: set<Path>, files0: set<Path>)
      requires InDirs(files0, dirs0)
      ensures Valid()
      ensures dirs == dirs0 + Prefixes(root) && files == files0
    {
      dirs := dirs0 + Prefixes(root);
      files := files0;
    }

    /** os.makedirs(p, exist_ok=True): creating what already exists is no error. */
    method MakeDirs(p: Path)
      requires Valid()
      modifies this
      ensures Valid()
      ensures dirs == old(dirs) + Prefixes(p) && files == old(files)
    {
      dirs := dirs + Prefixes(p);
    }

    /** A successful download writes (or overwrites) the file at p, whose
        directory must exist. */
    method Write(p: Path)
      requires |p| >= 1 && p[..|p| - 1] in dirs
      modifies this
      ensures files == old(files) + {p} && dirs == old(dirs)
    {
      files := files + {p};
    }
  }

  /** save_photos_batch: create the date and apartment folders, then try
      every id in order. */
  method SaveBatch(store: Store, root: Path, date: string, apartment: string,
                   ids: seq<string>, fetchable: set<string>)
    returns (failures: seq<string>)
    requires store.Valid()
    modifies store
    ensures store.Valid()
    ensures store.dirs == old(store.dirs) + Prefixes(root + [date]) + Prefixes(root + [date, apartment])
    ensures store.files == old(store.files) + Stored(root, date, apartment, ids, fetchable)
    ensures failures == Failed(ids, fetchable)
  {
    store.MakeDirs(root + [date]);
    store.MakeDirs(root + [date, apartment]);
    ghost var files0 := store.files;
    failures := SaveEach(store, root, date, apartment, ids, fetchable);
    BatchInDirs(files0, store.dirs, root, date, apartment, ids, fetchable);
  }

  /** The loop of save_photos_batch: an id whose transfer fails is reported
      and the loop goes on with the next one. */
  method SaveEach(store: Store, root: Path, date: string, apartment: string,
                  ids: seq<string>, fetchable: set<string>)
    returns (failures: seq<string>)
    requires root + [date, apartment] in store.dirs
    modifies store
    ensures store.dirs == old(store.dirs)
    ensures store.files == old(store.files) + Stored(root, date, apartment, ids, fetchable)
    ensures failures == Failed(ids, fetchable)
  {
    ghost var files0 := store.files;
    failures := [];
    var i := 0;
    while i < |ids|
      invariant 0 <= i <= |ids|
      invariant store.dirs == old(store.dirs)
      invariant store.files == files0 + Stored(root, date, apartment, ids[..i], fetchable)
      invariant failures == Failed(ids[..i], fetchable)
    {
      var id := ids[i];
      ghost var done := Stored(root, date, apartment, ids[..i], fetchable);
      StoredStep(root, date, apartment, ids, fetchable, i);
      assert ids[..i + 1][..i] == ids[..i];
      if id in fetchable {
        var p := PhotoPath(root, date, apartment, id);
        assert p[..|p| - 1] == root + [date, apartment];
        store.Write(p);
        assert store.files == files0 + (done + {p});
      } else {
        failures := failures + [id];
      }
      i := i + 1;
    }
    assert ids[..i] == ids;
  }
}
