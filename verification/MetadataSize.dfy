/** tests/resize: the size that a device has left after DRBD's internal metadata, and
    the comparison of the sizes that the nodes report. */
module MetadataSize {
  import opened Wrappers

  const MIB := 0x10_0000
  const PAGE := 4096

  // ---- the arithmetic, with exact quotients ----

  /** `int` of a quotient, which truncates towards zero. */
  function Truncated(x: real): int {
    if x >= 0.0 then x.Floor else -((-x).Floor)
  }

  /** The pages of the bitmap as the source computes them: `bits / 8` is not rounded. */
  function Pages(bits: nat, peers: nat): int {
    Truncated((bits as real / 8.0 * peers as real + 4095.0) / 4096.0)
  }

  function Bits(bytes: nat): int {
    Truncated((bytes + 4095) as real / 4096.0)
  }

  /** What the device is expected to offer out of a backing device of these bytes:
      superblock, activity log and bitmap pages go off. */
  function Usable(bytes: nat, peers: nat): int {
    bytes - 1024 * (4 + 32 + 4 * (if Bits(bytes) >= 0 then Pages(Bits(bytes), peers) else 0))
  }

  // ---- pages ----

  /** Pages that hold a bit for each block and peer. */
  predicate Holds(pages: int, bits: nat, peers: nat) {
    pages * PAGE * 8 >= bits * peers
  }

  lemma FloorOfBlocks(x: real, n: int)
    requires x == n as real / 4096.0
    ensures x.Floor == n / 4096
  {
    assert 4096.0 * x == n as real;
  }

  lemma FloorOfPages(x: real, n: int)
    requires x == n as real / 32768.0
    ensures x.Floor == n / 32768
  {
    assert 32768.0 * x == n as real;
  }

  lemma BitsAre(bytes: nat)
    ensures Bits(bytes) == (bytes + 4095) / 4096
  {
    FloorOfBlocks((bytes + 4095) as real / 4096.0, bytes + 4095);
  }

  lemma PagesAre(bits: nat, peers: nat)
    ensures Pages(bits, peers) == (bits * peers + 32760) / 32768
  {
    var x := (bits as real / 8.0 * peers as real + 4095.0) / 4096.0;
    var n: nat := bits * peers + 32760;
    assert bits as real * peers as real == (bits * peers) as real;
    assert bits as real / 8.0 * peers as real == (bits * peers) as real / 8.0;
    assert x == n as real / 32768.0;
    FloorOfPages(x, n);
  }

  /** The computed number of pages is never more than needed: with one page less the
      bitmap would not fit. */
  lemma PagesNotTooMany(bits: nat, peers: nat, fewer: int)
    requires fewer < Pages(bits, peers)
    ensures !Holds(fewer, bits, peers)
  {
    PagesAre(bits, peers);
  }

  /** It is enough, and so the least, exactly when the bits do not run over a page
      boundary by less than a byte. */
  lemma PagesHoldIff(bits: nat, peers: nat)
    ensures Holds(Pages(bits, peers), bits, peers) <==> !(0 < bits * peers % 32768 < 8)
  {
    PagesAre(bits, peers);
    Rounding(bits * peers);
  }

  lemma Rounding(m: nat)
    ensures (m + 32760) / 32768 * 32768 >= m <==> !(0 < m % 32768 < 8)
  {
    var q, r := m / 32768, m % 32768;
    assert m == 32768 * q + r;
    if r < 8 {
      assert (m + 32760) / 32768 == q;
    } else {
      assert (m + 32760) / 32768 == q + 1;
    }
  }

  /** A size at which it is not enough: 32769 blocks of one peer. */
  lemma PagesTooFew()
    ensures Pages(32769, 1) == 1 && !Holds(1, 32769, 1)
  {
    PagesAre(32769, 1);
  }

  /** For whole MiB, the computed number is the least number of pages that hold one
      bit for every 4 KiB block and peer. */
  lemma MibPagesLeast(mib: nat, peers: nat)
    ensures var bits := Bits(mib * MIB);
            bits == 256 * mib
            && Holds(Pages(bits, peers), bits, peers)
            && forall fewer :: fewer < Pages(bits, peers) ==> !Holds(fewer, bits, peers)
  {
    BitsAre(mib * MIB);
    var bits: nat := 256 * mib;
    assert bits * peers == 256 * (mib * peers);
    PagesHoldIff(bits, peers);
    forall fewer | fewer < Pages(bits, peers)
      ensures !Holds(fewer, bits, peers)
    {
      PagesNotTooMany(bits, peers, fewer);
    }
  }

  // ---- growth ----

  function UsableMib(mib: nat, peers: nat): int {
    Usable(mib * MIB, peers)
  }

  /** Pages for whole MiB. */
  function MibPages(mib: nat, peers: nat): nat {
    (mib * peers + 127) / 128
  }

  lemma UsableMibIs(mib: nat, peers: nat)
    ensures UsableMib(mib, peers) == mib * MIB - 36864 - 4096 * MibPages(mib, peers)
  {
    BitsAre(mib * MIB);
    PagesAre(256 * mib, peers);
    assert 256 * mib * peers == 256 * (mib * peers);
    PagesOfMib(mib * peers);
  }

  lemma PagesOfMib(m: nat)
    ensures (256 * m + 32760) / 32768 == (m + 127) / 128
  {
  }

  lemma OneMore(mib: nat, peers: nat)
    requires peers <= 32640
    ensures UsableMib(mib, peers) < UsableMib(mib + 1, peers)
  {
    hide UsableMib, MibPages;
    UsableMibIs(mib, peers);
    UsableMibIs(mib + 1, peers);
    MibPagesNext(mib, peers);
  }

  lemma MibPagesNext(mib: nat, peers: nat)
    requires peers <= 32640
    ensures MibPages(mib + 1, peers) <= MibPages(mib, peers) + 255
  {
    assert (mib + 1) * peers == mib * peers + peers;
    PagesGrow(mib * peers, peers);
  }

  lemma PagesGrow(m: nat, peers: nat)
    requires peers <= 32640
    ensures (m + peers + 127) / 128 <= (m + 127) / 128 + 255
  {
  }

  lemma {:induction false} Increasing(a: nat, b: nat, peers: nat)
    requires a < b && peers <= 32640
    ensures UsableMib(a, peers) < UsableMib(b, peers)
    decreases b
  {
    hide UsableMib;
    OneMore(b - 1, peers);
    if a < b - 1 {
      Increasing(a, b - 1, peers);
    }
  }

  ghost predicate StrictlyIncreasing(peers: nat) {
    forall a: nat, b: nat :: a < b ==> UsableMib(a, peers) < UsableMib(b, peers)
  }

  /** A larger device always offers more iff there are at most 32640 peers. */
  lemma GrowthIff(peers: nat)
    ensures StrictlyIncreasing(peers) <==> peers <= 32640
  {
    hide UsableMib;
    if peers <= 32640 {
      forall a: nat, b: nat | a < b
        ensures UsableMib(a, peers) < UsableMib(b, peers)
      {
        Increasing(a, b, peers);
      }
    } else {
      NoGrowth(peers);
    }
  }

  lemma NoGrowth(peers: nat)
    requires peers > 32640
    ensures UsableMib(128, peers) >= UsableMib(129, peers)
  {
    hide UsableMib;
    UsableMibIs(128, peers);
    UsableMibIs(129, peers);
    ManyPages(peers);
  }

  lemma ManyPages(peers: nat)
    requires peers > 32640
    ensures MibPages(128, peers) == peers && MibPages(129, peers) >= peers + 256
  {
  }

  // ---- the comparison ----

  datatype Mismatch = Mismatch(expected: int, found: nat, node: nat)

  function ExpectedSize(sizeMib: nat, adjust: bool, peers: nat): int {
    if adjust then UsableMib(sizeMib, peers) else sizeMib * MIB
  }

  /** The expected size in bytes: without adjustment the nominal size; with it, the
      superblock and the activity log of 36 KiB go off, and the least number of pages that
      hold one bit per 4 KiB block and peer. */
  lemma ExpectedIs(sizeMib: nat, peers: nat, pages: nat)
    requires pages * 4096 * 8 >= sizeMib * 256 * peers
    requires pages > 0 ==> (pages - 1) * 4096 * 8 < sizeMib * 256 * peers
    ensures ExpectedSize(sizeMib, false, peers) == sizeMib * 1048576
    ensures ExpectedSize(sizeMib, true, peers) == sizeMib * 1048576 - 36 * 1024 - pages * 4096
  {
    UsableMibIs(sizeMib, peers);
    LeastPages(sizeMib, peers, pages);
  }

  lemma LeastPages(sizeMib: nat, peers: nat, pages: nat)
    requires pages * 4096 * 8 >= sizeMib * 256 * peers
    requires pages > 0 ==> (pages - 1) * 4096 * 8 < sizeMib * 256 * peers
    ensures MibPages(sizeMib, peers) == pages
  {
    var m := sizeMib * peers;
    assert sizeMib * 256 * peers == 256 * m;
    assert pages * 128 >= m && (pages > 0 ==> (pages - 1) * 128 < m);
  }

  /** Node i reports the expected size, if one was given. */
  predicate AsExpected(size: nat, sizeMib: nat, adjust: bool, peers: nat) {
    sizeMib == 0 || size == ExpectedSize(sizeMib, adjust, peers)
  }

  /** Sizes agree with every earlier one except those that are zero. */
  predicate Agrees(sizes: seq<nat>, i: nat) {
    i < |sizes| && forall j :: 0 <= j < i && sizes[j] != 0 ==> sizes[i] == sizes[j]
  }

  /** `verify_size` over the sizes that the nodes report, in order. */
  method VerifySize(sizeMib: nat, sizes: seq<nat>, adjust: bool, peers: nat) returns (r: Result<nat, Mismatch>)
    ensures r.Ok? <==> forall i :: 0 <= i < |sizes| ==>
                              AsExpected(sizes[i], sizeMib, adjust, peers) && Agrees(sizes, i)
    ensures r.Err? ==>
              var m := r.error;
              m.node < |sizes| && m.found == sizes[m.node] && m.found != m.expected
              && (forall i :: 0 <= i < m.node ==> AsExpected(sizes[i], sizeMib, adjust, peers) && Agrees(sizes, i))
    ensures r.Ok? ==> forall i :: 0 <= i < |sizes| && sizes[i] != 0 ==> r.value == sizes[i]
  {
    var common: nat := 0;
    for i := 0 to |sizes|
      invariant forall j :: 0 <= j < i ==> AsExpected(sizes[j], sizeMib, adjust, peers) && Agrees(sizes, j)
      invariant forall j :: 0 <= j < i && sizes[j] != 0 ==> common == sizes[j]
      invariant common != 0 ==> exists j :: 0 <= j < i && sizes[j] == common
    {
      if sizeMib != 0 {
        var expected := sizeMib * MIB;
        if adjust {
          var bits: int := Bits(expected);
          BitsAre(expected);
          var metadata := 1024 * (4 + 32 + 4 * Pages(bits, peers));
          expected := expected - metadata;
        }
        if expected != sizes[i] {
          return Err(Mismatch(expected, sizes[i], i));
        }
      }
      if common == 0 {
        common := sizes[i];
      } else if sizes[i] != common {
        return Err(Mismatch(common, sizes[i], i));
      }
    }
    return Ok(common);
  }

  predicate AllEqual(sizes: seq<nat>) {
    forall i, j :: 0 <= i < j < |sizes| ==> sizes[i] == sizes[j]
  }

  /** Without an expected size, passing means that all nodes have the same size iff the
      first size is not zero or all are: zero serves as the mark for no size seen. */
  lemma PassMeansEqualIff(sizes: seq<nat>)
    requires forall i :: 0 <= i < |sizes| ==> Agrees(sizes, i)
    ensures AllEqual(sizes) <==> sizes == [] || sizes[0] != 0 || forall i :: 0 <= i < |sizes| ==> sizes[i] == 0
  {
    if sizes != [] && sizes[0] != 0 {
      forall i | 0 < i < |sizes|
        ensures sizes[i] == sizes[0]
      {
        assert Agrees(sizes, i);
      }
    }
  }
}
