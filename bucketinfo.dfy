/**
 * The metadata a storage node keeps about one bucket: its checksum, how many
 * documents it holds and how large they are, whether it is ready and active,
 * and when it last changed.
 */
module Buckets {

  /** An unsigned 32-bit counter. */
  type U32 = n: nat | n < 0x1_0000_0000

  /** The time of the last change; zero means "not recorded". */
  type Timestamp = nat

  datatype BucketInfo = BucketInfo(
    checksum: U32,
    docCount: U32,
    totDocSize: U32,
    metaCount: U32,
    usedFileSize: U32,
    ready: bool,
    active: bool,
    lastModified: Timestamp)

  // The five constructors. Each is written in terms of the eight stored
  // fields; the lemma ConstructorsAgree relates them to one another.

  /** The default constructor: an empty bucket whose sizes are one, not zero. */
  function Empty(): (r: BucketInfo)
    ensures r.checksum == 0 && r.docCount == 0 && r.metaCount == 0
    ensures r.totDocSize == 1 && r.usedFileSize == 1
    ensures !r.ready && !r.active && r.lastModified == 0
  {
    BucketInfo(0, 0, 1, 0, 1, false, false, 0)
  }

  /** The constructor from checksum, document count and total size: the meta count
      follows the document count and the used file size follows the total size. */
  function FromTotals(checksum: U32, docCount: U32, totDocSize: U32): (r: BucketInfo)
    ensures r.checksum == checksum && r.docCount == docCount && r.totDocSize == totDocSize
    ensures r.metaCount == r.docCount && r.usedFileSize == r.totDocSize
    ensures !r.ready && !r.active && r.lastModified == 0
  {
    BucketInfo(checksum, docCount, totDocSize, docCount, totDocSize, false, false, 0)
  }

  /** The constructor from the five counters: neither ready nor active, no timestamp. */
  function FromCounts(checksum: U32, docCount: U32, totDocSize: U32,
                      metaCount: U32, usedFileSize: U32): (r: BucketInfo)
    ensures r.checksum == checksum && r.docCount == docCount && r.totDocSize == totDocSize
    ensures r.metaCount == metaCount && r.usedFileSize == usedFileSize
    ensures !r.ready && !r.active && r.lastModified == 0
  {
    BucketInfo(checksum, docCount, totDocSize, metaCount, usedFileSize, false, false, 0)
  }

  /** The constructor from the five counters and the two flags: no timestamp. */
  function FromCountsAndFlags(checksum: U32, docCount: U32, totDocSize: U32,
                              metaCount: U32, usedFileSize: U32,
                              ready: bool, active: bool): (r: BucketInfo)
    ensures r.checksum == checksum && r.docCount == docCount && r.totDocSize == totDocSize
    ensures r.metaCount == metaCount && r.usedFileSize == usedFileSize
    ensures r.ready == ready && r.active == active && r.lastModified == 0
  {
    BucketInfo(checksum, docCount, totDocSize, metaCount, usedFileSize, ready, active, 0)
  }

  /** The constructor that sets every field, the timestamp included. */
  function FromAll(checksum: U32, docCount: U32, totDocSize: U32,
                   metaCount: U32, usedFileSize: U32,
                   ready: bool, active: bool, lastModified: Timestamp): (r: BucketInfo)
    ensures r.checksum == checksum && r.docCount == docCount && r.totDocSize == totDocSize
    ensures r.metaCount == metaCount && r.usedFileSize == usedFileSize
    ensures r.ready == ready && r.active == active && r.lastModified == lastModified
  {
    BucketInfo(checksum, docCount, totDocSize, metaCount, usedFileSize, ready, active, lastModified)
  }

  /** Each shorter constructor is the next longer one with its defaults filled in,
      and every value is reachable through the full constructor. */
  lemma ConstructorsAgree(checksum: U32, docCount: U32, totDocSize: U32,
                          metaCount: U32, usedFileSize: U32,
                          ready: bool, active: bool, info: BucketInfo)
    ensures Empty() == FromTotals(0, 0, 1)
    ensures FromTotals(checksum, docCount, totDocSize)
         == FromCounts(checksum, docCount, totDocSize, docCount, totDocSize)
    ensures FromCounts(checksum, docCount, totDocSize, metaCount, usedFileSize)
         == FromCountsAndFlags(checksum, docCount, totDocSize, metaCount, usedFileSize, false, false)
    ensures FromCountsAndFlags(checksum, docCount, totDocSize, metaCount, usedFileSize, ready, active)
         == FromAll(checksum, docCount, totDocSize, metaCount, usedFileSize, ready, active, 0)
    ensures info == FromAll(info.checksum, info.docCount, info.totDocSize, info.metaCount,
                            info.usedFileSize, info.ready, info.active, info.lastModified)
  {
  }

  /** `operator==`: every field is compared except the timestamp. */
  function Equals(a: BucketInfo, b: BucketInfo): (eq: bool)
    ensures eq <==> a.(lastModified := 0) == b.(lastModified := 0)
  {
    && a.checksum == b.checksum
    && a.docCount == b.docCount
    && a.totDocSize == b.totDocSize
    && a.metaCount == b.metaCount
    && a.usedFileSize == b.usedFileSize
    && a.ready == b.ready
    && a.active == b.active
  }

  /** Two infos that differ only in their timestamps are equal. */
  lemma EqualsIgnoresTimestamp(info: BucketInfo, t: Timestamp)
    ensures Equals(info, info.(lastModified := t))
    ensures Equals(info.(lastModified := t), info)
  {
  }

  /** Equality together with equal timestamps is identity. */
  lemma EqualsWithSameTimestamp(a: BucketInfo, b: BucketInfo)
    ensures Equals(a, b) && a.lastModified == b.lastModified <==> a == b
  {
  }

  /** Equality is an equivalence relation. */
  lemma EqualsIsEquivalence()
    ensures forall a :: Equals(a, a)
    ensures forall a, b :: Equals(a, b) ==> Equals(b, a)
    ensures forall a, b, c :: Equals(a, b) && Equals(b, c) ==> Equals(a, c)
  {
  }

  /** The equality is strictly coarser than identity. */
  lemma EqualsIsNotIdentity()
    ensures exists a, b :: Equals(a, b) && a != b
  {
    var a := Empty();
    var b := a.(lastModified := 1);
    assert Equals(a, b) && a != b;
  }
}
