# BucketInfo: bucket metadata of the storage API

A model of `storage::api::BucketInfo`, the value a storage node keeps about one
bucket: a checksum, the document count, the total document size, the meta
count and the used file size (all unsigned 32-bit), a ready flag, an active
flag and a last-modified timestamp. The model covers the five constructors
and their defaulting rules, `operator==` (which compares every field but the
timestamp), the human-readable `print` and the XML serialiser `printXml`.

Files:

- `bucketinfo.dfy` (module `Buckets`): the `BucketInfo` datatype, one function per
  constructor, `Equals` for `operator==`, and the lemmas about them.
- `numerals.dfy` (module `Numerals`): the decimal and hexadecimal digit strings a
  stream writes for a number, and a reader that recovers the number.
- `bucketprint.dfy` (module `BucketPrint`): `Render`, the text `print` appends;
  `Parse`, its inverse on what the text shows; an `AsciiStream` class (text written
  so far plus the current `hex`/`dec` mode) and `Print`, which appends to it piece by
  piece. `Print` is split into `PrintCounts`, `PrintSizes` and `PrintFlags`, one per
  segment of the source's output, so that each proof stays small.
- `bucketxml.dfy` (module `BucketXml`): `Attributes`, the attribute list `printXml`
  writes; `FromAttributes`, which reads an info back by attribute name; an
  `XmlOutputStream` class and `PrintXml`.
- `options.dfy` (module `Options`): an `Option` type usable with `:-`.

`valid()` is declared in `bucketinfo.h`, which is not part of this model. It is
passed to `Render` and `Print` as a parameter `valid: BucketInfo -> bool` and
nothing is assumed about it.

## Model

| member | source | states |
|---|---|---|
| `Buckets.Empty` | storageapi/src/vespa/storageapi/buckets/bucketinfo.cpp:8-17 | the default constructor gives checksum 0, docCount 0, totDocSize 1, metaCount 0, usedFileSize 1, not ready, not active, lastModified 0 |
| `Buckets.FromTotals` | storageapi/src/vespa/storageapi/buckets/bucketinfo.cpp:19-29 | the three-argument constructor stores its arguments, copies docCount into metaCount and totDocSize into usedFileSize, and leaves the flags false and lastModified 0 |
| `Buckets.FromCounts` | storageapi/src/vespa/storageapi/buckets/bucketinfo.cpp:31-42 | the five-argument constructor stores exactly the five counters; flags false, lastModified 0 |
| `Buckets.FromCountsAndFlags` | storageapi/src/vespa/storageapi/buckets/bucketinfo.cpp:44-56 | the seven-argument constructor stores the counters and both flags; lastModified 0 |
| `Buckets.FromAll` | storageapi/src/vespa/storageapi/buckets/bucketinfo.cpp:58-70 | the eight-argument constructor stores every argument, the timestamp included |
| `Buckets.ConstructorsAgree` | storageapi/src/vespa/storageapi/buckets/bucketinfo.cpp:8-70 | each shorter constructor equals the next longer one with its defaults (the default constructor is the three-argument one applied to 0, 0, 1), and every value is reachable through the eight-argument one |
| `Buckets.Equals` | storageapi/src/vespa/storageapi/buckets/bucketinfo.cpp:76-86 | two infos are equal exactly when they agree once both timestamps are cleared |
| `Buckets.EqualsIgnoresTimestamp` | storageapi/src/vespa/storageapi/buckets/bucketinfo.cpp:76-86 | infos that differ only in lastModified are equal, in both orders |
| `Buckets.EqualsWithSameTimestamp` | storageapi/src/vespa/storageapi/buckets/bucketinfo.cpp:76-86 | equality plus equal timestamps holds exactly for identical values |
| `Buckets.EqualsIsEquivalence` | storageapi/src/vespa/storageapi/buckets/bucketinfo.cpp:76-86 | `==` is reflexive, symmetric and transitive |
| `Buckets.EqualsIsNotIdentity` | storageapi/src/vespa/storageapi/buckets/bucketinfo.cpp:76-86 | some distinct values are equal under `==` |
| `Numerals.Numeral` | storageapi/src/vespa/storageapi/buckets/bucketinfo.cpp:94-96 | a number is written as a non-empty digit string whose first digit is 0 only for the number 0 |
| `Numerals.NumeralDigits` | storageapi/src/vespa/storageapi/buckets/bucketinfo.cpp:94-96 | every character written for a number is a digit of the stream's current base |
| `Numerals.ValueOfNumeral` | storageapi/src/vespa/storageapi/buckets/bucketinfo.cpp:94-96 | the digits written for a number denote that number |
| `Numerals.NumeralInjective` | storageapi/src/vespa/storageapi/buckets/bucketinfo.cpp:94-96 | different numbers are written differently |
| `Numerals.ReadNumeralBack` | storageapi/src/vespa/storageapi/buckets/bucketinfo.cpp:94-105 | reading a written number followed by a non-digit yields the number and leaves the rest untouched |
| `BucketPrint.Render` | storageapi/src/vespa/storageapi/buckets/bucketinfo.cpp:89-111 | the output always begins with `BucketInfo(` and ends with `)`; for an invalid info it is exactly `BucketInfo(invalid)` |
| `BucketPrint.ParseRender` | storageapi/src/vespa/storageapi/buckets/bucketinfo.cpp:92-110 | the printed line can be read back: it shows checksum, docCount and totDocSize; metaCount and usedFileSize appear exactly when totDocSize differs from usedFileSize; ready and active always appear as `true`/`false`; the timestamp appears exactly when it is not 0 |
| `BucketPrint.RenderFromTotals` | storageapi/src/vespa/storageapi/buckets/bucketinfo.cpp:97-106 | an info from the three-argument constructor never prints the metaCount/usedFileSize or the last-modified segment |
| `BucketPrint.EqualInfosPrintDifferently` | storageapi/src/vespa/storageapi/buckets/bucketinfo.cpp:104-106 | for every pair of valid infos equal under `==`, `print` writes the same text exactly when their timestamps agree, because it shows the timestamp that `==` ignores |
| `BucketPrint.EqualInfosPrintDifferentlyExample` | storageapi/src/vespa/storageapi/buckets/bucketinfo.cpp:104-106 | a concrete pair built by the three-argument constructor, differing only in the timestamp, is equal under `==` yet prints differently |
| `BucketPrint.PrintCounts` | storageapi/src/vespa/storageapi/buckets/bucketinfo.cpp:94-96 | appends the checksum in hexadecimal and the two counts in decimal, and leaves the stream in decimal mode |
| `BucketPrint.PrintSizes` | storageapi/src/vespa/storageapi/buckets/bucketinfo.cpp:97-100 | appends the metaCount/usedFileSize segment, or nothing when the sizes agree |
| `BucketPrint.PrintFlags` | storageapi/src/vespa/storageapi/buckets/bucketinfo.cpp:101-106 | appends both flags and, when set, the timestamp |
| `BucketPrint.Print` | storageapi/src/vespa/storageapi/buckets/bucketinfo.cpp:89-111 | appends exactly `Render` to whatever the stream held; a valid info leaves the stream in decimal mode, an invalid one leaves its mode unchanged |
| `BucketXml.Attributes` | storageapi/src/vespa/storageapi/buckets/bucketinfo.cpp:117-124 | eight attributes named checksum, docs, size, metacount, usedfilesize, ready, active, lastmodified, in that order; only the checksum is hexadecimal |
| `BucketXml.FromAttributesBack` | storageapi/src/vespa/storageapi/buckets/bucketinfo.cpp:117-124 | each attribute carries its field: looking the attributes up by name gives back the whole info, timestamp included |
| `BucketXml.EqualsIffLeadingAttributesAgree` | storageapi/src/vespa/storageapi/buckets/bucketinfo.cpp:117-123 | two infos are equal under `==` exactly when their first seven attributes agree |
| `BucketXml.PrintXml` | storageapi/src/vespa/storageapi/buckets/bucketinfo.cpp:113-125 | adds exactly the eight attributes, in order, after the ones already on the element |

## Left out

- The copy constructor, copy assignment and destructor (bucketinfo.cpp:72-74) only copy or drop a value; a Dafny datatype value already behaves that way.
- `valid()`: its definition is in `bucketinfo.h`, which is not part of this model; it is a parameter that the lemmas quantify over.
- The `PrintProperties` argument of `print` is not used by its body and is not modelled.
- `Timestamp` is declared in a header that is not part of this model. It is modelled as an unbounded natural number written in decimal.
- Output streams: only the text written and the hex/dec mode of `vespalib::asciistream` are modelled; its other formatting state and its buffer management are not. Hexadecimal digits are assumed to be lower case.
- How `XmlAttribute` spells a value (hexadecimal prefix, boolean words, escaping) belongs to the XML stream library; the model keeps each value as a number with a hexadecimal marker or as a boolean.
- The `uint32_t` counters are a subtype of naturals below 2^32; nothing in this file does arithmetic on them, so no wrap-around arises.
