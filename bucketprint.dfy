/**
 * The human-readable form of a bucket's metadata, as `print` writes it to an
 * ASCII stream, and a reader for that form.
 */
module BucketPrint {
  import opened Options
  import opened Numerals
  import opened Buckets

  const Open: string := "BucketInfo("

  function BoolText(b: bool): string {
    if b then "true" else "false"
  }

  /** The checksum in hexadecimal, then the document count and total size in decimal. */
  function CountsText(info: BucketInfo): string {
    "crc 0x" + (Numeral(info.checksum, 16)
    + (", docCount " + (Numeral(info.docCount, 10)
    + (", totDocSize " + Numeral(info.totDocSize, 10)))))
  }

  /** The meta count and used file size, written only when the total document
      size and the used file size differ. */
  function SizesText(info: BucketInfo): string {
    if info.totDocSize != info.usedFileSize then
      ", metaCount " + (Numeral(info.metaCount, 10)
      + (", usedFileSize " + Numeral(info.usedFileSize, 10)))
    else ""
  }

  /** The timestamp, written only when one is recorded. */
  function LastModifiedText(info: BucketInfo): string {
    if info.lastModified != 0 then ", last modified " + Numeral(info.lastModified, 10) else ""
  }

  /** The two flags, always written, then the timestamp segment. */
  function FlagsText(info: BucketInfo): string {
    ", ready " + (BoolText(info.ready)
    + (", active " + (BoolText(info.active) + LastModifiedText(info))))
  }

  /** What is written between the parentheses for a valid info. */
  function Fields(info: BucketInfo): string {
    CountsText(info) + (SizesText(info) + FlagsText(info))
  }

  /**
   * What `print` appends to its stream. `valid` stands for the info's own
   * validity test, whose definition is not part of this model.
   */
  function Render(info: BucketInfo, valid: BucketInfo -> bool): (s: string)
    ensures |s| > |Open| && s[..|Open|] == Open && s[|s| - 1] == ')'
    ensures !valid(info) ==> s == "BucketInfo(invalid)"
  {
    Open + ((if valid(info) then Fields(info) else "invalid") + ")")
  }

  // Reading the printed form back.

  datatype Sizes = Sizes(metaCount: nat, usedFileSize: nat)

  /** What a printed line tells about a bucket. */
  datatype Shown =
    | ShownInvalid
    | ShownValid(checksum: nat, docCount: nat, totDocSize: nat, sizes: Option<Sizes>,
                 ready: bool, active: bool, lastModified: Option<nat>)

  function Expect(literal: string, s: string): (r: Option<string>)
    ensures r.Some? <==> literal <= s
    ensures r.Some? ==> s == literal + r.value
  {
    if literal <= s then Some(s[|literal|..]) else None
  }

  datatype FlagReading = FlagReading(value: bool, rest: string)

  function ReadBool(s: string): Option<FlagReading> {
    match Expect("true", s)
    case Some(rest) => Some(FlagReading(true, rest))
    case None =>
      var rest :- Expect("false", s);
      Some(FlagReading(false, rest))
  }

  datatype Counts = Counts(checksum: nat, docCount: nat, totDocSize: nat, rest: string)

  function ReadCounts(s: string): Option<Counts> {
    var r0 :- Expect("crc 0x", s);
    var crc :- ReadNumeral(r0, 16);
    var r1 :- Expect(", docCount ", crc.rest);
    var docs :- ReadNumeral(r1, 10);
    var r2 :- Expect(", totDocSize ", docs.rest);
    var size :- ReadNumeral(r2, 10);
    Some(Counts(crc.value, docs.value, size.value, size.rest))
  }

  datatype SizesReading = SizesReading(sizes: Option<Sizes>, rest: string)

  function ReadSizes(s: string): Option<SizesReading> {
    match Expect(", metaCount ", s)
    case None => Some(SizesReading(None, s))
    case Some(r0) =>
      var meta :- ReadNumeral(r0, 10);
      var r1 :- Expect(", usedFileSize ", meta.rest);
      var used :- ReadNumeral(r1, 10);
      Some(SizesReading(Some(Sizes(meta.value, used.value)), used.rest))
  }

  function ReadLastModified(s: string): Option<Option<nat>> {
    if s == [] then Some(None)
    else
      var r :- Expect(", last modified ", s);
      var t :- ReadNumeral(r, 10);
      if t.rest == [] then Some(Some(t.value)) else None
  }

  datatype Flags = Flags(ready: bool, active: bool, lastModified: Option<nat>)

  function ReadFlags(s: string): Option<Flags> {
    var r0 :- Expect(", ready ", s);
    var ready :- ReadBool(r0);
    var r1 :- Expect(", active ", ready.rest);
    var active :- ReadBool(r1);
    var modified :- ReadLastModified(active.rest);
    Some(Flags(ready.value, active.value, modified))
  }

  function ReadFields(s: string): Option<Shown> {
    var counts :- ReadCounts(s);
    var sizes :- ReadSizes(counts.rest);
    var flags :- ReadFlags(sizes.rest);
    Some(ShownValid(counts.checksum, counts.docCount, counts.totDocSize, sizes.sizes,
                    flags.ready, flags.active, flags.lastModified))
  }

  /** Recovers what a printed line shows; None when `s` is not such a line. */
  function Parse(s: string): Option<Shown> {
    var body :- Expect(Open, s);
    if body == [] || body[|body| - 1] != ')' then None
    else if body[..|body| - 1] == "invalid" then Some(ShownInvalid)
    else ReadFields(body[..|body| - 1])
  }

  lemma ExpectBack(literal: string, rest: string)
    ensures Expect(literal, literal + rest) == Some(rest)
  {
    assert (literal + rest)[..|literal|] == literal;
    assert (literal + rest)[|literal|..] == rest;
  }

  lemma ExpectMismatch(literal: string, s: string, k: nat)
    requires k < |literal| && k < |s| && literal[k] != s[k]
    ensures Expect(literal, s) == None
  {
  }

  /** Writing `piece` and then `rest` after `t` writes `piece + rest` after `t`. */
  lemma Appended(t: string, piece: string, rest: string)
    ensures (t + piece) + rest == t + (piece + rest)
  {
  }

  lemma ReadBoolBack(b: bool, rest: string)
    ensures ReadBool(BoolText(b) + rest) == Some(FlagReading(b, rest))
  {
    ExpectBack(BoolText(b), rest);
    if !b {
      ExpectMismatch("true", BoolText(b) + rest, 0);
    }
  }

  /** Reading the three counters back from their segment, followed by anything that is not a digit. */
  lemma ReadCountsShown(checksum: nat, docCount: nat, totDocSize: nat, rest: string)
    requires rest == [] || !IsDigit(rest[0], 10)
    requires rest == [] || !IsDigit(rest[0], 16)
    ensures ReadCounts("crc 0x" + (Numeral(checksum, 16)
              + (", docCount " + (Numeral(docCount, 10)
              + (", totDocSize " + (Numeral(totDocSize, 10) + rest))))))
         == Some(Counts(checksum, docCount, totDocSize, rest))
  {
    var afterDocs := ", totDocSize " + (Numeral(totDocSize, 10) + rest);
    var afterCrc := ", docCount " + (Numeral(docCount, 10) + afterDocs);
    ExpectBack("crc 0x", Numeral(checksum, 16) + afterCrc);
    ReadNumeralBack(checksum, 16, afterCrc);
    ExpectBack(", docCount ", Numeral(docCount, 10) + afterDocs);
    ReadNumeralBack(docCount, 10, afterDocs);
    ExpectBack(", totDocSize ", Numeral(totDocSize, 10) + rest);
    ReadNumeralBack(totDocSize, 10, rest);
  }

  lemma ReadCountsBack(info: BucketInfo, rest: string)
    requires rest != [] && rest[0] == ','
    ensures ReadCounts(CountsText(info) + rest)
         == Some(Counts(info.checksum, info.docCount, info.totDocSize, rest))
  {
    var crc := Numeral(info.checksum, 16);
    var docs := Numeral(info.docCount, 10);
    var size := Numeral(info.totDocSize, 10);
    assert CountsText(info) + rest
        == "crc 0x" + (crc + (", docCount " + (docs + (", totDocSize " + (size + rest))))) by {
      Appended(", totDocSize ", size, rest);
      Appended(docs, ", totDocSize " + size, rest);
      Appended(", docCount ", docs + (", totDocSize " + size), rest);
      Appended(crc, ", docCount " + (docs + (", totDocSize " + size)), rest);
      Appended("crc 0x", crc + (", docCount " + (docs + (", totDocSize " + size))), rest);
    }
    ReadCountsShown(info.checksum, info.docCount, info.totDocSize, rest);
  }

  /** Reading the meta count and used file size back from their segment. */
  lemma ReadSizesShown(metaCount: nat, usedFileSize: nat, rest: string)
    requires rest == [] || !IsDigit(rest[0], 10)
    ensures ReadSizes(", metaCount " + (Numeral(metaCount, 10)
              + (", usedFileSize " + (Numeral(usedFileSize, 10) + rest))))
         == Some(SizesReading(Some(Sizes(metaCount, usedFileSize)), rest))
  {
    var afterMeta := ", usedFileSize " + (Numeral(usedFileSize, 10) + rest);
    ExpectBack(", metaCount ", Numeral(metaCount, 10) + afterMeta);
    ReadNumeralBack(metaCount, 10, afterMeta);
    ExpectBack(", usedFileSize ", Numeral(usedFileSize, 10) + rest);
    ReadNumeralBack(usedFileSize, 10, rest);
  }

  lemma ReadSizesBack(info: BucketInfo, rest: string)
    requires |rest| > 2 && rest[..3] == ", r"
    ensures ReadSizes(SizesText(info) + rest)
         == Some(SizesReading(
              if info.totDocSize != info.usedFileSize
              then Some(Sizes(info.metaCount, info.usedFileSize)) else None,
              rest))
  {
    if info.totDocSize != info.usedFileSize {
      var meta := Numeral(info.metaCount, 10);
      var used := Numeral(info.usedFileSize, 10);
      assert SizesText(info) + rest
          == ", metaCount " + (meta + (", usedFileSize " + (used + rest))) by {
        Appended(", usedFileSize ", used, rest);
        Appended(meta, ", usedFileSize " + used, rest);
        Appended(", metaCount ", meta + (", usedFileSize " + used), rest);
      }
      assert rest[0] == ',';
      ReadSizesShown(info.metaCount, info.usedFileSize, rest);
    } else {
      assert SizesText(info) + rest == rest;
      ExpectMismatch(", metaCount ", rest, 2);
    }
  }

  lemma ReadLastModifiedBack(info: BucketInfo)
    ensures ReadLastModified(LastModifiedText(info))
         == Some(if info.lastModified != 0 then Some(info.lastModified) else None)
  {
    if info.lastModified != 0 {
      var digits := Numeral(info.lastModified, 10);
      assert digits + [] == digits;
      ExpectBack(", last modified ", digits);
      ReadNumeralBack(info.lastModified, 10, []);
    }
  }

  lemma ReadFlagsBack(info: BucketInfo)
    ensures ReadFlags(FlagsText(info)) == Some(Flags(info.ready, info.active,
      if info.lastModified != 0 then Some(info.lastModified) else None))
  {
    var stamp := LastModifiedText(info);
    var afterReady := ", active " + (BoolText(info.active) + stamp);
    ExpectBack(", ready ", BoolText(info.ready) + afterReady);
    ReadBoolBack(info.ready, afterReady);
    ExpectBack(", active ", BoolText(info.active) + stamp);
    ReadBoolBack(info.active, stamp);
    ReadLastModifiedBack(info);
  }

  lemma ReadFieldsBack(info: BucketInfo)
    ensures ReadFields(Fields(info)) == Some(ShownValid(
      info.checksum, info.docCount, info.totDocSize,
      if info.totDocSize != info.usedFileSize
      then Some(Sizes(info.metaCount, info.usedFileSize)) else None,
      info.ready, info.active,
      if info.lastModified != 0 then Some(info.lastModified) else None))
  {
    var tail := SizesText(info) + FlagsText(info);
    var sizes := if info.totDocSize != info.usedFileSize
                 then Some(Sizes(info.metaCount, info.usedFileSize)) else None;
    assert ReadCounts(Fields(info))
        == Some(Counts(info.checksum, info.docCount, info.totDocSize, tail)) by {
      assert tail[0] == ',' by {
        if info.totDocSize == info.usedFileSize {
          assert tail == FlagsText(info);
        }
      }
      ReadCountsBack(info, tail);
    }
    assert ReadSizes(tail) == Some(SizesReading(sizes, FlagsText(info))) by {
      assert FlagsText(info)[..3] == ", r";
      ReadSizesBack(info, FlagsText(info));
    }
    ReadFlagsBack(info);
    ReadFieldsSteps(Fields(info), Counts(info.checksum, info.docCount, info.totDocSize, tail),
                    SizesReading(sizes, FlagsText(info)),
                    Flags(info.ready, info.active,
                          if info.lastModified != 0 then Some(info.lastModified) else None));
  }

  /** ReadFields chains its three readers, each starting where the last one stopped. */
  lemma ReadFieldsSteps(s: string, counts: Counts, sizes: SizesReading, flags: Flags)
    requires ReadCounts(s) == Some(counts)
    requires ReadSizes(counts.rest) == Some(sizes)
    requires ReadFlags(sizes.rest) == Some(flags)
    ensures ReadFields(s) == Some(ShownValid(counts.checksum, counts.docCount, counts.totDocSize,
                                             sizes.sizes, flags.ready, flags.active,
                                             flags.lastModified))
  {
  }

  /**
   * The printed line determines the fields it shows: the meta count and used
   * file size are present exactly when the total size and the used file size
   * differ, both flags are always there, and the timestamp is present exactly
   * when it is not zero. An info that is not valid shows nothing but that.
   */
  lemma {:induction false} ParseRender(info: BucketInfo, valid: BucketInfo -> bool)
    ensures !valid(info) ==> Parse(Render(info, valid)) == Some(ShownInvalid)
    ensures valid(info) ==> Parse(Render(info, valid)) == Some(ShownValid(
      info.checksum, info.docCount, info.totDocSize,
      if info.totDocSize != info.usedFileSize
      then Some(Sizes(info.metaCount, info.usedFileSize)) else None,
      info.ready, info.active,
      if info.lastModified != 0 then Some(info.lastModified) else None))
  {
    if valid(info) {
      var inner := Fields(info);
      assert inner[0] == 'c' by {
        assert CountsText(info)[0] == 'c';
      }
      ParseEnclosed(inner);
      ReadFieldsBack(info);
    } else {
      ParseEnclosed("invalid");
    }
  }

  lemma ParseEnclosed(inner: string)
    ensures Parse(Open + (inner + ")"))
         == if inner == "invalid" then Some(ShownInvalid) else ReadFields(inner)
  {
    var body := inner + ")";
    ExpectBack(Open, body);
    assert body[..|body| - 1] == inner;
  }

  /**
   * An info built without explicit meta count and used file size, or without a
   * timestamp, never shows them: the constructors' defaults switch those
   * segments off.
   */
  lemma RenderFromTotals(checksum: U32, docCount: U32, totDocSize: U32,
                         valid: BucketInfo -> bool)
    requires valid(FromTotals(checksum, docCount, totDocSize))
    ensures Parse(Render(FromTotals(checksum, docCount, totDocSize), valid))
         == Some(ShownValid(checksum, docCount, totDocSize, None, false, false, None))
  {
    ParseRender(FromTotals(checksum, docCount, totDocSize), valid);
  }

  /**
   * `==` ignores the timestamp, which `print` shows: two valid infos that are
   * equal print the same text exactly when their timestamps agree.
   */
  lemma {:induction false} EqualInfosPrintDifferently(a: BucketInfo, b: BucketInfo,
                                                     valid: BucketInfo -> bool)
    requires valid(a) && valid(b) && Equals(a, b)
    ensures Render(a, valid) == Render(b, valid) <==> a.lastModified == b.lastModified
  {
    ParseRender(a, valid);
    ParseRender(b, valid);
    if a.lastModified == b.lastModified {
      EqualsWithSameTimestamp(a, b);
    }
  }

  /** A concrete pair: equal under `==`, printed differently. */
  lemma EqualInfosPrintDifferentlyExample(valid: BucketInfo -> bool)
    requires valid(FromTotals(0, 1, 1)) && valid(FromTotals(0, 1, 1).(lastModified := 1))
    ensures Equals(FromTotals(0, 1, 1), FromTotals(0, 1, 1).(lastModified := 1))
    ensures Render(FromTotals(0, 1, 1), valid) != Render(FromTotals(0, 1, 1).(lastModified := 1), valid)
  {
    EqualInfosPrintDifferently(FromTotals(0, 1, 1), FromTotals(0, 1, 1).(lastModified := 1), valid);
  }

  // The stream `print` writes to.

  /**
   * The part of an ASCII output stream that `print` uses: the text written
   * so far, and the base in which numbers are currently written (switched by
   * the `hex` and `dec` manipulators).
   */
  class AsciiStream {
    var text: string
    var base: nat

    ghost predicate Valid()
      reads this
    {
      IsBase(base)
    }

    constructor ()
      ensures Valid() && text == [] && base == 10
    {
      text := [];
      base := 10;
    }

    method Write(s: string)
      modifies this
      ensures text == old(text) + s && base == old(base)
    {
      text := text + s;
    }

    method WriteNumber(n: nat)
      requires Valid()
      modifies this
      ensures base == old(base) && text == old(text) + Numeral(n, base)
    {
      text := text + Numeral(n, base);
    }

    method Hex()
      modifies this
      ensures Valid() && text == old(text) && base == 16
    {
      base := 16;
    }

    method Dec()
      modifies this
      ensures Valid() && text == old(text) && base == 10
    {
      base := 10;
    }
  }

  method PrintCounts(info: BucketInfo, out: AsciiStream)
    modifies out
    ensures out.Valid() && out.base == 10
    ensures out.text == old(out.text) + CountsText(info)
  {
    ghost var crc := Numeral(info.checksum, 16);
    ghost var docs := Numeral(info.docCount, 10);
    ghost var size := Numeral(info.totDocSize, 10);
    ghost var t0 := out.text;
    out.Write("crc 0x");
    out.Hex();
    ghost var t1 := out.text;
    out.WriteNumber(info.checksum);
    out.Dec();
    ghost var t2 := out.text;
    out.Write(", docCount ");
    ghost var t3 := out.text;
    out.WriteNumber(info.docCount);
    ghost var t4 := out.text;
    out.Write(", totDocSize ");
    out.WriteNumber(info.totDocSize);
    Appended(t4, ", totDocSize ", size);
    Appended(t3, docs, ", totDocSize " + size);
    Appended(t2, ", docCount ", docs + (", totDocSize " + size));
    Appended(t1, crc, ", docCount " + (docs + (", totDocSize " + size)));
    Appended(t0, "crc 0x", crc + (", docCount " + (docs + (", totDocSize " + size))));
  }

  method PrintSizes(info: BucketInfo, out: AsciiStream)
    requires out.Valid() && out.base == 10
    modifies out
    ensures out.Valid() && out.base == 10
    ensures out.text == old(out.text) + SizesText(info)
  {
    if info.totDocSize != info.usedFileSize {
      ghost var meta := Numeral(info.metaCount, 10);
      ghost var used := Numeral(info.usedFileSize, 10);
      ghost var t0 := out.text;
      out.Write(", metaCount ");
      ghost var t1 := out.text;
      out.WriteNumber(info.metaCount);
      ghost var t2 := out.text;
      out.Write(", usedFileSize ");
      out.WriteNumber(info.usedFileSize);
      Appended(t2, ", usedFileSize ", used);
      Appended(t1, meta, ", usedFileSize " + used);
      Appended(t0, ", metaCount ", meta + (", usedFileSize " + used));
    } else {
      assert out.text + SizesText(info) == out.text;
    }
  }

  method PrintFlags(info: BucketInfo, out: AsciiStream)
    requires out.Valid() && out.base == 10
    modifies out
    ensures out.Valid() && out.base == 10
    ensures out.text == old(out.text) + FlagsText(info)
  {
    ghost var stamp := LastModifiedText(info);
    ghost var t0 := out.text;
    out.Write(", ready ");
    ghost var t1 := out.text;
    out.Write(if info.ready then "true" else "false");
    ghost var t2 := out.text;
    out.Write(", active ");
    ghost var t3 := out.text;
    out.Write(if info.active then "true" else "false");
    ghost var t4 := out.text;
    if info.lastModified != 0 {
      out.Write(", last modified ");
      out.WriteNumber(info.lastModified);
      Appended(t4, ", last modified ", Numeral(info.lastModified, 10));
    } else {
      assert t4 + stamp == t4;
    }
    Appended(t3, BoolText(info.active), stamp);
    Appended(t2, ", active ", BoolText(info.active) + stamp);
    Appended(t1, BoolText(info.ready), ", active " + (BoolText(info.active) + stamp));
    Appended(t0, ", ready ", BoolText(info.ready) + (", active " + (BoolText(info.active) + stamp)));
  }

  /**
   * `print`: appends the rendering piece by piece. A valid info leaves the
   * stream in decimal mode, whatever mode it was in before.
   */
  method Print(info: BucketInfo, valid: BucketInfo -> bool, out: AsciiStream)
    requires out.Valid()
    modifies out
    ensures out.Valid()
    ensures out.text == old(out.text) + Render(info, valid)
    ensures out.base == if valid(info) then 10 else old(out.base)
  {
    ghost var t0 := out.text;
    out.Write(Open);
    ghost var t1 := out.text;
    if valid(info) {
      PrintCounts(info, out);
      ghost var t2 := out.text;
      PrintSizes(info, out);
      PrintFlags(info, out);
      Appended(t2, SizesText(info), FlagsText(info));
      Appended(t1, CountsText(info), SizesText(info) + FlagsText(info));
    } else {
      out.Write("invalid");
    }
    ghost var inner := if valid(info) then Fields(info) else "invalid";
    assert out.text == t1 + inner;
    out.Write(")");
    Appended(t1, inner, ")");
    Appended(t0, Open, inner + ")");
  }
}
