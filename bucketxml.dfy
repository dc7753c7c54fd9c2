/**
 * The XML form of a bucket's metadata: `printXml` adds eight attributes, in a
 * fixed order, to the element being written. How an attribute's value is
 * spelled out in XML belongs to the XML stream and is kept abstract here.
 */
module BucketXml {
  import opened Options
  import opened Buckets

  /** A value handed to the XML stream: an unsigned number (to be written in
      hexadecimal when `hex` is set) or a boolean. */
  datatype AttributeValue = Unsigned(n: nat, hex: bool) | Boolean(b: bool)

  datatype XmlAttribute = XmlAttribute(name: string, value: AttributeValue)

  const AttributeNames: seq<string> :=
    ["checksum", "docs", "size", "metacount", "usedfilesize", "ready", "active", "lastmodified"]

  /** The attributes `printXml` writes for `info`, in the order it writes them. */
  function Attributes(info: BucketInfo): (attrs: seq<XmlAttribute>)
    ensures |attrs| == |AttributeNames|
    ensures forall i :: 0 <= i < |attrs| ==> attrs[i].name == AttributeNames[i]
    ensures forall i :: 0 <= i < |attrs| ==>
      (attrs[i].value.Unsigned? && attrs[i].value.hex <==> i == 0)
  {
    [ XmlAttribute("checksum", Unsigned(info.checksum, true)),
      XmlAttribute("docs", Unsigned(info.docCount, false)),
      XmlAttribute("size", Unsigned(info.totDocSize, false)),
      XmlAttribute("metacount", Unsigned(info.metaCount, false)),
      XmlAttribute("usedfilesize", Unsigned(info.usedFileSize, false)),
      XmlAttribute("ready", Boolean(info.ready)),
      XmlAttribute("active", Boolean(info.active)),
      XmlAttribute("lastmodified", Unsigned(info.lastModified, false)) ]
  }

  /** The value of the first attribute called `name`, as a reader of the element sees it. */
  function Lookup(attrs: seq<XmlAttribute>, name: string): (r: Option<AttributeValue>)
    ensures r.None? <==> forall i :: 0 <= i < |attrs| ==> attrs[i].name != name
  {
    if attrs == [] then None
    else if attrs[0].name == name then Some(attrs[0].value)
    else Lookup(attrs[1..], name)
  }

  lemma {:induction false} LookupFirst(attrs: seq<XmlAttribute>, i: nat)
    requires i < |attrs|
    requires forall j :: 0 <= j < i ==> attrs[j].name != attrs[i].name
    ensures Lookup(attrs, attrs[i].name) == Some(attrs[i].value)
  {
    if i > 0 {
      assert attrs[1..][i - 1] == attrs[i];
      LookupFirst(attrs[1..], i - 1);
    }
  }

  function CounterAttribute(attrs: seq<XmlAttribute>, name: string): Option<U32> {
    match Lookup(attrs, name)
    case Some(Unsigned(n, _)) => if n < 0x1_0000_0000 then Some(n) else None
    case _ => None
  }

  function FlagAttribute(attrs: seq<XmlAttribute>, name: string): Option<bool> {
    match Lookup(attrs, name)
    case Some(Boolean(b)) => Some(b)
    case _ => None
  }

  function StampAttribute(attrs: seq<XmlAttribute>, name: string): Option<Timestamp> {
    match Lookup(attrs, name)
    case Some(Unsigned(n, _)) => Some(n)
    case _ => None
  }

  /** Reads the five counters, by name, into an info built by the five-counter constructor. */
  function CountersFrom(attrs: seq<XmlAttribute>): Option<BucketInfo> {
    var checksum :- CounterAttribute(attrs, "checksum");
    var docCount :- CounterAttribute(attrs, "docs");
    var totDocSize :- CounterAttribute(attrs, "size");
    var metaCount :- CounterAttribute(attrs, "metacount");
    var usedFileSize :- CounterAttribute(attrs, "usedfilesize");
    Some(FromCounts(checksum, docCount, totDocSize, metaCount, usedFileSize))
  }

  /** Rebuilds the info from the attributes of an element, looking each one up by name. */
  function FromAttributes(attrs: seq<XmlAttribute>): Option<BucketInfo> {
    var counters :- CountersFrom(attrs);
    var ready :- FlagAttribute(attrs, "ready");
    var active :- FlagAttribute(attrs, "active");
    var lastModified :- StampAttribute(attrs, "lastmodified");
    Some(counters.(ready := ready, active := active, lastModified := lastModified))
  }

  /** No attribute name is written twice. */
  lemma NamesDistinct()
    ensures forall i, j :: 0 <= i < j < |AttributeNames| ==> AttributeNames[i] != AttributeNames[j]
  {
  }

  lemma AttributeFound(info: BucketInfo, i: nat)
    requires i < |AttributeNames|
    ensures Lookup(Attributes(info), AttributeNames[i]) == Some(Attributes(info)[i].value)
  {
    NamesDistinct();
    LookupFirst(Attributes(info), i);
  }

  lemma CountersFromBack(info: BucketInfo)
    ensures CountersFrom(Attributes(info)) == Some(FromCounts(info.checksum, info.docCount,
      info.totDocSize, info.metaCount, info.usedFileSize))
  {
    var attrs := Attributes(info);
    assert CounterAttribute(attrs, "checksum") == Some(info.checksum) by {
      AttributeFound(info, 0);
    }
    assert CounterAttribute(attrs, "docs") == Some(info.docCount) by {
      AttributeFound(info, 1);
    }
    assert CounterAttribute(attrs, "size") == Some(info.totDocSize) by {
      AttributeFound(info, 2);
    }
    assert CounterAttribute(attrs, "metacount") == Some(info.metaCount) by {
      AttributeFound(info, 3);
    }
    assert CounterAttribute(attrs, "usedfilesize") == Some(info.usedFileSize) by {
      AttributeFound(info, 4);
    }
  }

  /** The attributes carry every field, the timestamp included: the info can be read back. */
  lemma FromAttributesBack(info: BucketInfo)
    ensures FromAttributes(Attributes(info)) == Some(info)
  {
    var attrs := Attributes(info);
    CountersFromBack(info);
    assert FlagAttribute(attrs, "ready") == Some(info.ready) by {
      AttributeFound(info, 5);
    }
    assert FlagAttribute(attrs, "active") == Some(info.active) by {
      AttributeFound(info, 6);
    }
    assert StampAttribute(attrs, "lastmodified") == Some(info.lastModified) by {
      AttributeFound(info, 7);
    }
  }

  /** Two infos are equal exactly when their first seven attributes agree: only the
      last one, the timestamp, is left out of the comparison. */
  lemma EqualsIffLeadingAttributesAgree(a: BucketInfo, b: BucketInfo)
    ensures Equals(a, b) <==> Attributes(a)[..7] == Attributes(b)[..7]
  {
    var x, y := Attributes(a), Attributes(b);
    if x[..7] == y[..7] {
      assert x[0] == x[..7][0] && y[0] == y[..7][0];
      assert x[1] == x[..7][1] && y[1] == y[..7][1];
      assert x[2] == x[..7][2] && y[2] == y[..7][2];
      assert x[3] == x[..7][3] && y[3] == y[..7][3];
      assert x[4] == x[..7][4] && y[4] == y[..7][4];
      assert x[5] == x[..7][5] && y[5] == y[..7][5];
      assert x[6] == x[..7][6] && y[6] == y[..7][6];
    }
  }

  /** The element `printXml` adds attributes to. */
  class XmlOutputStream {
    var attributes: seq<XmlAttribute>

    constructor ()
      ensures attributes == []
    {
      attributes := [];
    }

    method Add(attribute: XmlAttribute)
      modifies this
      ensures attributes == old(attributes) + [attribute]
    {
      attributes := attributes + [attribute];
    }
  }

  /** `printXml`: adds the eight attributes one after the other. */
  method PrintXml(info: BucketInfo, xos: XmlOutputStream)
    modifies xos
    ensures xos.attributes == old(xos.attributes) + Attributes(info)
  {
    xos.Add(XmlAttribute("checksum", Unsigned(info.checksum, true)));
    xos.Add(XmlAttribute("docs", Unsigned(info.docCount, false)));
    xos.Add(XmlAttribute("size", Unsigned(info.totDocSize, false)));
    xos.Add(XmlAttribute("metacount", Unsigned(info.metaCount, false)));
    xos.Add(XmlAttribute("usedfilesize", Unsigned(info.usedFileSize, false)));
    xos.Add(XmlAttribute("ready", Boolean(info.ready)));
    xos.Add(XmlAttribute("active", Boolean(info.active)));
    xos.Add(XmlAttribute("lastmodified", Unsigned(info.lastModified, false)));
  }
}
