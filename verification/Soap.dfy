/** The SOAP body of AddPortMapping, and the reader of port mapping entries. */
module Soap {
  import opened Wrappers
  import opened Text
  import opened PortMappings

  const SOAP_NAMESPACE := "urn:schemas-upnp-org:" + "service:" + "WANIPConnection:1"

  // ----- Writing -----

  function Tag(name: string): string {
    "<" + name + ">"
  }

  /** One line of a request body. */
  function Line(name: string, value: string): string {
    "  " + (Tag(name) + (value + (Tag("/" + name) + "\n")))
  }

  function Lines(fields: seq<(string, string)>): string {
    if fields == [] then "" else Line(fields[0].0, fields[0].1) + Lines(fields[1..])
  }

  /** The arguments of AddPortMapping, in the order they are written. */
  function FieldNames(): (names: seq<string>)
    ensures |names| == 8
  {
    ["NewRemoteHost", "NewExternalPort", "NewProtocol", "NewInternalPort", "NewInternalClient", "NewEnabled",
     "NewPortMappingDescription", "NewLeaseDuration"]
  }

  function AddFields(externalPort: u16, internalHost: string, internalPort: u16, protocol: string,
                     description: string, leaseDuration: u32): (fields: seq<(string, string)>)
    ensures |fields| == 8
    ensures forall k | 0 <= k < 8 :: fields[k].0 == FieldNames()[k]
  {
    var names := FieldNames();
    [(names[0], ""),
     (names[1], Decimal(externalPort)),
     (names[2], protocol),
     (names[3], Decimal(internalPort)),
     (names[4], internalHost),
     (names[5], "1"),
     (names[6], description),
     (names[7], Decimal(leaseDuration))]
  }

  /** The opening tag of the action, without its brackets. */
  function ActionTag(): string {
    "u:AddPortMapping xmlns:u=" + "\"" + SOAP_NAMESPACE + "\""
  }

  function AddBody(externalPort: u16, internalHost: string, internalPort: u16, protocol: string,
                   description: string, leaseDuration: u32): string {
    var fields := AddFields(externalPort, internalHost, internalPort, protocol, description, leaseDuration);
    Tag(ActionTag()) + ("\n" + (Lines(fields) + Tag("/u:AddPortMapping")))
  }

  // ----- Reading -----

  datatype XmlError = TagNotFound | InvalidNumber | SlicePanic

  /** The text between the first opening and the first closing tag; slicing backwards panics. */
  function ExtractXmlValue(xml: string, name: string): Result<string, XmlError> {
    Between(xml, Find(xml, Tag(name)), Find(xml, Tag("/" + name)), |Tag(name)|)
  }

  function Between(xml: string, open: Option<nat>, close: Option<nat>, skip: nat): Result<string, XmlError>
    requires close.Some? ==> close.value <= |xml|
  {
    match (open, close)
    case (Some(start), Some(end)) =>
      if start + skip <= end then Success(xml[start + skip..end]) else Failure(SlicePanic)
    case _ => Failure(TagNotFound)
  }

  /** `unwrap_or` on an extracted value: a missing tag has a default, a panic does not. */
  function OrDefault(value: Result<string, XmlError>, default: string): Result<string, XmlError> {
    if value == Failure(TagNotFound) then Success(default) else value
  }

  function Number(text: string, max: nat): Result<nat, XmlError> {
    match ParseUnsigned(text, max)
    case Some(n) => Success(n)
    case None => Failure(InvalidNumber)
  }

  datatype PortMappingEntry = PortMappingEntry(
    externalPort: nat,
    protocol: string,
    internalClient: string,
    internalPort: nat,
    description: string,
    enabled: bool,
    leaseDuration: nat)

  /** An entry, from whatever finds the value of a tag. */
  function EntryFrom(value: string -> Result<string, XmlError>): Result<PortMappingEntry, XmlError> {
    var externalText :- value("NewExternalPort");
    var externalPort :- Number(externalText, U16_MAX);
    var protocol :- value("NewProtocol");
    var internalClient :- value("NewInternalClient");
    var internalText :- value("NewInternalPort");
    var internalPort :- Number(internalText, U16_MAX);
    var description :- OrDefault(value("NewPortMappingDescription"), "");
    var enabled :- OrDefault(value("NewEnabled"), "");
    var lease :- OrDefault(value("NewLeaseDuration"), "");
    var leaseDuration := match Number(lease, U32_MAX) case Success(n) => n case Failure(_) => 0;
    Success(PortMappingEntry(externalPort, protocol, internalClient, internalPort, description, enabled == "1",
                             leaseDuration))
  }

  function ParsePortMappingEntry(xml: string): Result<PortMappingEntry, XmlError> {
    EntryFrom(name => ExtractXmlValue(xml, name))
  }

  // ----- Searching for a tag -----

  /** No tag starts in text without `<`. */
  lemma TextIsSkipped(text: string, b: string, name: string)
    requires '<' !in text
    ensures Find(text + b, Tag(name)) == Shift(|text|, Find(b, Tag(name)))
  {
    forall i | 0 <= i < |text|
      ensures !(Tag(name) <= (text + b)[i..])
    {
      assert (text + b)[i..][0] == text[i];
      assert Tag(name)[0] == '<';
    }
    FindSkips(text, b, Tag(name));
  }

  predicate IsTagName(name: string) {
    '<' !in name && '>' !in name
  }

  lemma TagsDiffer(name: string, other: string, b: string)
    requires IsTagName(name) && IsTagName(other) && Tag(name) <= Tag(other) + b
    ensures name == other
  {
    var text := Tag(other) + b;
    assert text[|name| + 1] == Tag(name)[|name| + 1] == '>';
    assert text[|other| + 1] == '>';
    assert forall i | 0 <= i < |name| :: text[i + 1] == name[i];
    assert forall i | 0 <= i < |other| :: text[i + 1] == other[i];
    assert |name| == |other|;
  }

  lemma OtherTagIsSkipped(other: string, b: string, name: string)
    requires IsTagName(name) && IsTagName(other) && name != other
    ensures Find(Tag(other) + b, Tag(name)) == Shift(|Tag(other)|, Find(b, Tag(name)))
  {
    var text := Tag(other) + b;
    forall i | 0 <= i < |Tag(other)|
      ensures !(Tag(name) <= text[i..])
    {
      if i == 0 {
        assert text[0..] == text;
        if Tag(name) <= text {
          TagsDiffer(name, other, b);
        }
      } else {
        assert text[i..][0] == Tag(other)[i] != '<';
        assert Tag(name)[0] == '<';
      }
    }
    FindSkips(Tag(other), b, Tag(name));
  }

  // ----- Searching a request body -----

  predicate IsFieldName(name: string) {
    IsTagName(name) && name != "" && name[0] != '/'
  }

  /** What follows the opening tag of a line, and what follows its value. */
  function AfterValue(field: string, b: string): string {
    Tag("/" + field) + ("\n" + b)
  }

  lemma LineParts(field: string, value: string, b: string)
    ensures Line(field, value) + b == "  " + (Tag(field) + (value + AfterValue(field, b)))
    ensures |Line(field, value)| == 2 + |Tag(field)| + |value| + |Tag("/" + field)| + 1
  {
    var tail := value + (Tag("/" + field) + "\n");
    assert tail + b == value + AfterValue(field, b);
    assert (Tag(field) + tail) + b == Tag(field) + (tail + b);
    assert ("  " + (Tag(field) + tail)) + b == "  " + ((Tag(field) + tail) + b);
  }

  lemma OpeningIsSkipped(field: string, rest: string, name: string)
    requires IsFieldName(field) && IsTagName(name) && name != field
    ensures Find("  " + (Tag(field) + rest), Tag(name)) == Shift(2 + |Tag(field)|, Find(rest, Tag(name)))
  {
    TextIsSkipped("  ", Tag(field) + rest, name);
    OtherTagIsSkipped(field, rest, name);
  }

  lemma ClosingIsSkipped(field: string, b: string, name: string)
    requires IsFieldName(field) && IsTagName(name) && name != "/" + field
    ensures Find(AfterValue(field, b), Tag(name)) == Shift(|Tag("/" + field)| + 1, Find(b, Tag(name)))
  {
    OtherTagIsSkipped("/" + field, "\n" + b, name);
    TextIsSkipped("\n", b, name);
  }

  lemma OtherLineIsSkipped(field: string, value: string, b: string, name: string)
    requires IsFieldName(field) && '<' !in value && IsTagName(name) && name != field && name != "/" + field
    ensures Find(Line(field, value) + b, Tag(name)) == Shift(|Line(field, value)|, Find(b, Tag(name)))
  {
    LineParts(field, value, b);
    OpeningIsSkipped(field, value + AfterValue(field, b), name);
    TextIsSkipped(value, AfterValue(field, b), name);
    ClosingIsSkipped(field, b, name);
  }

  lemma OwnLineIsFound(field: string, value: string, b: string)
    requires IsFieldName(field) && '<' !in value
    ensures Find(Line(field, value) + b, Tag(field)) == Some(2)
    ensures Find(Line(field, value) + b, Tag("/" + field)) == Some(2 + |Tag(field)| + |value|)
  {
    LineParts(field, value, b);
    var afterOpen := value + AfterValue(field, b);
    TextIsSkipped("  ", Tag(field) + afterOpen, field);
    TextIsSkipped("  ", Tag(field) + afterOpen, "/" + field);
    OtherTagIsSkipped(field, afterOpen, "/" + field);
    TextIsSkipped(value, AfterValue(field, b), "/" + field);
    assert Tag(field) <= Tag(field) + afterOpen;
    assert Tag("/" + field) <= AfterValue(field, b);
  }

  lemma BetweenSkips(a: string, b: string, open: Option<nat>, close: Option<nat>, skip: nat)
    requires close.Some? ==> close.value <= |b|
    ensures Between(a + b, Shift(|a|, open), Shift(|a|, close), skip) == Between(b, open, close, skip)
  {
    if open.Some? && close.Some? && open.value + skip <= close.value {
      assert (a + b)[|a| + open.value + skip..|a| + close.value] == b[open.value + skip..close.value];
    }
  }

  /** Skipping the same text for both tags changes nothing about the extracted value. */
  lemma ExtractSkips(a: string, b: string, name: string)
    requires Find(a + b, Tag(name)) == Shift(|a|, Find(b, Tag(name)))
    requires Find(a + b, Tag("/" + name)) == Shift(|a|, Find(b, Tag("/" + name)))
    ensures ExtractXmlValue(a + b, name) == ExtractXmlValue(b, name)
  {
    BetweenSkips(a, b, Find(b, Tag(name)), Find(b, Tag("/" + name)), |Tag(name)|);
  }

  /** The tags of two fields are four different tags. */
  lemma TagsOfOthers(name: string, field: string)
    requires IsFieldName(name) && IsFieldName(field) && name != field
    ensures name != "/" + field && "/" + name != field && "/" + name != "/" + field
  {
    assert ("/" + field)[0] == '/' && ("/" + name)[0] == '/';
    assert ("/" + field)[1..] == field && ("/" + name)[1..] == name;
  }

  ghost predicate WellFormed(fields: seq<(string, string)>) {
    && (forall i | 0 <= i < |fields| :: IsFieldName(fields[i].0) && '<' !in fields[i].1)
    && (forall i, j | 0 <= i < j < |fields| :: fields[i].0 != fields[j].0)
  }

  lemma OwnLineIsExtracted(field: string, value: string, b: string)
    requires IsFieldName(field) && '<' !in value
    ensures ExtractXmlValue(Line(field, value) + b, field) == Success(value)
  {
    OwnLineIsFound(field, value, b);
    LineParts(field, value, b);
    var xml := "  " + (Tag(field) + (value + AfterValue(field, b)));
    assert xml[2..] == Tag(field) + (value + AfterValue(field, b));
    assert xml[2 + |Tag(field)|..] == value + AfterValue(field, b);
    assert xml[2 + |Tag(field)|..2 + |Tag(field)| + |value|] == value;
  }

  /** The line of another field in front does not matter. */
  lemma OtherLineDoesNotMatter(field: string, value: string, rest: string, name: string)
    requires IsFieldName(field) && IsFieldName(name) && name != field && '<' !in value
    ensures ExtractXmlValue(Line(field, value) + rest, name) == ExtractXmlValue(rest, name)
  {
    TagsOfOthers(name, field);
    OtherLineIsSkipped(field, value, rest, name);
    OtherLineIsSkipped(field, value, rest, "/" + name);
    ExtractSkips(Line(field, value), rest, name);
  }

  lemma FirstLine(fields: seq<(string, string)>, b: string)
    requires fields != []
    ensures Lines(fields) + b == Line(fields[0].0, fields[0].1) + (Lines(fields[1..]) + b)
  {
    Associative(Line(fields[0].0, fields[0].1), Lines(fields[1..]), b);
  }

  /** Reading a field of a written body finds its value, whatever text follows the body. */
  lemma {:induction false} FieldIsExtracted(fields: seq<(string, string)>, k: nat, b: string)
    requires WellFormed(fields) && k < |fields|
    ensures ExtractXmlValue(Lines(fields) + b, fields[k].0) == Success(fields[k].1)
  {
    var field, value := fields[0].0, fields[0].1;
    FirstLine(fields, b);
    if k == 0 {
      OwnLineIsExtracted(field, value, Lines(fields[1..]) + b);
    } else {
      assert fields[1..][k - 1] == fields[k];
      OtherLineDoesNotMatter(field, value, Lines(fields[1..]) + b, fields[k].0);
      FieldIsExtracted(fields[1..], k - 1, b);
    }
  }

  lemma FieldNamesAreFieldNames(k: nat)
    requires k < 8
    ensures IsFieldName(FieldNames()[k])
  {
  }

  lemma FieldNamesStartWithN(k: nat)
    requires k < 8
    ensures FieldNames()[k][..1] == "N"
  {
  }

  lemma FieldNamesDiffer(i: nat, j: nat)
    requires i < j < 8
    ensures FieldNames()[i] != FieldNames()[j]
  {
    assert "NewExternalPort"[3] != "NewInternalPort"[3];
  }

  lemma AddFieldsWellFormed(externalPort: u16, internalHost: string, internalPort: u16, protocol: string,
                            description: string, leaseDuration: u32)
    requires '<' !in internalHost && '<' !in protocol && '<' !in description
    ensures WellFormed(AddFields(externalPort, internalHost, internalPort, protocol, description, leaseDuration))
  {
    DecimalPlain(externalPort);
    DecimalPlain(internalPort);
    DecimalPlain(leaseDuration);
    var fields := AddFields(externalPort, internalHost, internalPort, protocol, description, leaseDuration);
    forall i | 0 <= i < |fields|
      ensures IsFieldName(fields[i].0) && '<' !in fields[i].1
    {
      FieldNamesAreFieldNames(i);
    }
    forall i, j | 0 <= i < j < |fields|
      ensures fields[i].0 != fields[j].0
    {
      FieldNamesDiffer(i, j);
    }
  }

  lemma ActionTagIsTagName()
    ensures IsTagName(ActionTag()) && ActionTag()[0] == 'u'
  {
    assert IsTagName("u:AddPortMapping xmlns:u=") && IsTagName("urn:schemas-upnp-org:");
    assert IsTagName("service:") && IsTagName("WANIPConnection:1");
  }

  lemma BodyFieldIsExtracted(externalPort: u16, internalHost: string, internalPort: u16, protocol: string,
                             description: string, leaseDuration: u32, k: nat)
    requires '<' !in internalHost && '<' !in protocol && '<' !in description && k < 8
    ensures
      var fields := AddFields(externalPort, internalHost, internalPort, protocol, description, leaseDuration);
      ExtractXmlValue(AddBody(externalPort, internalHost, internalPort, protocol, description, leaseDuration),
                      fields[k].0)
      == Success(fields[k].1)
  {
    var fields := AddFields(externalPort, internalHost, internalPort, protocol, description, leaseDuration);
    AddFieldsWellFormed(externalPort, internalHost, internalPort, protocol, description, leaseDuration);
    var name := fields[k].0;
    var lines := Lines(fields) + Tag("/u:AddPortMapping");
    assert IsFieldName(name);
    FieldNamesStartWithN(k);
    ActionTagIsTagName();
    OtherTagIsSkipped(ActionTag(), "\n" + lines, name);
    OtherTagIsSkipped(ActionTag(), "\n" + lines, "/" + name);
    ExtractSkips(Tag(ActionTag()), "\n" + lines, name);
    TextIsSkipped("\n", lines, name);
    TextIsSkipped("\n", lines, "/" + name);
    ExtractSkips("\n", lines, name);
    FieldIsExtracted(fields, k, Tag("/u:AddPortMapping"));
  }

  lemma NumberOfDecimal(n: nat, max: nat)
    requires n <= max
    ensures Number(Decimal(n), max) == Success(n)
  {
    ParseDecimal(n, max);
  }

  lemma EntryFromFields(value: string -> Result<string, XmlError>,
                       externalPort: u16, internalHost: string, internalPort: u16,
                        protocol: string, description: string, leaseDuration: u32)
    requires forall k | 0 <= k < 8 ::
      value(FieldNames()[k])
      == Success(AddFields(externalPort, internalHost, internalPort, protocol, description, leaseDuration)[k].1)
    ensures EntryFrom(value)
      == Success(PortMappingEntry(externalPort, protocol, internalHost, internalPort, description, true, leaseDuration))
  {
    NumberOfDecimal(externalPort, U16_MAX);
    NumberOfDecimal(internalPort, U16_MAX);
    NumberOfDecimal(leaseDuration, U32_MAX);
    assert value(FieldNames()[1]) == Success(Decimal(externalPort));
    assert value(FieldNames()[3]) == Success(Decimal(internalPort));
    assert value(FieldNames()[7]) == Success(Decimal(leaseDuration));
    assert value(FieldNames()[2]).Success? && value(FieldNames()[4]).Success?;
    assert value(FieldNames()[5]).Success? && value(FieldNames()[6]).Success?;
  }

  /**
   Reading an entry from the body of an AddPortMapping request gives back what was written,
   for all ports and leases, and for every host, protocol and description without `<`.
   */
  lemma AddBodyRoundTrip(externalPort: u16, internalHost: string, internalPort: u16, protocol: string,
                         description: string, leaseDuration: u32)
    requires '<' !in internalHost && '<' !in protocol && '<' !in description
    ensures
      ParsePortMappingEntry(AddBody(externalPort, internalHost, internalPort, protocol, description, leaseDuration))
      == Success(PortMappingEntry(externalPort, protocol, internalHost, internalPort, description, true, leaseDuration))
  {
    var xml := AddBody(externalPort, internalHost, internalPort, protocol, description, leaseDuration);
    forall k | 0 <= k < 8
      ensures
        ExtractXmlValue(xml, FieldNames()[k])
        == Success(AddFields(externalPort, internalHost, internalPort, protocol, description, leaseDuration)[k].1)
    {
      BodyFieldIsExtracted(externalPort, internalHost, internalPort, protocol, description, leaseDuration, k);
    }
    EntryFromFields(name => ExtractXmlValue(xml, name),
                    externalPort, internalHost, internalPort, protocol, description, leaseDuration);
  }

  /** The request that adds a PortMapping. */
  function AddRequest(spec: PortMappingSpec, name: string, leaseDuration: u32): string {
    AddBody(spec.externalPort, spec.internalHost, spec.internalPort, ProtocolName(spec.protocol),
            Description(spec, name), leaseDuration)
  }

  /** Read back, the request of a spec says "TCP" or "UDP", and all the rest of the spec. */
  lemma RequestReadsBack(spec: PortMappingSpec, name: string, lease: u32)
    requires '<' !in spec.internalHost && '<' !in Description(spec, name)
    ensures
      ParsePortMappingEntry(AddRequest(spec, name, lease))
      == Success(PortMappingEntry(spec.externalPort, if spec.protocol == Tcp then "TCP" else "UDP", spec.internalHost,
                                  spec.internalPort,
                                  if spec.description.Some? then spec.description.value else name, true, lease))
  {
    AddBodyRoundTrip(spec.externalPort, spec.internalHost, spec.internalPort, ProtocolName(spec.protocol),
                     Description(spec, name), lease);
  }

  /** The request is one AddPortMapping element of WANIPConnection:1, with each argument under its own tag. */
  lemma BodyIsTagged(externalPort: u16, internalHost: string, internalPort: u16, protocol: string,
                     description: string, lease: u32)
    requires '<' !in internalHost && '<' !in protocol && '<' !in description
    ensures
      var body := AddBody(externalPort, internalHost, internalPort, protocol, description, lease);
      && ("<" + ("u:AddPortMapping xmlns:u=" + "\""
                 + ("urn:schemas-upnp-org:" + "service:" + "WANIPConnection:1") + "\"") + ">") <= body
      && "</u:AddPortMapping>" <= body[|body| - 19..]
      && ExtractXmlValue(body, "NewRemoteHost") == Success("")
      && ExtractXmlValue(body, "NewExternalPort") == Success(Decimal(externalPort))
      && ExtractXmlValue(body, "NewProtocol") == Success(protocol)
      && ExtractXmlValue(body, "NewInternalPort") == Success(Decimal(internalPort))
      && ExtractXmlValue(body, "NewInternalClient") == Success(internalHost)
      && ExtractXmlValue(body, "NewEnabled") == Success("1")
      && ExtractXmlValue(body, "NewPortMappingDescription") == Success(description)
      && ExtractXmlValue(body, "NewLeaseDuration") == Success(Decimal(lease))
  {
    BodyFrame(externalPort, internalHost, internalPort, protocol, description, lease);
    forall k | 0 <= k < 8
      ensures
        var fields := AddFields(externalPort, internalHost, internalPort, protocol, description, lease);
        ExtractXmlValue(AddBody(externalPort, internalHost, internalPort, protocol, description, lease),
                        FieldNames()[k])
        == Success(fields[k].1)
    {
      BodyFieldIsExtracted(externalPort, internalHost, internalPort, protocol, description, lease, k);
    }
    assert FieldNames()[0] == "NewRemoteHost" && FieldNames()[1] == "NewExternalPort";
    assert FieldNames()[2] == "NewProtocol" && FieldNames()[3] == "NewInternalPort";
    assert FieldNames()[4] == "NewInternalClient" && FieldNames()[5] == "NewEnabled";
    assert FieldNames()[6] == "NewPortMappingDescription" && FieldNames()[7] == "NewLeaseDuration";
  }

  lemma BodyFrame(externalPort: u16, internalHost: string, internalPort: u16, protocol: string,
                  description: string, lease: u32)
    ensures
      var body := AddBody(externalPort, internalHost, internalPort, protocol, description, lease);
      && ("<" + ("u:AddPortMapping xmlns:u=" + "\""
                 + ("urn:schemas-upnp-org:" + "service:" + "WANIPConnection:1") + "\"") + ">") <= body
      && |body| >= 19 && "</u:AddPortMapping>" <= body[|body| - 19..]
  {
    var body := AddBody(externalPort, internalHost, internalPort, protocol, description, lease);
    var close := Tag("/u:AddPortMapping");
    assert close == "</u:AddPortMapping>" && |close| == 19;
    assert body[|body| - 19..] == close;
  }

  /** The four fields an entry cannot do without: when one is missing there is no entry. */
  lemma MissingFieldFails(value: string -> Result<string, XmlError>)
    requires value("NewExternalPort").Failure? || value("NewProtocol").Failure?
      || value("NewInternalClient").Failure? || value("NewInternalPort").Failure?
    ensures EntryFrom(value).Failure?
  {
  }

  /** Nor is there one when a port does not fit in sixteen bits. */
  lemma LargePortFails(value: string -> Result<string, XmlError>, port: nat)
    requires port > 65535
    requires value("NewExternalPort") == Success(Decimal(port)) || value("NewInternalPort") == Success(Decimal(port))
    ensures EntryFrom(value).Failure?
  {
    ParseDecimal(port, U16_MAX);
  }

  /** A closing tag that comes first in the text makes the extraction panic, and the entry with it. */
  lemma CrossedTagsPanic(xml: string, name: string, open: nat, close: nat)
    requires Find(xml, "<" + name + ">") == Some(open) && Find(xml, "</" + name + ">") == Some(close)
    requires close < open + |name| + 2
    ensures ExtractXmlValue(xml, name) == Failure(SlicePanic)
  {
    assert Tag(name) == "<" + name + ">";
    assert Tag("/" + name) == "</" + name + ">";
  }

  lemma PanicIsNotDefaulted(value: string -> Result<string, XmlError>)
    requires value("NewPortMappingDescription") == Failure(SlicePanic) || value("NewEnabled") == Failure(SlicePanic)
      || value("NewLeaseDuration") == Failure(SlicePanic)
    ensures EntryFrom(value).Failure?
  {
  }

  /** The three others have defaults, which also stand for a lease that is no number. */
  lemma DefaultsApply(value: string -> Result<string, XmlError>, externalPort: u16, internalPort: u16, lease: string)
    requires value("NewExternalPort") == Success(Decimal(externalPort))
    requires value("NewInternalPort") == Success(Decimal(internalPort))
    requires value("NewProtocol").Success? && value("NewInternalClient").Success?
    requires value("NewPortMappingDescription") == Failure(TagNotFound) && value("NewEnabled") == Failure(TagNotFound)
    requires value("NewLeaseDuration") == Failure(TagNotFound)
      || (value("NewLeaseDuration") == Success(lease) && NoDigits(lease))
    ensures
      EntryFrom(value)
      == Success(PortMappingEntry(externalPort, value("NewProtocol").value, value("NewInternalClient").value,
                                  internalPort, "", false, 0))
  {
    ParseDecimal(externalPort, U16_MAX);
    ParseDecimal(internalPort, U16_MAX);
    NoDigitNoNumber("", U32_MAX);
    if value("NewLeaseDuration") == Success(lease) {
      NoDigitNoNumber(lease, U32_MAX);
    }
  }

  /** The request tells specs apart: two are written alike if and only if the entries they ask for are alike. */
  lemma RequestDeterminesEntry(spec: PortMappingSpec, name: string, lease: u32,
                               spec': PortMappingSpec, name': string, lease': u32)
    requires '<' !in spec.internalHost && '<' !in Description(spec, name)
    requires '<' !in spec'.internalHost && '<' !in Description(spec', name')
    ensures AddRequest(spec, name, lease) == AddRequest(spec', name', lease')
       <==> (&& spec.(description := None) == spec'.(description := None)
             && Description(spec, name) == Description(spec', name') && lease == lease')
  {
    assert ProtocolName(spec.protocol)[0] == ProtocolName(spec'.protocol)[0] <==> spec.protocol == spec'.protocol;
    AddBodyRoundTrip(spec.externalPort, spec.internalHost, spec.internalPort, ProtocolName(spec.protocol),
                     Description(spec, name), lease);
    AddBodyRoundTrip(spec'.externalPort, spec'.internalHost, spec'.internalPort, ProtocolName(spec'.protocol),
                     Description(spec', name'), lease');
  }
}
