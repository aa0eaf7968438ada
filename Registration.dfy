/**
 * A registration record and its Atom entry: toXml writes
 * entry(id, updated, content(payload(ETag, ExpirationTime, RegistrationId,
 * Tags, custom payload))) leaving out every blank field, loadXml reads the
 * fields back, tags are written comma-joined and split on read.
 *
 * The GCM native and template subclasses are not part of this model: what
 * they contribute (the payload element's name, the custom payload they
 * write and read, the node a template payload is recognised by) is a
 * Hooks value, and so are DOM parsing and printing.
 */
module Registrations {
  import opened Wrappers
  import opened Strings
  import opened Xml
  import opened Errors

  const DefaultRegistrationName := "$Default"
  /** The namespaces toXml declares: XML Schema instance, the Service Bus connect schema and Atom. */
  const InstanceNamespace := "http://www.w3.org/2001/XMLSchema-instance"
  const ServiceBusNamespace := "http://schemas.microsoft.com/netservices/2010/10/servicebus/connect"
  const AtomNamespace := "http://www.w3.org/2005/Atom"

  datatype Variant = Native | Template

  /** The fields the variant-specific hooks read and write. */
  datatype Custom = Custom(name: Option<string>, pnsHandle: Option<string>, bodyTemplate: Option<string>)

  datatype Hooks = Hooks(
    /** getSpecificPayloadNodeName */
    payloadNodeName: Variant -> string,
    /** GcmTemplateRegistration.GCM_TEMPLATE_REGISTRATION_CUSTOM_NODE */
    templateNode: string,
    /** GcmNativeRegistration.GCM_HANDLE_NODE */
    handleNode: string,
    /** appendCustomPayload: the elements appended after Tags */
    appendCustomPayload: (Variant, Custom) -> seq<Element>,
    /** loadCustomXmlData */
    loadCustomXmlData: (Variant, Element, Custom) -> Custom,
    /** DocumentBuilder.parse: the document element, or None when parsing throws */
    parseXml: string -> Option<Element>,
    /** Utils.getXmlString */
    printXml: Element -> string)

  /** The state of a Registration object, as a value. */
  datatype RegData = RegData(
    variant: Variant,
    registrationId: Option<string>,
    hubPath: string,
    expirationTime: Option<string>,
    tags: seq<string>,
    uri: Option<string>,
    updatedDate: Option<string>,
    etag: Option<string>,
    custom: Custom)

  /** A registration as the constructor leaves it: a hub path, no tags, every other field null. */
  function Fresh(variant: Variant, hubPath: string): RegData {
    RegData(variant, None, hubPath, None, [], None, None, None, Custom(None, None, None))
  }

  /** getURI(). */
  function UriOf(d: RegData): string {
    d.hubPath + "/Registrations/" + Show(d.registrationId)
  }

  /** What survives toXml: the value itself, or nothing when it is blank. */
  function Present(s: Option<string>): (r: Option<string>)
    ensures r.None? <==> IsBlank(s)
    ensures r.Some? ==> r == s
  {
    if IsBlank(s) then None else s
  }

  // ----- toXml -----

  /** appendNodeWithValue: one text element, or none for a null or blank value. */
  function NodeWithValue(nodeName: string, value: Option<string>): (r: seq<Element>)
    ensures r == [] <==> IsBlank(value)
    ensures r != [] ==> r == [TextElement(nodeName, value.value)]
  {
    if IsBlank(value) then [] else [TextElement(nodeName, value.value)]
  }

  /** appendTagsNode: no element for an empty list, otherwise the tags joined by ",". */
  function TagsNode(tags: seq<string>): (r: seq<Element>)
    ensures r == [] <==> tags == []
    ensures r != [] ==> r == [TextElement("Tags", Join(tags, ","))]
  {
    if tags == [] then [] else [TextElement("Tags", Join(tags, ","))]
  }

  /** The payload's own fields, before the custom payload. */
  function Leaves(d: RegData): seq<Element> {
    NodeWithValue("ETag", d.etag)
      + NodeWithValue("ExpirationTime", d.expirationTime)
      + NodeWithValue("RegistrationId", d.registrationId)
      + TagsNode(d.tags)
  }

  function PayloadChildren(d: RegData, hooks: Hooks): seq<Element> {
    Leaves(d) + hooks.appendCustomPayload(d.variant, d.custom)
  }

  function PayloadElement(d: RegData, hooks: Hooks): Element {
    Element(hooks.payloadNodeName(d.variant),
            [Attribute("xmlns:i", InstanceNamespace),
             Attribute("xmlns", ServiceBusNamespace)],
            "", PayloadChildren(d, hooks))
  }

  function ContentElement(d: RegData, hooks: Hooks): Element {
    Element("content", [Attribute("type", "application/xml")], "", [PayloadElement(d, hooks)])
  }

  /** The document toXml builds, before it is printed. */
  function EntryXml(d: RegData, hooks: Hooks): Element {
    Element("entry", [Attribute("xmlns", AtomNamespace)], "",
            NodeWithValue("id", Some(UriOf(d))) + NodeWithValue("updated", d.updatedDate) + [ContentElement(d, hooks)])
  }

  function TagNames(es: seq<Element>): seq<string> {
    if es == [] then [] else [es[0].tag] + TagNames(es[1..])
  }

  lemma {:induction false} TagNamesAppend(a: seq<Element>, b: seq<Element>)
    ensures TagNames(a + b) == TagNames(a) + TagNames(b)
  {
    if a == [] {
      assert a + b == b;
    } else {
      assert (a + b)[0] == a[0] && (a + b)[1..] == a[1..] + b;
      TagNamesAppend(a[1..], b);
    }
  }

  function IfPresent(s: Option<string>, name: string): seq<string> {
    if IsBlank(s) then [] else [name]
  }

  /**
   * The payload's children are, in this order, ETag, ExpirationTime and
   * RegistrationId (each only when not blank), Tags (only when there are
   * tags), then the custom payload.
   */
  lemma PayloadOrder(d: RegData, hooks: Hooks)
    ensures TagNames(PayloadChildren(d, hooks))
      == IfPresent(d.etag, "ETag") + IfPresent(d.expirationTime, "ExpirationTime")
         + IfPresent(d.registrationId, "RegistrationId") + (if d.tags == [] then [] else ["Tags"])
         + TagNames(hooks.appendCustomPayload(d.variant, d.custom))
  {
    var e := NodeWithValue("ETag", d.etag);
    var x := NodeWithValue("ExpirationTime", d.expirationTime);
    var i := NodeWithValue("RegistrationId", d.registrationId);
    var t := TagsNode(d.tags);
    var c := hooks.appendCustomPayload(d.variant, d.custom);
    TagNamesAppend(e + x + i + t, c);
    TagNamesAppend(e + x + i, t);
    TagNamesAppend(e + x, i);
    TagNamesAppend(e, x);
    TagNamesNode("ETag", d.etag);
    TagNamesNode("ExpirationTime", d.expirationTime);
    TagNamesNode("RegistrationId", d.registrationId);
    assert TagNames(t) == if d.tags == [] then [] else ["Tags"] by {
      if d.tags != [] {
        TagNamesSingle(t[0]);
      }
    }
  }

  lemma TagNamesSingle(x: Element)
    ensures TagNames([x]) == [x.tag]
  {
    assert [x][1..] == [];
  }

  lemma TagNamesNode(n: string, v: Option<string>)
    ensures TagNames(NodeWithValue(n, v)) == IfPresent(v, n)
  {
    if !IsBlank(v) {
      TagNamesSingle(TextElement(n, v.value));
    }
  }

  /** The entry holds id (always: getURI() is never blank), updated unless blank, then content. */
  lemma EntryOrder(d: RegData, hooks: Hooks)
    ensures TagNames(EntryXml(d, hooks).children) == ["id"] + IfPresent(d.updatedDate, "updated") + ["content"]
  {
    var u := UriOf(d);
    assert u[|d.hubPath|] == '/';
    assert !IsBlank(Some(u)) by {
      TrimEmptyIffAllWhite(u);
    }
    var a := NodeWithValue("id", Some(u));
    var b := NodeWithValue("updated", d.updatedDate);
    TagNamesAppend(a + b, [ContentElement(d, hooks)]);
    TagNamesAppend(a, b);
  }

  // ----- loadXml -----

  /** What loadXml does to a registration's fields given the parsed document's root. */
  function LoadFields(d: RegData, root: Element, hubPath: string, hooks: Hooks): RegData {
    var d1 := d.(hubPath := hubPath, updatedDate := NodeValue(root, "updated"));
    var payloads := DocumentElementsByTagName(root, hooks.payloadNodeName(d.variant));
    if payloads == [] then d1 else LoadPayload(d1, payloads[0], hooks)
  }

  /** The fields loadXml reads from the payload element p. */
  function LoadPayload(d: RegData, p: Element, hooks: Hooks): RegData {
    var id := NodeValue(p, "RegistrationId");
    d.(etag := NodeValue(p, "ETag"),
       expirationTime := NodeValue(p, "ExpirationTime"),
       registrationId := id,
       uri := Some(d.hubPath + "/Registrations/" + Show(id)),
       tags := d.tags + ReadTags(NodeValue(p, "Tags")),
       custom := hooks.loadCustomXmlData(d.variant, p, d.custom))
  }

  /** The tags a Tags node's text holds: none when it is blank, else its trimmed text split on ",". */
  function ReadTags(text: Option<string>): seq<string> {
    if IsBlank(text) then [] else Split(Trim(text.value), ',')
  }

  /**
   * Without a payload element only the hub path and the updated date
   * change; with one, uri is set to what getURI() then returns and the
   * read tags are appended to the ones already there.
   */
  lemma LoadFieldsEffect(d: RegData, root: Element, hubPath: string, hooks: Hooks)
    ensures var l := LoadFields(d, root, hubPath, hooks);
      && l.hubPath == hubPath && l.updatedDate == NodeValue(root, "updated") && l.variant == d.variant
      && (DocumentElementsByTagName(root, hooks.payloadNodeName(d.variant)) == [] ==>
            l == d.(hubPath := hubPath, updatedDate := NodeValue(root, "updated")))
      && (DocumentElementsByTagName(root, hooks.payloadNodeName(d.variant)) != [] ==>
            l.uri == Some(UriOf(l)) && |l.tags| >= |d.tags| && l.tags[..|d.tags|] == d.tags)
  {
  }

  /** The tags that can be written and read back unchanged. */
  ghost predicate PlainTags(tags: seq<string>) {
    forall i :: 0 <= i < |tags| ==>
      tags[i] != [] && ',' !in tags[i] && !IsWhite(tags[i][0]) && !IsWhite(tags[i][|tags[i]| - 1])
  }

  const ReservedNames: set<string> := {"entry", "id", "updated", "content", "ETag", "ExpirationTime", "RegistrationId", "Tags"}

  /** The custom payload uses none of the element names the base class writes or looks up. */
  ghost predicate SeparateCustomPayload(d: RegData, hooks: Hooks) {
    var custom := hooks.appendCustomPayload(d.variant, d.custom);
    && hooks.payloadNodeName(d.variant) !in ReservedNames
    && (forall x :: x in custom ==> x.tag !in ReservedNames)
    && (forall x :: x in DescendantsOf(custom) ==> x.tag !in ReservedNames)
  }

  lemma LeavesChildless(d: RegData)
    ensures forall i :: 0 <= i < |Leaves(d)| ==> Leaves(d)[i].children == []
  {
    var e := NodeWithValue("ETag", d.etag);
    var x := NodeWithValue("ExpirationTime", d.expirationTime);
    var i := NodeWithValue("RegistrationId", d.registrationId);
    var t := TagsNode(d.tags);
    assert forall y: Element :: y in e + x + i + t ==> y.children == [];
  }

  /** Looking a name up below childless leaves followed by elements none of whose descendants bear it. */
  lemma BelowLookup(leaves: seq<Element>, custom: seq<Element>, n: string)
    requires forall i :: 0 <= i < |leaves| ==> leaves[i].children == []
    requires forall x :: x in DescendantsOf(custom) ==> x.tag != n
    ensures Tagged(DescendantsOf(leaves + custom), n) == Tagged(leaves, n)
  {
    DescendantsOfLeaves(leaves);
    DescendantsOfAppend(leaves, custom);
    TaggedAppend(leaves, DescendantsOf(custom), n);
    TaggedNone(DescendantsOf(custom), n);
  }

  /** Below the payload element, a name the base class looks up finds only the payload's own fields. */
  lemma PayloadLookup(d: RegData, hooks: Hooks, n: string)
    requires SeparateCustomPayload(d, hooks) && n in ReservedNames
    ensures ElementsByTagName(PayloadElement(d, hooks), n) == Tagged(Leaves(d), n)
  {
    var custom := hooks.appendCustomPayload(d.variant, d.custom);
    LeavesChildless(d);
    assert PayloadElement(d, hooks).children == Leaves(d) + custom;
    BelowLookup(Leaves(d), custom, n);
  }

  /** Tagged over the payload's own fields, for a name other than Tags, part by part. */
  lemma LeavesTagged(d: RegData, m: string)
    requires m != "Tags"
    ensures Tagged(Leaves(d), m)
      == (if m == "ETag" then NodeWithValue("ETag", d.etag) else [])
         + (if m == "ExpirationTime" then NodeWithValue("ExpirationTime", d.expirationTime) else [])
         + (if m == "RegistrationId" then NodeWithValue("RegistrationId", d.registrationId) else [])
  {
    var e := NodeWithValue("ETag", d.etag);
    var x := NodeWithValue("ExpirationTime", d.expirationTime);
    var i := NodeWithValue("RegistrationId", d.registrationId);
    var t := TagsNode(d.tags);
    TaggedAppend(e + x + i, t, m);
    TaggedAppend(e + x, i, m);
    TaggedAppend(e, x, m);
    NodeTagged("ETag", d.etag, m);
    NodeTagged("ExpirationTime", d.expirationTime, m);
    NodeTagged("RegistrationId", d.registrationId, m);
    TaggedNone(t, m);
  }

  /** A lookup finding exactly what appendNodeWithValue wrote reads the value back unless it was blank. */
  lemma NodeRead(n: string, v: Option<string>)
    ensures var found := NodeWithValue(n, v);
            (if |found| > 0 then Some(TextContent(found[0])) else None) == Present(v)
  {
    if !IsBlank(v) {
      TextContentLeaf(NodeWithValue(n, v)[0]);
    }
  }

  lemma EtagRead(d: RegData, hooks: Hooks)
    requires SeparateCustomPayload(d, hooks)
    ensures NodeValue(PayloadElement(d, hooks), "ETag") == Present(d.etag)
  {
    PayloadLookup(d, hooks, "ETag");
    LeavesTagged(d, "ETag");
    NodeRead("ETag", d.etag);
  }

  lemma ExpirationRead(d: RegData, hooks: Hooks)
    requires SeparateCustomPayload(d, hooks)
    ensures NodeValue(PayloadElement(d, hooks), "ExpirationTime") == Present(d.expirationTime)
  {
    PayloadLookup(d, hooks, "ExpirationTime");
    LeavesTagged(d, "ExpirationTime");
    NodeRead("ExpirationTime", d.expirationTime);
  }

  lemma IdRead(d: RegData, hooks: Hooks)
    requires SeparateCustomPayload(d, hooks)
    ensures NodeValue(PayloadElement(d, hooks), "RegistrationId") == Present(d.registrationId)
  {
    PayloadLookup(d, hooks, "RegistrationId");
    LeavesTagged(d, "RegistrationId");
    NodeRead("RegistrationId", d.registrationId);
  }

  lemma TagsFieldRead(d: RegData, hooks: Hooks)
    requires SeparateCustomPayload(d, hooks) && PlainTags(d.tags)
    ensures ReadTags(NodeValue(PayloadElement(d, hooks), "Tags")) == d.tags
  {
    PayloadLookup(d, hooks, "Tags");
    TagsRead(NodeWithValue("ETag", d.etag), NodeWithValue("ExpirationTime", d.expirationTime),
             NodeWithValue("RegistrationId", d.registrationId), TagsNode(d.tags), d.tags);
  }

  /** The descendants of childless leaves followed by an element holding exactly one child. */
  lemma WrappedDescendants(head: seq<Element>, content: Element, pay: Element)
    requires forall i :: 0 <= i < |head| ==> head[i].children == []
    requires content.children == [pay]
    ensures DescendantsOf(head + [content]) == head + ([content, pay] + Descendants(pay))
  {
    DescendantsOfLeaves(head);
    DescendantsOfAppend(head, [content]);
    var below := Descendants(pay);
    DescendantsOfOne(pay);
    assert Descendants(content) == [pay] + below;
    DescendantsOfOne(content);
    assert DescendantsOf([content]) == [content] + ([pay] + below);
    assert [content] + ([pay] + below) == [content, pay] + below;
  }

  /** A single element followed by its descendants. */
  lemma DescendantsOfOne(x: Element)
    ensures DescendantsOf([x]) == [x] + Descendants(x)
  {
    assert DescendantsOf([x]) == [x] + Descendants(x) + DescendantsOf([]);
  }

  /** The first element bearing name, when only pay and what follows it may bear it. */
  lemma FirstTagged(pre: seq<Element>, pay: Element, post: seq<Element>, name: string)
    requires forall x :: x in pre ==> x.tag != name
    requires pay.tag == name
    ensures var found := Tagged(pre + ([pay] + post), name); found != [] && found[0] == pay
  {
    TaggedAppend(pre, [pay] + post, name);
    TaggedNone(pre, name);
  }

  lemma EntryHeadChildless(d: RegData)
    ensures var head := NodeWithValue("id", Some(UriOf(d))) + NodeWithValue("updated", d.updatedDate);
            forall i :: 0 <= i < |head| ==> head[i].children == []
  {
  }

  lemma NodeTagged(n: string, v: Option<string>, m: string)
    ensures Tagged(NodeWithValue(n, v), m) == if n == m then NodeWithValue(n, v) else []
  {
    if !IsBlank(v) {
      assert NodeWithValue(n, v)[1..] == [];
    }
  }

  lemma LeavesNotUpdated(d: RegData)
    ensures Tagged(Leaves(d), "updated") == []
  {
    var e := NodeWithValue("ETag", d.etag);
    var x := NodeWithValue("ExpirationTime", d.expirationTime);
    var i := NodeWithValue("RegistrationId", d.registrationId);
    var t := TagsNode(d.tags);
    TaggedAppend(e + x + i, t, "updated");
    TaggedAppend(e + x, i, "updated");
    TaggedAppend(e, x, "updated");
    NodeTagged("ETag", d.etag, "updated");
    NodeTagged("ExpirationTime", d.expirationTime, "updated");
    NodeTagged("RegistrationId", d.registrationId, "updated");
    TaggedNone(t, "updated");
  }

  /** updated is found where toXml put it, when nothing else in the entry bears that name. */
  lemma UpdatedRead(a: seq<Element>, b: seq<Element>, v: Option<string>, post: seq<Element>, root: Element)
    requires b == NodeWithValue("updated", v)
    requires Tagged(a, "updated") == [] && Tagged(post, "updated") == []
    requires Descendants(root) == a + b + post
    ensures NodeValue(root, "updated") == Present(v)
  {
    LeafRead(a, b, post, "updated", v);
  }

  lemma NotUpdated(content: Element, pay: Element, below: seq<Element>)
    requires content.tag != "updated" && pay.tag != "updated"
    requires Tagged(below, "updated") == []
    ensures Tagged([content, pay] + below, "updated") == []
  {
    TaggedAppend([content, pay], below, "updated");
    assert [content, pay][1..] == [pay];
  }

  lemma Regroup(r: Element, h: seq<Element>, c: Element, p: Element, below: seq<Element>)
    ensures [r] + (h + ([c, p] + below)) == ([r] + h + [c]) + ([p] + below)
  {
  }

  /** The descendants of the entry: id, updated, content, the payload, then what is below it. */
  lemma EntryDescendants(d: RegData, hooks: Hooks)
    ensures Descendants(EntryXml(d, hooks))
      == NodeWithValue("id", Some(UriOf(d))) + NodeWithValue("updated", d.updatedDate)
         + ([ContentElement(d, hooks), PayloadElement(d, hooks)] + Descendants(PayloadElement(d, hooks)))
  {
    EntryHeadChildless(d);
    WrappedDescendants(NodeWithValue("id", Some(UriOf(d))) + NodeWithValue("updated", d.updatedDate),
                       ContentElement(d, hooks), PayloadElement(d, hooks));
  }

  /** In the entry, the payload is the first element bearing its name. */
  lemma EntryLookup(d: RegData, hooks: Hooks)
    requires SeparateCustomPayload(d, hooks)
    ensures var found := DocumentElementsByTagName(EntryXml(d, hooks), hooks.payloadNodeName(d.variant));
            found != [] && found[0] == PayloadElement(d, hooks)
  {
    var root := EntryXml(d, hooks);
    var pay := PayloadElement(d, hooks);
    var content := ContentElement(d, hooks);
    var head := NodeWithValue("id", Some(UriOf(d))) + NodeWithValue("updated", d.updatedDate);
    EntryDescendants(d, hooks);
    Regroup(root, head, content, pay, Descendants(pay));
    assert forall x :: x in head ==> x.tag == "id" || x.tag == "updated";
    FirstTagged([root] + head + [content], pay, Descendants(pay), hooks.payloadNodeName(d.variant));
    assert [root] + Descendants(root) == ([root] + head + [content]) + ([pay] + Descendants(pay));
  }

  /** In the entry, updated reads back what toXml wrote. */
  lemma EntryUpdated(d: RegData, hooks: Hooks)
    requires SeparateCustomPayload(d, hooks)
    ensures NodeValue(EntryXml(d, hooks), "updated") == Present(d.updatedDate)
  {
    var pay := PayloadElement(d, hooks);
    var a := NodeWithValue("id", Some(UriOf(d)));
    EntryDescendants(d, hooks);
    PayloadLookup(d, hooks, "updated");
    LeavesNotUpdated(d);
    NodeTagged("id", Some(UriOf(d)), "updated");
    NotUpdated(ContentElement(d, hooks), pay, Descendants(pay));
    UpdatedRead(a, NodeWithValue("updated", d.updatedDate), d.updatedDate,
                [ContentElement(d, hooks), pay] + Descendants(pay), EntryXml(d, hooks));
  }

  /**
   * loadXml reads back what toXml wrote: the registration id, ETag,
   * expiration time and updated date when they are not blank (a blank one
   * is left out and reads back as null), the tags, and the uri derived
   * from the id and the new hub path.
   */
  lemma XmlRoundTrip(d: RegData, hooks: Hooks, into: Custom, hubPath: string)
    requires SeparateCustomPayload(d, hooks)
    requires PlainTags(d.tags)
    ensures var l := LoadFields(Fresh(d.variant, "").(custom := into), EntryXml(d, hooks), hubPath, hooks);
      && l.registrationId == Present(d.registrationId)
      && l.etag == Present(d.etag)
      && l.expirationTime == Present(d.expirationTime)
      && l.updatedDate == Present(d.updatedDate)
      && l.tags == d.tags
      && l.uri == Some(hubPath + "/Registrations/" + Show(Present(d.registrationId)))
      && l.custom == hooks.loadCustomXmlData(d.variant, PayloadElement(d, hooks), into)
  {
    EntryLookup(d, hooks);
    EntryUpdated(d, hooks);
    EtagRead(d, hooks);
    ExpirationRead(d, hooks);
    IdRead(d, hooks);
    TagsFieldRead(d, hooks);
  }

  /** Looking up a field written by appendNodeWithValue, among elements of which no other bears its name. */
  lemma LeafRead(pre: seq<Element>, mid: seq<Element>, post: seq<Element>, n: string, v: Option<string>)
    requires mid == NodeWithValue(n, v)
    requires Tagged(pre, n) == [] && Tagged(post, n) == []
    ensures var found := Tagged(pre + mid + post, n);
            (if |found| > 0 then Some(TextContent(found[0])) else None) == Present(v)
  {
    TaggedAppend(pre + mid, post, n);
    TaggedAppend(pre, mid, n);
    if !IsBlank(v) {
      assert Tagged(mid, n) == mid by {
        assert mid[1..] == [];
      }
      TextContentLeaf(mid[0]);
    }
  }

  /** Of the leading leaves, only the Tags node bears the name Tags. */
  lemma TaggedTagsNode(e: seq<Element>, x: seq<Element>, i: seq<Element>, tags: seq<string>)
    requires forall y :: y in e ==> y.tag == "ETag"
    requires forall y :: y in x ==> y.tag == "ExpirationTime"
    requires forall y :: y in i ==> y.tag == "RegistrationId"
    ensures Tagged(e + x + i + TagsNode(tags), "Tags") == TagsNode(tags)
  {
    TaggedAppend(e + x + i, TagsNode(tags), "Tags");
    TaggedAppend(e + x, i, "Tags");
    TaggedAppend(e, x, "Tags");
    TaggedNone(e, "Tags");
    TaggedNone(x, "Tags");
    TaggedNone(i, "Tags");
  }

  lemma TagsRead(e: seq<Element>, x: seq<Element>, i: seq<Element>, t: seq<Element>, tags: seq<string>)
    requires t == TagsNode(tags) && PlainTags(tags)
    requires forall y :: y in e ==> y.tag == "ETag"
    requires forall y :: y in x ==> y.tag == "ExpirationTime"
    requires forall y :: y in i ==> y.tag == "RegistrationId"
    ensures var found := Tagged(e + x + i + t, "Tags");
            var text := if |found| > 0 then Some(TextContent(found[0])) else None;
            (if IsBlank(text) then [] else Split(Trim(text.value), ',')) == tags
  {
    TaggedTagsNode(e, x, i, tags);
    if tags != [] {
      TagsTextRead(tags);
      TextContentLeaf(TextElement("Tags", Join(tags, ",")));
    }
  }

  /** The comma-joined text of plain tags is not blank, and trim then split gives the tags back. */
  lemma TagsTextRead(tags: seq<string>)
    requires PlainTags(tags) && tags != []
    ensures !IsBlank(Some(Join(tags, ","))) && Split(Trim(Join(tags, ",")), ',') == tags
  {
    var j := Join(tags, ",");
    SplitTrimJoin(tags, ',');
    JoinBounds(tags, ",");
    AllWhiteIff(j);
    assert !IsWhite(j[0]);
  }

  // ----- addTags -----

  /** The non-null, non-blank entries of a tag array, in order; a null array gives none. */
  function NonBlankTags(tags: Option<seq<Option<string>>>): (r: seq<string>)
    ensures forall i :: 0 <= i < |r| ==> !IsBlank(Some(r[i]))
    ensures tags.Some? ==> forall i :: 0 <= i < |tags.value| && !IsBlank(tags.value[i]) ==> tags.value[i].value in r
    ensures tags.None? ==> r == []
    ensures tags.Some? ==> r == KeptTags(tags.value)
  {
    match tags
    case None => []
    case Some(ts) => KeptTags(ts)
  }

  /**
   * The entries kept by the loop of addTags. With KeptTagsAppend, the two
   * first ensures fix the value: the kept entries are the non-blank ones,
   * each once, in their order.
   */
  function KeptTags(ts: seq<Option<string>>): (r: seq<string>)
    ensures ts == [] ==> r == []
    ensures |ts| == 1 ==> r == (if IsBlank(ts[0]) then [] else [ts[0].value])
    ensures |r| <= |ts|
    ensures forall i :: 0 <= i < |r| ==> !IsBlank(Some(r[i]))
    ensures forall i :: 0 <= i < |ts| && !IsBlank(ts[i]) ==> ts[i].value in r
  {
    if ts == [] then []
    else KeptTags(ts[..|ts| - 1]) + (if IsBlank(ts[|ts| - 1]) then [] else [ts[|ts| - 1].value])
  }

  /** Filtering distributes over concatenation, so the kept tags keep their order. */
  lemma {:induction false} KeptTagsAppend(a: seq<Option<string>>, b: seq<Option<string>>)
    ensures KeptTags(a + b) == KeptTags(a) + KeptTags(b)
  {
    if b == [] {
      assert a + b == a;
    } else {
      var last := b[|b| - 1];
      assert (a + b)[..|a + b| - 1] == a + b[..|b| - 1];
      assert (a + b)[|a + b| - 1] == last;
      KeptTagsAppend(a, b[..|b| - 1]);
    }
  }

  // ----- UTCDateStringToDate -----

  /**
   * The rewrite UTCDateStringToDate applies before SimpleDateFormat:
   * every "Z" becomes "+00:00", then the character at index 26 is removed;
   * a string shorter than 27 characters after the first step fails with a
   * ParseException at offset 26.
   */
  function UtcDateRewrite(dateString: string): (r: Result<string, Error>)
    ensures var s := ReplaceChar(dateString, 'Z', "+00:00");
      && (r.Failure? <==> |s| < 27)
      && (r.Failure? ==> r.error == ParseException("The 'updated' value has an invalid format", 26))
      && (r.Success? ==> |r.value| == |s| - 1 && r.value[..26] == s[..26] && r.value[26..] == s[27..])
    ensures r.Success? ==> 'Z' !in r.value
  {
    var s := ReplaceChar(dateString, 'Z', "+00:00");
    if |s| < 27 then Failure(ParseException("The 'updated' value has an invalid format", 26))
    else Success(s[..26] + s[27..])
  }

  lemma ReplaceCharAppend(a: string, b: string, c: char, repl: string)
    ensures ReplaceChar(a + b, c, repl) == ReplaceChar(a, c, repl) + ReplaceChar(b, c, repl)
  {
    if a == [] {
      assert a + b == b;
    } else {
      assert (a + b)[0] == a[0] && (a + b)[1..] == a[1..] + b;
      ReplaceCharAppend(a[1..], b, c, repl);
    }
  }

  /**
   * For a millisecond timestamp "yyyy-MM-ddTHH:mm:ss.SSS" followed by Z,
   * the removed character is the colon of "+00:00", giving an RFC 822
   * zone "+0000".
   */
  lemma {:induction false} UtcDateRewriteMillis(stamp: string)
    requires |stamp| == 23 && 'Z' !in stamp
    ensures UtcDateRewrite(stamp + "Z") == Success(stamp + "+0000")
  {
    ReplaceCharAppend(stamp, "Z", 'Z', "+00:00");
    ReplaceCharAbsent(stamp, 'Z', "+00:00");
    var s := stamp + "+00:00";
    assert ReplaceChar(stamp + "Z", 'Z', "+00:00") == s;
    assert s[..26] + s[27..] == stamp + "+0000";
  }

  /** A date string with no Z shorter than 27 characters is refused. */
  lemma UtcDateRewriteShort(dateString: string)
    requires 'Z' !in dateString && |dateString| < 27
    ensures UtcDateRewrite(dateString).Failure?
  {
    ReplaceCharAbsent(dateString, 'Z', "+00:00");
  }

  /** The registration object, whose fields loadXml, addTags and the client assign in place. */
  class Registration {
    const variant: Variant
    var registrationId: Option<string>
    var hubPath: string
    var expirationTime: Option<string>
    var pnsHandle: Option<string>
    var name: Option<string>
    var tags: seq<string>
    var uri: Option<string>
    var updatedDate: Option<string>
    var etag: Option<string>
    /** TemplateRegistration.bodyTemplate; unused by native registrations. */
    var bodyTemplate: Option<string>

    constructor (variant: Variant, hubPath: string)
      ensures Data() == Fresh(variant, hubPath)
    {
      this.variant := variant;
      this.hubPath := hubPath;
      registrationId, expirationTime, pnsHandle, name := None, None, None, None;
      tags := [];
      uri, updatedDate, etag, bodyTemplate := None, None, None, None;
    }

    function CustomData(): Custom
      reads this
    {
      Custom(name, pnsHandle, bodyTemplate)
    }

    function Data(): RegData
      reads this
    {
      RegData(variant, registrationId, hubPath, expirationTime, tags, uri, updatedDate, etag, CustomData())
    }

    /** getURI(). */
    function URI(): (u: string)
      reads this
      ensures u == UriOf(Data())
    {
      hubPath + "/Registrations/" + Show(registrationId)
    }

    /**
     * getTags: a copy of the tag list. The list is a value here, so what
     * the caller does with it cannot reach the registration.
     */
    method GetTags() returns (copy: seq<string>)
      ensures copy == tags && |copy| == |tags|
    {
      copy := tags[..];
    }

    /** addTags: appends the non-null, non-blank tags in order. */
    method AddTags(newTags: Option<seq<Option<string>>>)
      modifies this
      ensures tags == old(tags) + NonBlankTags(newTags)
      ensures Data() == old(Data()).(tags := tags)
    {
      if newTags.Some? {
        var ts := newTags.value;
        var i := 0;
        while i < |ts|
          invariant 0 <= i <= |ts|
          invariant tags == old(tags) + KeptTags(ts[..i])
          invariant Data() == old(Data()).(tags := tags)
        {
          assert ts[..i + 1][..i] == ts[..i];
          assert KeptTags(ts[..i + 1]) == KeptTags(ts[..i]) + (if IsBlank(ts[i]) then [] else [ts[i].value]);
          if !IsBlank(ts[i]) {
            tags := tags + [ts[i].value];
          }
          i := i + 1;
        }
        assert ts[..|ts|] == ts;
      }
    }

    /** toXml, before printing: the entry element. */
    method ToXml(hooks: Hooks) returns (entry: Element)
      ensures entry == EntryXml(Data(), hooks)
    {
      var payload := NodeWithValue("ETag", etag) + NodeWithValue("ExpirationTime", expirationTime)
        + NodeWithValue("RegistrationId", registrationId);
      if |tags| > 0 {
        var text := TagsText(tags);
        payload := payload + [TextElement("Tags", text)];
      }
      assert payload == Leaves(Data());
      payload := payload + hooks.appendCustomPayload(variant, CustomData());
      var description := Element(hooks.payloadNodeName(variant),
        [Attribute("xmlns:i", InstanceNamespace),
         Attribute("xmlns", ServiceBusNamespace)],
        "", payload);
      var content := Element("content", [Attribute("type", "application/xml")], "", [description]);
      assert content == ContentElement(Data(), hooks);
      entry := Element("entry", [Attribute("xmlns", AtomNamespace)], "",
        NodeWithValue("id", Some(URI())) + NodeWithValue("updated", updatedDate) + [content]);
    }

    /** loadXml: parses xml and assigns the fields it finds; a document that does not parse changes nothing. */
    method LoadXml(xml: string, path: string, hooks: Hooks) returns (r: Outcome<Error>)
      modifies this
      ensures hooks.parseXml(xml).None? ==> r == Fail(MalformedXml) && Data() == old(Data())
      ensures hooks.parseXml(xml).Some? ==> r == Pass && Data() == LoadFields(old(Data()), hooks.parseXml(xml).value, path, hooks)
    {
      var doc := hooks.parseXml(xml);
      if doc.None? {
        return Fail(MalformedXml);
      }
      var root := doc.value;
      hubPath := path;
      updatedDate := NodeValue(root, "updated");
      var payloadNodes := DocumentElementsByTagName(root, hooks.payloadNodeName(variant));
      if |payloadNodes| > 0 {
        LoadPayloadXml(payloadNodes[0], hooks);
      }
      r := Pass;
    }

    /** The payload part of loadXml: the fields read from the registration's description element. */
    method LoadPayloadXml(payloadNode: Element, hooks: Hooks)
      modifies this
      ensures Data() == LoadPayload(old(Data()), payloadNode, hooks)
    {
      ghost var d := Data();
      var id := NodeValue(payloadNode, "RegistrationId");
      var tagsText := NodeValue(payloadNode, "Tags");
      var read := ReadTags(tagsText);
      var c := hooks.loadCustomXmlData(variant, payloadNode, CustomData());
      var e := NodeValue(payloadNode, "ETag");
      var x := NodeValue(payloadNode, "ExpirationTime");
      var u := Some(hubPath + "/Registrations/" + Show(id));
      assert LoadPayload(d, payloadNode, hooks) == d.(etag := e, expirationTime := x, registrationId := id, uri := u, tags := tags + read, custom := c);
      SetPayload(e, x, id, u, tags + read, c);
    }

    /** The fields loadXml assigns from the description element, all at once. */
    method SetPayload(e: Option<string>, x: Option<string>, id: Option<string>, u: Option<string>, ts: seq<string>, c: Custom)
      modifies this
      ensures Data() == old(Data()).(etag := e, expirationTime := x, registrationId := id, uri := u, tags := ts, custom := c)
    {
      etag, expirationTime, registrationId, uri, tags, name, pnsHandle, bodyTemplate :=
        e, x, id, u, ts, c.name, c.pnsHandle, c.bodyTemplate;
    }
  }

  /** The StringBuilder loop of appendTagsNode. */
  method TagsText(tagList: seq<string>) returns (text: string)
    requires |tagList| > 0
    ensures text == Join(tagList, ",")
  {
    text := tagList[0];
    var i := 1;
    while i < |tagList|
      invariant 1 <= i <= |tagList|
      invariant text == Join(tagList[..i], ",")
    {
      JoinSnoc(tagList[..i], tagList[i], ",");
      assert tagList[..i + 1] == tagList[..i] + [tagList[i]];
      text := text + "," + tagList[i];
      i := i + 1;
    }
    assert tagList[..|tagList|] == tagList;
  }
}
