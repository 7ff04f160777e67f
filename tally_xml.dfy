/**
 * The Tally import document built by the export route (server.js,
 * `/export-tally`): an element tree grown in place by an xmlbuilder-style
 * builder, then filled with one TALLYMESSAGE/LEDGER block per record.
 */
module TallyXml {
  import opened Wrappers

  /** An XML element: its tag, its text content if any, its child elements in order. */
  datatype Node = Elem(tag: string, text: Option<string>, children: seq<Node>)

  /**
   * One record as the spreadsheet reader returns it: (field name, value)
   * pairs in the order `Object.keys` yields them.
   */
  type Record = seq<(string, string)>

  /** A builder handle: the path of child indices from the root to an element. */
  type Handle = seq<nat>

  predicate IsHandle(n: Node, h: Handle)
    decreases |h|
  {
    h == [] || (h[0] < |n.children| && IsHandle(n.children[h[0]], h[1..]))
  }

  function NodeAt(n: Node, h: Handle): Node
    requires IsHandle(n, h)
    decreases |h|
  {
    if h == [] then n else NodeAt(n.children[h[0]], h[1..])
  }

  /** The tree with c appended as the last child of the element at h. */
  function AppendAt(n: Node, h: Handle, c: Node): Node
    requires IsHandle(n, h)
    decreases |h|
  {
    if h == [] then Elem(n.tag, n.text, n.children + [c])
    else Elem(n.tag, n.text, n.children[h[0] := AppendAt(n.children[h[0]], h[1..], c)])
  }

  /** `up()`: the handle of the parent element. */
  function Up(h: Handle): (p: Handle)
    requires h != []
    ensures |p| + 1 == |h| && p + [h[|h| - 1]] == h
  {
    h[..|h| - 1]
  }

  /** Appending under h keeps every handle valid and makes the new child reachable with its content. */
  lemma {:induction false} AppendAtSpec(n: Node, h: Handle, c: Node, g: Handle)
    requires IsHandle(n, h)
    ensures IsHandle(n, g) ==> IsHandle(AppendAt(n, h, c), g)
    ensures IsHandle(AppendAt(n, h, c), h + [|NodeAt(n, h).children|])
    ensures NodeAt(AppendAt(n, h, c), h + [|NodeAt(n, h).children|]) == c
    decreases |h|
  {
    var r := AppendAt(n, h, c);
    var k := |NodeAt(n, h).children|;
    if h == [] {
      assert ([] + [k])[1..] == [];
      if g != [] && IsHandle(n, g) {
        assert r.children[g[0]] == n.children[g[0]];
      }
    } else {
      var i := h[0];
      AppendAtSpec(n.children[i], h[1..], c, if g != [] then g[1..] else []);
      assert (h + [k])[0] == i && (h + [k])[1..] == h[1..] + [k];
      if g != [] && IsHandle(n, g) && g[0] != i {
        assert r.children[g[0]] == n.children[g[0]];
      }
    }
  }

  /** Appending below child i of n rebuilds n with only that child replaced. */
  lemma AppendAtChild(n: Node, i: nat, h: Handle, c: Node)
    requires i < |n.children| && IsHandle(n.children[i], h)
    ensures IsHandle(n, [i] + h)
    ensures AppendAt(n, [i] + h, c) == Elem(n.tag, n.text, n.children[i := AppendAt(n.children[i], h, c)])
  {
  }

  /** Appending under child i of n: that child gains c as its last child. */
  lemma AppendAtDepthOne(n: Node, i: nat, c: Node)
    requires i < |n.children|
    ensures IsHandle(n, [i])
    ensures AppendAt(n, [i], c) ==
      Elem(n.tag, n.text, n.children[i := Elem(n.children[i].tag, n.children[i].text, n.children[i].children + [c])])
  {
  }

  /** Appending under grandchild j of child i of n. */
  lemma AppendAtDepthTwo(n: Node, i: nat, j: nat, c: Node)
    requires i < |n.children| && j < |n.children[i].children|
    ensures IsHandle(n, [i, j])
    ensures
      var m := n.children[i];
      var l := m.children[j];
      AppendAt(n, [i, j], c) ==
        Elem(n.tag, n.text, n.children[i := Elem(m.tag, m.text, m.children[j := Elem(l.tag, l.text, l.children + [c])])])
  {
    AppendAtDepthOne(n.children[i], j, c);
    AppendAtChild(n, i, [j], c);
    assert [i] + [j] == [i, j];
  }

  // What the builder accepts, after the XML 1.0 (Fifth Edition) recommendation:
  // the Char production of its section 2.2 and the Name production of its section 2.3.

  predicate IsXmlChar(c: char) {
    c == '\t' || c == '\n' || c == '\r' || ' ' <= c <= '\U{D7FF}' ||
    '\U{E000}' <= c <= '\U{FFFD}' || '\U{10000}' <= c <= '\U{10FFFF}'
  }

  predicate IsNameStartChar(c: char) {
    c == ':' || 'A' <= c <= 'Z' || c == '_' || 'a' <= c <= 'z' ||
    '\U{C0}' <= c <= '\U{D6}' || '\U{D8}' <= c <= '\U{F6}' || '\U{F8}' <= c <= '\U{2FF}' ||
    '\U{370}' <= c <= '\U{37D}' || '\U{37F}' <= c <= '\U{1FFF}' || '\U{200C}' <= c <= '\U{200D}' ||
    '\U{2070}' <= c <= '\U{218F}' || '\U{2C00}' <= c <= '\U{2FEF}' || '\U{3001}' <= c <= '\U{D7FF}' ||
    '\U{F900}' <= c <= '\U{FDCF}' || '\U{FDF0}' <= c <= '\U{FFFD}' || '\U{10000}' <= c <= '\U{EFFFF}'
  }

  predicate IsNameChar(c: char) {
    IsNameStartChar(c) || c == '-' || c == '.' || '0' <= c <= '9' || c == '\U{B7}' ||
    '\U{300}' <= c <= '\U{36F}' || '\U{203F}' <= c <= '\U{2040}'
  }

  predicate IsXmlName(s: string) {
    |s| > 0 && IsNameStartChar(s[0]) && forall i :: 1 <= i < |s| ==> IsNameChar(s[i])
  }

  predicate IsXmlText(s: string) {
    forall i :: 0 <= i < |s| ==> IsXmlChar(s[i])
  }

  /** An element the builder creates without throwing: a legal name and legal text. */
  predicate IsLegalElement(tag: string, text: Option<string>) {
    IsXmlName(tag) && (text.None? || IsXmlText(text.value))
  }

  /** An element-tree builder: the document grows in place as elements are added. */
  class XmlBuilder {
    var root: Node

    /** `xmlbuilder.create(tag)`: a document holding only its root element. */
    constructor (tag: string)
      ensures root == Elem(tag, None, [])
    {
      root := Elem(tag, None, []);
    }

    /**
     * `ele(tag, text)` on the element at `at`. A tag that is not an XML name,
     * or text holding a character XML does not allow, makes the call fail
     * (None) and leaves the tree as it was. Otherwise a new element becomes
     * that element's last child, and its handle is returned.
     */
    method Ele(at: Handle, tag: string, text: Option<string>) returns (child: Option<Handle>)
      requires IsHandle(root, at)
      modifies this
      ensures child.Some? <==> IsLegalElement(tag, text)
      ensures child.None? ==> root == old(root)
      ensures child.Some? ==>
        root == AppendAt(old(root), at, Elem(tag, text, [])) &&
        child.value == at + [|NodeAt(old(root), at).children|] &&
        IsHandle(root, child.value) && NodeAt(root, child.value) == Elem(tag, text, [])
      ensures forall g :: IsHandle(old(root), g) ==> IsHandle(root, g)
    {
      if !IsLegalElement(tag, text) {
        return None;
      }
      child := Some(at + [|NodeAt(root, at).children|]);
      forall g | IsHandle(root, g)
        ensures IsHandle(AppendAt(root, at, Elem(tag, text, [])), g)
      {
        AppendAtSpec(root, at, Elem(tag, text, []), g);
      }
      AppendAtSpec(root, at, Elem(tag, text, []), []);
      root := AppendAt(root, at, Elem(tag, text, []));
    }
  }

  /** Upper-casing of a character: ASCII a-z map to A-Z, everything else is kept. */
  function UpperChar(c: char): char {
    if 'a' <= c <= 'z' then (c as int - 32) as char else c
  }

  /** `toUpperCase()` over the ASCII letters. */
  function ToUpper(s: string): (r: string)
    ensures |r| == |s|
    ensures forall i :: 0 <= i < |r| ==> !('a' <= r[i] <= 'z')
    ensures forall i :: 0 <= i < |s| && !('a' <= s[i] <= 'z') ==> r[i] == s[i]
    ensures forall i :: 0 <= i < |s| && 'a' <= s[i] <= 'z' ==> r[i] as int + 32 == s[i] as int
  {
    if s == [] then [] else [UpperChar(s[0])] + ToUpper(s[1..])
  }

  /** The HEADER element: the request kind. */
  const Header: Node := Elem("HEADER", None, [Elem("TALLYREQUEST", Some("Import Data"), [])])

  /**
   * The BODY element as the chain on server.js:238-242 leaves it: the
   * report name and an empty REQUESTDATA.
   */
  const Body: Node :=
    Elem("BODY", None, [
      Elem("IMPORTDATA", None, [
        Elem("REQUESTDESC", None, [Elem("REPORTNAME", Some("All Masters"), [])]),
        Elem("REQUESTDATA", None, [])])])

  /** The element for one record field: upper-cased name as tag, value as text. */
  function FieldElem(field: (string, string)): Node {
    Elem(ToUpper(field.0), Some(field.1), [])
  }

  /** n is the LEDGER element of the record: one childless field element per field, in field order. */
  predicate IsLedgerFor(n: Node, record: Record) {
    n.tag == "LEDGER" && n.text == None && |n.children| == |record| &&
    forall k :: 0 <= k < |record| ==> n.children[k] == FieldElem(record[k])
  }

  /** n is a TALLYMESSAGE element wrapping exactly the record's LEDGER. */
  predicate IsTallyMessageFor(n: Node, record: Record) {
    n.tag == "TALLYMESSAGE" && n.text == None && |n.children| == 1 && IsLedgerFor(n.children[0], record)
  }

  /**
   * The document as the export route produces it: ENVELOPE holding HEADER,
   * BODY and then, directly under ENVELOPE, one TALLYMESSAGE per record in
   * record order.
   */
  predicate IsEnvelopeFor(doc: Node, records: seq<Record>) {
    doc.tag == "ENVELOPE" && doc.text == None && |doc.children| == 2 + |records| &&
    doc.children[0] == Header && doc.children[1] == Body &&
    forall i :: 0 <= i < |records| ==> IsTallyMessageFor(doc.children[2 + i], records[i])
  }

  /** The envelope contract leaves no freedom: it fixes the whole document. */
  lemma EnvelopeDetermined(records: seq<Record>, d1: Node, d2: Node)
    requires IsEnvelopeFor(d1, records) && IsEnvelopeFor(d2, records)
    ensures d1 == d2
  {
    forall j | 2 <= j < |d1.children|
      ensures d1.children[j] == d2.children[j]
    {
      var r := records[j - 2];
      assert IsTallyMessageFor(d1.children[j], r) && IsTallyMessageFor(d2.children[j], r);
      var l1, l2 := d1.children[j].children[0], d2.children[j].children[0];
      assert l1.children == l2.children;
      assert d1.children[j].children == d2.children[j].children;
    }
    assert d1.children == d2.children;
  }

  /** The number of elements with tag t in a list of siblings. */
  function CountTag(nodes: seq<Node>, t: string): nat {
    if nodes == [] then 0 else (if nodes[0].tag == t then 1 else 0) + CountTag(nodes[1..], t)
  }

  lemma {:induction false} CountTagAppend(a: seq<Node>, b: seq<Node>, t: string)
    ensures CountTag(a + b, t) == CountTag(a, t) + CountTag(b, t)
  {
    if a != [] {
      assert (a + b)[1..] == a[1..] + b;
      CountTagAppend(a[1..], b, t);
    } else {
      assert a + b == b;
    }
  }

  lemma {:induction false} CountTagAll(nodes: seq<Node>, t: string)
    requires forall i :: 0 <= i < |nodes| ==> nodes[i].tag == t
    ensures CountTag(nodes, t) == |nodes|
  {
    if nodes != [] {
      CountTagAll(nodes[1..], t);
    }
  }

  /**
   * ENVELOPE has exactly one TALLYMESSAGE child per record, and none of
   * them sits under REQUESTDATA, which has no children.
   */
  lemma {:induction false} TallyMessageCount(doc: Node, records: seq<Record>)
    requires IsEnvelopeFor(doc, records)
    ensures CountTag(doc.children, "TALLYMESSAGE") == |records|
    ensures IsHandle(doc, [1, 0, 1]) && NodeAt(doc, [1, 0, 1]).tag == "REQUESTDATA"
    ensures NodeAt(doc, [1, 0, 1]).children == []
  {
    var messages := doc.children[2..];
    assert doc.children == [Header, Body] + messages;
    forall i | 0 <= i < |messages|
      ensures messages[i].tag == "TALLYMESSAGE"
    {
      assert messages[i] == doc.children[2 + i] && IsTallyMessageFor(doc.children[2 + i], records[i]);
    }
    CountTagAll(messages, "TALLYMESSAGE");
    CountTagAppend([Header, Body], messages, "TALLYMESSAGE");
    assert [1, 0, 1][1..] == [0, 1] && [0, 1][1..] == [1] && [1][1..] == [];
  }

  // The intermediate trees of the fixed chain on server.js:236-242, one builder step each.

  const AfterHeader: Node := Elem("ENVELOPE", None, [Elem("HEADER", None, [])])
  const AfterBody: Node := Elem("ENVELOPE", None, [Header, Elem("BODY", None, [])])
  const AfterImportData: Node :=
    Elem("ENVELOPE", None, [Header, Elem("BODY", None, [Elem("IMPORTDATA", None, [])])])
  const AfterRequestDesc: Node :=
    Elem("ENVELOPE", None, [Header, Elem("BODY", None, [
      Elem("IMPORTDATA", None, [Elem("REQUESTDESC", None, [])])])])
  const AfterReportName: Node :=
    Elem("ENVELOPE", None, [Header, Elem("BODY", None, [
      Elem("IMPORTDATA", None, [Elem("REQUESTDESC", None, [Elem("REPORTNAME", Some("All Masters"), [])])])])])

  lemma SkeletonStepRequest()
    ensures IsHandle(AfterHeader, [0])
    ensures AppendAt(AfterHeader, [0], Elem("TALLYREQUEST", Some("Import Data"), [])) == Elem("ENVELOPE", None, [Header])
  {
    var c := Elem("TALLYREQUEST", Some("Import Data"), []);
    AppendAtChild(AfterHeader, 0, [], c);
    assert [0] + [] == [0];
    assert [] + [c] == [c];
    assert AppendAt(AfterHeader.children[0], [], c) == Header;
    assert AfterHeader.children[0 := Header] == [Header];
  }

  lemma SkeletonStepImportData()
    ensures IsHandle(AfterBody, [1])
    ensures AppendAt(AfterBody, [1], Elem("IMPORTDATA", None, [])) == AfterImportData
  {
    var c := Elem("IMPORTDATA", None, []);
    AppendAtChild(AfterBody, 1, [], c);
    assert [1] + [] == [1];
    assert [] + [c] == [c];
    assert AppendAt(AfterBody.children[1], [], c) == AfterImportData.children[1];
    assert AfterBody.children[1 := AfterImportData.children[1]] == AfterImportData.children;
  }

  lemma SkeletonStepRequestDesc()
    ensures IsHandle(AfterImportData, [1, 0])
    ensures AppendAt(AfterImportData, [1, 0], Elem("REQUESTDESC", None, [])) == AfterRequestDesc
  {
    var c := Elem("REQUESTDESC", None, []);
    var body := AfterImportData.children[1];
    AppendAtChild(body, 0, [], c);
    AppendAtChild(AfterImportData, 1, [0], c);
    assert [0] + [] == [0];
    assert [1] + [0] == [1, 0];
    assert [] + [c] == [c];
    assert AppendAt(body.children[0], [], c) == AfterRequestDesc.children[1].children[0];
    assert body.children[0 := AfterRequestDesc.children[1].children[0]] == AfterRequestDesc.children[1].children;
    assert AppendAt(body, [0], c) == AfterRequestDesc.children[1];
    assert AfterImportData.children[1 := AfterRequestDesc.children[1]] == AfterRequestDesc.children;
  }

  lemma SkeletonStepReportName()
    ensures IsHandle(AfterRequestDesc, [1, 0, 0])
    ensures AppendAt(AfterRequestDesc, [1, 0, 0], Elem("REPORTNAME", Some("All Masters"), [])) == AfterReportName
  {
    var c := Elem("REPORTNAME", Some("All Masters"), []);
    var body := AfterRequestDesc.children[1];
    var importData := body.children[0];
    var body' := AfterReportName.children[1];
    var importData' := body'.children[0];
    AppendAtChild(importData, 0, [], c);
    AppendAtChild(body, 0, [0], c);
    AppendAtChild(AfterRequestDesc, 1, [0, 0], c);
    assert [0] + [] == [0];
    assert [0] + [0] == [0, 0];
    assert [1] + [0, 0] == [1, 0, 0];
    assert [] + [c] == [c];
    assert AppendAt(importData.children[0], [], c) == importData'.children[0];
    assert importData.children[0 := importData'.children[0]] == importData'.children;
    assert AppendAt(importData, [0], c) == importData';
    assert body.children[0 := importData'] == body'.children;
    assert AppendAt(body, [0, 0], c) == body';
    assert AfterRequestDesc.children[1 := body'] == AfterReportName.children;
  }

  lemma SkeletonStepRequestData()
    ensures IsHandle(AfterReportName, [1, 0])
    ensures AppendAt(AfterReportName, [1, 0], Elem("REQUESTDATA", None, [])) == Elem("ENVELOPE", None, [Header, Body])
  {
    var c := Elem("REQUESTDATA", None, []);
    var body := AfterReportName.children[1];
    AppendAtChild(body, 0, [], c);
    AppendAtChild(AfterReportName, 1, [0], c);
    assert [0] + [] == [0];
    assert [1] + [0] == [1, 0];
    assert body.children[0].children + [c] == Body.children[0].children;
    assert AppendAt(body.children[0], [], c) == Body.children[0];
    assert body.children[0 := Body.children[0]] == Body.children;
    assert AppendAt(body, [0], c) == Body;
    assert AfterReportName.children[1 := Body] == [Header, Body];
  }

  /** Every tag and text the export route writes itself passes the builder's checks. */
  lemma FixedElementsLegal()
    ensures IsLegalElement("HEADER", None) && IsLegalElement("TALLYREQUEST", Some("Import Data"))
    ensures IsLegalElement("BODY", None) && IsLegalElement("IMPORTDATA", None)
    ensures IsLegalElement("REQUESTDESC", None) && IsLegalElement("REPORTNAME", Some("All Masters"))
    ensures IsLegalElement("REQUESTDATA", None)
    ensures IsLegalElement("TALLYMESSAGE", None) && IsLegalElement("LEDGER", None)
  {
  }

  /** `xmlbuilder.create("ENVELOPE")` and the chained calls on server.js:237-242. */
  method StartEnvelope() returns (b: XmlBuilder)
    ensures fresh(b) && b.root == Elem("ENVELOPE", None, [Header, Body])
  {
    b := new XmlBuilder("ENVELOPE");
    FixedElementsLegal();
    var xml: Handle := [];
    var header := b.Ele(xml, "HEADER", None);
    assert header.Some? && header.value == [0] && b.root == AfterHeader;
    SkeletonStepRequest();
    var request := b.Ele(header.value, "TALLYREQUEST", Some("Import Data"));
    assert request.Some? && Up(Up(request.value)) == [];
    var body := b.Ele(Up(Up(request.value)), "BODY", None);
    assert body.Some? && body.value == [1] && b.root == AfterBody;
    SkeletonStepImportData();
    var importData := b.Ele(body.value, "IMPORTDATA", None);
    assert importData.Some? && importData.value == [1, 0];
    SkeletonStepRequestDesc();
    var requestDesc := b.Ele(importData.value, "REQUESTDESC", None);
    assert requestDesc.Some? && requestDesc.value == [1, 0, 0];
    SkeletonStepReportName();
    var reportName := b.Ele(requestDesc.value, "REPORTNAME", Some("All Masters"));
    assert reportName.Some? && Up(Up(reportName.value)) == [1, 0];
    SkeletonStepRequestData();
    var requestData := b.Ele(Up(Up(reportName.value)), "REQUESTDATA", None);
    assert requestData.Some?;
  }

  /**
   * Every field of every record passes the builder's checks: its
   * upper-cased name is an XML name and its value is legal XML text.
   */
  predicate FieldsLegal(records: seq<Record>) {
    forall i, k :: 0 <= i < |records| && 0 <= k < |records[i]| ==>
      IsLegalElement(ToUpper(records[i][k].0), Some(records[i][k].1))
  }

  /**
   * The export route's document construction. `xml` stays the root handle
   * throughout: the chained calls after it never rebind it, so each
   * TALLYMESSAGE lands under ENVELOPE after BODY and REQUESTDATA stays empty.
   * A field the builder refuses stops the construction (None).
   */
  method BuildEnvelope(records: seq<Record>) returns (doc: Option<Node>)
    ensures doc.Some? <==> FieldsLegal(records)
    ensures doc.Some? ==> IsEnvelopeFor(doc.value, records)
  {
    var b := StartEnvelope();
    var xml: Handle := [];
    FixedElementsLegal();
    for i := 0 to |records|
      invariant b.root.tag == "ENVELOPE" && b.root.text == None
      invariant |b.root.children| == 2 + i
      invariant b.root.children[0] == Header && b.root.children[1] == Body
      invariant forall j :: 0 <= j < i ==> IsTallyMessageFor(b.root.children[2 + j], records[j])
      invariant forall j, k :: 0 <= j < i && 0 <= k < |records[j]| ==>
        IsLegalElement(ToUpper(records[j][k].0), Some(records[j][k].1))
    {
      var tallyMsg := b.Ele(xml, "TALLYMESSAGE", None);
      assert tallyMsg.Some? && tallyMsg.value == [2 + i];
      AppendAtDepthOne(b.root, 2 + i, Elem("LEDGER", None, []));
      var ledger := b.Ele(tallyMsg.value, "LEDGER", None);
      assert ledger.Some? && ledger.value == [2 + i, 0];
      ghost var done := b.root.children[..2 + i];
      var record := records[i];
      for k := 0 to |record|
        invariant b.root.tag == "ENVELOPE" && b.root.text == None
        invariant |b.root.children| == 3 + i && b.root.children[..2 + i] == done
        invariant IsHandle(b.root, ledger.value)
        invariant b.root.children[2 + i].tag == "TALLYMESSAGE" && b.root.children[2 + i].text == None
        invariant |b.root.children[2 + i].children| == 1
        invariant IsLedgerFor(b.root.children[2 + i].children[0], record[..k])
        invariant forall m :: 0 <= m < k ==> IsLegalElement(ToUpper(record[m].0), Some(record[m].1))
      {
        AppendAtDepthTwo(b.root, 2 + i, 0, FieldElem(record[k]));
        var field := b.Ele(ledger.value, ToUpper(record[k].0), Some(record[k].1));
        if field.None? {
          assert !IsLegalElement(ToUpper(records[i][k].0), Some(records[i][k].1));
          return None;
        }
      }
      assert record[..|record|] == record;
    }
    doc := Some(b.root);
  }
}
