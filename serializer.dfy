/**
 * XmlObjectSerializer.java and SerializerContext.java: writing an object
 * tree to an XmlSerializer sink.  The sink is represented by the list of
 * calls it receives; the model records them in order in the context.
 *
 * The serializer writes one element per child write: its start tag, the
 * attributes its builder reports, the children and texts its builder
 * reports (recursively), then its end tag.  Namespaces announced with
 * useNamespace are bound to generated prefixes before the root element.
 */
module Serializers {
  import opened Wrappers
  import opened QualifiedNames
  import opened ElementDescriptors
  import opened ObjectBuilders

  /** An element or attribute name as the sink receives it: namespace and local name. */
  datatype Tag = Tag(namespace: Option<string>, name: string)

  function TagOf(q: QualifiedName): (r: Tag)
    ensures r.namespace == q.namespace && r.name == q.name
  {
    Tag(q.namespace, q.name)
  }

  /** The calls the serializer makes on its XmlSerializer. */
  datatype SinkEvent =
    | StartDocument
    | SetPrefix(prefix: string, namespace: string)
    | StartTag(tag: Tag)
    | Attribute(attribute: Tag, value: Option<string>)
    | TextNode(text: string)
    | EndTag(tag: Tag)
    | EndDocument

  /**
   * What a writer call leaves behind: the sink calls it made, in order,
   * and the exception that ended it early, if any.
   */
  datatype Written = Written(events: seq<SinkEvent>, error: Option<Exception>)

  // ---------------------------------------------------------------------
  // Well-formedness of the emitted calls
  // ---------------------------------------------------------------------

  /**
   * Matches start and end tags against a stack of open elements (innermost
   * first): the stack left after the calls, or None if an end tag does not
   * close the innermost open element.
   */
  function Closes(events: seq<SinkEvent>, open: seq<Tag>): Option<seq<Tag>>
    decreases |events|
  {
    if |events| == 0 then Some(open)
    else match events[0]
      case StartTag(t) => Closes(events[1..], [t] + open)
      case EndTag(t) => if |open| > 0 && open[0] == t then Closes(events[1..], open[1..]) else None
      case _ => Closes(events[1..], open)
  }

  /** Matching continues where the first part left off. */
  lemma {:induction false} ClosesAppend(a: seq<SinkEvent>, b: seq<SinkEvent>, open: seq<Tag>)
    ensures Closes(a + b, open) == if Closes(a, open).None? then None else Closes(b, Closes(a, open).value)
    decreases |a|
  {
    if |a| == 0 {
      assert a + b == b;
    } else {
      assert (a + b)[0] == a[0];
      assert (a + b)[1..] == a[1..] + b;
      match a[0]
        case StartTag(t) => ClosesAppend(a[1..], b, [t] + open);
        case EndTag(t) =>
          if |open| > 0 && open[0] == t {
            ClosesAppend(a[1..], b, open[1..]);
          }
        case _ => ClosesAppend(a[1..], b, open);
    }
  }

  /** `s` ends with `t`: the elements of `t` are still open underneath. */
  predicate EndsWith(s: seq<Tag>, t: seq<Tag>)
  {
    |s| >= |t| && s[|s| - |t|..] == t
  }

  lemma EndsWithTrans(s: seq<Tag>, t: seq<Tag>, u: seq<Tag>)
    requires EndsWith(s, t) && EndsWith(t, u)
    ensures EndsWith(s, u)
  {
    assert s[|s| - |u|..] == s[|s| - |t|..][|t| - |u|..];
  }

  /**
   * Attributes come right after their start tag: the XmlSerializer rejects
   * an attribute anywhere else.
   */
  predicate AttributesPlaced(events: seq<SinkEvent>)
  {
    (|events| > 0 ==> !events[0].Attribute?) &&
    forall i :: 0 < i < |events| && events[i].Attribute? ==> events[i - 1].StartTag? || events[i - 1].Attribute?
  }

  lemma AttributesPlacedAppend(a: seq<SinkEvent>, b: seq<SinkEvent>)
    requires AttributesPlaced(a) && AttributesPlaced(b)
    ensures AttributesPlaced(a + b)
  {
    var c := a + b;
    forall i | 0 < i < |c| && c[i].Attribute?
      ensures c[i - 1].StartTag? || c[i - 1].Attribute?
    {
      if i >= |a| {
        assert c[i] == b[i - |a|];
        if i > |a| {
          assert c[i - 1] == b[i - 1 - |a|];
        }
      } else {
        assert c[i] == a[i] && c[i - 1] == a[i - 1];
      }
    }
  }

  // ---------------------------------------------------------------------
  // writeChild, writeText, writeAttribute
  // ---------------------------------------------------------------------

  /**
   * The catch clauses around an element: IllegalArgumentException and
   * IllegalStateException become SerializerException, anything else
   * propagates unchanged.
   */
  function Wrapped(e: Exception): (r: Exception)
    ensures r != IllegalArgument && r != IllegalState
    ensures e != IllegalArgument && e != IllegalState ==> r == e
  {
    if e == IllegalArgument || e == IllegalState then SerializerFailure else e
  }

  /** mChildWriter.writeText: a null text writes nothing. */
  function TextEvents(text: Option<string>): (r: seq<SinkEvent>)
    ensures text.None? <==> r == []
    ensures text.Some? ==> r == [TextNode(text.value)]
  {
    if text.None? then [] else [TextNode(text.value)]
  }

  /** mAttributeWriter.writeAttribute, once per attribute the builder reports. */
  function AttributeEvents(calls: seq<AttributeCall>): (r: seq<SinkEvent>)
    ensures |r| == |calls|
    ensures forall i :: 0 <= i < |calls| ==> r[i] == Attribute(TagOf(calls[i].name), calls[i].value)
  {
    seq(|calls|, i requires 0 <= i < |calls| => Attribute(TagOf(calls[i].name), calls[i].value))
  }

  /**
   * mChildWriter.writeChild.  `fuel` bounds the nesting depth: the source
   * recurses without a limit and a tree too deep for the Java stack ends
   * in a StackOverflowError, which fuel 0 stands for.  The descriptor is
   * dereferenced before the try block, so a null descriptor raises a
   * NullPointerException that is not wrapped.
   */
  function WriteChild(d: ElementDescriptor?, child: Value, scope: Scope, it: IterationOrder, fuel: nat): (r: Written)
    ensures fuel == 0 ==> r == Written([], Some(StackOverflow))
    ensures fuel > 0 && d == null ==> r == Written([], Some(NullPointer))
    ensures fuel > 0 && d != null && d.builder == null ==> r == Written([], Some(SerializerFailure))
    ensures fuel > 0 && d != null && d.builder != null ==>
      |r.events| > 0 && r.events[0] == StartTag(TagOf(d.qualifiedName))
    ensures r.error.None? ==> d != null && |r.events| >= 2 && r.events[|r.events| - 1] == EndTag(TagOf(d.qualifiedName))
    ensures r.error != Some(IllegalArgument) && r.error != Some(IllegalState)
    decreases fuel, 0, 1
  {
    if fuel == 0 then Written([], Some(StackOverflow))
    else if d == null then Written([], Some(NullPointer))
    else if d.builder == null then Written([], Some(SerializerFailure))
    else Element(TagOf(d.qualifiedName), WriteAttributes(d.builder, child), WriteChildren(d.builder, child, scope, it), scope, it, fuel)
  }

  /**
   * The try block of writeChild, given what the element's builder reports
   * to the attribute writer and to the child writer (or the exception it
   * raises instead): start tag, attributes, children, end tag.
   */
  function Element(tag: Tag, attributes: Result<seq<AttributeCall>>, children: Result<seq<ChildCall>>,
                   scope: Scope, it: IterationOrder, fuel: nat): (r: Written)
    requires fuel > 0
    ensures |r.events| > 0 && r.events[0] == StartTag(tag)
    ensures r.error.None? ==> attributes.Success? && children.Success? && |r.events| >= 2 && r.events[|r.events| - 1] == EndTag(tag)
    ensures attributes.Failure? ==> r == Written([StartTag(tag)], Some(Wrapped(attributes.error)))
    ensures r.error != Some(IllegalArgument) && r.error != Some(IllegalState)
    decreases fuel, 0, 0
  {
    var start := [StartTag(tag)];
    match attributes
      case Failure(e) => Written(start, Some(Wrapped(e)))
      case Success(attributeCalls) =>
        var prelude := start + AttributeEvents(attributeCalls);
        (match children
          case Failure(e) => Written(prelude, Some(Wrapped(e)))
          case Success(calls) =>
            var body := WriteCalls(calls, scope, it, fuel - 1);
            if body.error.Some? then Written(prelude + body.events, Some(Wrapped(body.error.value)))
            else Written(prelude + body.events + [EndTag(tag)], None))
  }

  /** The first of the child writer calls a builder makes. */
  function WriteCall(call: ChildCall, scope: Scope, it: IterationOrder, fuel: nat): (r: Written)
    ensures call.WriteTextCall? ==> r == Written(TextEvents(call.text), None)
    decreases fuel, 0, 2
  {
    match call
      case WriteChildCall(d, c) => WriteChild(d, c, scope, it, fuel)
      case WriteTextCall(t) => Written(TextEvents(t), None)
  }

  /**
   * The child writer calls a builder's writeChildren makes, in order; the
   * first exception ends the element.
   */
  function WriteCalls(calls: seq<ChildCall>, scope: Scope, it: IterationOrder, fuel: nat): (r: Written)
    ensures |calls| == 0 ==> r == Written([], None)
    ensures r.error != Some(IllegalArgument) && r.error != Some(IllegalState)
    decreases fuel, |calls|, 3
  {
    if |calls| == 0 then Written([], None)
    else
      var first := WriteCall(calls[0], scope, it, fuel);
      if first.error.Some? then first
      else
        var rest := WriteCalls(calls[1..], scope, it, fuel);
        Written(first.events + rest.events, rest.error)
  }

  /**
   * Whatever happens, the calls written so far never close an element that
   * is not open and leave the enclosing elements open; when the element is
   * written without an exception, it is closed again.
   */
  predicate Nests(w: Written, open: seq<Tag>)
  {
    Closes(w.events, open).Some? && EndsWith(Closes(w.events, open).value, open) &&
    (w.error.None? ==> Closes(w.events, open) == Some(open))
  }

  lemma {:induction false} WriteChildNests(d: ElementDescriptor?, child: Value, scope: Scope, it: IterationOrder, fuel: nat, open: seq<Tag>)
    ensures Nests(WriteChild(d, child, scope, it, fuel), open)
    decreases fuel, 0, 1
  {
    if fuel > 0 && d != null && d.builder != null {
      ElementNests(TagOf(d.qualifiedName), WriteAttributes(d.builder, child), WriteChildren(d.builder, child, scope, it), scope, it, fuel, open);
    }
  }

  lemma {:induction false} ElementNests(tag: Tag, attributes: Result<seq<AttributeCall>>, children: Result<seq<ChildCall>>,
                                        scope: Scope, it: IterationOrder, fuel: nat, open: seq<Tag>)
    requires fuel > 0
    ensures Nests(Element(tag, attributes, children, scope, it, fuel), open)
    decreases fuel, 0, 0
  {
    var start := [StartTag(tag)];
    var inner := [tag] + open;
    assert EndsWith(inner, open);
    assert Closes(start, open) == Closes([], inner);
    if attributes.Failure? {
      return;
    }
    var attributeEvents := AttributeEvents(attributes.value);
    NoTagsKeepOpen(attributeEvents, inner);
    var prelude := start + attributeEvents;
    ClosesAppend(start, attributeEvents, open);
    assert Closes(prelude, open) == Some(inner);
    if children.Failure? {
      return;
    }
    var body := WriteCalls(children.value, scope, it, fuel - 1);
    WriteCallsNest(children.value, scope, it, fuel - 1, inner);
    BodyNests(prelude, body.events, tag, open);
    if body.error.None? {
      assert Element(tag, attributes, children, scope, it, fuel) == Written(prelude + body.events + [EndTag(tag)], None);
      assert EndsWith(open, open);
    } else {
      assert Element(tag, attributes, children, scope, it, fuel) == Written(prelude + body.events, Some(Wrapped(body.error.value)));
    }
  }

  /** The children, written after the start tag, keep the enclosing elements open; the end tag closes the element. */
  lemma BodyNests(prelude: seq<SinkEvent>, events: seq<SinkEvent>, tag: Tag, open: seq<Tag>)
    requires Closes(prelude, open) == Some([tag] + open)
    requires Closes(events, [tag] + open).Some? && EndsWith(Closes(events, [tag] + open).value, [tag] + open)
    ensures Closes(prelude + events, open).Some? && EndsWith(Closes(prelude + events, open).value, open)
    ensures Closes(events, [tag] + open) == Some([tag] + open) ==> Closes(prelude + events + [EndTag(tag)], open) == Some(open)
  {
    var inner := [tag] + open;
    assert EndsWith(inner, open);
    ClosesAppend(prelude, events, open);
    EndsWithTrans(Closes(events, inner).value, inner, open);
    if Closes(events, inner) == Some(inner) {
      ClosesAppend(prelude + events, [EndTag(tag)], open);
      assert Closes([EndTag(tag)], inner) == Closes([], open);
    }
  }

  lemma {:induction false} WriteCallNests(call: ChildCall, scope: Scope, it: IterationOrder, fuel: nat, open: seq<Tag>)
    ensures Nests(WriteCall(call, scope, it, fuel), open)
    decreases fuel, 0, 2
  {
    match call
      case WriteChildCall(d, c) => WriteChildNests(d, c, scope, it, fuel, open);
      case WriteTextCall(t) => NoTagsKeepOpen(TextEvents(t), open);
  }

  lemma {:induction false} WriteCallsNest(calls: seq<ChildCall>, scope: Scope, it: IterationOrder, fuel: nat, open: seq<Tag>)
    ensures Nests(WriteCalls(calls, scope, it, fuel), open)
    decreases fuel, |calls|, 3
  {
    if |calls| == 0 {
      return;
    }
    var first := WriteCall(calls[0], scope, it, fuel);
    WriteCallNests(calls[0], scope, it, fuel, open);
    if first.error.None? {
      var rest := WriteCalls(calls[1..], scope, it, fuel);
      WriteCallsNest(calls[1..], scope, it, fuel, open);
      ClosesAppend(first.events, rest.events, open);
    }
  }

  /**
   * Every attribute the serializer writes follows its element's start tag
   * or another attribute of the same element.
   */
  lemma {:induction false} WriteChildPlacesAttributes(d: ElementDescriptor?, child: Value, scope: Scope, it: IterationOrder, fuel: nat)
    ensures AttributesPlaced(WriteChild(d, child, scope, it, fuel).events)
    decreases fuel, 0, 1
  {
    if fuel > 0 && d != null && d.builder != null {
      ElementPlacesAttributes(TagOf(d.qualifiedName), WriteAttributes(d.builder, child), WriteChildren(d.builder, child, scope, it), scope, it, fuel);
    }
  }

  lemma {:induction false} ElementPlacesAttributes(tag: Tag, attributes: Result<seq<AttributeCall>>, children: Result<seq<ChildCall>>,
                                                   scope: Scope, it: IterationOrder, fuel: nat)
    requires fuel > 0
    ensures AttributesPlaced(Element(tag, attributes, children, scope, it, fuel).events)
    decreases fuel, 0, 0
  {
    if attributes.Failure? {
      return;
    }
    var prelude := [StartTag(tag)] + AttributeEvents(attributes.value);
    assert AttributesPlaced(prelude);
    if children.Failure? {
      return;
    }
    var body := WriteCalls(children.value, scope, it, fuel - 1);
    WriteCallsPlaceAttributes(children.value, scope, it, fuel - 1);
    AttributesPlacedAppend(prelude, body.events);
    if body.error.None? {
      AttributesPlacedAppend(prelude + body.events, [EndTag(tag)]);
    }
  }

  lemma {:induction false} WriteCallsPlaceAttributes(calls: seq<ChildCall>, scope: Scope, it: IterationOrder, fuel: nat)
    ensures AttributesPlaced(WriteCalls(calls, scope, it, fuel).events)
    decreases fuel, |calls|, 3
  {
    if |calls| == 0 {
      return;
    }
    var first := WriteCall(calls[0], scope, it, fuel);
    if calls[0].WriteChildCall? {
      WriteChildPlacesAttributes(calls[0].descriptor, calls[0].child, scope, it, fuel);
    }
    if first.error.None? {
      var rest := WriteCalls(calls[1..], scope, it, fuel);
      WriteCallsPlaceAttributes(calls[1..], scope, it, fuel);
      AttributesPlacedAppend(first.events, rest.events);
    }
  }

  /**
   * A string element with the text builder becomes a start tag, one text
   * node and an end tag; a null string leaves the element empty.
   */
  lemma WriteTextElement(d: ElementDescriptor, s: Option<string>, scope: Scope, it: IterationOrder, fuel: nat)
    requires fuel > 0 && d.builder != null && d.builder.kind.Text?
    ensures var tag := TagOf(d.qualifiedName);
      WriteChild(d, if s.Some? then VStr(s.value) else VNull, scope, it, fuel) ==
      Written([StartTag(tag)] + TextEvents(s) + [EndTag(tag)], None)
  {
    var v := if s.Some? then VStr(s.value) else VNull;
    assert WriteAttributes(d.builder, v) == Success([]);
    assert WriteChildren(d.builder, v, scope, it) == Success([WriteTextCall(s)]);
    var calls := [WriteTextCall(s)];
    assert WriteCalls(calls[1..], scope, it, fuel - 1) == Written([], None);
    assert WriteCalls(calls, scope, it, fuel - 1) == Written(TextEvents(s), None);
  }

  // ---------------------------------------------------------------------
  // Prefixes and namespaces
  // ---------------------------------------------------------------------

  /** PREFIX_CHARS */
  const PrefixChars: string := "ABCDEFGHIJKLMNOPQRSTUVWXYZ"

  /**
   * The prefix bindNamespaces builds for the k-th namespace: the base-26
   * digits of k, least significant first, as letters.
   */
  function Prefix(k: nat): (r: string)
    ensures |r| > 0 && r[0] == PrefixChars[k % 26]
    ensures forall i :: 0 <= i < |r| ==> 'A' <= r[i] <= 'Z'
    decreases k
  {
    [PrefixChars[k % 26]] + (if k / 26 > 0 then Prefix(k / 26) else "")
  }

  /** The value of an upper-case letter as a digit. */
  function Digit(c: char): (r: nat)
    requires 'A' <= c <= 'Z'
    ensures r < 26 && PrefixChars[r] == c
  {
    c as int - 'A' as int
  }

  /** Reads a prefix back as a number: the inverse of Prefix. */
  function PrefixValue(s: string): (r: nat)
    requires forall i :: 0 <= i < |s| ==> 'A' <= s[i] <= 'Z'
    ensures |s| > 0 ==> r % 26 == Digit(s[0])
  {
    if |s| == 0 then 0 else Digit(s[0]) + 26 * PrefixValue(s[1..])
  }

  lemma {:induction false} PrefixRoundTrip(k: nat)
    ensures PrefixValue(Prefix(k)) == k
    decreases k
  {
    var r := Prefix(k);
    assert PrefixChars[k % 26] == r[0];
    assert Digit(r[0]) == k % 26 by {
      DigitOfPrefixChar(k % 26);
    }
    if k / 26 > 0 {
      PrefixRoundTrip(k / 26);
      assert r[1..] == Prefix(k / 26);
    } else {
      assert r[1..] == "";
    }
  }

  lemma DigitOfPrefixChar(n: nat)
    requires n < 26
    ensures Digit(PrefixChars[n]) == n
  {
  }

  /** Different namespaces get different prefixes. */
  lemma PrefixInjective(j: nat, k: nat)
    ensures Prefix(j) == Prefix(k) ==> j == k
  {
    PrefixRoundTrip(j);
    PrefixRoundTrip(k);
  }

  lemma PrefixExamples()
    ensures Prefix(0) == "A" && Prefix(25) == "Z" && Prefix(26) == "AB" && Prefix(27) == "BB" && Prefix(676) == "AAB"
  {
    assert Prefix(1) == "B";
    assert Prefix(26) == "AB";
    assert Prefix(676) == [PrefixChars[0]] + Prefix(26);
  }

  /** The setPrefix calls of bindNamespaces for the namespaces in the order the set yields them. */
  function Bindings(order: seq<string>): (r: seq<SinkEvent>)
    ensures |r| == |order|
    ensures forall i :: 0 <= i < |order| ==> r[i].SetPrefix?
  {
    seq(|order|, i requires 0 <= i < |order| => SetPrefix(Prefix(i), order[i]))
  }

  /**
   * After bindNamespaces every known namespace is bound, nothing else is,
   * and no prefix is used twice.
   */
  lemma BindingsBindEachOnce(order: seq<string>, known: set<string>)
    requires Enumerates(order, known)
    ensures var r := Bindings(order);
      (forall ns :: ns in known <==> exists i :: 0 <= i < |r| && r[i].namespace == ns) &&
      (forall i, j :: 0 <= i < j < |r| ==> r[i].prefix != r[j].prefix)
  {
    var r := Bindings(order);
    forall ns | ns in known
      ensures exists i :: 0 <= i < |r| && r[i].namespace == ns
    {
      var i :| 0 <= i < |order| && order[i] == ns;
      assert r[i].namespace == ns;
    }
    forall i, j | 0 <= i < j < |r|
      ensures r[i].prefix != r[j].prefix
    {
      PrefixInjective(i, j);
    }
  }

  /** The namespaces known after useNamespace: null and empty namespaces are ignored. */
  function WithNamespace(known: Option<set<string>>, ns: Option<string>): (r: Option<set<string>>)
    ensures (ns.None? || ns == Some("")) ==> r == known
    ensures ns.Some? && ns.value != "" ==> r.Some? && ns.value in r.value
    ensures ns.Some? && ns.value != "" ==> r.value == Known(known) + {ns.value}
  {
    if ns.None? || ns.value == "" then known else Some(Known(known) + {ns.value})
  }

  /** The known namespaces, none while the set has not been created. */
  function Known(known: Option<set<string>>): (r: set<string>)
    ensures known.None? ==> r == {}
  {
    if known.None? then {} else known.value
  }

  /** Announcing a namespace twice is the same as announcing it once. */
  lemma WithNamespaceIdempotent(known: Option<set<string>>, ns: Option<string>)
    ensures WithNamespace(WithNamespace(known, ns), ns) == WithNamespace(known, ns)
  {
  }

  /** Announcing namespaces in either order leaves the same namespaces known. */
  lemma WithNamespaceCommutes(known: Option<set<string>>, a: Option<string>, b: Option<string>)
    ensures WithNamespace(WithNamespace(known, a), b) == WithNamespace(WithNamespace(known, b), a)
  {
    if a.Some? && a.value != "" && b.Some? && b.value != "" {
      assert Known(known) + {a.value} + {b.value} == Known(known) + {b.value} + {a.value};
    }
  }

  class SerializerContext {
    /** The XmlContext the builders look descriptors up in; null means DEFAULT. */
    var xmlContext: XmlContext?
    /** knownNamespaces: None until the first namespace is announced. */
    var knownNamespaces: Option<set<string>>
    /** The calls the context's XmlSerializer has received so far. */
    var written: seq<SinkEvent>

    constructor (xmlContext: XmlContext?)
      ensures this.xmlContext == xmlContext && knownNamespaces == None && written == []
    {
      this.xmlContext := xmlContext;
      knownNamespaces := None;
      written := [];
    }
  }

  /** XmlObjectSerializer.useNamespace(String). */
  method UseNamespace(ctx: SerializerContext, ns: Option<string>)
    modifies ctx
    ensures ctx.knownNamespaces == WithNamespace(old(ctx.knownNamespaces), ns)
    ensures ctx.written == old(ctx.written) && ctx.xmlContext == old(ctx.xmlContext)
  {
    if ns.Some? && |ns.value| > 0 {
      if ctx.knownNamespaces.None? {
        ctx.knownNamespaces := Some({});
      }
      ctx.knownNamespaces := Some(ctx.knownNamespaces.value + {ns.value});
    }
  }

  /** XmlObjectSerializer.useNamespace(QualifiedName). */
  method UseNamespaceOf(ctx: SerializerContext, q: QualifiedName)
    modifies ctx
    ensures ctx.knownNamespaces == WithNamespace(old(ctx.knownNamespaces), q.namespace)
    ensures ctx.written == old(ctx.written) && ctx.xmlContext == old(ctx.xmlContext)
  {
    UseNamespace(ctx, q.namespace);
  }

  /** XmlObjectSerializer.useNamespace(ElementDescriptor). */
  method UseNamespaceOfElement(ctx: SerializerContext, d: ElementDescriptor)
    modifies ctx
    ensures ctx.knownNamespaces == WithNamespace(old(ctx.knownNamespaces), d.qualifiedName.namespace)
    ensures ctx.written == old(ctx.written) && ctx.xmlContext == old(ctx.xmlContext)
  {
    UseNamespace(ctx, d.qualifiedName.namespace);
  }

  /**
   * The do-while loop of bindNamespaces that builds the prefix for the
   * namespace with number `count`, one letter per base-26 digit.
   */
  method PrefixOf(count: nat) returns (prefix: string)
    ensures prefix == Prefix(count)
  {
    var num := count;
    prefix := [PrefixChars[num % 26]];
    num := num / 26;
    while num > 0
      invariant prefix + (if num > 0 then Prefix(num) else "") == Prefix(count)
      decreases num
    {
      prefix := prefix + [PrefixChars[num % 26]];
      num := num / 26;
    }
  }

  /**
   * XmlObjectSerializer.bindNamespaces: one setPrefix call per known
   * namespace, in the set's iteration order `order`.
   */
  method BindNamespaces(ctx: SerializerContext, order: seq<string>)
    requires Enumerates(order, Known(ctx.knownNamespaces))
    modifies ctx
    ensures ctx.written == old(ctx.written) + Bindings(order)
    ensures ctx.knownNamespaces == old(ctx.knownNamespaces) && ctx.xmlContext == old(ctx.xmlContext)
  {
    if ctx.knownNamespaces.None? {
      assert |order| == 0;
      assert Bindings(order) == [];
      return;
    }
    ghost var before := ctx.written;
    ghost var bindings := Bindings(order);
    var count := 0;
    while count < |order|
      invariant 0 <= count <= |order|
      invariant ctx.written == before + bindings[..count]
      invariant ctx.knownNamespaces == old(ctx.knownNamespaces) && ctx.xmlContext == old(ctx.xmlContext)
    {
      var prefix := PrefixOf(count);
      ctx.written := ctx.written + [SetPrefix(prefix, order[count])];
      assert bindings[count] == SetPrefix(prefix, order[count]);
      assert bindings[..count + 1] == bindings[..count] + [bindings[count]];
      count := count + 1;
    }
    assert bindings[..count] == bindings;
  }

  /** The document serialize writes for a root element, given the root's writeChild outcome. */
  function Document(bindings: seq<SinkEvent>, root: Written): (r: seq<SinkEvent>)
    ensures |r| == 1 + |bindings| + |root.events| + (if root.error.None? then 1 else 0)
    ensures r[0] == StartDocument && r[1..1 + |bindings|] == bindings
    ensures root.error.None? ==> r[|r| - 1] == EndDocument
  {
    [StartDocument] + bindings + root.events + (if root.error.None? then [EndDocument] else [])
  }

  /**
   * XmlObjectSerializer.serialize: starts the document, binds the root's
   * namespace and every namespace announced before, writes the root and
   * ends the document.  `order` is the iteration order of the known
   * namespaces, `scope` the descriptor maps of the context's XmlContext.
   * The document is ended only if writing the root raised nothing.
   */
  method Serialize(ctx: SerializerContext, registry: Registry, d: ElementDescriptor, root: Value, order: seq<string>, it: IterationOrder, fuel: nat)
    returns (error: Option<Exception>)
    requires Enumerates(order, Known(WithNamespace(ctx.knownNamespaces, d.qualifiedName.namespace)))
    modifies ctx
    ensures var w := WriteChild(d, root, old(registry.ScopeOf(ctx.xmlContext)), it, fuel);
      error == w.error && ctx.written == old(ctx.written) + Document(Bindings(order), w)
    ensures ctx.knownNamespaces == WithNamespace(old(ctx.knownNamespaces), d.qualifiedName.namespace)
  {
    var scope := registry.ScopeOf(ctx.xmlContext);
    ctx.written := ctx.written + [StartDocument];
    UseNamespaceOf(ctx, d.qualifiedName);
    BindNamespaces(ctx, order);
    ghost var prelude := ctx.written;
    assert prelude == old(ctx.written) + [StartDocument] + Bindings(order);
    var w := WriteChild(d, root, scope, it, fuel);
    WriteRoot(ctx, w);
    error := w.error;
    DocumentAfter(old(ctx.written), Bindings(order), w);
  }

  /** The events serialize appends, grouped as the document they form. */
  lemma DocumentAfter(before: seq<SinkEvent>, bindings: seq<SinkEvent>, w: Written)
    ensures before + [StartDocument] + bindings + w.events + (if w.error.None? then [EndDocument] else []) ==
            before + Document(bindings, w)
  {
  }

  /** The tail of serialize: the root's events, then the end of the document unless writing the root raised. */
  method WriteRoot(ctx: SerializerContext, w: Written)
    modifies ctx
    ensures ctx.written == old(ctx.written) + w.events + (if w.error.None? then [EndDocument] else [])
    ensures ctx.knownNamespaces == old(ctx.knownNamespaces) && ctx.xmlContext == old(ctx.xmlContext)
  {
    ctx.written := ctx.written + w.events;
    if w.error.None? {
      ctx.written := ctx.written + [EndDocument];
    }
  }

  /**
   * A document serialize completes is well formed: it starts and ends the
   * document, binds each known namespace to its own prefix before the
   * root, and its tags nest with every attribute right after its start tag.
   */
  lemma DocumentWellFormed(bindings: seq<SinkEvent>, d: ElementDescriptor, root: Value, scope: Scope, it: IterationOrder, fuel: nat)
    requires forall i :: 0 <= i < |bindings| ==> bindings[i].SetPrefix?
    requires WriteChild(d, root, scope, it, fuel).error.None?
    ensures var doc := Document(bindings, WriteChild(d, root, scope, it, fuel));
      doc[|doc| - 1] == EndDocument && doc[1 + |bindings|] == StartTag(TagOf(d.qualifiedName)) &&
      Closes(doc, []) == Some([]) && AttributesPlaced(doc)
  {
    var w := WriteChild(d, root, scope, it, fuel);
    WriteChildNests(d, root, scope, it, fuel, []);
    WriteChildPlacesAttributes(d, root, scope, it, fuel);
    DocumentNests(bindings, w);
  }

  /** The document around a root element that nests and places its attributes does so too. */
  lemma DocumentNests(bindings: seq<SinkEvent>, w: Written)
    requires forall i :: 0 <= i < |bindings| ==> bindings[i].SetPrefix?
    requires w.error.None? && Nests(w, []) && AttributesPlaced(w.events)
    ensures var doc := Document(bindings, w);
      Closes(doc, []) == Some([]) && AttributesPlaced(doc)
  {
    var head := [StartDocument] + bindings;
    NoTagsKeepOpen(head, []);
    ClosesAppend(head, w.events, []);
    ClosesAppend(head + w.events, [EndDocument], []);
    assert AttributesPlaced(head);
    AttributesPlacedAppend(head, w.events);
    AttributesPlacedAppend(head + w.events, [EndDocument]);
    assert Document(bindings, w) == head + w.events + [EndDocument];
  }

  /** Calls other than tags (attributes, texts, prefixes) open and close nothing. */
  lemma {:induction false} NoTagsKeepOpen(events: seq<SinkEvent>, open: seq<Tag>)
    requires forall i :: 0 <= i < |events| ==> !events[i].StartTag? && !events[i].EndTag?
    ensures Closes(events, open) == Some(open)
    decreases |events|
  {
    if |events| > 0 {
      NoTagsKeepOpen(events[1..], open);
    }
  }
}
