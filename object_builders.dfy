/**
 * The builder library of the current API (the builder/ package): the
 * IObjectBuilder operations, dispatched over the standard builders, with
 * AbstractObjectBuilder's defaults for whatever a builder does not override.
 *
 * A builder's writeAttributes/writeChildren call back into the serializer;
 * here they return the calls they make, in order, and the serializer
 * carries them out.
 */
module ObjectBuilders {
  import opened Wrappers
  import opened QualifiedNames
  import opened ElementDescriptors
  import opened JavaText

  /** A call on the serializer's IXmlChildWriter. */
  datatype ChildCall =
    | WriteChildCall(descriptor: ElementDescriptor?, child: Value)
    | WriteTextCall(text: Option<string>)

  /** A call on the serializer's IXmlAttributeWriter. */
  datatype AttributeCall = WriteAttributeCall(name: QualifiedName, value: Option<string>)

  /** A parsed child element as the parent's builder receives it. */
  datatype Child = Child(descriptor: ElementDescriptor, value: Value)

  /**
   * The iteration order of hash-based collections, which Java leaves
   * unspecified: the members of a set, the entries of a map (values()
   * visits the values in the order of the entries), and the entries of an
   * element map, each in the order iteration visits them.
   */
  datatype IterationOrder = IterationOrder(
    ofSet: set<Value> -> seq<Value>,
    ofMap: map<Value, Value> -> seq<(Value, Value)>,
    ofElementMap: map<ElementDescriptor, Value> -> seq<(ElementDescriptor, Value)>)

  /** `order` lists every member of `s` exactly once. */
  predicate Enumerates<T>(order: seq<T>, s: set<T>)
  {
    |order| == |s| && (forall x :: x in s ==> x in order) && (forall i :: 0 <= i < |order| ==> order[i] in s)
  }

  /** What Java promises of iterating over a collection: every member, every entry of a map, is visited once. */
  predicate VisitsOnce(it: IterationOrder, obj: Value)
  {
    match obj
      case VSet(s) => Enumerates(it.ofSet(s), s)
      case VMap(m) => Enumerates(it.ofMap(m), m.Items)
      case VElementMap(m) => Enumerates(it.ofElementMap(m), m.Items)
      case _ => true
  }

  /** A sequence has no more distinct elements than positions. */
  lemma {:induction false} ElementsBound<T>(q: seq<T>)
    ensures |set x | x in q| <= |q|
  {
    if |q| > 0 {
      ElementsBound(q[1..]);
      assert (set x | x in q) == (set x | x in q[1..]) + {q[0]};
    }
  }

  /** A subset is no larger than the set. */
  lemma SubsetBound<T>(a: set<T>, b: set<T>)
    requires a <= b
    ensures |a| <= |b|
  {
    assert b == a + (b - a);
  }

  /** An enumeration never visits a member twice. */
  lemma EnumeratesOnce<T>(order: seq<T>, s: set<T>)
    requires Enumerates(order, s)
    ensures forall i, j :: 0 <= i < j < |order| ==> order[i] != order[j]
  {
    forall i, j | 0 <= i < j < |order|
      ensures order[i] != order[j]
    {
      if order[i] == order[j] {
        var rest := order[..j] + order[j + 1..];
        var seen := set x | x in rest;
        forall x | x in s
          ensures x in seen
        {
          var k :| 0 <= k < |order| && order[k] == x;
          if k < j {
            assert rest[k] == x;
          } else if k == j {
            assert rest[i] == x;
          } else {
            assert rest[k - 1] == x;
          }
        }
        SubsetBound(s, seen);
        ElementsBound(rest);
        assert false;
      }
    }
  }

  /**
   * The child test of ListObjectBuilder, SetObjectBuilder and
   * TransientObjectBuilder: the configured descriptor, or, when none is
   * configured, any descriptor whose builder is the configured builder.
   */
  predicate Selects(configured: ElementDescriptor?, configuredBuilder: ObjectBuilder?, child: ElementDescriptor)
  {
    child == configured || (configured == null && configuredBuilder == child.builder)
  }

  /** The instance a builder's get returns: an empty collection, or null for the other builders. */
  function Fresh(kind: BuilderKind): Value
  {
    match kind
      case ListOf(_, _) => VList([])
      case SetOf(_, _, _) => VSet({})
      case MapOf(_, _) => VMap(map[])
      case ElementMap => VElementMap(map[])
      case _ => VNull
  }

  predicate SameShape(a: Value, b: Value)
  {
    (a.VList? && b.VList?) || (a.VSet? && b.VSet?) || (a.VMap? && b.VMap?) || (a.VElementMap? && b.VElementMap?)
  }

  /**
   * IObjectBuilder.get.  The collection builders clear and return a
   * recycled instance, or create an empty one; every other builder returns
   * null (AbstractObjectBuilder).  Recycling never carries old contents
   * over.
   */
  function Get(b: ObjectBuilder?, recycle: Value): (r: Result<Value>)
    ensures b == null ==> r == Failure(NullPointer)
    ensures b != null && (recycle == VNull || SameShape(recycle, Fresh(b.kind))) ==> r == Success(Fresh(b.kind))
    ensures b != null && Fresh(b.kind) == VNull ==> r == Success(VNull)
    ensures r.Failure? ==> r.error == NullPointer || (r.error == ClassCast && recycle != VNull)
  {
    if b == null then Failure(NullPointer)
    else
      var empty := Fresh(b.kind);
      if empty == VNull || recycle == VNull || SameShape(recycle, empty) then Success(empty)
      else Failure(ClassCast)
  }

  /**
   * IObjectBuilder.update(attribute): only StringAttributeObjectBuilder
   * takes its configured attribute's value; every other attribute, and
   * every other builder, leaves the object as it is.
   */
  function UpdateAttribute(b: ObjectBuilder?, obj: Value, attribute: QualifiedName, value: string): (r: Result<Value>)
    ensures b == null <==> r.Failure?
    ensures r.Success? && r.value != obj ==> b.kind.StringAttribute? && b.kind.attribute == attribute && r.value == VStr(value)
    ensures b != null && b.kind.StringAttribute? && b.kind.attribute == attribute ==> r == Success(VStr(value))
  {
    if b == null then Failure(NullPointer)
    else match b.kind
      case StringAttribute(a) => Success(if a == attribute then VStr(value) else obj)
      case _ => Success(obj)
  }

  /**
   * IntegerObjectBuilder's text update: the strict builder parses the text
   * as it is and fails on anything that is not an int; the lenient builder
   * trims the text first and yields null instead of failing.
   */
  function IntegerText(strict: bool, text: string): (r: Result<Value>)
    ensures strict ==> (r.Failure? <==> ParseInt(text).None?)
    ensures strict && r.Success? ==> r.value == VInt(ParseInt(text).value)
    ensures !strict ==> r.Success?
    ensures !strict ==> (r.value == VNull <==> ParseInt(Trim(text)).None?)
    ensures !strict && r.value != VNull ==> r.value == VInt(ParseInt(Trim(text)).value)
    ensures r.Success? && r.value.VInt? ==> IsInt32(r.value.i)
    ensures r.Failure? ==> r.error == PullParserFailure
  {
    match ParseInt(if strict then text else Trim(text))
      case Some(n) => Success(VInt(n))
      case None => if strict then Failure(PullParserFailure) else Success(VNull)
  }

  /** UriObjectBuilder's text update, with the same strict/lenient policy as the integer builder. */
  function UriText(strict: bool, parse: string -> Option<Uri>, text: string): (r: Result<Value>)
    ensures strict ==> (r.Failure? <==> parse(text).None?)
    ensures strict && r.Success? ==> r.value == VUri(parse(text).value)
    ensures !strict ==> r.Success?
    ensures !strict ==> (r.value == VNull <==> parse(Trim(text)).None?)
    ensures !strict && r.value != VNull ==> r.value == VUri(parse(Trim(text)).value)
    ensures r.Failure? ==> r.error == PullParserFailure
  {
    match parse(if strict then text else Trim(text))
      case Some(u) => Success(VUri(u))
      case None => if strict then Failure(PullParserFailure) else Success(VNull)
  }

  /**
   * IObjectBuilder.update(text): StringObjectBuilder keeps the text, the
   * integer and URI builders parse it, the other builders ignore it.
   */
  function UpdateText(b: ObjectBuilder?, obj: Value, text: string): (r: Result<Value>)
    ensures b == null ==> r == Failure(NullPointer)
    ensures b != null && b.kind.Text? ==> r == Success(VStr(text))
    ensures b != null && b.kind.Integer? ==> r == IntegerText(b.kind.strict, text)
    ensures b != null && b.kind.UriText? ==> r == UriText(b.kind.strict, b.kind.parse, text)
    ensures b != null && !(b.kind.Text? || b.kind.Integer? || b.kind.UriText?) ==> r == Success(obj)
  {
    if b == null then Failure(NullPointer)
    else match b.kind
      case Text => Success(VStr(text))
      case Integer(strict) => IntegerText(strict, text)
      case UriText(strict, parse) => UriText(strict, parse, text)
      case _ => Success(obj)
  }

  /** List.add: a null list is a NullPointerException. */
  function Append(obj: Value, child: Value): (r: Result<Value>)
    ensures obj.VList? ==> r == Success(VList(obj.elements + [child]))
    ensures !obj.VList? ==> r.Failure?
  {
    match obj
      case VList(l) => Success(VList(l + [child]))
      case VNull => Failure(NullPointer)
      case _ => Failure(ClassCast)
  }

  /** Set.add. */
  function Add(obj: Value, child: Value): (r: Result<Value>)
    ensures obj.VSet? ==> r == Success(VSet(obj.members + {child}))
    ensures !obj.VSet? ==> r.Failure?
  {
    match obj
      case VSet(s) => Success(VSet(s + {child}))
      case VNull => Failure(NullPointer)
      case _ => Failure(ClassCast)
  }

  /** Map.put. */
  function Put(obj: Value, key: Value, child: Value): (r: Result<Value>)
    ensures obj.VMap? ==> r == Success(VMap(obj.entries[key := child]))
    ensures !obj.VMap? ==> r.Failure?
  {
    match obj
      case VMap(m) => Success(VMap(m[key := child]))
      case VNull => Failure(NullPointer)
      case _ => Failure(ClassCast)
  }

  /** ElementMapObjectBuilder's Map.put. */
  function PutElement(obj: Value, key: ElementDescriptor, child: Value): (r: Result<Value>)
    ensures obj.VElementMap? ==> r == Success(VElementMap(obj.children[key := child]))
    ensures !obj.VElementMap? ==> r.Failure?
  {
    match obj
      case VElementMap(m) => Success(VElementMap(m[key := child]))
      case VNull => Failure(NullPointer)
      case _ => Failure(ClassCast)
  }

  /** Whether a builder takes a child in: the condition under which UpdateChild changes the object. */
  predicate Takes(kind: BuilderKind, c: Child)
  {
    match kind
      case ListOf(ed, eb) => Selects(ed, eb, c.descriptor)
      case SetOf(ed, eb, storeNull) => Selects(ed, eb, c.descriptor) && (c.value != VNull || storeNull)
      case MapOf(mapper, cd) => c.descriptor == cd && mapper(cd, c.value) != VNull
      case ElementMap => true
      case Transient(cd, cb) => Selects(cd, cb, c.descriptor)
      case _ => false
  }

  /**
   * IObjectBuilder.update(child): the list and set builders add a selected
   * child, the map builder files it under its mapper's index, the element
   * map under its descriptor, and the transient builder returns it in place
   * of the object.  A child the builder does not take leaves the object
   * unchanged.
   */
  function UpdateChild(b: ObjectBuilder?, obj: Value, c: Child): (r: Result<Value>)
    ensures b == null ==> r == Failure(NullPointer)
    ensures b != null && !Takes(b.kind, c) ==> r == Success(obj)
    ensures b != null && Takes(b.kind, c) && b.kind.Transient? ==> r == Success(c.value)
    ensures b != null && Takes(b.kind, c) && b.kind.ListOf? ==> r == Append(obj, c.value)
    ensures b != null && Takes(b.kind, c) && b.kind.SetOf? ==> r == Add(obj, c.value)
  {
    if b == null then Failure(NullPointer)
    else if !Takes(b.kind, c) then Success(obj)
    else match b.kind
      case ListOf(_, _) => Append(obj, c.value)
      case SetOf(_, _, _) => Add(obj, c.value)
      case MapOf(mapper, cd) => Put(obj, mapper(cd, c.value), c.value)
      case ElementMap => PutElement(obj, c.descriptor, c.value)
      case Transient(_, _) => Success(c.value)
      case _ => Success(obj)
  }

  /**
   * The builders whose child update adds to the object it is given and
   * returns that same instance (ListObjectBuilder, SetObjectBuilder,
   * MapObjectBuilder, ElementMapObjectBuilder): whoever else holds the
   * instance sees the child too.
   */
  predicate InPlace(b: ObjectBuilder?)
  {
    b != null && (b.kind.ListOf? || b.kind.SetOf? || b.kind.MapOf? || b.kind.ElementMap?)
  }

  /** IObjectBuilder.update(anonymous child): no standard builder overrides the default, which keeps the object. */
  function UpdateAnonymousChild(b: ObjectBuilder?, obj: Value, name: QualifiedName, anonymous: Value): (r: Result<Value>)
    ensures b == null <==> r.Failure?
    ensures r.Success? ==> r.value == obj
  {
    if b == null then Failure(NullPointer) else Success(obj)
  }

  /** IObjectBuilder.finish: no standard builder overrides the default, which returns the object as built. */
  function Finish(b: ObjectBuilder?, obj: Value): (r: Result<Value>)
    ensures b == null <==> r.Failure?
    ensures r.Success? ==> r.value == obj
  {
    if b == null then Failure(NullPointer) else Success(obj)
  }

  /** The child updates an element's builder receives, in document order. */
  function ApplyChildren(b: ObjectBuilder?, obj: Value, children: seq<Child>): Result<Value>
  {
    if |children| == 0 then Success(obj)
    else match ApplyChildren(b, obj, children[..|children| - 1])
      case Failure(e) => Failure(e)
      case Success(o) => UpdateChild(b, o, children[|children| - 1])
  }

  /** The values of the children a builder takes, in order. */
  function Taken(kind: BuilderKind, children: seq<Child>): (r: seq<Value>)
    ensures |r| <= |children|
  {
    if |children| == 0 then []
    else
      var last := children[|children| - 1];
      Taken(kind, children[..|children| - 1]) + (if Takes(kind, last) then [last.value] else [])
  }

  /**
   * A list builder's object holds exactly the children it selects, in
   * document order, after whatever it held before.
   */
  lemma {:induction false} ListCollectsInOrder(b: ObjectBuilder, l: seq<Value>, children: seq<Child>)
    requires b.kind.ListOf?
    ensures ApplyChildren(b, VList(l), children) == Success(VList(l + Taken(b.kind, children)))
  {
    if |children| > 0 {
      var init, last := children[..|children| - 1], children[|children| - 1];
      ListCollectsInOrder(b, l, init);
      assert ApplyChildren(b, VList(l), children) == UpdateChild(b, VList(l + Taken(b.kind, init)), last);
      if Takes(b.kind, last) {
        assert l + Taken(b.kind, children) == (l + Taken(b.kind, init)) + [last.value];
      } else {
        assert Taken(b.kind, children) == Taken(b.kind, init);
      }
    } else {
      assert l + Taken(b.kind, children) == l;
    }
  }

  /** The members of a sequence. */
  function Elements(xs: seq<Value>): (r: set<Value>)
    ensures forall v :: v in r ==> v in xs
    ensures forall i :: 0 <= i < |xs| ==> xs[i] in r
  {
    set i | 0 <= i < |xs| :: xs[i]
  }

  /**
   * A set builder's object holds the selected children, null ones only
   * when it stores nulls.
   */
  lemma {:induction false} SetCollects(b: ObjectBuilder, s: set<Value>, children: seq<Child>)
    requires b.kind.SetOf?
    ensures ApplyChildren(b, VSet(s), children) == Success(VSet(s + Elements(Taken(b.kind, children))))
    ensures VNull in Taken(b.kind, children) ==> b.kind.storeNull
  {
    if |children| > 0 {
      var init, last := children[..|children| - 1], children[|children| - 1];
      SetCollects(b, s, init);
      assert ApplyChildren(b, VSet(s), children) == UpdateChild(b, VSet(s + Elements(Taken(b.kind, init))), last);
      if Takes(b.kind, last) {
        assert Taken(b.kind, children) == Taken(b.kind, init) + [last.value];
        ElementsSnoc(Taken(b.kind, init), last.value);
        assert s + Elements(Taken(b.kind, init)) + {last.value} == s + Elements(Taken(b.kind, children));
      } else {
        assert Taken(b.kind, children) == Taken(b.kind, init);
      }
    } else {
      assert Taken(b.kind, children) == [];
      assert Elements([]) == {};
      assert s + Elements(Taken(b.kind, children)) == s;
    }
  }

  lemma ElementsSnoc(xs: seq<Value>, x: Value)
    ensures Elements(xs + [x]) == Elements(xs) + {x}
  {
    var ys := xs + [x];
    forall v | v in Elements(ys) ensures v in Elements(xs) + {x} {
      var i :| 0 <= i < |ys| && ys[i] == v;
      if i < |xs| { assert xs[i] == v; }
    }
    forall v | v in Elements(xs) + {x} ensures v in Elements(ys) {
      if v == x { assert ys[|xs|] == x; } else { var i :| 0 <= i < |xs| && xs[i] == v; assert ys[i] == v; }
    }
  }

  /**
   * TransientObjectBuilder: the result is the last selected child, or the
   * object itself when no child is selected.
   */
  lemma {:induction false} TransientKeepsLast(b: ObjectBuilder, obj: Value, children: seq<Child>)
    requires b.kind.Transient?
    ensures ApplyChildren(b, obj, children) ==
      Success(if |Taken(b.kind, children)| == 0 then obj else Taken(b.kind, children)[|Taken(b.kind, children)| - 1])
  {
    if |children| > 0 {
      TransientKeepsLast(b, obj, children[..|children| - 1]);
    }
  }

  /** The last child with a given descriptor, if any. */
  function LastWith(children: seq<Child>, d: ElementDescriptor): Option<Value>
  {
    if |children| == 0 then None
    else if children[|children| - 1].descriptor == d then Some(children[|children| - 1].value)
    else LastWith(children[..|children| - 1], d)
  }

  /**
   * ElementMapObjectBuilder: each child descriptor maps to the last child
   * parsed with it; a descriptor no child had keeps its old entry.
   */
  lemma {:induction false} ElementMapKeepsLastPerDescriptor(b: ObjectBuilder, m: map<ElementDescriptor, Value>, children: seq<Child>)
    requires b.kind.ElementMap?
    ensures ApplyChildren(b, VElementMap(m), children).Success?
    ensures forall d :: d in ApplyChildren(b, VElementMap(m), children).value.children <==> d in m || LastWith(children, d).Some?
    ensures forall d :: LastWith(children, d).Some? ==> ApplyChildren(b, VElementMap(m), children).value.children[d] == LastWith(children, d).value
    ensures forall d :: d in m && LastWith(children, d).None? ==> ApplyChildren(b, VElementMap(m), children).value.children[d] == m[d]
  {
    if |children| > 0 {
      ElementMapKeepsLastPerDescriptor(b, m, children[..|children| - 1]);
    }
  }

  /** The last child a map builder takes whose mapper index is `key`, if any. */
  function LastIndexed(kind: BuilderKind, children: seq<Child>, key: Value): Option<Value>
    requires kind.MapOf?
  {
    if |children| == 0 then None
    else
      var last := children[|children| - 1];
      if Takes(kind, last) && kind.mapper(kind.childDescriptor, last.value) == key then Some(last.value)
      else LastIndexed(kind, children[..|children| - 1], key)
  }

  /**
   * MapObjectBuilder: each index maps to the last child of the configured
   * descriptor that the mapper filed under it; children the mapper gives
   * no index are dropped, and a key no child was filed under keeps its
   * old entry.
   */
  lemma {:induction false} MapKeepsLastPerIndex(b: ObjectBuilder, m: map<Value, Value>, children: seq<Child>)
    requires b.kind.MapOf?
    ensures ApplyChildren(b, VMap(m), children).Success? && ApplyChildren(b, VMap(m), children).value.VMap?
    ensures forall k :: k in ApplyChildren(b, VMap(m), children).value.entries <==> k in m || LastIndexed(b.kind, children, k).Some?
    ensures forall k :: LastIndexed(b.kind, children, k).Some? ==> ApplyChildren(b, VMap(m), children).value.entries[k] == LastIndexed(b.kind, children, k).value
    ensures forall k :: k in m && LastIndexed(b.kind, children, k).None? ==> ApplyChildren(b, VMap(m), children).value.entries[k] == m[k]
    ensures LastIndexed(b.kind, children, VNull).None?
  {
    if |children| > 0 {
      var init, last := children[..|children| - 1], children[|children| - 1];
      MapKeepsLastPerIndex(b, m, init);
      var before := ApplyChildren(b, VMap(m), init).value;
      assert ApplyChildren(b, VMap(m), children) == UpdateChild(b, before, last);
    }
  }

  /** A String object as the writers receive it; any other object is a ClassCastException. */
  function AsText(v: Value): (r: Result<Option<string>>)
    ensures v.VStr? ==> r == Success(Some(v.s))
    ensures v == VNull ==> r == Success(None)
    ensures r.Failure? <==> !(v.VStr? || v == VNull)
  {
    match v
      case VStr(s) => Success(Some(s))
      case VNull => Success(None)
      case _ => Failure(ClassCast)
  }

  /**
   * IObjectBuilder.writeAttributes: StringAttributeObjectBuilder writes
   * its attribute with the object as value; the others write none.
   */
  function WriteAttributes(b: ObjectBuilder, obj: Value): (r: Result<seq<AttributeCall>>)
    ensures !b.kind.StringAttribute? ==> r == Success([])
    ensures b.kind.StringAttribute? && r.Success? ==> |r.value| == 1 && r.value[0].name == b.kind.attribute
  {
    match b.kind
      case StringAttribute(a) =>
        (match AsText(obj)
          case Success(t) => Success([WriteAttributeCall(a, t)])
          case Failure(e) => Failure(e))
      case _ => Success([])
  }

  /**
   * The writer call for one collection element: the configured descriptor,
   * or, when none is configured and the element is a qualified name, the
   * descriptor registered for that name.
   */
  function ElementCall(configured: ElementDescriptor?, element: Value, scope: Scope): (r: ChildCall)
    ensures r.WriteChildCall? && r.child == element
    ensures configured != null ==> r.descriptor == configured
  {
    if configured == null && element.VName? then WriteChildCall(Resolve(scope, element.q), element)
    else WriteChildCall(configured, element)
  }

  function ElementCalls(configured: ElementDescriptor?, elements: seq<Value>, scope: Scope): (r: seq<ChildCall>)
    ensures |r| == |elements|
    ensures forall i :: 0 <= i < |elements| ==> r[i] == ElementCall(configured, elements[i], scope)
  {
    seq(|elements|, i requires 0 <= i < |elements| => ElementCall(configured, elements[i], scope))
  }

  /**
   * ListObjectBuilder.writeChildren: one child write per element, in list
   * order.
   */
  method ListWriteChildren(configured: ElementDescriptor?, elements: seq<Value>, scope: Scope) returns (calls: seq<ChildCall>)
    ensures calls == ElementCalls(configured, elements, scope)
  {
    calls := [];
    var i := 0;
    while i < |elements|
      invariant 0 <= i <= |elements|
      invariant calls == ElementCalls(configured, elements[..i], scope)
    {
      var element := elements[i];
      if configured == null && element.VName? {
        calls := calls + [WriteChildCall(Resolve(scope, element.q), element)];
      } else {
        calls := calls + [WriteChildCall(configured, element)];
      }
      i := i + 1;
    }
    assert elements[..i] == elements;
  }

  /**
   * SetObjectBuilder.writeChildren: one child write per member, in the
   * set's iteration order.
   */
  method SetWriteChildren(configured: ElementDescriptor?, members: set<Value>, order: seq<Value>, scope: Scope) returns (calls: seq<ChildCall>)
    requires Enumerates(order, members)
    ensures calls == ElementCalls(configured, order, scope)
    ensures |calls| == |members|
    ensures forall v :: v in members <==> exists i :: 0 <= i < |calls| && calls[i] == ElementCall(configured, v, scope)
    ensures forall i, j :: 0 <= i < j < |calls| ==> calls[i].child != calls[j].child
  {
    calls := [];
    var i := 0;
    while i < |order|
      invariant 0 <= i <= |order|
      invariant calls == ElementCalls(configured, order[..i], scope)
    {
      calls := calls + [ElementCall(configured, order[i], scope)];
      i := i + 1;
    }
    assert order[..i] == order;
    EnumeratesOnce(order, members);
    forall v | v in members
      ensures exists i :: 0 <= i < |calls| && calls[i] == ElementCall(configured, v, scope)
    {
      var k :| 0 <= k < |order| && order[k] == v;
      assert calls[k] == ElementCall(configured, v, scope);
    }
  }

  /** One child write per visited entry's value, under one descriptor. */
  function ValueCalls(cd: ElementDescriptor?, entries: seq<(Value, Value)>): (r: seq<ChildCall>)
    ensures |r| == |entries|
    ensures forall i :: 0 <= i < |entries| ==> r[i] == WriteChildCall(cd, entries[i].1)
  {
    seq(|entries|, i requires 0 <= i < |entries| => WriteChildCall(cd, entries[i].1))
  }

  /** One child write per visited entry, under the entry's own descriptor. */
  function EntryCalls(entries: seq<(ElementDescriptor, Value)>): (r: seq<ChildCall>)
    ensures |r| == |entries|
    ensures forall i :: 0 <= i < |entries| ==> r[i] == WriteChildCall(entries[i].0, entries[i].1)
  {
    seq(|entries|, i requires 0 <= i < |entries| => WriteChildCall(entries[i].0, entries[i].1))
  }

  /**
   * MapObjectBuilder.writeChildren: the value of each entry, in the order
   * values() visits them, written with the configured child descriptor.
   */
  method MapWriteChildren(configured: ElementDescriptor?, m: map<Value, Value>, entries: seq<(Value, Value)>)
    returns (calls: seq<ChildCall>)
    requires Enumerates(entries, m.Items)
    ensures calls == ValueCalls(configured, entries)
    ensures |calls| == |m|
    ensures forall i :: 0 <= i < |calls| ==> entries[i].0 in m && calls[i] == WriteChildCall(configured, m[entries[i].0])
    ensures forall k :: k in m ==> exists i :: 0 <= i < |calls| && entries[i].0 == k && calls[i] == WriteChildCall(configured, m[k])
    ensures forall i, j :: 0 <= i < j < |calls| ==> entries[i].0 != entries[j].0
  {
    calls := [];
    var i := 0;
    while i < |entries|
      invariant 0 <= i <= |entries|
      invariant |calls| == i
      invariant forall j :: 0 <= j < i ==> calls[j] == WriteChildCall(configured, entries[j].1)
    {
      calls := calls + [WriteChildCall(configured, entries[i].1)];
      i := i + 1;
    }
    EntriesOnce(m, entries);
  }

  /** An enumeration of a map's entries visits every key once, with its value. */
  lemma EntriesOnce<K, V>(m: map<K, V>, entries: seq<(K, V)>)
    requires Enumerates(entries, m.Items)
    ensures |entries| == |m|
    ensures forall i :: 0 <= i < |entries| ==> entries[i].0 in m && entries[i].1 == m[entries[i].0]
    ensures forall k :: k in m ==> exists i :: 0 <= i < |entries| && entries[i] == (k, m[k])
    ensures forall i, j :: 0 <= i < j < |entries| ==> entries[i].0 != entries[j].0
  {
    assert |m.Items| == |m|;
    forall k | k in m
      ensures exists i :: 0 <= i < |entries| && entries[i] == (k, m[k])
    {
      assert (k, m[k]) in m.Items;
    }
    EnumeratesOnce(entries, m.Items);
  }

  /**
   * ElementMapObjectBuilder.writeChildren: each entry, in the order
   * entrySet() visits them, written as a child with its own descriptor.
   */
  method ElementMapWriteChildren(m: map<ElementDescriptor, Value>, entries: seq<(ElementDescriptor, Value)>)
    returns (calls: seq<ChildCall>)
    requires Enumerates(entries, m.Items)
    ensures calls == EntryCalls(entries)
    ensures |calls| == |m|
    ensures forall i :: 0 <= i < |calls| ==> calls[i].WriteChildCall? && calls[i].descriptor == entries[i].0
    ensures forall i :: 0 <= i < |calls| ==> entries[i].0 in m && calls[i] == WriteChildCall(entries[i].0, m[entries[i].0])
    ensures forall d :: d in m ==> WriteChildCall(d, m[d]) in calls
    ensures forall i, j :: 0 <= i < j < |calls| ==> calls[i].descriptor != calls[j].descriptor
  {
    calls := [];
    var i := 0;
    while i < |entries|
      invariant 0 <= i <= |entries|
      invariant |calls| == i
      invariant forall j :: 0 <= j < i ==> calls[j] == WriteChildCall(entries[j].0, entries[j].1)
    {
      calls := calls + [WriteChildCall(entries[i].0, entries[i].1)];
      i := i + 1;
    }
    EntriesOnce(m, entries);
    forall d | d in m
      ensures WriteChildCall(d, m[d]) in calls
    {
      var k :| 0 <= k < |entries| && entries[k] == (d, m[d]);
      assert calls[k] == WriteChildCall(d, m[d]);
    }
  }

  /**
   * IObjectBuilder.writeChildren: the child-writer calls a builder makes
   * for its object.  A null object writes nothing, except that the strict
   * integer and URI builders refuse it with an IllegalStateException.
   */
  function WriteChildren(b: ObjectBuilder, obj: Value, scope: Scope, it: IterationOrder): (r: Result<seq<ChildCall>>)
    ensures obj == VNull && r.Success? && !b.kind.Text? ==> r.value == []
    ensures r.Failure? && obj == VNull ==> r.error == IllegalState && (b.kind.Integer? || b.kind.UriText?) && b.kind.strict
    ensures r.Success? && (b.kind.ListOf? || b.kind.SetOf? || b.kind.MapOf? || b.kind.ElementMap? || b.kind.Transient?) ==>
      forall c :: c in r.value ==> c.WriteChildCall?
  {
    match b.kind
      case Text =>
        (match AsText(obj)
          case Success(t) => Success([WriteTextCall(t)])
          case Failure(e) => Failure(e))
      case Integer(strict) =>
        (match obj
          case VInt(n) => Success([WriteTextCall(Some(IntToString(n)))])
          case VNull => if strict then Failure(IllegalState) else Success([])
          case _ => Failure(ClassCast))
      case UriText(strict, _) =>
        (match obj
          case VUri(u) => Success([WriteTextCall(Some(u.ascii))])
          case VNull => if strict then Failure(IllegalState) else Success([])
          case _ => Failure(ClassCast))
      case ListOf(ed, _) =>
        (match obj
          case VList(l) => Success(ElementCalls(ed, l, scope))
          case VNull => Success([])
          case _ => Failure(ClassCast))
      case SetOf(ed, _, _) =>
        (match obj
          case VSet(s) => Success(ElementCalls(ed, it.ofSet(s), scope))
          case VNull => Success([])
          case _ => Failure(ClassCast))
      case MapOf(_, cd) =>
        (match obj
          case VMap(m) =>
            Success(ValueCalls(cd, it.ofMap(m)))
          case VNull => Success([])
          case _ => Failure(ClassCast))
      case ElementMap =>
        (match obj
          case VElementMap(m) =>
            Success(EntryCalls(it.ofElementMap(m)))
          case VNull => Success([])
          case _ => Failure(ClassCast))
      case Transient(cd, _) =>
        if obj == VNull then Success([]) else Success([ElementCall(cd, obj, scope)])
      case _ => Success([])
  }

  /**
   * Iterating as Java does, SetObjectBuilder writes every member of the
   * set once, with the configured descriptor or the one registered for a
   * qualified name, and nothing else.
   */
  lemma SetWritesEachMember(b: ObjectBuilder, members: set<Value>, scope: Scope, it: IterationOrder)
    requires b.kind.SetOf? && VisitsOnce(it, VSet(members))
    ensures var r := WriteChildren(b, VSet(members), scope, it);
      r.Success? && |r.value| == |members| &&
      (forall v :: v in members ==> ElementCall(b.kind.elementDescriptor, v, scope) in r.value) &&
      (forall i :: 0 <= i < |r.value| ==> r.value[i].WriteChildCall? && r.value[i].child in members) &&
      (forall i, j :: 0 <= i < j < |r.value| ==> r.value[i].child != r.value[j].child)
  {
    var order := it.ofSet(members);
    var calls := ElementCalls(b.kind.elementDescriptor, order, scope);
    EnumeratesOnce(order, members);
    forall v | v in members
      ensures ElementCall(b.kind.elementDescriptor, v, scope) in calls
    {
      var k :| 0 <= k < |order| && order[k] == v;
      assert calls[k] == ElementCall(b.kind.elementDescriptor, v, scope);
    }
  }

  /**
   * Iterating as Java does, MapObjectBuilder writes the value of every
   * entry once, in the order of the visited keys, with the configured
   * child descriptor.
   */
  lemma MapWritesEachValue(b: ObjectBuilder, m: map<Value, Value>, scope: Scope, it: IterationOrder)
    requires b.kind.MapOf? && VisitsOnce(it, VMap(m))
    ensures var r := WriteChildren(b, VMap(m), scope, it);
      var keys := it.ofMap(m);
      r.Success? && |r.value| == |m| &&
      (forall i :: 0 <= i < |r.value| ==> keys[i].0 in m && r.value[i] == WriteChildCall(b.kind.childDescriptor, m[keys[i].0])) &&
      (forall i, j :: 0 <= i < j < |r.value| ==> keys[i].0 != keys[j].0) &&
      (forall k :: k in m ==> WriteChildCall(b.kind.childDescriptor, m[k]) in r.value)
  {
    var entries := it.ofMap(m);
    var calls := ValueCalls(b.kind.childDescriptor, entries);
    assert WriteChildren(b, VMap(m), scope, it) == Success(calls);
    EntriesOnce(m, entries);
    forall k | k in m
      ensures WriteChildCall(b.kind.childDescriptor, m[k]) in calls
    {
      var i :| 0 <= i < |entries| && entries[i] == (k, m[k]);
      assert calls[i] == WriteChildCall(b.kind.childDescriptor, m[k]);
    }
  }

  /**
   * Iterating as Java does, ElementMapObjectBuilder writes every entry
   * once, as a child under its own descriptor, and no descriptor twice.
   */
  lemma ElementMapWritesEachEntry(b: ObjectBuilder, m: map<ElementDescriptor, Value>, scope: Scope, it: IterationOrder)
    requires b.kind.ElementMap? && VisitsOnce(it, VElementMap(m))
    ensures var r := WriteChildren(b, VElementMap(m), scope, it);
      var entries := it.ofElementMap(m);
      r.Success? && |r.value| == |m| &&
      (forall i :: 0 <= i < |r.value| ==> entries[i].0 in m && r.value[i] == WriteChildCall(entries[i].0, m[entries[i].0])) &&
      (forall i, j :: 0 <= i < j < |r.value| ==> r.value[i].descriptor != r.value[j].descriptor) &&
      (forall d :: d in m ==> WriteChildCall(d, m[d]) in r.value)
  {
    var entries := it.ofElementMap(m);
    var calls := EntryCalls(entries);
    assert WriteChildren(b, VElementMap(m), scope, it) == Success(calls);
    EntriesOnce(m, entries);
    forall d | d in m
      ensures WriteChildCall(d, m[d]) in calls
    {
      var i :| 0 <= i < |entries| && entries[i] == (d, m[d]);
      assert calls[i] == WriteChildCall(d, m[d]);
    }
  }

  /** What StringObjectBuilder writes as text it reads back unchanged. */
  lemma StringRoundTrip(b: ObjectBuilder, s: string, previous: Value, scope: Scope, it: IterationOrder)
    requires b.kind.Text?
    ensures WriteChildren(b, VStr(s), scope, it) == Success([WriteTextCall(Some(s))])
    ensures UpdateText(b, previous, s) == Success(VStr(s))
  {
  }

  /**
   * What IntegerObjectBuilder writes it reads back, strict or lenient, for
   * every int.
   */
  lemma IntegerRoundTrip(b: ObjectBuilder, n: int, previous: Value, scope: Scope, it: IterationOrder)
    requires b.kind.Integer? && IsInt32(n)
    ensures WriteChildren(b, VInt(n), scope, it) == Success([WriteTextCall(Some(IntToString(n)))])
    ensures UpdateText(b, previous, IntToString(n)) == Success(VInt(n))
  {
    IntRoundTrip(n);
  }

  /**
   * What UriObjectBuilder writes it reads back, provided the URI parser
   * reads a URI's ASCII form back as that URI (and, for the lenient
   * builder, that form has no blanks at either end).
   */
  lemma UriRoundTrip(b: ObjectBuilder, u: Uri, previous: Value, scope: Scope, it: IterationOrder)
    requires b.kind.UriText?
    requires b.kind.parse(u.ascii) == Some(u) && Trim(u.ascii) == u.ascii
    ensures WriteChildren(b, VUri(u), scope, it) == Success([WriteTextCall(Some(u.ascii))])
    ensures UpdateText(b, previous, u.ascii) == Success(VUri(u))
  {
    var text := if b.kind.strict then u.ascii else Trim(u.ascii);
    assert text == u.ascii;
    assert UriText(b.kind.strict, b.kind.parse, u.ascii) == Success(VUri(u));
  }

  /** What StringAttributeObjectBuilder writes as its attribute it reads back. */
  lemma StringAttributeRoundTrip(b: ObjectBuilder, s: string, previous: Value)
    requires b.kind.StringAttribute?
    ensures WriteAttributes(b, VStr(s)) == Success([WriteAttributeCall(b.kind.attribute, Some(s))])
    ensures UpdateAttribute(b, previous, b.kind.attribute, s) == Success(VStr(s))
  {
  }

  /**
   * A list configured with an element descriptor writes back the children
   * it collected: after get and the child updates, writeChildren makes one
   * child write per collected child, in order, under that descriptor.
   */
  lemma {:induction false} ListRoundTrip(b: ObjectBuilder, children: seq<Child>, scope: Scope, it: IterationOrder)
    requires b.kind.ListOf? && b.kind.elementDescriptor != null
    requires forall i :: 0 <= i < |children| ==> children[i].descriptor == b.kind.elementDescriptor
    ensures Get(b, VNull) == Success(VList([]))
    ensures ApplyChildren(b, VList([]), children).Success?
    ensures WriteChildren(b, ApplyChildren(b, VList([]), children).value, scope, it) ==
      Success(seq(|children|, i requires 0 <= i < |children| => WriteChildCall(children[i].descriptor, children[i].value)))
  {
    ListCollectsInOrder(b, [], children);
    AllTaken(b.kind, children);
    var taken := Taken(b.kind, children);
    assert [] + taken == taken;
    var calls := ElementCalls(b.kind.elementDescriptor, taken, scope);
    assert calls == seq(|children|, i requires 0 <= i < |children| => WriteChildCall(children[i].descriptor, children[i].value));
  }

  lemma {:induction false} AllTaken(kind: BuilderKind, children: seq<Child>)
    requires forall i :: 0 <= i < |children| ==> Takes(kind, children[i])
    ensures Taken(kind, children) == seq(|children|, i requires 0 <= i < |children| => children[i].value)
  {
    if |children| > 0 {
      AllTaken(kind, children[..|children| - 1]);
    }
  }
}
