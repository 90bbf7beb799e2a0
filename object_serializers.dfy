/**
 * The IXmlObjectSerializer implementations of serializer/: what each asks
 * of the attribute writer and the child writer it is handed, for the
 * object of one element.
 */
module ObjectSerializers {
  import opened Wrappers
  import opened ElementDescriptors
  import opened XmlElementDescriptors
  import opened JavaText
  import ObjectBuilders
  import PullBuilders

  /** A call on the child writer: a child element with its descriptor, or a (non-null) text. */
  datatype SerializerCall =
    | ChildWrite(descriptor: XmlElementDescriptor?, child: Value)
    | TextWrite(text: string)

  /**
   * IXmlObjectSerializer.writeAttributes: every serializer inherits the
   * empty one of AbstractObjectSerializer, so no attribute is written, for
   * any object, null included.
   */
  function WriteAttributes(s: XmlObjectSerializer, obj: Value): (r: Result<seq<ObjectBuilders.AttributeCall>>)
    ensures r.Success? && |r.value| == 0
  {
    Success([])
  }

  /**
   * IXmlObjectSerializer.writeChildren.  The collection serializer writes
   * each element in the collection's iteration order under its configured
   * descriptor (a null collection is a NullPointerException); the transient
   * serializer writes the object itself as its one child, null or not; the
   * integer serializer writes the decimal form of a non-null Integer; the
   * default writes nothing.
   */
  function WriteChildren(s: XmlObjectSerializer, obj: Value, it: ObjectBuilders.IterationOrder): (r: Result<seq<SerializerCall>>)
    ensures s.kind.PlainSerializer? ==> r == Success([])
    ensures s.kind.CollectionSerializer? && obj.VList? ==>
      r.Success? && |r.value| == |obj.elements| &&
      forall i :: 0 <= i < |obj.elements| ==> r.value[i] == ChildWrite(s.kind.childDescriptor, obj.elements[i])
    ensures s.kind.CollectionSerializer? && obj.VSet? ==>
      r.Success? && |r.value| == |it.ofSet(obj.members)| &&
      forall i :: 0 <= i < |r.value| ==> r.value[i] == ChildWrite(s.kind.childDescriptor, it.ofSet(obj.members)[i])
    ensures s.kind.CollectionSerializer? && obj == VNull ==> r == Failure(NullPointer)
    ensures s.kind.TransientSerializer? ==> r == Success([ChildWrite(s.kind.childDescriptor, obj)])
    ensures s.kind.IntegerSerializer? && obj.VInt? ==> r == Success([TextWrite(IntToString(obj.i))])
    ensures s.kind.IntegerSerializer? && obj == VNull ==> r == Success([])
    ensures r.Success? ==> forall i :: 0 <= i < |r.value| ==> (r.value[i].TextWrite? <==> s.kind.IntegerSerializer?)
    ensures r.Failure? ==> (r.error == NullPointer && obj == VNull) || (r.error == ClassCast && obj != VNull)
  {
    match s.kind
      case PlainSerializer => Success([])
      case CollectionSerializer(cd) =>
        (match obj
          case VList(l) => Success(ChildWrites(cd, l))
          case VSet(m) => Success(ChildWrites(cd, it.ofSet(m)))
          case VNull => Failure(NullPointer)
          case _ => Failure(ClassCast))
      case TransientSerializer(cd) => Success([ChildWrite(cd, obj)])
      case IntegerSerializer =>
        (match obj
          case VInt(n) => Success([TextWrite(IntToString(n))])
          case VNull => Success([])
          case _ => Failure(ClassCast))
  }

  /** One child write per element, in order, all under the same descriptor. */
  function ChildWrites(d: XmlElementDescriptor?, elements: seq<Value>): (r: seq<SerializerCall>)
    ensures |r| == |elements|
    ensures forall i :: 0 <= i < |elements| ==> r[i] == ChildWrite(d, elements[i])
  {
    seq(|elements|, i requires 0 <= i < |elements| => ChildWrite(d, elements[i]))
  }

  /**
   * CollectionObjectSerializer.writeChildren: the for loop over the
   * collection's elements, in its iteration order.
   */
  method CollectionWriteChildren(d: XmlElementDescriptor?, elements: seq<Value>) returns (calls: seq<SerializerCall>)
    ensures |calls| == |elements|
    ensures forall i :: 0 <= i < |elements| ==> calls[i] == ChildWrite(d, elements[i])
  {
    calls := [];
    for i := 0 to |elements|
      invariant |calls| == i
      invariant forall k :: 0 <= k < i ==> calls[k] == ChildWrite(d, elements[k])
    {
      calls := calls + [ChildWrite(d, elements[i])];
    }
  }

  /**
   * Iterating as Java does, the collection serializer writes every member
   * of a set once, under its configured descriptor, and nothing else.
   */
  lemma SetWritesEachMember(s: XmlObjectSerializer, members: set<Value>, it: ObjectBuilders.IterationOrder)
    requires s.kind.CollectionSerializer? && ObjectBuilders.VisitsOnce(it, VSet(members))
    ensures var r := WriteChildren(s, VSet(members), it);
      r.Success? && |r.value| == |members| &&
      (forall v :: v in members ==> ChildWrite(s.kind.childDescriptor, v) in r.value) &&
      (forall i :: 0 <= i < |r.value| ==> r.value[i].ChildWrite? && r.value[i].child in members) &&
      (forall i, j :: 0 <= i < j < |r.value| ==> r.value[i].child != r.value[j].child)
  {
    var order := it.ofSet(members);
    var calls := ChildWrites(s.kind.childDescriptor, order);
    assert WriteChildren(s, VSet(members), it) == Success(calls);
    ObjectBuilders.EnumeratesOnce(order, members);
    forall v | v in members
      ensures ChildWrite(s.kind.childDescriptor, v) in calls
    {
      var k :| 0 <= k < |order| && order[k] == v;
      assert calls[k] == ChildWrite(s.kind.childDescriptor, v);
    }
  }

  /**
   * What IntegerObjectSerializer writes the newer integer builder reads
   * back, strict or lenient, for every int.
   */
  lemma IntegerWritesReadBack(s: XmlObjectSerializer, n: int, strict: bool, it: ObjectBuilders.IterationOrder)
    requires s.kind.IntegerSerializer? && IsInt32(n)
    ensures WriteChildren(s, VInt(n), it).Success? && |WriteChildren(s, VInt(n), it).value| == 1
    ensures ObjectBuilders.IntegerText(strict, WriteChildren(s, VInt(n), it).value[0].text) == Success(VInt(n))
  {
    IntRoundTrip(n);
  }

  /** The calls a parser makes on the element's builder when it reads the written children back. */
  function AsUpdates(calls: seq<SerializerCall>): (r: seq<PullBuilders.Update>)
    ensures |r| == |calls|
    ensures forall i :: 0 <= i < |calls| && calls[i].ChildWrite? ==> r[i] == PullBuilders.ChildUpdate(calls[i].descriptor, calls[i].child)
    ensures forall i :: 0 <= i < |calls| && calls[i].TextWrite? ==> r[i] == PullBuilders.TextUpdate(calls[i].text)
  {
    seq(|calls|, i requires 0 <= i < |calls| =>
      match calls[i]
        case ChildWrite(d, c) => PullBuilders.ChildUpdate(d, c)
        case TextWrite(t) => PullBuilders.TextUpdate(t))
  }

  /**
   * A list written by the collection serializer reads back as the same
   * list through a list builder that collects the serializer's child
   * descriptor: one element per child write, in order.
   */
  lemma CollectionRoundTrip(s: XmlObjectSerializer, b: XmlObjectBuilder, d: XmlElementDescriptor, l: seq<Value>, it: ObjectBuilders.IterationOrder)
    requires s.kind.CollectionSerializer? && b.kind.ListXmlBuilder? && b.kind.elementDescriptor == s.kind.childDescriptor
    ensures WriteChildren(s, VList(l), it).Success?
    ensures PullBuilders.Build(b, d, VNull, AsUpdates(WriteChildren(s, VList(l), it).value)) == Success(VList(l))
  {
    var updates := AsUpdates(ChildWrites(s.kind.childDescriptor, l));
    assert WriteChildren(s, VList(l), it) == Success(ChildWrites(s.kind.childDescriptor, l));
    TakesEveryChildWrite(b.kind, s.kind.childDescriptor, l);
    PullBuilders.ListCollectsInOrder(b, [], updates);
    assert [] + l == l;
    assert PullBuilders.Get(b, d, VNull) == Success(VList([]));
    assert PullBuilders.Replay(b, VList([]), updates) == Success(VList(l));
  }

  lemma {:induction false} TakesEveryChildWrite(kind: XmlBuilderKind, cd: XmlElementDescriptor?, l: seq<Value>)
    requires PullBuilders.Takes(kind, cd)
    ensures PullBuilders.Taken(kind, AsUpdates(ChildWrites(cd, l))) == l
    decreases |l|
  {
    if |l| > 0 {
      var init := l[..|l| - 1];
      var updates := AsUpdates(ChildWrites(cd, l));
      assert updates[..|updates| - 1] == AsUpdates(ChildWrites(cd, init));
      TakesEveryChildWrite(kind, cd, init);
      assert init + [l[|l| - 1]] == l;
    }
  }
}
