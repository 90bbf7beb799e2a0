/**
 * The IXmlObjectBuilder implementations of pull/builder/, the builders of
 * the older API.  Each call of IXmlObjectBuilder is a function from the
 * builder's configuration and the object built so far to the object that
 * replaces it, or the exception the call raises.
 */
module PullBuilders {
  import opened Wrappers
  import opened QualifiedNames
  import opened ElementDescriptors
  import opened XmlElementDescriptors
  import ObjectBuilders

  /**
   * IXmlObjectBuilder.get.  The list and set builders clear and return a
   * recycled collection, or create an empty one; the qualified-name builder
   * returns the element's name; the others return null
   * (AbstractXmlObjectBuilder).
   */
  function Get(b: XmlObjectBuilder?, d: XmlElementDescriptor, recycle: Value): (r: Result<Value>)
    ensures b == null ==> r == Failure(NullPointer)
    ensures b != null && b.kind.ListXmlBuilder? && (recycle == VNull || recycle.VList?) ==> r == Success(VList([]))
    ensures b != null && b.kind.SetXmlBuilder? && (recycle == VNull || recycle.VSet?) ==> r == Success(VSet({}))
    ensures b != null && b.kind.QualifiedNameXmlBuilder? ==> r == Success(VName(d.qualifiedName))
    ensures b != null && (b.kind.PlainXmlBuilder? || b.kind.TransientXmlBuilder? || b.kind.UriXmlBuilder?) ==> r == Success(VNull)
    ensures r.Failure? ==> r.error == NullPointer || (r.error == ClassCast && recycle != VNull)
  {
    if b == null then Failure(NullPointer)
    else match b.kind
      case ListXmlBuilder(_, _) =>
        if recycle == VNull || recycle.VList? then Success(VList([])) else Failure(ClassCast)
      case SetXmlBuilder(_) =>
        if recycle == VNull || recycle.VSet? then Success(VSet({})) else Failure(ClassCast)
      case QualifiedNameXmlBuilder => Success(VName(d.qualifiedName))
      case _ => Success(VNull)
  }

  /** IXmlObjectBuilder.update(attribute): no builder of pull/builder/ overrides the default, which keeps the object. */
  function UpdateAttribute(b: XmlObjectBuilder?, obj: Value, attribute: QualifiedName, value: string): (r: Result<Value>)
    ensures b == null <==> r.Failure?
    ensures r.Success? ==> r.value == obj
  {
    if b == null then Failure(NullPointer) else Success(obj)
  }

  /**
   * IXmlObjectBuilder.update(text): the URI builder parses the text with
   * the same strict/lenient policy as the newer UriObjectBuilder; the
   * other builders keep the object.
   */
  function UpdateText(b: XmlObjectBuilder?, obj: Value, text: string): (r: Result<Value>)
    ensures b == null ==> r == Failure(NullPointer)
    ensures b != null && b.kind.UriXmlBuilder? ==> r == ObjectBuilders.UriText(b.kind.strict, b.kind.parse, text)
    ensures b != null && !b.kind.UriXmlBuilder? ==> r == Success(obj)
  {
    if b == null then Failure(NullPointer)
    else match b.kind
      case UriXmlBuilder(strict, parse) => ObjectBuilders.UriText(strict, parse, text)
      case _ => Success(obj)
  }

  /**
   * Whether a builder takes a child in.  The list builder takes the
   * configured descriptor or, when none is configured, a child whose
   * descriptor has the configured builder; the set and transient builders
   * take exactly the configured descriptor (also when both are null).
   */
  predicate Takes(kind: XmlBuilderKind, childDescriptor: XmlElementDescriptor?)
  {
    match kind
      case ListXmlBuilder(ed, eb) =>
        childDescriptor == ed || (ed == null && childDescriptor != null && eb == childDescriptor.builder)
      case SetXmlBuilder(ed) => childDescriptor == ed
      case TransientXmlBuilder(cd) => childDescriptor == cd
      case _ => false
  }

  /**
   * IXmlObjectBuilder.update(child): the list builder appends a child it
   * takes, the set builder adds it (null children too), the transient
   * builder returns it in place of the object; any other child leaves the
   * object unchanged.
   */
  function UpdateChild(b: XmlObjectBuilder?, obj: Value, childDescriptor: XmlElementDescriptor?, child: Value): (r: Result<Value>)
    ensures b == null ==> r == Failure(NullPointer)
    ensures b != null && !Takes(b.kind, childDescriptor) ==> r == Success(obj)
    ensures b != null && Takes(b.kind, childDescriptor) && b.kind.ListXmlBuilder? ==> r == ObjectBuilders.Append(obj, child)
    ensures b != null && Takes(b.kind, childDescriptor) && b.kind.SetXmlBuilder? ==> r == ObjectBuilders.Add(obj, child)
    ensures b != null && Takes(b.kind, childDescriptor) && b.kind.TransientXmlBuilder? ==> r == Success(child)
  {
    if b == null then Failure(NullPointer)
    else if !Takes(b.kind, childDescriptor) then Success(obj)
    else match b.kind
      case ListXmlBuilder(_, _) => ObjectBuilders.Append(obj, child)
      case SetXmlBuilder(_) => ObjectBuilders.Add(obj, child)
      case TransientXmlBuilder(_) => Success(child)
      case _ => Success(obj)
  }

  /** IXmlObjectBuilder.update(anonymous child): the default keeps the object. */
  function UpdateAnonymousChild(b: XmlObjectBuilder?, obj: Value, name: QualifiedName, anonymousBuilder: XmlObjectBuilder?, anonymous: Value): (r: Result<Value>)
    ensures b == null <==> r.Failure?
    ensures r.Success? ==> r.value == obj
  {
    if b == null then Failure(NullPointer) else Success(obj)
  }

  /** IXmlObjectBuilder.finish: the default returns the object as built. */
  function Finish(b: XmlObjectBuilder?, obj: Value): (r: Result<Value>)
    ensures b == null <==> r.Failure?
    ensures r.Success? ==> r.value == obj
  {
    if b == null then Failure(NullPointer) else Success(obj)
  }

  /** One of the calls a builder receives between get and finish. */
  datatype Update =
    | AttributeUpdate(attribute: QualifiedName, value: string)
    | TextUpdate(text: string)
    | ChildUpdate(childDescriptor: XmlElementDescriptor?, child: Value)
    | AnonymousUpdate(name: QualifiedName, anonymousBuilder: XmlObjectBuilder?, anonymous: Value)

  function Apply(b: XmlObjectBuilder?, obj: Value, u: Update): (r: Result<Value>)
  {
    match u
      case AttributeUpdate(a, v) => UpdateAttribute(b, obj, a, v)
      case TextUpdate(t) => UpdateText(b, obj, t)
      case ChildUpdate(cd, c) => UpdateChild(b, obj, cd, c)
      case AnonymousUpdate(n, ab, c) => UpdateAnonymousChild(b, obj, n, ab, c)
  }

  /** The element's object after get, the updates in document order, and finish. */
  function Build(b: XmlObjectBuilder?, d: XmlElementDescriptor, recycle: Value, updates: seq<Update>): Result<Value>
  {
    match Get(b, d, recycle)
      case Failure(e) => Failure(e)
      case Success(obj) =>
        match Replay(b, obj, updates)
          case Failure(e) => Failure(e)
          case Success(o) => Finish(b, o)
  }

  /** The updates applied in order; the first exception ends the element. */
  function Replay(b: XmlObjectBuilder?, obj: Value, updates: seq<Update>): Result<Value>
  {
    if |updates| == 0 then Success(obj)
    else match Replay(b, obj, updates[..|updates| - 1])
      case Failure(e) => Failure(e)
      case Success(o) => Apply(b, o, updates[|updates| - 1])
  }

  /** The children among the updates that the builder takes, in order. */
  function Taken(kind: XmlBuilderKind, updates: seq<Update>): (r: seq<Value>)
    ensures |r| <= |updates|
  {
    if |updates| == 0 then []
    else
      var last := updates[|updates| - 1];
      Taken(kind, updates[..|updates| - 1]) + (if last.ChildUpdate? && Takes(kind, last.childDescriptor) then [last.child] else [])
  }

  /**
   * The qualified-name builder builds the element's own name, whatever
   * attributes, texts and children the element has.
   */
  lemma {:induction false} QualifiedNameBuildsName(b: XmlObjectBuilder, d: XmlElementDescriptor, recycle: Value, updates: seq<Update>)
    requires b.kind.QualifiedNameXmlBuilder?
    ensures Build(b, d, recycle, updates) == Success(VName(d.qualifiedName))
  {
    KeepsObject(b, VName(d.qualifiedName), updates);
  }

  /**
   * A builder that overrides no update (AbstractXmlObjectBuilder and the
   * qualified-name builder) returns the object it started with; so does
   * any builder for updates without text and children.
   */
  lemma {:induction false} KeepsObject(b: XmlObjectBuilder, obj: Value, updates: seq<Update>)
    requires b.kind.PlainXmlBuilder? || b.kind.QualifiedNameXmlBuilder? ||
      forall i :: 0 <= i < |updates| ==> updates[i].AttributeUpdate? || updates[i].AnonymousUpdate?
    ensures Replay(b, obj, updates) == Success(obj)
  {
    if |updates| > 0 {
      KeepsObject(b, obj, updates[..|updates| - 1]);
    }
  }

  /**
   * A list builder's element is the list of the children it takes, in
   * document order; a fresh or recycled list starts out empty.
   */
  lemma {:induction false} ListCollectsInOrder(b: XmlObjectBuilder, l: seq<Value>, updates: seq<Update>)
    requires b.kind.ListXmlBuilder?
    ensures Replay(b, VList(l), updates) == Success(VList(l + Taken(b.kind, updates)))
  {
    if |updates| > 0 {
      var init, last := updates[..|updates| - 1], updates[|updates| - 1];
      ListCollectsInOrder(b, l, init);
      if last.ChildUpdate? && Takes(b.kind, last.childDescriptor) {
        assert l + Taken(b.kind, updates) == (l + Taken(b.kind, init)) + [last.child];
      } else {
        assert Taken(b.kind, updates) == Taken(b.kind, init);
      }
    } else {
      assert l + Taken(b.kind, updates) == l;
    }
  }

  /** A set builder's element holds exactly the children it takes, null ones included. */
  lemma {:induction false} SetCollects(b: XmlObjectBuilder, s: set<Value>, updates: seq<Update>)
    requires b.kind.SetXmlBuilder?
    ensures Replay(b, VSet(s), updates) == Success(VSet(s + ObjectBuilders.Elements(Taken(b.kind, updates))))
  {
    if |updates| > 0 {
      var init, last := updates[..|updates| - 1], updates[|updates| - 1];
      SetCollects(b, s, init);
      if last.ChildUpdate? && Takes(b.kind, last.childDescriptor) {
        assert Taken(b.kind, updates) == Taken(b.kind, init) + [last.child];
        ObjectBuilders.ElementsSnoc(Taken(b.kind, init), last.child);
        assert s + ObjectBuilders.Elements(Taken(b.kind, init)) + {last.child} == s + ObjectBuilders.Elements(Taken(b.kind, updates));
      } else {
        assert Taken(b.kind, updates) == Taken(b.kind, init);
      }
    } else {
      assert ObjectBuilders.Elements([]) == {};
      assert s + ObjectBuilders.Elements(Taken(b.kind, updates)) == s;
    }
  }

  /**
   * The transient builder's element is the last child with its configured
   * descriptor, or null when there is none (its get is the default one).
   */
  lemma {:induction false} TransientKeepsLast(b: XmlObjectBuilder, obj: Value, updates: seq<Update>)
    requires b.kind.TransientXmlBuilder?
    ensures Replay(b, obj, updates) ==
      Success(if |Taken(b.kind, updates)| == 0 then obj else Taken(b.kind, updates)[|Taken(b.kind, updates)| - 1])
  {
    if |updates| > 0 {
      TransientKeepsLast(b, obj, updates[..|updates| - 1]);
    }
  }

  /** Built from scratch, a transient element is null unless a child with its descriptor came along. */
  lemma TransientBuildsLastChild(b: XmlObjectBuilder, d: XmlElementDescriptor, recycle: Value, updates: seq<Update>)
    requires b.kind.TransientXmlBuilder?
    ensures var taken := Taken(b.kind, updates);
      Build(b, d, recycle, updates) == Success(if |taken| == 0 then VNull else taken[|taken| - 1])
  {
    TransientKeepsLast(b, VNull, updates);
  }
}
