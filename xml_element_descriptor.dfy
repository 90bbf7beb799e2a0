/**
 * The older API: XmlElementDescriptor.java and its registry, the
 * IXmlObjectBuilder implementations of pull/builder/ and the
 * IXmlObjectSerializer implementations of serializer/.  A descriptor of
 * this API carries a builder, a serializer and a builder for anonymous
 * children.
 *
 * The standard builders and serializers are closed datatypes of their
 * configurations, held by objects so that the identity comparisons of the
 * source (`mListElementBuilder == childDescriptor.builder`) are reference
 * comparisons here too.
 */
module XmlElementDescriptors {
  import opened Wrappers
  import opened QualifiedNames
  import opened ElementDescriptors

  /** The configuration of one of the IXmlObjectBuilder implementations of pull/builder/. */
  datatype XmlBuilderKind =
      /** A subclass of AbstractXmlObjectBuilder that overrides nothing. */
    | PlainXmlBuilder
      /** pull/builder/ListObjectBuilder, configured with an element descriptor or an element builder. */
    | ListXmlBuilder(elementDescriptor: XmlElementDescriptor?, elementBuilder: XmlObjectBuilder?)
      /** pull/builder/SetObjectBuilder. */
    | SetXmlBuilder(elementDescriptor: XmlElementDescriptor?)
      /** pull/builder/TransientObjectBuilder. */
    | TransientXmlBuilder(childDescriptor: XmlElementDescriptor?)
      /** pull/builder/UriObjectBuilder; `parse` is the java.net.URI constructor. */
    | UriXmlBuilder(strict: bool, parse: string -> Option<Uri>)
      /** pull/builder/QualifiedNameObjectBuilder. */
    | QualifiedNameXmlBuilder

  class XmlObjectBuilder {
    const kind: XmlBuilderKind

    constructor (kind: XmlBuilderKind)
      ensures this.kind == kind
    {
      this.kind := kind;
    }
  }

  /** The configuration of one of the IXmlObjectSerializer implementations. */
  datatype SerializerKind =
      /** AbstractObjectSerializer, or a subclass that overrides nothing. */
    | PlainSerializer
      /** CollectionObjectSerializer. */
    | CollectionSerializer(childDescriptor: XmlElementDescriptor?)
      /** TransientObjectSerializer. */
    | TransientSerializer(childDescriptor: XmlElementDescriptor?)
      /** IntegerObjectSerializer. */
    | IntegerSerializer

  class XmlObjectSerializer {
    const kind: SerializerKind

    constructor (kind: SerializerKind)
      ensures this.kind == kind
    {
      this.kind := kind;
    }
  }

  /**
   * The descriptor map an XmlContext holds for this API, and whether the
   * garbage collector has left the context in place.
   */
  class XmlDescriptorMap {
    var descriptors: map<QualifiedName, XmlElementDescriptor>
    var alive: bool

    constructor ()
      ensures descriptors == map[] && alive
    {
      descriptors := map[];
      alive := true;
    }

    /** Every descriptor is filed under its own name and belongs to this context. */
    ghost predicate Valid()
      reads this
    {
      forall q :: q in descriptors ==> descriptors[q].qualifiedName == q && descriptors[q].context == this
    }
  }

  class XmlElementDescriptor {
    const qualifiedName: QualifiedName
    const builder: XmlObjectBuilder?
    const serializer: XmlObjectSerializer?
    /** The builder for child elements that have no descriptor; null to ignore them. */
    const anonymousChildrenBuilder: XmlObjectBuilder?
    /** The context, referenced weakly in the source. */
    const context: XmlDescriptorMap

    constructor (qualifiedName: QualifiedName, builder: XmlObjectBuilder?, anonymousChildrenBuilder: XmlObjectBuilder?,
                 serializer: XmlObjectSerializer?, context: XmlDescriptorMap)
      ensures this.qualifiedName == qualifiedName && this.builder == builder && this.serializer == serializer
      ensures this.anonymousChildrenBuilder == anonymousChildrenBuilder && this.context == context
    {
      this.qualifiedName := qualifiedName;
      this.builder := builder;
      this.serializer := serializer;
      this.anonymousChildrenBuilder := anonymousChildrenBuilder;
      this.context := context;
    }
  }

  /** XmlElementDescriptor.getContext(): the context, or null once it has been collected. */
  function ContextOf(d: XmlElementDescriptor): (r: XmlDescriptorMap?)
    reads d.context
    ensures r != null <==> d.context.alive
    ensures r != null ==> r == d.context
  {
    if d.context.alive then d.context else null
  }

  /** The static methods of XmlElementDescriptor, with the DEFAULT_CONTEXT they share. */
  class XmlRegistry {
    const defaultContext: XmlDescriptorMap

    constructor ()
      ensures fresh(defaultContext) && defaultContext.descriptors == map[] && defaultContext.alive
    {
      defaultContext := new XmlDescriptorMap();
    }

    ghost predicate Valid()
      reads this, defaultContext
    {
      defaultContext.alive && defaultContext.Valid()
    }

    /** The context an operation works on: a null context means DEFAULT_CONTEXT. */
    function Target(context: XmlDescriptorMap?): (r: XmlDescriptorMap)
      reads this
      ensures context != null ==> r == context
      ensures context == null ==> r == defaultContext
    {
      if context == null then defaultContext else context
    }

    /** XmlElementDescriptor.get(qname): DEFAULT_CONTEXT only. */
    function Get(q: QualifiedName): (r: XmlElementDescriptor?)
      reads this, defaultContext
      ensures r != null <==> q in defaultContext.descriptors
      ensures r != null ==> r == defaultContext.descriptors[q]
    {
      if q in defaultContext.descriptors then defaultContext.descriptors[q] else null
    }

    /**
     * XmlElementDescriptor.get(qname, context): the context's own
     * descriptor if it has one, otherwise DEFAULT_CONTEXT's.
     */
    function GetIn(q: QualifiedName, context: XmlDescriptorMap?): (r: XmlElementDescriptor?)
      requires Valid() && (context != null ==> context.Valid())
      reads this, context, defaultContext
      ensures r != null ==> r.qualifiedName == q
      ensures q in Target(context).descriptors ==> r == Target(context).descriptors[q]
      ensures q !in Target(context).descriptors ==> r == Get(q)
    {
      var c := Target(context);
      if q in c.descriptors then c.descriptors[q] else Get(q)
    }

    /**
     * The five-argument XmlElementDescriptor.register: a name can be
     * registered once per context; a second registration is refused and
     * changes nothing, and so is a null name (the constructor's check).
     */
    method Register(q: QualifiedName?, builder: XmlObjectBuilder?, anonymousChildrenBuilder: XmlObjectBuilder?,
                    serializer: XmlObjectSerializer?, context: XmlDescriptorMap?) returns (r: Result<XmlElementDescriptor>)
      requires Valid() && (context != null ==> context.Valid())
      modifies Target(context)
      ensures Valid() && Target(context).Valid()
      ensures Target(context).alive == old(Target(context).alive)
      ensures q != null && q in old(Target(context).descriptors) ==>
        r == Failure(IllegalState) && Target(context).descriptors == old(Target(context).descriptors)
      ensures q == null ==> r == Failure(IllegalArgument) && Target(context).descriptors == old(Target(context).descriptors)
      ensures q != null && q !in old(Target(context).descriptors) ==>
        r.Success? && fresh(r.value) && r.value.qualifiedName == q && r.value.builder == builder &&
        r.value.anonymousChildrenBuilder == anonymousChildrenBuilder && r.value.serializer == serializer &&
        r.value.context == Target(context) &&
        Target(context).descriptors == old(Target(context).descriptors)[q := r.value]
    {
      var c := Target(context);
      if q != null && q in c.descriptors {
        return Failure(IllegalState);
      }
      if q == null {
        return Failure(IllegalArgument);
      }
      var d := new XmlElementDescriptor(q, builder, anonymousChildrenBuilder, serializer, c);
      c.descriptors := c.descriptors[q := d];
      return Success(d);
    }

    /** register(qname, builder): no anonymous-children builder, no serializer, DEFAULT_CONTEXT. */
    method RegisterBuilder(q: QualifiedName?, builder: XmlObjectBuilder?) returns (r: Result<XmlElementDescriptor>)
      requires Valid()
      modifies defaultContext
      ensures Valid() && defaultContext.alive == old(defaultContext.alive)
      ensures q == null ==> r == Failure(IllegalArgument) && defaultContext.descriptors == old(defaultContext.descriptors)
      ensures q != null && q in old(defaultContext.descriptors) ==> r == Failure(IllegalState) && defaultContext.descriptors == old(defaultContext.descriptors)
      ensures q != null && q !in old(defaultContext.descriptors) ==>
        r.Success? && fresh(r.value) && r.value.qualifiedName == q && r.value.builder == builder && r.value.anonymousChildrenBuilder == null && r.value.serializer == null &&
        r.value.context == defaultContext && defaultContext.descriptors == old(defaultContext.descriptors)[q := r.value]
    {
      r := Register(q, builder, null, null, defaultContext);
    }

    /** register(qname, builder, serializer): DEFAULT_CONTEXT, no anonymous-children builder. */
    method RegisterSerializer(q: QualifiedName?, builder: XmlObjectBuilder?, serializer: XmlObjectSerializer?) returns (r: Result<XmlElementDescriptor>)
      requires Valid()
      modifies defaultContext
      ensures Valid() && defaultContext.alive == old(defaultContext.alive)
      ensures q == null ==> r == Failure(IllegalArgument) && defaultContext.descriptors == old(defaultContext.descriptors)
      ensures q != null && q in old(defaultContext.descriptors) ==> r == Failure(IllegalState) && defaultContext.descriptors == old(defaultContext.descriptors)
      ensures q != null && q !in old(defaultContext.descriptors) ==>
        r.Success? && fresh(r.value) && r.value.qualifiedName == q && r.value.builder == builder && r.value.anonymousChildrenBuilder == null && r.value.serializer == serializer &&
        r.value.context == defaultContext && defaultContext.descriptors == old(defaultContext.descriptors)[q := r.value]
    {
      r := Register(q, builder, null, serializer, defaultContext);
    }

    /** register(qname, builder, anonymousChildrenBuilder): DEFAULT_CONTEXT, no serializer. */
    method RegisterAnonymous(q: QualifiedName?, builder: XmlObjectBuilder?, anonymousChildrenBuilder: XmlObjectBuilder?) returns (r: Result<XmlElementDescriptor>)
      requires Valid()
      modifies defaultContext
      ensures Valid() && defaultContext.alive == old(defaultContext.alive)
      ensures q == null ==> r == Failure(IllegalArgument) && defaultContext.descriptors == old(defaultContext.descriptors)
      ensures q != null && q in old(defaultContext.descriptors) ==> r == Failure(IllegalState) && defaultContext.descriptors == old(defaultContext.descriptors)
      ensures q != null && q !in old(defaultContext.descriptors) ==>
        r.Success? && fresh(r.value) && r.value.qualifiedName == q && r.value.builder == builder && r.value.anonymousChildrenBuilder == anonymousChildrenBuilder && r.value.serializer == null &&
        r.value.context == defaultContext && defaultContext.descriptors == old(defaultContext.descriptors)[q := r.value]
    {
      r := Register(q, builder, anonymousChildrenBuilder, null, defaultContext);
    }

    /**
     * register(qname, builder, context) and register(qname, builder,
     * serializer, context): no anonymous-children builder; the first passes
     * a null serializer.
     */
    method RegisterIn(q: QualifiedName?, builder: XmlObjectBuilder?, serializer: XmlObjectSerializer?, context: XmlDescriptorMap?) returns (r: Result<XmlElementDescriptor>)
      requires Valid() && (context != null ==> context.Valid())
      modifies Target(context)
      ensures Valid() && Target(context).Valid() && Target(context).alive == old(Target(context).alive)
      ensures q == null ==> r == Failure(IllegalArgument) && Target(context).descriptors == old(Target(context).descriptors)
      ensures q != null && q in old(Target(context).descriptors) ==>
        r == Failure(IllegalState) && Target(context).descriptors == old(Target(context).descriptors)
      ensures q != null && q !in old(Target(context).descriptors) ==>
        r.Success? && fresh(r.value) && r.value.qualifiedName == q && r.value.builder == builder && r.value.anonymousChildrenBuilder == null && r.value.serializer == serializer &&
        r.value.context == Target(context) && Target(context).descriptors == old(Target(context).descriptors)[q := r.value]
    {
      r := Register(q, builder, null, serializer, context);
    }
  }

  /**
   * The four-argument XmlElementDescriptor.overload: replaces the
   * descriptor of the same name in the old descriptor's context, which
   * must not have been collected; the old descriptor is left as it is.
   */
  method Overload(previous: XmlElementDescriptor, builder: XmlObjectBuilder?, anonymousChildrenBuilder: XmlObjectBuilder?,
                  serializer: XmlObjectSerializer?) returns (r: Result<XmlElementDescriptor>)
    requires previous.context.Valid()
    modifies previous.context
    ensures previous.context.Valid() && previous.context.alive == old(previous.context.alive)
    ensures !previous.context.alive ==> r == Failure(IllegalState) && previous.context.descriptors == old(previous.context.descriptors)
    ensures previous.context.alive ==>
      r.Success? && fresh(r.value) && r.value.qualifiedName == previous.qualifiedName &&
      r.value.builder == builder && r.value.anonymousChildrenBuilder == anonymousChildrenBuilder &&
      r.value.serializer == serializer && r.value.context == previous.context &&
      previous.context.descriptors == old(previous.context.descriptors)[previous.qualifiedName := r.value]
  {
    var c := ContextOf(previous);
    if c == null {
      return Failure(IllegalState);
    }
    var d := new XmlElementDescriptor(previous.qualifiedName, builder, anonymousChildrenBuilder, serializer, c);
    c.descriptors := c.descriptors[previous.qualifiedName := d];
    return Success(d);
  }

  /** overload(oldDescriptor, builder) and overload(oldDescriptor, builder, serializer). */
  method OverloadSerializer(previous: XmlElementDescriptor, builder: XmlObjectBuilder?, serializer: XmlObjectSerializer?)
    returns (r: Result<XmlElementDescriptor>)
    requires previous.context.Valid()
    modifies previous.context
    ensures previous.context.Valid() && previous.context.alive == old(previous.context.alive)
    ensures !previous.context.alive ==> r == Failure(IllegalState) && previous.context.descriptors == old(previous.context.descriptors)
    ensures previous.context.alive ==>
      r.Success? && fresh(r.value) && r.value.qualifiedName == previous.qualifiedName && r.value.builder == builder &&
      r.value.anonymousChildrenBuilder == null && r.value.serializer == serializer && r.value.context == previous.context &&
      previous.context.descriptors == old(previous.context.descriptors)[previous.qualifiedName := r.value]
  {
    r := Overload(previous, builder, null, serializer);
  }

  /**
   * A registration is found again: right after a successful register, get
   * in the same context returns the new descriptor, and a second register
   * of the same name in that context is refused.
   */
  method RegisterThenGet(registry: XmlRegistry, q: QualifiedName, builder: XmlObjectBuilder?, context: XmlDescriptorMap?)
    returns (registered: Result<XmlElementDescriptor>, found: XmlElementDescriptor?, again: Result<XmlElementDescriptor>)
    requires registry.Valid() && (context != null ==> context.Valid())
    requires q !in registry.Target(context).descriptors
    modifies registry.Target(context)
    ensures registered.Success? && found == registered.value && found.qualifiedName == q
    ensures again == Failure(IllegalState)
  {
    registered := registry.RegisterIn(q, builder, null, context);
    found := registry.GetIn(q, context);
    again := registry.RegisterIn(q, builder, null, context);
  }
}
