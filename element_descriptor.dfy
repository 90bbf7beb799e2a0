/**
 * Element descriptors and their registry (ElementDescriptor.java), the
 * values the builders produce, and the standard builder configurations.
 *
 * An XmlContext holds one descriptor per qualified name.  The DEFAULT
 * context always exists; other contexts are held weakly by their
 * descriptors, and `alive` says whether the garbage collector has left
 * the context in place.  Builders are objects so that the identity
 * comparisons of the source (`mListElementBuilder ==
 * childDescriptor.builder`) are reference comparisons here too.
 */
module ElementDescriptors {
  import opened Wrappers
  import opened QualifiedNames

  /** A java.net.URI, represented by its ASCII form (toASCIIString). */
  datatype Uri = Uri(ascii: string)

  /**
   * The Java objects that the builders create and the serializer reads.
   * Collections are represented by their contents.
   */
  datatype Value =
    | VNull
    | VStr(s: string)
    | VInt(i: int)                                    // java.lang.Integer
    | VUri(uri: Uri)
    | VName(q: QualifiedName)
    | VList(elements: seq<Value>)                     // java.util.List
    | VSet(members: set<Value>)                       // java.util.Set
    | VMap(entries: map<Value, Value>)                // java.util.Map
    | VElementMap(children: map<ElementDescriptor, Value>)  // ElementMapObjectBuilder's map

  /** The configuration of one of the standard IObjectBuilder implementations. */
  datatype BuilderKind =
      /** A subclass of AbstractObjectBuilder that overrides nothing. */
    | Plain
      /** StringObjectBuilder. */
    | Text
      /** IntegerObjectBuilder (INSTANCE_STRICT or INSTANCE). */
    | Integer(strict: bool)
      /** UriObjectBuilder; `parse` is the java.net.URI constructor, None for a URISyntaxException. */
    | UriText(strict: bool, parse: string -> Option<Uri>)
      /** StringAttributeObjectBuilder. */
    | StringAttribute(attribute: QualifiedName)
      /** ListObjectBuilder, configured with an element descriptor or an element builder. */
    | ListOf(elementDescriptor: ElementDescriptor?, elementBuilder: ObjectBuilder?)
      /** SetObjectBuilder. */
    | SetOf(elementDescriptor: ElementDescriptor?, elementBuilder: ObjectBuilder?, storeNull: bool)
      /** MapObjectBuilder; `mapper` is Mapper.getIndex, VNull for "skip this child". */
    | MapOf(mapper: (ElementDescriptor?, Value) -> Value, childDescriptor: ElementDescriptor?)
      /** ElementMapObjectBuilder. */
    | ElementMap
      /** TransientObjectBuilder. */
    | Transient(childDescriptor: ElementDescriptor?, childBuilder: ObjectBuilder?)

  class ObjectBuilder {
    const kind: BuilderKind

    constructor (kind: BuilderKind)
      ensures this.kind == kind
    {
      this.kind := kind;
    }
  }

  class XmlContext {
    /** XmlContext.DESCRIPTOR_MAP */
    var descriptors: map<QualifiedName, ElementDescriptor>
    /** False once the context has been garbage-collected (its weak references are cleared). */
    var alive: bool

    constructor ()
      ensures descriptors == map[] && alive
    {
      descriptors := map[];
      alive := true;
    }

    /** Every descriptor is filed under its own name and belongs to this context. */
    ghost predicate Valid()
      reads this
    {
      forall q :: q in descriptors ==> descriptors[q].qualifiedName == q && descriptors[q].context == this
    }
  }

  class ElementDescriptor {
    const qualifiedName: QualifiedName
    const builder: ObjectBuilder?
    /** The context, referenced weakly in the source. */
    const context: XmlContext

    constructor (qualifiedName: QualifiedName, builder: ObjectBuilder?, context: XmlContext)
      ensures this.qualifiedName == qualifiedName && this.builder == builder && this.context == context
    {
      this.qualifiedName := qualifiedName;
      this.builder := builder;
      this.context := context;
    }
  }

  /** ElementDescriptor.getContext(): the context, or null once it has been collected. */
  function ContextOf(d: ElementDescriptor): (r: XmlContext?)
    reads d.context
    ensures r != null <==> d.context.alive
    ensures r != null ==> r == d.context
  {
    if d.context.alive then d.context else null
  }

  /**
   * The descriptor maps a lookup consults: the requested context's map,
   * then the DEFAULT context's map (the same map when no other context
   * was requested).
   */
  datatype Scope = Scope(local: map<QualifiedName, ElementDescriptor>, fallback: map<QualifiedName, ElementDescriptor>)

  /** ElementDescriptor.get(qname, context) over a snapshot of the two maps. */
  function Resolve(scope: Scope, q: QualifiedName): (r: ElementDescriptor?)
    ensures r != null <==> q in scope.local || q in scope.fallback
    ensures q in scope.local ==> r == scope.local[q]
    ensures q !in scope.local && q in scope.fallback ==> r == scope.fallback[q]
  {
    if q in scope.local then scope.local[q]
    else if q in scope.fallback then scope.fallback[q]
    else null
  }

  /**
   * The registry: the static methods of ElementDescriptor, with the
   * DEFAULT context they share.
   */
  class Registry {
    const defaultContext: XmlContext

    constructor ()
      ensures fresh(defaultContext) && defaultContext.descriptors == map[] && defaultContext.alive
    {
      defaultContext := new XmlContext();
    }

    ghost predicate Valid()
      reads this, defaultContext
    {
      defaultContext.alive && defaultContext.Valid()
    }

    /** The context an operation works on: a null context means DEFAULT. */
    function Target(context: XmlContext?): (r: XmlContext)
      reads this
      ensures context != null ==> r == context
      ensures context == null ==> r == defaultContext
    {
      if context == null then defaultContext else context
    }

    /** The scope a lookup in `context` consults. */
    function ScopeOf(context: XmlContext?): Scope
      reads this, context, defaultContext
    {
      Scope(Target(context).descriptors, defaultContext.descriptors)
    }

    /** ElementDescriptor.get(qname): the DEFAULT context only. */
    function Get(q: QualifiedName): (r: ElementDescriptor?)
      reads this, defaultContext
      ensures r != null <==> q in defaultContext.descriptors
      ensures r != null ==> r == defaultContext.descriptors[q]
    {
      if q in defaultContext.descriptors then defaultContext.descriptors[q] else null
    }

    /**
     * ElementDescriptor.get(qname, context): the context's own descriptor
     * if it has one, otherwise the DEFAULT context's.
     */
    function GetIn(q: QualifiedName, context: XmlContext?): (r: ElementDescriptor?)
      requires Valid() && (context != null ==> context.Valid())
      reads this, context, defaultContext
      ensures r != null ==> r.qualifiedName == q
      ensures q in Target(context).descriptors ==> r == Target(context).descriptors[q]
      ensures q !in Target(context).descriptors ==> r == Get(q)
    {
      Resolve(ScopeOf(context), q)
    }

    /**
     * ElementDescriptor.register(qname, builder, context), and with a null
     * context register(qname, builder): a name can be registered once per
     * context; a second registration is refused and changes nothing.
     */
    method Register(q: QualifiedName?, builder: ObjectBuilder?, context: XmlContext?) returns (r: Result<ElementDescriptor>)
      requires Valid() && (context != null ==> context.Valid())
      modifies Target(context)
      ensures Valid() && Target(context).Valid()
      ensures Target(context).alive == old(Target(context).alive)
      ensures q != null && q in old(Target(context).descriptors) ==>
        r == Failure(IllegalState) && Target(context).descriptors == old(Target(context).descriptors)
      ensures q == null ==> r == Failure(IllegalArgument) && Target(context).descriptors == old(Target(context).descriptors)
      ensures q != null && q !in old(Target(context).descriptors) ==>
        (r.Success? && fresh(r.value) && r.value.qualifiedName == q && r.value.builder == builder &&
         r.value.context == Target(context) &&
         Target(context).descriptors == old(Target(context).descriptors)[q := r.value])
    {
      var c := Target(context);
      if q != null && q in c.descriptors {
        return Failure(IllegalState);
      }
      if q == null {
        return Failure(IllegalArgument);
      }
      var d := new ElementDescriptor(q, builder, c);
      c.descriptors := c.descriptors[q := d];
      return Success(d);
    }

    /**
     * ElementDescriptor.register(name, builder, context), and with a null
     * context register(name, builder): the name is interned in no
     * namespace first; a null name is refused before anything is registered.
     */
    method RegisterName(names: NameCache, name: Option<string>, builder: ObjectBuilder?, context: XmlContext?) returns (r: Result<ElementDescriptor>)
      requires Valid() && (context != null ==> context.Valid()) && names.Valid()
      modifies names, Target(context)
      ensures Valid() && Target(context).Valid() && names.Valid()
      ensures name.None? ==> r == Failure(IllegalArgument) && Target(context).descriptors == old(Target(context).descriptors)
      ensures name.Some? && r.Success? ==>
        r.value.qualifiedName.namespace == None && r.value.qualifiedName.name == name.value &&
        r.value.builder == builder && Target(context).descriptors == old(Target(context).descriptors)[r.value.qualifiedName := r.value]
      ensures name.Some? && r.Failure? ==> r.error == IllegalState && Target(context).descriptors == old(Target(context).descriptors)
      ensures name.Some? ==>
        (r.Failure? <==> Find(old(names.cache), None, name.value).Some? &&
                         Find(old(names.cache), None, name.value).value in old(Target(context).descriptors))
      ensures r.Success? ==> fresh(r.value)
    {
      var q := names.GetLocal(name);
      if q.Failure? {
        return Failure(q.error);
      }
      r := Register(q.value, builder, context);
    }

    /**
     * ElementDescriptor.overload(oldDescriptor, builder): replaces the
     * descriptor of the same name in the old descriptor's context, which
     * must not have been collected.
     */
    method Overload(previous: ElementDescriptor, builder: ObjectBuilder?) returns (r: Result<ElementDescriptor>)
      requires previous.context.Valid()
      modifies previous.context
      ensures previous.context.Valid() && previous.context.alive == old(previous.context.alive)
      ensures !previous.context.alive ==> r == Failure(IllegalState) && previous.context.descriptors == old(previous.context.descriptors)
      ensures previous.context.alive ==>
        (r.Success? && fresh(r.value) && r.value.qualifiedName == previous.qualifiedName &&
         r.value.builder == builder && r.value.context == previous.context &&
         previous.context.descriptors == old(previous.context.descriptors)[previous.qualifiedName := r.value])
    {
      var c := ContextOf(previous);
      if c == null {
        return Failure(IllegalState);
      }
      var d := new ElementDescriptor(previous.qualifiedName, builder, c);
      c.descriptors := c.descriptors[previous.qualifiedName := d];
      return Success(d);
    }
  }

  /**
   * A context's own descriptor shadows the DEFAULT context's: a name
   * registered in both resolves to the context's descriptor, and to the
   * DEFAULT one exactly when the context lacks it.
   */
  lemma ContextShadowsDefault(scope: Scope, q: QualifiedName)
    ensures (q in scope.local && q in scope.fallback) ==> Resolve(scope, q) == scope.local[q]
    ensures Resolve(scope, q) == Resolve(Scope(map[], scope.fallback), q) <==>
      (q !in scope.local || (q in scope.fallback && scope.fallback[q] == scope.local[q]))
  {
  }
}
