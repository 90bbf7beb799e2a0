/**
 * XmlObjectPull.java: pulls objects out of an XML event stream, one
 * element at a time, with the builders of the registered element
 * descriptors.
 *
 * The XmlPullParser is its event stream and a position in it; interning
 * of element and attribute names has already happened in the events.
 * `pullInternal` changes the object in place, event by event, and is
 * proved to end in the state and with the result that `Run` of the pull
 * engine gives for the same call.  `writeBack` is false for the loop as
 * the source writes it and true for the corrected loop (see
 * PullProperties.StaleParentObject).
 */
module XmlObjectPulls {
  import opened Wrappers
  import opened QualifiedNames
  import opened ElementDescriptors
  import opened ObjectBuilders
  import opened XmlPaths
  import opened ParserContexts
  import opened PullEngine

  /** The part of a machine that the pull parser's fields hold: all but the loop's locals. */
  ghost predicate Kept(last: Machine, now: Machine)
  {
    last.pos == now.pos && last.path == now.path && last.stack == now.stack &&
    last.builder == now.builder && last.pool == now.pool
  }

  /** What a whole iteration leaves: the parser is on the next event, or the call returns or throws. */
  ghost predicate Advanced(o: Outcome, done: Option<Result<Value>>, now: Machine)
  {
    match o
      case Continue(next) => done.None? && now == next
      case Stop(last, v) => done == Some(Success(v)) && Kept(last, now)
      case Fail(last, e) => done == Some(Failure(e)) && Kept(last, now)
  }

  /** What a case of the switch leaves, before parser.next(). */
  ghost predicate Iterated(o: Outcome, done: Option<Result<Value>>, now: Machine)
  {
    match o
      case Continue(next) => done.None? && now.(pos := now.pos + 1) == next
      case Stop(last, v) => done == Some(Success(v)) && Kept(last, now)
      case Fail(last, e) => done == Some(Failure(e)) && Kept(last, now)
  }

  /**
   * The attribute loop of pullInternal (lines 214-219): each attribute, in
   * document order, goes to the builder, and the first failure ends the
   * loop.
   */
  method UpdateAttributes(b: ObjectBuilder?, obj: Value, attributes: seq<Attribute>) returns (r: Result<Value>)
    ensures r == ApplyAttributes(b, obj, attributes)
  {
    var current := obj;
    var i := 0;
    while i < |attributes|
      invariant 0 <= i <= |attributes|
      invariant ApplyAttributes(b, obj, attributes) == ApplyAttributes(b, current, attributes[i..])
    {
      var updated := UpdateAttribute(b, current, attributes[i].name, attributes[i].value);
      if updated.Failure? {
        return Failure(updated.error);
      }
      assert attributes[i..][1..] == attributes[i + 1..];
      current := updated.value;
      i := i + 1;
    }
    return Success(current);
  }

  class XmlObjectPull {
    /** mParser: the events after START_DOCUMENT and the current one. */
    const events: seq<Event>
    var pos: nat
    /** mCurrentElementDescriptorPath */
    const path: XmlPath
    /** mObjectStack, innermost first. */
    var objectStack: seq<Value>
    /** mCurrentBuilder */
    var currentBuilder: ObjectBuilder?
    /** mContext */
    var context: XmlContext?
    /** mParserContext */
    const parserContext: ParserContext
    /** The descriptor registry that ElementDescriptor.get consults. */
    const registry: Registry
    /** False: the loop as written; true: the corrected loop. */
    const writeBack: bool

    ghost predicate Valid()
      reads this, path
    {
      ValidStream(events) && pos < |events|
    }

    /**
     * new XmlObjectPull(parser, parserContext): the parser is moved past
     * START_DOCUMENT, the path and the object stack start empty.
     */
    constructor (events: seq<Event>, registry: Registry, parserContext: ParserContext, writeBack: bool)
      requires ValidStream(events)
      ensures Valid() && fresh(path)
      ensures this.events == events && pos == 0 && path.elements == [] && objectStack == []
      ensures currentBuilder == null && context == null
      ensures this.registry == registry && this.parserContext == parserContext && this.writeBack == writeBack
    {
      this.events := events;
      this.registry := registry;
      this.parserContext := parserContext;
      this.writeBack := writeBack;
      pos := 0;
      path := new XmlPath(None);
      objectStack := [];
      currentBuilder := null;
      context := null;
    }

    /** XmlObjectPull.setContext */
    method SetContext(c: XmlContext?)
      modifies this
      ensures context == c
      ensures pos == old(pos) && objectStack == old(objectStack) && currentBuilder == old(currentBuilder)
    {
      context := c;
    }

    /** XmlObjectPull.isEndOfDocument */
    function IsEndOfDocument(): (r: bool)
      requires Valid()
      reads this, path
      ensures r <==> events[pos] == EndDocument
    {
      events[pos].EndDocument?
    }

    /**
     * XmlObjectPull.getCurrentElementDescriptor: the descriptor of the
     * element at the current start or end tag; elsewhere the parser has no
     * name and interning a null name is an IllegalArgumentException.
     */
    function CurrentElementDescriptor(): (r: Result<ElementDescriptor?>)
      requires Valid() && registry.Valid() && (context != null ==> context.Valid())
      reads this, path, registry, registry.defaultContext, context
      ensures r.Failure? <==> events[pos].Text? || events[pos].EndDocument?
      ensures r.Failure? ==> r.error == IllegalArgument
      ensures r.Success? && r.value != null ==> r.value.qualifiedName == events[pos].name
      ensures r.Success? ==> r.value == Resolve(registry.ScopeOf(context), events[pos].name)
    {
      match events[pos]
        case StartTag(_, name, _) => Success(registry.GetIn(name, context))
        case EndTag(_, name) => Success(registry.GetIn(name, context))
        case _ => Failure(IllegalArgument)
    }

    /** pullInternal's type check: the type must come from the current context or from DEFAULT. */
    predicate Admits(elementType: ElementDescriptor)
      reads this, registry, elementType.context
    {
      ContextOf(elementType) == context || ContextOf(elementType) == registry.defaultContext
    }

    /** The arguments of a pullInternal call, with the descriptors it can look up. */
    ghost function CallConfig(elementType: ElementDescriptor, target: XmlPath, stopOnStartTag: bool, stopOnLeaveSubTree: bool): Config
      reads this, registry, registry.defaultContext, context, target
    {
      Config(events, registry.ScopeOf(context), elementType, target.elements, stopOnStartTag, stopOnLeaveSubTree, writeBack)
    }

    /** The fields of this object, with the loop's locals, as a machine of the pull engine (the contracts below spell it out field by field). */
    ghost function State(current: Value, ignore: Option<nat>, recycled: Value): Machine
      reads this, path, parserContext
    {
      Machine(pos, path.elements, objectStack, currentBuilder, parserContext.recycled, current, ignore, recycled)
    }

    /** The machine at the start of pullInternal's loop for a given object to recycle. */
    ghost function Initial(recycle: Value): Machine
      reads this, path, parserContext
    {
      Start(pos, path.elements, objectStack, currentBuilder, parserContext.recycled, recycle)
    }

    /** The fields of this object are those of the machine. */
    ghost predicate Holds(m: Machine)
      reads this, path, parserContext
    {
      pos == m.pos && path.elements == m.path && objectStack == m.stack &&
      currentBuilder == m.builder && parserContext.recycled == m.pool
    }

    /**
     * XmlObjectPull.pullInternal.  A type from another context is refused
     * before anything changes; otherwise the loop runs over the events and
     * ends where `Run` ends, returning or throwing what `Run` does.  Each
     * case of the source's switch is a method of its own below; the local
     * currentElementDescriptor is always the innermost element of the path,
     * which those methods read instead.
     */
    method PullInternal(elementType: ElementDescriptor, recycle: Value, target: XmlPath, stopOnStartTag: bool, stopOnLeaveSubTree: bool)
      returns (r: Result<Value>)
      requires Valid() && registry.Valid() && (context != null ==> context.Valid())
      requires target != path
      modifies this, path, parserContext
      ensures Valid() && context == old(context) && parserContext.state == old(parserContext.state)
      ensures !old(Admits(elementType)) ==> r == Failure(IllegalArgument) && Holds(old(Initial(recycle)))
      ensures old(Admits(elementType)) ==>
        var (last, result) := Run(CallConfig(elementType, target, stopOnStartTag, stopOnLeaveSubTree), old(Initial(recycle)));
        r == result && Holds(last)
    {
      var typeContext := ContextOf(elementType);
      if typeContext != context && typeContext != registry.defaultContext {
        return Failure(IllegalArgument);
      }
      var currentObject := if |objectStack| > 0 then objectStack[0] else VNull;
      ghost var cfg := CallConfig(elementType, target, stopOnStartTag, stopOnLeaveSubTree);
      ghost var start := Initial(recycle);
      assert start == Machine(pos, path.elements, objectStack, currentBuilder, parserContext.recycled, currentObject, None, recycle);
      r := Loop(cfg, elementType, target, stopOnStartTag, stopOnLeaveSubTree, currentObject, recycle);
      assert cfg == CallConfig(elementType, target, stopOnStartTag, stopOnLeaveSubTree);
    }

    /** pullInternal's loop, from the state the call starts it in. */
    method Loop(ghost cfg: Config, elementType: ElementDescriptor, target: XmlPath, stopOnStartTag: bool, stopOnLeaveSubTree: bool,
                currentObject: Value, recycle: Value)
      returns (r: Result<Value>)
      requires Valid() && registry.Valid() && (context != null ==> context.Valid())
      requires target != path
      requires cfg == CallConfig(elementType, target, stopOnStartTag, stopOnLeaveSubTree) && cfg.events == events
      modifies path, this`currentBuilder, this`objectStack, this`pos, parserContext
      ensures Valid() && parserContext.state == old(parserContext.state)
      ensures var (last, result) := Run(cfg,
        old(Machine(pos, path.elements, objectStack, currentBuilder, parserContext.recycled, currentObject, None, recycle)));
        r == result && Holds(last)
    {
      ghost var start := State(currentObject, None, recycle);
      var ignoreDepth: Option<nat> := None;
      var recycled := recycle;
      var currentObject := currentObject;
      while true
        invariant Valid() && parserContext.state == old(parserContext.state)
        invariant cfg == CallConfig(elementType, target, stopOnStartTag, stopOnLeaveSubTree)
        invariant Run(cfg, State(currentObject, ignoreDepth, recycled)) == Run(cfg, start)
        decreases |events| - pos
      {
        ghost var m := State(currentObject, ignoreDepth, recycled);
        RunUnfolds(cfg, m);
        var done;
        done, currentObject, ignoreDepth, recycled :=
          Iteration(cfg, elementType, target, stopOnStartTag, stopOnLeaveSubTree, currentObject, ignoreDepth, recycled);
        if done.Some? {
          return done.value;
        }
      }
    }

    /**
     * One iteration of pullInternal's loop: the switch on the parser's
     * event type, then parser.next() unless the call returns.
     */
    method Iteration(ghost cfg: Config, elementType: ElementDescriptor, target: XmlPath, stopOnStartTag: bool, stopOnLeaveSubTree: bool,
                     currentObject: Value, ignoreDepth: Option<nat>, recycled: Value)
      returns (done: Option<Result<Value>>, currentObject': Value, ignoreDepth': Option<nat>, recycled': Value)
      requires Valid() && registry.Valid() && (context != null ==> context.Valid())
      requires target != path
      requires cfg == CallConfig(elementType, target, stopOnStartTag, stopOnLeaveSubTree) && cfg.events == events
      modifies path, this`currentBuilder, this`objectStack, this`pos, parserContext
      ensures Valid() && parserContext.state == old(parserContext.state)
      ensures Advanced(Step(cfg,
        old(Machine(pos, path.elements, objectStack, currentBuilder, parserContext.recycled, currentObject, ignoreDepth, recycled))),
        done, Machine(pos, path.elements, objectStack, currentBuilder, parserContext.recycled, currentObject', ignoreDepth', recycled'))
    {
      ghost var m := State(currentObject, ignoreDepth, recycled);
      currentObject', ignoreDepth', recycled' := currentObject, ignoreDepth, recycled;
      match events[pos] {
        case StartTag(depth, name, attributes) =>
          assert Step(cfg, m) == StartTagStep(cfg, m, depth, name, attributes);
          done, currentObject', ignoreDepth', recycled' :=
            StartTagCase(cfg, elementType, target, stopOnStartTag, depth, name, attributes, currentObject, ignoreDepth, recycled);
        case EndTag(depth, _) =>
          assert Step(cfg, m) == EndTagStep(cfg, m, depth);
          done, currentObject', ignoreDepth' :=
            EndTagCase(cfg, elementType, target, stopOnStartTag, stopOnLeaveSubTree, depth, currentObject, ignoreDepth, recycled);
        case Text(depth, text) =>
          assert Step(cfg, m) == TextStep(cfg, m, depth, text);
          done, currentObject' := TextCase(cfg, depth, text, currentObject, ignoreDepth, recycled);
        case EndDocument =>
          done := Some(Success(VNull));
      }
      if done.None? {
        pos := pos + 1;
      }
    }

    /** pullInternal at a START_TAG. */
    method StartTagCase(ghost cfg: Config, elementType: ElementDescriptor, target: XmlPath, stopOnStartTag: bool,
                        depth: nat, name: QualifiedName, attributes: seq<Attribute>,
                        currentObject: Value, ignoreDepth: Option<nat>, recycled: Value)
      returns (done: Option<Result<Value>>, currentObject': Value, ignoreDepth': Option<nat>, recycled': Value)
      requires Valid() && registry.Valid() && (context != null ==> context.Valid())
      requires target != path && events[pos] == StartTag(depth, name, attributes)
      requires cfg == CallConfig(elementType, target, stopOnStartTag, cfg.stopOnLeaveSubTree)
      modifies path, this`currentBuilder, this`objectStack, parserContext
      ensures Valid() && parserContext.state == old(parserContext.state)
      ensures Iterated(StartTagStep(cfg,
        old(Machine(pos, path.elements, objectStack, currentBuilder, parserContext.recycled, currentObject, ignoreDepth, recycled)), depth, name, attributes),
        done, Machine(pos, path.elements, objectStack, currentBuilder, parserContext.recycled, currentObject', ignoreDepth', recycled'))
    {
      ghost var m := State(currentObject, ignoreDepth, recycled);
      currentObject', ignoreDepth', recycled' := currentObject, ignoreDepth, recycled;
      if !Below(depth, ignoreDepth) {
        return None, currentObject', ignoreDepth', recycled';
      }
      var currentElementDescriptor := registry.GetIn(name, context);
      if currentElementDescriptor == null {
        return None, currentObject', Some(depth), recycled';
      }
      if stopOnStartTag && elementType == currentElementDescriptor && target.Matches(path) {
        return Some(Success(VNull)), currentObject', ignoreDepth', recycled';
      }
      assert StartTagStep(cfg, m, depth, name, attributes) == OpenStep(m, currentElementDescriptor, attributes);
      done, currentObject', recycled' := OpenElement(currentElementDescriptor, attributes, currentObject, ignoreDepth, recycled);
    }

    /** pullInternal at a START_TAG of a known element that the call does not stop at. */
    method OpenElement(currentElementDescriptor: ElementDescriptor, attributes: seq<Attribute>,
                       ghost currentObject: Value, ghost ignoreDepth: Option<nat>, recycled: Value)
      returns (done: Option<Result<Value>>, currentObject': Value, recycled': Value)
      requires Valid() && pos + 1 < |events|
      modifies path, this`currentBuilder, this`objectStack, parserContext
      ensures Valid() && parserContext.state == old(parserContext.state)
      ensures Iterated(OpenStep(
        old(Machine(pos, path.elements, objectStack, currentBuilder, parserContext.recycled, currentObject, ignoreDepth, recycled)), currentElementDescriptor, attributes),
        done, Machine(pos, path.elements, objectStack, currentBuilder, parserContext.recycled, currentObject', ignoreDepth, recycled'))
    {
      recycled' := recycled;
      if recycled' == VNull {
        recycled' := parserContext.GetRecycled(currentElementDescriptor);
      }
      currentBuilder := currentElementDescriptor.builder;
      var made := Get(currentBuilder, recycled');
      if made.Failure? {
        return Some(Failure(made.error)), VNull, VNull;
      }
      recycled' := VNull;
      var updated := UpdateAttributes(currentBuilder, made.value, attributes);
      currentObject' := updated.value;
      objectStack := [currentObject'] + objectStack;
      path.Append(currentElementDescriptor);
      done := None;
    }

    /** pullInternal at an END_TAG. */
    method EndTagCase(ghost cfg: Config, elementType: ElementDescriptor, target: XmlPath, stopOnStartTag: bool, stopOnLeaveSubTree: bool,
                      depth: nat, currentObject: Value, ignoreDepth: Option<nat>, ghost recycled: Value)
      returns (done: Option<Result<Value>>, currentObject': Value, ignoreDepth': Option<nat>)
      requires Valid() && target != path && events[pos].EndTag? && events[pos].depth == depth
      requires cfg == CallConfig(elementType, target, stopOnStartTag, stopOnLeaveSubTree)
      modifies path, this`currentBuilder, this`objectStack, this`pos
      ensures Valid()
      ensures Iterated(EndTagStep(cfg,
        old(Machine(pos, path.elements, objectStack, currentBuilder, parserContext.recycled, currentObject, ignoreDepth, recycled)), depth),
        done, Machine(pos, path.elements, objectStack, currentBuilder, parserContext.recycled, currentObject', ignoreDepth', recycled))
    {
      ghost var m := State(currentObject, ignoreDepth, recycled);
      currentObject', ignoreDepth' := currentObject, ignoreDepth;
      if !Below(depth, ignoreDepth) {
        if ignoreDepth == Some(depth) {
          ignoreDepth' := None;
        }
        return None, currentObject', ignoreDepth';
      }
      if stopOnLeaveSubTree && depth as int - 1 < target.Length() {
        return Some(Success(VNull)), currentObject', ignoreDepth';
      }
      var childObject := Finish(currentBuilder, currentObject);
      if childObject.Failure? {
        return Some(Failure(childObject.error)), currentObject', ignoreDepth';
      }
      assert EndTagStep(cfg, m, depth) == CloseStep(cfg, m, childObject.value);
      done, currentObject' := CloseElement(cfg, elementType, target, stopOnStartTag, childObject.value, currentObject, ignoreDepth, recycled);
    }

    /** pullInternal at an END_TAG once the child object is finished. */
    method CloseElement(ghost cfg: Config, elementType: ElementDescriptor, target: XmlPath, stopOnStartTag: bool,
                        childObject: Value, ghost current: Value, ghost ignoreDepth: Option<nat>, ghost recycled: Value)
      returns (done: Option<Result<Value>>, currentObject': Value)
      requires Valid() && target != path && events[pos].EndTag?
      requires cfg.target == elementType && cfg.targetPath == target.elements
      requires cfg.stopOnStartTag == stopOnStartTag && cfg.writeBack == writeBack
      modifies path, this`currentBuilder, this`objectStack, this`pos
      ensures Valid()
      ensures Iterated(CloseStep(cfg,
        old(Machine(pos, path.elements, objectStack, currentBuilder, parserContext.recycled, current, ignoreDepth, recycled)), childObject),
        done, Machine(pos, path.elements, objectStack, currentBuilder, parserContext.recycled, currentObject', ignoreDepth, recycled))
    {
      ghost var m := State(current, ignoreDepth, recycled);
      var childClass := path.Peek();
      var popped := path.Pop();
      if popped.Failure? {
        return Some(Failure(popped.error)), VNull;
      }
      assert path.elements == m.path[1..];
      if |objectStack| == 0 {
        return Some(Failure(NoSuchElement)), VNull;
      }
      objectStack := objectStack[1..];
      var currentElementDescriptor := path.Peek();
      currentObject' := if |objectStack| > 0 then objectStack[0] else VNull;
      if currentElementDescriptor != null {
        currentBuilder := currentElementDescriptor.builder;
      }
      assert State(currentObject', ignoreDepth, recycled) == Popped(m);
      done, currentObject' := AttachElement(cfg, elementType, target, stopOnStartTag, popped.value, childObject, currentObject', ignoreDepth, recycled);
    }

    /** pullInternal at an END_TAG once the closed element is popped: return it, or hand it to the parent. */
    method AttachElement(ghost cfg: Config, elementType: ElementDescriptor, target: XmlPath, stopOnStartTag: bool,
                         childClass: ElementDescriptor, childObject: Value, currentObject: Value,
                         ghost ignoreDepth: Option<nat>, ghost recycled: Value)
      returns (done: Option<Result<Value>>, currentObject': Value)
      requires Valid() && target != path && pos + 1 < |events|
      requires cfg.target == elementType && cfg.targetPath == target.elements
      requires cfg.stopOnStartTag == stopOnStartTag && cfg.writeBack == writeBack
      modifies this`objectStack, this`pos
      ensures Valid()
      ensures Iterated(AttachStep(cfg,
        old(Machine(pos, path.elements, objectStack, currentBuilder, parserContext.recycled, currentObject, ignoreDepth, recycled)), childClass, childObject),
        done, Machine(pos, path.elements, objectStack, currentBuilder, parserContext.recycled, currentObject', ignoreDepth, recycled))
    {
      currentObject' := currentObject;
      if elementType == childClass && !stopOnStartTag && path.Matches(target) {
        pos := pos + 1;
        return Some(Success(childObject)), currentObject';
      }
      var updated := UpdateChild(currentBuilder, currentObject, Child(childClass, childObject));
      if updated.Failure? {
        return Some(Failure(updated.error)), currentObject';
      }
      currentObject' := updated.value;
      if (writeBack || InPlace(currentBuilder)) && |objectStack| > 0 {
        objectStack := [currentObject'] + objectStack[1..];
      }
      done := None;
    }

    /** pullInternal at TEXT. */
    method TextCase(ghost cfg: Config, depth: nat, text: string, currentObject: Value, ignoreDepth: Option<nat>, ghost recycled: Value)
      returns (done: Option<Result<Value>>, currentObject': Value)
      requires Valid() && cfg.writeBack == writeBack
      modifies this`objectStack
      ensures Valid()
      ensures Iterated(TextStep(cfg,
        old(Machine(pos, path.elements, objectStack, currentBuilder, parserContext.recycled, currentObject, ignoreDepth, recycled)), depth, text),
        done, Machine(pos, path.elements, objectStack, currentBuilder, parserContext.recycled, currentObject', ignoreDepth, recycled))
    {
      currentObject' := currentObject;
      if Below(depth, ignoreDepth) {
        var updated := UpdateText(currentBuilder, currentObject, text);
        if updated.Failure? {
          return Some(Failure(updated.error)), currentObject';
        }
        currentObject' := updated.value;
        if writeBack && |objectStack| > 0 {
          objectStack := [currentObject'] + objectStack[1..];
        }
      }
      return None, currentObject';
    }

    /** XmlObjectPull.pull: the next element of the type at the path, built. */
    method Pull(elementType: ElementDescriptor, recycle: Value, target: XmlPath) returns (r: Result<Value>)
      requires Valid() && registry.Valid() && (context != null ==> context.Valid())
      requires target != path
      modifies this, path, parserContext
      ensures Valid() && context == old(context)
      ensures !old(Admits(elementType)) ==> r == Failure(IllegalArgument) && Holds(old(Initial(recycle)))
      ensures old(Admits(elementType)) ==>
        var (last, result) := Run(CallConfig(elementType, target, false, false), old(Initial(recycle)));
        r == result && Holds(last)
    {
      r := PullInternal(elementType, recycle, target, false, false);
    }

    /**
     * XmlObjectPull.moveToNext: skips to the next start tag of the type at
     * the path and says whether there is one (false at the end of the
     * document).
     */
    method MoveToNext(elementType: ElementDescriptor, target: XmlPath) returns (r: Result<bool>)
      requires Valid() && registry.Valid() && (context != null ==> context.Valid())
      requires target != path
      modifies this, path, parserContext
      ensures Valid() && context == old(context)
      ensures !old(Admits(elementType)) ==> r == Failure(IllegalArgument)
      ensures old(Admits(elementType)) ==>
        var (last, result) := Run(CallConfig(elementType, target, true, false), old(Initial(VNull)));
        Holds(last) &&
        (result.Failure? ==> r == Failure(result.error)) &&
        (result.Success? ==> r == Success(!IsEndOfDocument()))
    {
      var pulled := PullInternal(elementType, VNull, target, true, false);
      if pulled.Failure? {
        return Failure(pulled.error);
      }
      return Success(!IsEndOfDocument());
    }

    /**
     * XmlObjectPull.moveToNextSibling: like moveToNext, but stops before
     * leaving the subtree of the path; true when it stopped at a start tag
     * one level below the path.
     */
    method MoveToNextSibling(elementType: ElementDescriptor, target: XmlPath) returns (r: Result<bool>)
      requires Valid() && registry.Valid() && (context != null ==> context.Valid())
      requires target != path
      modifies this, path, parserContext
      ensures Valid() && context == old(context)
      ensures !old(Admits(elementType)) ==> r == Failure(IllegalArgument)
      ensures old(Admits(elementType)) ==>
        var (last, result) := Run(CallConfig(elementType, target, true, true), old(Initial(VNull)));
        Holds(last) &&
        (result.Failure? ==> r == Failure(result.error)) &&
        (result.Success? ==> r == Success(result.value != VNull || Depth(events[pos]) == |target.elements| + 1))
    {
      var pulled := PullInternal(elementType, VNull, target, true, true);
      if pulled.Failure? {
        return Failure(pulled.error);
      }
      return Success(pulled.value != VNull || Depth(events[pos]) == target.Length() + 1);
    }
  }
}
