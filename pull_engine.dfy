/**
 * The semantics of XmlObjectPull.pullInternal as a state machine over the
 * pull parser's event stream.
 *
 * A `Machine` holds what one iteration of the source's `while (true)`
 * loop reads and writes: the parser position, the path of element
 * descriptors and the object stack (both innermost first), the current
 * builder, the parser context's pool of recycled objects, and the loop's
 * locals (current object, ignore depth, object to recycle).  `Step` is one
 * iteration of the switch; `Run` iterates it until the loop returns or
 * throws.  The class in xml_object_pull.dfy performs the same loop in
 * place and is proved to end in the state `Run` describes.
 *
 * `writeBack` selects between the loop as written (false) and the
 * corrected loop (true), which stores the updated current object back on
 * top of the object stack; see StaleParentObject below.
 */
module PullEngine {
  import opened Wrappers
  import opened QualifiedNames
  import opened ElementDescriptors
  import opened ObjectBuilders

  datatype Attribute = Attribute(name: QualifiedName, value: string)

  /**
   * The events of an XmlPullParser after START_DOCUMENT, with element and
   * attribute names already interned (QualifiedName.get).  Depths are the
   * parser's getDepth(): a start tag and its end tag report the depth of
   * the element, text the depth of the enclosing element.
   */
  datatype Event =
    | StartTag(depth: nat, name: QualifiedName, attributes: seq<Attribute>)
    | EndTag(depth: nat, name: QualifiedName)
    | Text(depth: nat, text: string)
    | EndDocument

  function Depth(e: Event): nat
  {
    match e
      case StartTag(d, _, _) => d
      case EndTag(d, _) => d
      case Text(d, _) => d
      case EndDocument => 0
  }

  /** A parser's event stream ends with END_DOCUMENT, after which next() stays put. */
  predicate ValidStream(events: seq<Event>)
  {
    |events| > 0 && events[|events| - 1].EndDocument?
  }

  /** The arguments of one pullInternal call and what it reads but never changes. */
  datatype Config = Config(
    events: seq<Event>,
    scope: Scope,                              // the descriptors of mContext and DEFAULT_CONTEXT
    target: ElementDescriptor,                 // type
    targetPath: seq<ElementDescriptor>,        // path, innermost first
    stopOnStartTag: bool,
    stopOnLeaveSubTree: bool,
    writeBack: bool)

  datatype Machine = Machine(
    pos: nat,                                  // the parser's current event
    path: seq<ElementDescriptor>,              // mCurrentElementDescriptorPath, innermost first
    stack: seq<Value>,                         // mObjectStack, innermost first
    builder: ObjectBuilder?,                   // mCurrentBuilder
    pool: map<ElementDescriptor, Value>,       // the parser context's recycled objects
    current: Value,                            // currentObject
    ignore: Option<nat>,                       // ignoreDepth; None is Integer.MAX_VALUE
    recycled: Value)                           // recycled

  /** How one iteration ends: the loop goes on, returns a value, or throws. */
  datatype Outcome =
    | Continue(m: Machine)
    | Stop(m: Machine, result: Value)
    | Fail(m: Machine, error: Exception)

  /** The machine at the head of pullInternal's loop. */
  function Start(pos: nat, path: seq<ElementDescriptor>, stack: seq<Value>, builder: ObjectBuilder?,
                 pool: map<ElementDescriptor, Value>, recycle: Value): (m: Machine)
    ensures m.ignore.None? && m.recycled == recycle
    ensures |stack| > 0 ==> m.current == stack[0]
  {
    Machine(pos, path, stack, builder, pool, if |stack| > 0 then stack[0] else VNull, None, recycle)
  }

  predicate Below(depth: nat, ignore: Option<nat>)
  {
    ignore.None? || depth < ignore.value
  }

  /** The value of the last attribute with the name, if any. */
  function LastValue(attributes: seq<Attribute>, name: QualifiedName): Option<string>
  {
    if |attributes| == 0 then None
    else match LastValue(attributes[1..], name)
      case Some(v) => Some(v)
      case None => if attributes[0].name == name then Some(attributes[0].value) else None
  }

  /** The attribute loop of a start tag: every attribute, in order, goes to the builder. */
  function ApplyAttributes(b: ObjectBuilder?, obj: Value, attributes: seq<Attribute>): (r: Result<Value>)
    ensures r.Failure? <==> b == null && |attributes| > 0
    ensures r.Failure? ==> r.error == NullPointer
    decreases |attributes|
  {
    if |attributes| == 0 then Success(obj)
    else match UpdateAttribute(b, obj, attributes[0].name, attributes[0].value)
      case Failure(e) => Failure(e)
      case Success(o) => ApplyAttributes(b, o, attributes[1..])
  }

  /**
   * A StringAttributeObjectBuilder ends up with the value of the last
   * occurrence of its attribute (the object as it was when there is none);
   * every other builder ignores attributes.
   */
  lemma {:induction false} AttributesKeepLast(b: ObjectBuilder, obj: Value, attributes: seq<Attribute>)
    ensures !b.kind.StringAttribute? ==> ApplyAttributes(b, obj, attributes) == Success(obj)
    ensures b.kind.StringAttribute? ==>
      ApplyAttributes(b, obj, attributes) ==
        match LastValue(attributes, b.kind.attribute)
          case Some(v) => Success(VStr(v))
          case None => Success(obj)
    decreases |attributes|
  {
    if |attributes| > 0 {
      var a := attributes[0];
      var o := UpdateAttribute(b, obj, a.name, a.value).value;
      AttributesKeepLast(b, o, attributes[1..]);
    }
  }

  /**
   * The object stack after an update of the current object.  The stacked
   * object changes when the builder changed that very instance (`shared`,
   * a collection builder adding a child), and, in the corrected loop,
   * whenever the update succeeds.
   */
  function WriteBack(cfg: Config, shared: bool, stack: seq<Value>, obj: Value): (r: seq<Value>)
    ensures |r| == |stack|
    ensures (cfg.writeBack || shared) && |stack| > 0 ==> r[0] == obj && r[1..] == stack[1..]
    ensures !(cfg.writeBack || shared) ==> r == stack
  {
    if (cfg.writeBack || shared) && |stack| > 0 then [obj] + stack[1..] else stack
  }

  /** One iteration at a START_TAG (lines 188-230). */
  function StartTagStep(cfg: Config, m: Machine, depth: nat, name: QualifiedName, attributes: seq<Attribute>): (r: Outcome)
    ensures r.m.pos == m.pos || r.m.pos == m.pos + 1
    ensures r.Stop? ==> r.m == m && r.result == VNull
    ensures r.Continue? && |r.m.path| != |m.path| ==>
      var d := Resolve(cfg.scope, name);
      d != null && r.m.path == [d] + m.path && |r.m.stack| == |m.stack| + 1 &&
      r.m.builder == d.builder && r.m.recycled == VNull
    ensures r.Continue? && |r.m.path| == |m.path| ==> r.m.(pos := m.pos, ignore := m.ignore) == m
  {
    if !Below(depth, m.ignore) then Continue(m.(pos := m.pos + 1))
    else
      var d := Resolve(cfg.scope, name);
      if d == null then Continue(m.(pos := m.pos + 1, ignore := Some(depth)))
      else if cfg.stopOnStartTag && cfg.target == d && cfg.targetPath == m.path then Stop(m, VNull)
      else OpenStep(m, d, attributes)
  }

  /**
   * The rest of a START_TAG of a known element (lines 201-222): take an
   * object to recycle from the pool unless one is pending, let the
   * builder create the object and see the attributes, then push.
   */
  function OpenStep(m: Machine, d: ElementDescriptor, attributes: seq<Attribute>): (r: Outcome)
    ensures r.Continue? || r.Fail?
    ensures r.m.pos == m.pos || r.m.pos == m.pos + 1
    ensures r.Continue? ==>
      r.m.pos == m.pos + 1 && r.m.path == [d] + m.path && |r.m.stack| == |m.stack| + 1 &&
      r.m.builder == d.builder && r.m.recycled == VNull && r.m.ignore == m.ignore
  {
    var offered := if m.recycled == VNull then (if d in m.pool then m.pool[d] else VNull) else m.recycled;
    var taken := m.(pool := if m.recycled == VNull then m.pool - {d} else m.pool, builder := d.builder, recycled := VNull);
    match Get(d.builder, offered)
      case Failure(e) => Fail(taken, e)
      case Success(made) =>
        match ApplyAttributes(d.builder, made, attributes)
          case Failure(e) => Fail(taken, e)
          case Success(obj) =>
            Continue(taken.(pos := m.pos + 1, path := [d] + m.path, stack := [obj] + m.stack, current := obj))
  }

  /** One iteration at an END_TAG (lines 231-276). */
  function EndTagStep(cfg: Config, m: Machine, depth: nat): (r: Outcome)
    ensures r.m.pos == m.pos || r.m.pos == m.pos + 1
    ensures r.m.pool == m.pool && r.m.recycled == m.recycled
    ensures r.Continue? && r.m.path != m.path ==>
      |m.path| > 0 && r.m.path == m.path[1..] && |r.m.stack| + 1 == |m.stack| && Below(depth, m.ignore) &&
      !(cfg.stopOnLeaveSubTree && depth as int - 1 < |cfg.targetPath|)
    ensures r.Continue? && r.m.path == m.path ==> r.m == m.(pos := m.pos + 1, ignore := r.m.ignore)
    ensures r.Stop? && r.m.pos == m.pos ==> r.m == m && r.result == VNull && cfg.stopOnLeaveSubTree
    ensures r.Stop? && r.m.pos != m.pos ==>
      |m.path| > 0 && m.path[0] == cfg.target && r.m.path == m.path[1..] && r.m.path == cfg.targetPath && !cfg.stopOnStartTag &&
      r.result == m.current && |r.m.stack| + 1 == |m.stack| && Below(depth, m.ignore) &&
      !(cfg.stopOnLeaveSubTree && depth as int - 1 < |cfg.targetPath|)
  {
    if Below(depth, m.ignore) then
      if cfg.stopOnLeaveSubTree && depth as int - 1 < |cfg.targetPath| then Stop(m, VNull)
      else match Finish(m.builder, m.current)
        case Failure(e) => Fail(m, e)
        case Success(child) => CloseStep(cfg, m, child)
    else if m.ignore == Some(depth) then Continue(m.(pos := m.pos + 1, ignore := None))
    else Continue(m.(pos := m.pos + 1))
  }

  /** The machine once the closed element is popped off the path and the object stack (lines 247-261). */
  function Popped(m: Machine): (r: Machine)
    requires |m.path| > 0 && |m.stack| > 0
    ensures r.path == m.path[1..] && r.stack == m.stack[1..]
    ensures r.pos == m.pos && r.pool == m.pool && r.recycled == m.recycled && r.ignore == m.ignore
    ensures |r.path| > 0 ==> r.builder == r.path[0].builder
    ensures r.current == if |r.stack| > 0 then r.stack[0] else VNull
  {
    var path := m.path[1..];
    var stack := m.stack[1..];
    m.(path := path, stack := stack, builder := if |path| > 0 then path[0].builder else m.builder,
       current := if |stack| > 0 then stack[0] else VNull)
  }

  /**
   * What follows the pop (lines 262-268): the call returns the closed
   * element's object if it is the target, otherwise the object is handed
   * to the parent's builder.
   */
  function AttachStep(cfg: Config, popped: Machine, childClass: ElementDescriptor, child: Value): (r: Outcome)
    ensures r.m.pos == popped.pos || r.m.pos == popped.pos + 1
    ensures r.m.pool == popped.pool && r.m.recycled == popped.recycled && r.m.ignore == popped.ignore
    ensures r.m.path == popped.path && |r.m.stack| == |popped.stack|
    ensures r.Stop? ==> childClass == cfg.target && popped.path == cfg.targetPath && !cfg.stopOnStartTag && r.result == child
    ensures r.Continue? && (cfg.writeBack || InPlace(popped.builder)) && |popped.stack| > 0 ==>
      r.m.stack == [r.m.current] + popped.stack[1..]
    ensures r.Continue? && !(cfg.writeBack || InPlace(popped.builder)) ==> r.m.stack == popped.stack
  {
    if cfg.target == childClass && !cfg.stopOnStartTag && popped.path == cfg.targetPath then
      Stop(popped.(pos := popped.pos + 1), child)
    else match UpdateChild(popped.builder, popped.current, Child(childClass, child))
      case Failure(e) => Fail(popped, e)
      case Success(obj) => Continue(popped.(pos := popped.pos + 1, current := obj, stack := WriteBack(cfg, InPlace(popped.builder), popped.stack, obj)))
  }

  /** The rest of an END_TAG iteration once the builder has finished the element's object. */
  function CloseStep(cfg: Config, m: Machine, child: Value): (r: Outcome)
    ensures r.m.pos == m.pos || r.m.pos == m.pos + 1
    ensures r.m.pool == m.pool && r.m.recycled == m.recycled && r.m.ignore == m.ignore
    ensures r.Continue? ==> |m.path| > 0 && r.m.path == m.path[1..] && |r.m.stack| + 1 == |m.stack|
    ensures r.Fail? && |m.path| == 0 ==> r.m == m
    ensures r.Stop? ==>
      |m.path| > 0 && m.path[0] == cfg.target && r.m.path == m.path[1..] && r.m.path == cfg.targetPath && !cfg.stopOnStartTag &&
      r.result == child && |r.m.stack| + 1 == |m.stack|
  {
    if |m.path| == 0 then Fail(m, NoSuchElement)
    else if |m.stack| == 0 then Fail(m.(path := m.path[1..]), NoSuchElement)
    else AttachStep(cfg, Popped(m), m.path[0], child)
  }

  /** One iteration at TEXT (lines 277-286). */
  function TextStep(cfg: Config, m: Machine, depth: nat, text: string): (r: Outcome)
    ensures r.Continue? || r.Fail?
    ensures r.Fail? ==> r.m == m
    ensures r.Continue? ==> r.m.(current := m.current, stack := m.stack) == m.(pos := m.pos + 1) && |r.m.stack| == |m.stack|
    ensures r.Continue? && cfg.writeBack && |m.stack| > 0 && Below(depth, m.ignore) ==> r.m.stack == [r.m.current] + m.stack[1..]
    ensures r.Continue? && !cfg.writeBack ==> r.m.stack == m.stack
  {
    if Below(depth, m.ignore) then
      match UpdateText(m.builder, m.current, text)
        case Failure(e) => Fail(m, e)
        case Success(obj) => Continue(m.(pos := m.pos + 1, current := obj, stack := WriteBack(cfg, false, m.stack, obj)))
    else Continue(m.(pos := m.pos + 1))
  }

  /** One iteration of pullInternal's loop at the parser's current event. */
  function Step(cfg: Config, m: Machine): (r: Outcome)
    requires ValidStream(cfg.events) && m.pos < |cfg.events|
    ensures r.Continue? ==> r.m.pos == m.pos + 1
    ensures r.m.pos < |cfg.events|
  {
    match cfg.events[m.pos]
      case StartTag(depth, name, attributes) => StartTagStep(cfg, m, depth, name, attributes)
      case EndTag(depth, _) => EndTagStep(cfg, m, depth)
      case Text(depth, text) => TextStep(cfg, m, depth, text)
      case EndDocument => Stop(m, VNull)
  }

  /** pullInternal's loop: the final machine and what the call returns or throws. */
  function Run(cfg: Config, m: Machine): (r: (Machine, Result<Value>))
    requires ValidStream(cfg.events) && m.pos < |cfg.events|
    ensures r.0.pos < |cfg.events|
    decreases |cfg.events| - m.pos
  {
    match Step(cfg, m)
      case Continue(next) => Run(cfg, next)
      case Stop(last, v) => (last, Success(v))
      case Fail(last, e) => (last, Failure(e))
  }

  /** Run takes one step and goes on from where the step leaves the machine. */
  lemma RunUnfolds(cfg: Config, m: Machine)
    requires ValidStream(cfg.events) && m.pos < |cfg.events|
    ensures Step(cfg, m).Continue? ==> Run(cfg, m) == Run(cfg, Step(cfg, m).m)
    ensures Step(cfg, m).Stop? ==> Run(cfg, m) == (Step(cfg, m).m, Success(Step(cfg, m).result))
    ensures Step(cfg, m).Fail? ==> Run(cfg, m) == (Step(cfg, m).m, Failure(Step(cfg, m).error))
  {
  }
}
