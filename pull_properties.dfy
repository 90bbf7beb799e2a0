/**
 * What XmlObjectPull's loop guarantees, stated over the state machine of
 * pull_engine.dfy: the object stack stays as long as the descriptor path,
 * unknown elements are skipped with everything below them, a probe stops
 * at the requested element or at the end of the document, a sibling move
 * never leaves the caller's subtree, and the corrected loop keeps the
 * object it works on on top of the stack while the loop as written does
 * so only for the collection builders, which change the stacked instance.
 */
module PullProperties {
  import opened Wrappers
  import opened QualifiedNames
  import opened ElementDescriptors
  import opened ObjectBuilders
  import opened PullEngine

  /** Every iteration keeps one object on the stack per element on the path. */
  lemma StepKeepsStackAligned(cfg: Config, m: Machine)
    requires ValidStream(cfg.events) && m.pos < |cfg.events|
    requires |m.path| == |m.stack|
    ensures |Step(cfg, m).m.path| == |Step(cfg, m).m.stack|
  {
  }

  /** The object stack and the descriptor path grow and shrink together over a whole pull. */
  lemma {:induction false} RunKeepsStackAligned(cfg: Config, m: Machine)
    requires ValidStream(cfg.events) && m.pos < |cfg.events|
    requires |m.path| == |m.stack|
    ensures |Run(cfg, m).0.path| == |Run(cfg, m).0.stack|
    decreases |cfg.events| - m.pos
  {
    StepKeepsStackAligned(cfg, m);
    var o := Step(cfg, m);
    if o.Continue? {
      RunKeepsStackAligned(cfg, o.m);
    }
  }

  /**
   * The number of elements open before event `i` of a stream read from
   * the start of the document.
   */
  function Open(events: seq<Event>, i: nat): nat
    requires i <= |events|
  {
    if i == 0 then 0
    else match events[i - 1]
      case StartTag(d, _, _) => d
      case EndTag(d, _) => if d > 0 then d - 1 else 0
      case Text(_, _) => Open(events, i - 1)
      case EndDocument => 0
  }

  /** The depth an event reports when `open` elements are open before it. */
  predicate Fits(e: Event, open: nat)
  {
    match e
      case StartTag(d, _, _) => d == open + 1
      case EndTag(d, _) => d == open && d >= 1
      case Text(d, _) => d == open
      case EndDocument => open == 0
  }

  /** The depths of a well-formed document, as an XmlPullParser reports them. */
  predicate WellNested(events: seq<Event>)
  {
    forall i :: 0 <= i < |events| ==> Fits(events[i], Open(events, i))
  }

  /**
   * The machine agrees with the document: outside an unknown element the
   * path holds every open element; inside one, the path holds the
   * elements above it and `ignore` is its depth.
   */
  predicate Consistent(cfg: Config, m: Machine)
  {
    m.pos <= |cfg.events| && Agrees(m, Open(cfg.events, m.pos))
  }

  /** The machine's path and ignore depth agree with `open` open elements. */
  predicate Agrees(m: Machine, open: nat)
  {
    match m.ignore
      case None => |m.path| == open
      case Some(d) => |m.path| + 1 == d <= open
  }

  /** The machine at the start of a document, before the root element, is consistent. */
  lemma StartIsConsistent(cfg: Config, pool: map<ElementDescriptor, Value>, builder: ObjectBuilder?, recycle: Value)
    ensures Consistent(cfg, Start(0, [], [], builder, pool, recycle))
  {
  }

  /** Every iteration that goes on or returns leaves a consistent machine. */
  lemma StepKeepsConsistent(cfg: Config, m: Machine)
    requires ValidStream(cfg.events) && WellNested(cfg.events) && m.pos < |cfg.events|
    requires Consistent(cfg, m) && |m.path| == |m.stack|
    ensures !Step(cfg, m).Fail? ==> Consistent(cfg, Step(cfg, m).m)
  {
    var open := Open(cfg.events, m.pos);
    assert Fits(cfg.events[m.pos], open);
    var next := Open(cfg.events, m.pos + 1);
    match cfg.events[m.pos]
      case StartTag(d, name, attributes) =>
        assert next == d;
        StartTagKeepsAgreement(cfg, m, d, name, attributes, open);
        KeepsConsistent(cfg, m, Step(cfg, m), StartTagStep(cfg, m, d, name, attributes), d);
      case EndTag(d, _) =>
        assert next == d - 1;
        EndTagKeepsAgreement(cfg, m, d);
        KeepsConsistent(cfg, m, Step(cfg, m), EndTagStep(cfg, m, d), d - 1);
      case Text(d, text) =>
        assert next == open;
        KeepsConsistent(cfg, m, Step(cfg, m), TextStep(cfg, m, d, text), open);
      case EndDocument =>
  }

  /** An outcome that agrees with the open elements after the event leaves a consistent machine. */
  lemma KeepsConsistent(cfg: Config, m: Machine, o: Outcome, o': Outcome, next: nat)
    requires m.pos < |cfg.events| && Consistent(cfg, m) && next == Open(cfg.events, m.pos + 1)
    requires o == o'
    requires o'.Continue? ==> o'.m.pos == m.pos + 1 && Agrees(o'.m, next)
    requires o'.Stop? ==> o'.m == m || (o'.m.pos == m.pos + 1 && Agrees(o'.m, next))
    ensures !o.Fail? ==> Consistent(cfg, o.m)
  {
  }

  lemma StartTagKeepsAgreement(cfg: Config, m: Machine, d: nat, name: QualifiedName, attributes: seq<Attribute>, open: nat)
    requires d == open + 1 && Agrees(m, open)
    ensures var o := StartTagStep(cfg, m, d, name, attributes);
      (o.Continue? ==> Agrees(o.m, d)) && (o.Stop? ==> o.m == m)
  {
  }

  lemma EndTagKeepsAgreement(cfg: Config, m: Machine, d: nat)
    requires d >= 1 && Agrees(m, d) && |m.path| == |m.stack|
    ensures var o := EndTagStep(cfg, m, d);
      (o.Continue? ==> Agrees(o.m, d - 1)) && (o.Stop? && o.m.pos == m.pos ==> o.m == m) &&
      (o.Stop? && o.m.pos != m.pos ==> Agrees(o.m, d - 1))
  {
  }

  /** A pull that returns leaves the machine consistent with the document. */
  lemma {:induction false} RunKeepsConsistent(cfg: Config, m: Machine)
    requires ValidStream(cfg.events) && WellNested(cfg.events) && m.pos < |cfg.events|
    requires Consistent(cfg, m) && |m.path| == |m.stack|
    ensures Run(cfg, m).1.Success? ==> Consistent(cfg, Run(cfg, m).0)
    decreases |cfg.events| - m.pos
  {
    StepKeepsConsistent(cfg, m);
    StepKeepsStackAligned(cfg, m);
    var o := Step(cfg, m);
    if o.Continue? {
      RunKeepsConsistent(cfg, o.m);
    }
  }

  /**
   * An element whose name no context knows is skipped together with
   * everything below it, up to its end tag: the pull goes on from the
   * event after the end tag exactly as if the subtree were not there, so
   * no builder sees any of it.
   */
  lemma SkipsUnknownSubtree(cfg: Config, m: Machine, q: nat)
    requires ValidStream(cfg.events) && m.pos < q < |cfg.events|
    requires m.ignore.None?
    requires cfg.events[m.pos].StartTag? && Resolve(cfg.scope, cfg.events[m.pos].name) == null
    requires cfg.events[q].EndTag? && cfg.events[q].depth == cfg.events[m.pos].depth
    requires forall k :: m.pos < k < q ==> Inside(cfg.events[k], cfg.events[m.pos].depth)
    ensures q + 1 < |cfg.events|
    ensures Run(cfg, m) == Run(cfg, m.(pos := q + 1))
  {
    var d := cfg.events[m.pos].depth;
    assert Step(cfg, m) == Continue(m.(pos := m.pos + 1, ignore := Some(d)));
    Skipping(cfg, m, m.pos + 1, q, d);
  }

  /** An event strictly inside an element at depth `d`. */
  predicate Inside(e: Event, d: nat)
  {
    !e.EndDocument? && Depth(e) >= d && !(e.EndTag? && e.depth == d)
  }

  lemma {:induction false} Skipping(cfg: Config, m: Machine, k: nat, q: nat, d: nat)
    requires ValidStream(cfg.events) && k <= q < |cfg.events|
    requires cfg.events[q].EndTag? && cfg.events[q].depth == d
    requires forall j :: k <= j < q ==> Inside(cfg.events[j], d)
    ensures q + 1 < |cfg.events|
    ensures Run(cfg, m.(pos := k, ignore := Some(d))) == Run(cfg, m.(pos := q + 1, ignore := None))
    decreases q - k
  {
    var here := m.(pos := k, ignore := Some(d));
    IgnoredStep(cfg, here, d);
    RunUnfolds(cfg, here);
    if k < q {
      Skipping(cfg, m, k + 1, q, d);
    }
  }

  /** One iteration with an ignore depth: an event inside is passed over, the end tag at the depth clears it. */
  lemma IgnoredStep(cfg: Config, m: Machine, d: nat)
    requires ValidStream(cfg.events) && m.pos < |cfg.events| && m.ignore == Some(d)
    requires Inside(cfg.events[m.pos], d) || (cfg.events[m.pos].EndTag? && cfg.events[m.pos].depth == d)
    ensures Inside(cfg.events[m.pos], d) ==> Step(cfg, m) == Continue(m.(pos := m.pos + 1))
    ensures !Inside(cfg.events[m.pos], d) ==> Step(cfg, m) == Continue(m.(pos := m.pos + 1, ignore := None))
  {
    match cfg.events[m.pos]
      case StartTag(depth, name, attributes) =>
        assert !Below(depth, m.ignore);
      case EndTag(depth, _) =>
        assert !Below(depth, m.ignore);
      case Text(depth, text) =>
        assert !Below(depth, m.ignore);
  }

  /** The parser rests at a start tag of the requested element, at the requested path. */
  predicate AtTarget(cfg: Config, m: Machine)
    requires m.pos < |cfg.events|
  {
    var e := cfg.events[m.pos];
    e.StartTag? && Below(e.depth, m.ignore) && Resolve(cfg.scope, e.name) == cfg.target && m.path == cfg.targetPath
  }

  /**
   * A probe (moveToNext, moveToNextSibling) returns null, and stops only
   * at a start tag of the requested element at the requested path, at the
   * end of the document, or, for a sibling move, at an end tag that would
   * leave the caller's subtree.
   */
  lemma {:induction false} ProbeStops(cfg: Config, m: Machine)
    requires ValidStream(cfg.events) && m.pos < |cfg.events|
    requires cfg.stopOnStartTag
    ensures var (last, r) := Run(cfg, m);
      r.Success? ==>
        r.value == VNull &&
        (AtTarget(cfg, last) || cfg.events[last.pos].EndDocument? ||
         (cfg.stopOnLeaveSubTree && cfg.events[last.pos].EndTag? && cfg.events[last.pos].depth as int - 1 < |cfg.targetPath|))
    decreases |cfg.events| - m.pos
  {
    var o := Step(cfg, m);
    if o.Continue? {
      ProbeStops(cfg, o.m);
    }
  }

  /**
   * A pull stops at the end of the document, returning null, or right
   * after the end tag of an element of the requested type whose parent
   * path is the requested path, returning the finished object.
   */
  lemma {:induction false} PullStops(cfg: Config, m: Machine)
    requires ValidStream(cfg.events) && m.pos < |cfg.events|
    requires !cfg.stopOnStartTag && !cfg.stopOnLeaveSubTree
    ensures var (last, r) := Run(cfg, m);
      r.Success? ==>
        (cfg.events[last.pos].EndDocument? && r.value == VNull) ||
        (last.pos > 0 && cfg.events[last.pos - 1].EndTag? && last.path == cfg.targetPath)
    decreases |cfg.events| - m.pos
  {
    var o := Step(cfg, m);
    if o.Continue? {
      PullStops(cfg, o.m);
    }
  }

  /**
   * moveToNext answers true (the parser is not at the end of the
   * document) exactly when it stopped at a start tag of the requested
   * element at the requested path.
   */
  lemma MoveToNextFindsTarget(cfg: Config, m: Machine)
    requires ValidStream(cfg.events) && m.pos < |cfg.events|
    requires cfg.stopOnStartTag && !cfg.stopOnLeaveSubTree
    requires Run(cfg, m).1.Success?
    ensures !cfg.events[Run(cfg, m).0.pos].EndDocument? <==> AtTarget(cfg, Run(cfg, m).0)
  {
    ProbeStops(cfg, m);
  }

  /**
   * moveToNextSibling answers true (the returned object is non-null or
   * the parser's depth is one below the requested path) exactly when it
   * stopped at a start tag of the requested element at the requested
   * path, in a well-formed document read from its start.
   */
  lemma MoveToNextSiblingFindsTarget(cfg: Config, m: Machine)
    requires ValidStream(cfg.events) && WellNested(cfg.events) && m.pos < |cfg.events|
    requires Consistent(cfg, m) && |m.path| == |m.stack|
    requires cfg.stopOnStartTag && cfg.stopOnLeaveSubTree
    requires Run(cfg, m).1.Success?
    ensures var (last, r) := Run(cfg, m);
      (r.value != VNull || Depth(cfg.events[last.pos]) == |cfg.targetPath| + 1) <==> AtTarget(cfg, last)
  {
    ProbeStops(cfg, m);
    RunKeepsConsistent(cfg, m);
    var last := Run(cfg, m).0;
    if AtTarget(cfg, last) {
      assert Fits(cfg.events[last.pos], Open(cfg.events, last.pos));
    }
  }

  /**
   * A sibling move never closes an element of the caller's path: the
   * descriptor path is never shorter than the requested path.
   */
  lemma {:induction false} SiblingStaysInSubtree(cfg: Config, m: Machine)
    requires ValidStream(cfg.events) && WellNested(cfg.events) && m.pos < |cfg.events|
    requires Consistent(cfg, m) && |m.path| == |m.stack|
    requires cfg.stopOnLeaveSubTree && |m.path| >= |cfg.targetPath|
    ensures |Run(cfg, m).0.path| >= |cfg.targetPath|
    decreases |cfg.events| - m.pos
  {
    StepKeepsConsistent(cfg, m);
    StepKeepsStackAligned(cfg, m);
    assert Fits(cfg.events[m.pos], Open(cfg.events, m.pos));
    var o := Step(cfg, m);
    if o.Continue? {
      SiblingStaysInSubtree(cfg, o.m);
    }
  }

  /**
   * The object on top of the stack is the current object whenever the
   * current builder is a collection builder, which changes the stacked
   * instance itself, and, in the corrected loop, for every builder.
   */
  lemma WriteBackKeepsStackTop(cfg: Config, m: Machine)
    requires ValidStream(cfg.events) && m.pos < |cfg.events|
    requires |m.path| == |m.stack|
    requires |m.stack| > 0 && (cfg.writeBack || InPlace(m.builder)) ==> m.stack[0] == m.current
    ensures var o := Step(cfg, m);
      o.Continue? && |o.m.stack| > 0 && (cfg.writeBack || InPlace(o.m.builder)) ==> o.m.stack[0] == o.m.current
  {
  }

  /** Three descriptors `t`, `a`, `b` with distinct names: `t` passes its `a` child through, `a` keeps its text. */
  predicate SampleDescriptors(t: ElementDescriptor, a: ElementDescriptor, b: ElementDescriptor)
  {
    t.qualifiedName != a.qualifiedName && t.qualifiedName != b.qualifiedName && a.qualifiedName != b.qualifiedName &&
    t.builder != null && t.builder.kind == Transient(a, null) &&
    a.builder != null && a.builder.kind == BuilderKind.Text &&
    b.builder != null && b.builder.kind == Plain
  }

  /** The document <t><a>x</a><b/></t>, pulled as a `t` at the root. */
  function SampleConfig(t: ElementDescriptor, a: ElementDescriptor, b: ElementDescriptor, writeBack: bool): Config
  {
    var events := [
      StartTag(1, t.qualifiedName, []), StartTag(2, a.qualifiedName, []), Event.Text(2, "x"), EndTag(2, a.qualifiedName),
      StartTag(2, b.qualifiedName, []), EndTag(2, b.qualifiedName), EndTag(1, t.qualifiedName), EndDocument];
    var scope := Scope(map[t.qualifiedName := t, a.qualifiedName := a, b.qualifiedName := b], map[]);
    Config(events, scope, t, [], false, false, writeBack)
  }

  /** The machine before event `i` of the sample document. */
  function SampleMachine(t: ElementDescriptor, a: ElementDescriptor, b: ElementDescriptor, writeBack: bool, i: nat): Machine
  {
    var x := VStr("x");
    var kept := if writeBack then x else VNull;
    match i
      case 0 => Start(0, [], [], null, map[], VNull)
      case 1 => Machine(1, [t], [VNull], t.builder, map[], VNull, None, VNull)
      case 2 => Machine(2, [a, t], [VNull, VNull], a.builder, map[], VNull, None, VNull)
      case 3 => Machine(3, [a, t], [kept, VNull], a.builder, map[], x, None, VNull)
      case 4 => Machine(4, [t], [kept], t.builder, map[], x, None, VNull)
      case 5 => Machine(5, [b, t], [VNull, kept], b.builder, map[], VNull, None, VNull)
      case _ => Machine(6, [t], [kept], t.builder, map[], kept, None, VNull)
  }

  /** The root start tag opens `t`. */
  lemma SampleOpensRoot(t: ElementDescriptor, a: ElementDescriptor, b: ElementDescriptor, writeBack: bool)
    requires SampleDescriptors(t, a, b)
    ensures var cfg := SampleConfig(t, a, b, writeBack);
      ValidStream(cfg.events) &&
      Step(cfg, SampleMachine(t, a, b, writeBack, 0)) == Continue(SampleMachine(t, a, b, writeBack, 1))
  {
    var none: map<ElementDescriptor, Value> := map[];
    assert none - {t} == none;
  }

  /** The start tag of `a` opens it below `t`. */
  lemma SampleOpensA(t: ElementDescriptor, a: ElementDescriptor, b: ElementDescriptor, writeBack: bool)
    requires SampleDescriptors(t, a, b)
    ensures var cfg := SampleConfig(t, a, b, writeBack);
      ValidStream(cfg.events) &&
      Step(cfg, SampleMachine(t, a, b, writeBack, 1)) == Continue(SampleMachine(t, a, b, writeBack, 2))
  {
    var none: map<ElementDescriptor, Value> := map[];
    assert none - {a} == none;
  }

  /** The start tag of `b` opens it below `t`. */
  lemma SampleOpensB(t: ElementDescriptor, a: ElementDescriptor, b: ElementDescriptor, writeBack: bool)
    requires SampleDescriptors(t, a, b)
    ensures var cfg := SampleConfig(t, a, b, writeBack);
      ValidStream(cfg.events) &&
      Step(cfg, SampleMachine(t, a, b, writeBack, 4)) == Continue(SampleMachine(t, a, b, writeBack, 5))
  {
    var none: map<ElementDescriptor, Value> := map[];
    assert none - {b} == none;
  }

  /** The text "x" becomes `a`'s object. */
  lemma SampleText(t: ElementDescriptor, a: ElementDescriptor, b: ElementDescriptor, writeBack: bool)
    requires SampleDescriptors(t, a, b)
    ensures var cfg := SampleConfig(t, a, b, writeBack);
      ValidStream(cfg.events) &&
      Step(cfg, SampleMachine(t, a, b, writeBack, 2)) == Continue(SampleMachine(t, a, b, writeBack, 3))
  {
  }

  /** The end tag of `a` hands "x" to `t`'s builder. */
  lemma SampleClosesA(t: ElementDescriptor, a: ElementDescriptor, b: ElementDescriptor, writeBack: bool)
    requires SampleDescriptors(t, a, b)
    ensures var cfg := SampleConfig(t, a, b, writeBack);
      ValidStream(cfg.events) &&
      Step(cfg, SampleMachine(t, a, b, writeBack, 3)) == Continue(SampleMachine(t, a, b, writeBack, 4))
  {
    var cfg := SampleConfig(t, a, b, writeBack);
    var m := SampleMachine(t, a, b, writeBack, 3);
    assert cfg.events[3] == EndTag(2, a.qualifiedName);
    assert Finish(m.builder, m.current) == Success(VStr("x"));
    assert Step(cfg, m) == CloseStep(cfg, m, VStr("x"));
  }

  /** The end tag of `b` reloads `t`'s object from the stack. */
  lemma SampleClosesB(t: ElementDescriptor, a: ElementDescriptor, b: ElementDescriptor, writeBack: bool)
    requires SampleDescriptors(t, a, b)
    ensures var cfg := SampleConfig(t, a, b, writeBack);
      ValidStream(cfg.events) &&
      Step(cfg, SampleMachine(t, a, b, writeBack, 5)) == Continue(SampleMachine(t, a, b, writeBack, 6))
  {
    var cfg := SampleConfig(t, a, b, writeBack);
    var m := SampleMachine(t, a, b, writeBack, 5);
    assert cfg.events[5] == EndTag(2, b.qualifiedName);
    assert Finish(m.builder, m.current) == Success(VNull);
    assert Step(cfg, m) == CloseStep(cfg, m, VNull);
  }

  /** The end tag of `t` returns `t`'s object. */
  lemma SampleClosesRoot(t: ElementDescriptor, a: ElementDescriptor, b: ElementDescriptor, writeBack: bool)
    requires SampleDescriptors(t, a, b)
    ensures var cfg := SampleConfig(t, a, b, writeBack);
      ValidStream(cfg.events) &&
      Step(cfg, SampleMachine(t, a, b, writeBack, 6)) ==
        Stop(SampleMachine(t, a, b, writeBack, 6).(pos := 7, path := [], stack := [], current := VNull),
             if writeBack then VStr("x") else VNull)
  {
  }

  /** The sample document pulled from its start, by the loop as written or by the corrected loop. */
  lemma SampleRun(t: ElementDescriptor, a: ElementDescriptor, b: ElementDescriptor, writeBack: bool)
    requires SampleDescriptors(t, a, b)
    ensures ValidStream(SampleConfig(t, a, b, writeBack).events)
    ensures Run(SampleConfig(t, a, b, writeBack), Start(0, [], [], null, map[], VNull)).1 ==
      Success(if writeBack then VStr("x") else VNull)
  {
    SampleOpensRoot(t, a, b, writeBack);
    SampleOpensA(t, a, b, writeBack);
    SampleText(t, a, b, writeBack);
    SampleClosesA(t, a, b, writeBack);
    SampleOpensB(t, a, b, writeBack);
    SampleClosesB(t, a, b, writeBack);
    SampleClosesRoot(t, a, b, writeBack);
    var cfg := SampleConfig(t, a, b, writeBack);
    assert Run(cfg, SampleMachine(t, a, b, writeBack, 6)).1 == Success(if writeBack then VStr("x") else VNull);
    assert Run(cfg, SampleMachine(t, a, b, writeBack, 5)) == Run(cfg, SampleMachine(t, a, b, writeBack, 6));
    assert Run(cfg, SampleMachine(t, a, b, writeBack, 4)) == Run(cfg, SampleMachine(t, a, b, writeBack, 5));
    assert Run(cfg, SampleMachine(t, a, b, writeBack, 3)) == Run(cfg, SampleMachine(t, a, b, writeBack, 4));
    assert Run(cfg, SampleMachine(t, a, b, writeBack, 2)) == Run(cfg, SampleMachine(t, a, b, writeBack, 3));
    assert Run(cfg, SampleMachine(t, a, b, writeBack, 1)) == Run(cfg, SampleMachine(t, a, b, writeBack, 2));
    assert Run(cfg, SampleMachine(t, a, b, writeBack, 0)) == Run(cfg, SampleMachine(t, a, b, writeBack, 1));
  }

  /**
   * The loop as written loses the text child of a pass-through parent:
   * TransientObjectBuilder takes `a`'s text "x" as the object of `t`, but
   * when the sibling `b` closes, the loop reloads `t`'s object from the
   * stack, where it is still the null that `get` returned, and the pull
   * returns null.
   */
  lemma StaleParentObject(t: ElementDescriptor, a: ElementDescriptor, b: ElementDescriptor)
    requires SampleDescriptors(t, a, b)
    ensures UpdateChild(t.builder, VNull, Child(a, VStr("x"))) == Success(VStr("x"))
    ensures UpdateChild(t.builder, VStr("x"), Child(b, VNull)) == Success(VStr("x"))
    ensures Run(SampleConfig(t, a, b, false), Start(0, [], [], null, map[], VNull)).1 == Success(VNull)
  {
    SampleRun(t, a, b, false);
  }

  /** Two descriptors `l` and `i` with distinct names: `l` is a list of `i`, and `i` keeps its text. */
  predicate ListSampleDescriptors(l: ElementDescriptor, i: ElementDescriptor)
  {
    l.qualifiedName != i.qualifiedName &&
    l.builder != null && l.builder.kind == ListOf(i, null) &&
    i.builder != null && i.builder.kind == BuilderKind.Text
  }

  /** The document <l><i>1</i><i>2</i></l>, pulled as an `l` at the root. */
  function ListSampleConfig(l: ElementDescriptor, i: ElementDescriptor, writeBack: bool): Config
  {
    var events := [
      StartTag(1, l.qualifiedName, []), StartTag(2, i.qualifiedName, []), Event.Text(2, "1"), EndTag(2, i.qualifiedName),
      StartTag(2, i.qualifiedName, []), Event.Text(2, "2"), EndTag(2, i.qualifiedName), EndTag(1, l.qualifiedName), EndDocument];
    var scope := Scope(map[l.qualifiedName := l, i.qualifiedName := i], map[]);
    Config(events, scope, l, [], false, false, writeBack)
  }

  /** The machine before event `k` of the list sample. */
  function ListSampleMachine(l: ElementDescriptor, i: ElementDescriptor, writeBack: bool, k: nat): Machine
  {
    var one := VStr("1");
    var two := VStr("2");
    match k
      case 0 => Start(0, [], [], null, map[], VNull)
      case 1 => Machine(1, [l], [VList([])], l.builder, map[], VList([]), None, VNull)
      case 2 => Machine(2, [i, l], [VNull, VList([])], i.builder, map[], VNull, None, VNull)
      case 3 => Machine(3, [i, l], [if writeBack then one else VNull, VList([])], i.builder, map[], one, None, VNull)
      case 4 => Machine(4, [l], [VList([one])], l.builder, map[], VList([one]), None, VNull)
      case 5 => Machine(5, [i, l], [VNull, VList([one])], i.builder, map[], VNull, None, VNull)
      case 6 => Machine(6, [i, l], [if writeBack then two else VNull, VList([one])], i.builder, map[], two, None, VNull)
      case _ => Machine(7, [l], [VList([one, two])], l.builder, map[], VList([one, two]), None, VNull)
  }

  /** The start tags open `l` at the root and each `i` below it. */
  lemma ListSampleOpens(l: ElementDescriptor, i: ElementDescriptor, writeBack: bool, k: nat)
    requires ListSampleDescriptors(l, i) && (k == 0 || k == 1 || k == 4)
    ensures var cfg := ListSampleConfig(l, i, writeBack);
      ValidStream(cfg.events) &&
      Step(cfg, ListSampleMachine(l, i, writeBack, k)) == Continue(ListSampleMachine(l, i, writeBack, k + 1))
  {
    var none: map<ElementDescriptor, Value> := map[];
    assert none - {l} == none && none - {i} == none;
  }

  /** Each text becomes the object of its `i`. */
  lemma ListSampleText(l: ElementDescriptor, i: ElementDescriptor, writeBack: bool, k: nat)
    requires ListSampleDescriptors(l, i) && (k == 2 || k == 5)
    ensures var cfg := ListSampleConfig(l, i, writeBack);
      ValidStream(cfg.events) &&
      Step(cfg, ListSampleMachine(l, i, writeBack, k)) == Continue(ListSampleMachine(l, i, writeBack, k + 1))
  {
  }

  /** The end tag of an `i` below `l` adds the object of the `i` to the list on the stack. */
  lemma ListSampleCloses(cfg: Config, l: ElementDescriptor, i: ElementDescriptor, m: Machine)
    requires ListSampleDescriptors(l, i) && cfg.target == l && !cfg.stopOnLeaveSubTree
    requires ValidStream(cfg.events) && m.pos < |cfg.events| && cfg.events[m.pos] == EndTag(2, i.qualifiedName)
    requires m.path == [i, l] && |m.stack| == 2 && m.stack[1].VList? && m.builder == i.builder && m.ignore.None?
    ensures var list := VList(m.stack[1].elements + [m.current]);
      Step(cfg, m) == Continue(m.(pos := m.pos + 1, path := [l], stack := [list], builder := l.builder, current := list))
  {
    var popped := Popped(m);
    assert EndTagStep(cfg, m, 2) == CloseStep(cfg, m, m.current);
    assert CloseStep(cfg, m, m.current) == AttachStep(cfg, popped, i, m.current);
    assert Takes(l.builder.kind, Child(i, m.current));
  }

  /** The end tag of the first `i` adds "1" to the list on the stack. */
  lemma ListSampleClosesFirst(l: ElementDescriptor, i: ElementDescriptor, writeBack: bool)
    requires ListSampleDescriptors(l, i)
    ensures var cfg := ListSampleConfig(l, i, writeBack);
      ValidStream(cfg.events) &&
      Step(cfg, ListSampleMachine(l, i, writeBack, 3)) == Continue(ListSampleMachine(l, i, writeBack, 4))
  {
    var cfg := ListSampleConfig(l, i, writeBack);
    assert cfg.events[3] == EndTag(2, i.qualifiedName);
    ListSampleCloses(cfg, l, i, ListSampleMachine(l, i, writeBack, 3));
    assert [] + [VStr("1")] == [VStr("1")];
  }

  /** The end tag of the second `i` adds "2" to the list on the stack. */
  lemma ListSampleClosesSecond(l: ElementDescriptor, i: ElementDescriptor, writeBack: bool)
    requires ListSampleDescriptors(l, i)
    ensures var cfg := ListSampleConfig(l, i, writeBack);
      ValidStream(cfg.events) &&
      Step(cfg, ListSampleMachine(l, i, writeBack, 6)) == Continue(ListSampleMachine(l, i, writeBack, 7))
  {
    var cfg := ListSampleConfig(l, i, writeBack);
    assert cfg.events[6] == EndTag(2, i.qualifiedName);
    ListSampleCloses(cfg, l, i, ListSampleMachine(l, i, writeBack, 6));
    assert [VStr("1")] + [VStr("2")] == [VStr("1"), VStr("2")];
  }

  /** The end tag of `l` returns the list. */
  lemma ListSampleClosesRoot(l: ElementDescriptor, i: ElementDescriptor, writeBack: bool)
    requires ListSampleDescriptors(l, i)
    ensures var cfg := ListSampleConfig(l, i, writeBack);
      ValidStream(cfg.events) &&
      Step(cfg, ListSampleMachine(l, i, writeBack, 7)) ==
        Stop(ListSampleMachine(l, i, writeBack, 7).(pos := 8, path := [], stack := [], current := VNull),
             VList([VStr("1"), VStr("2")]))
  {
    var cfg := ListSampleConfig(l, i, writeBack);
    assert cfg.events[7] == EndTag(1, l.qualifiedName);
  }

  /**
   * A list parent collects every selected child, by the loop as written as
   * well as by the corrected loop: ListObjectBuilder adds each child to the
   * list that is on the stack, and the end tag of `l` returns ["1", "2"].
   */
  lemma ListParentCollectsChildren(l: ElementDescriptor, i: ElementDescriptor, writeBack: bool)
    requires ListSampleDescriptors(l, i)
    ensures ValidStream(ListSampleConfig(l, i, writeBack).events)
    ensures Run(ListSampleConfig(l, i, writeBack), Start(0, [], [], null, map[], VNull)).1 ==
      Success(VList([VStr("1"), VStr("2")]))
  {
    ListSampleOpens(l, i, writeBack, 0);
    ListSampleOpens(l, i, writeBack, 1);
    ListSampleText(l, i, writeBack, 2);
    ListSampleClosesFirst(l, i, writeBack);
    ListSampleOpens(l, i, writeBack, 4);
    ListSampleText(l, i, writeBack, 5);
    ListSampleClosesSecond(l, i, writeBack);
    ListSampleClosesRoot(l, i, writeBack);
    var cfg := ListSampleConfig(l, i, writeBack);
    var list := VList([VStr("1"), VStr("2")]);
    assert Run(cfg, ListSampleMachine(l, i, writeBack, 7)).1 == Success(list);
    assert Run(cfg, ListSampleMachine(l, i, writeBack, 6)) == Run(cfg, ListSampleMachine(l, i, writeBack, 7));
    assert Run(cfg, ListSampleMachine(l, i, writeBack, 5)) == Run(cfg, ListSampleMachine(l, i, writeBack, 6));
    assert Run(cfg, ListSampleMachine(l, i, writeBack, 4)) == Run(cfg, ListSampleMachine(l, i, writeBack, 5));
    assert Run(cfg, ListSampleMachine(l, i, writeBack, 3)) == Run(cfg, ListSampleMachine(l, i, writeBack, 4));
    assert Run(cfg, ListSampleMachine(l, i, writeBack, 2)) == Run(cfg, ListSampleMachine(l, i, writeBack, 3));
    assert Run(cfg, ListSampleMachine(l, i, writeBack, 1)) == Run(cfg, ListSampleMachine(l, i, writeBack, 2));
    assert Run(cfg, ListSampleMachine(l, i, writeBack, 0)) == Run(cfg, ListSampleMachine(l, i, writeBack, 1));
  }

  /** The corrected loop returns the last `a` child, "x", as TransientObjectBuilder promises. */
  lemma WriteBackKeepsLastChild(t: ElementDescriptor, a: ElementDescriptor, b: ElementDescriptor)
    requires SampleDescriptors(t, a, b)
    ensures Run(SampleConfig(t, a, b, true), Start(0, [], [], null, map[], VNull)).1 == Success(VStr("x"))
  {
    SampleRun(t, a, b, true);
  }
}
