/**
 * Interned qualified XML names (QualifiedName.java).
 *
 * A qualified name is a namespace (absent for the empty namespace) and a
 * local name.  Instances are interned in a two-level cache, so Java's
 * identity comparison is equality of names; here an instance is an object
 * and `==` on references is that identity.
 */
module QualifiedNames {
  import opened Wrappers

  class QualifiedName {
    const namespace: Option<string>
    const name: string

    constructor (namespace: Option<string>, name: string)
      ensures this.namespace == namespace && this.name == name
    {
      this.namespace := namespace;
      this.name := name;
    }
  }

  /** The namespace under which a name is interned: the empty namespace is no namespace. */
  function Normalize(namespace: Option<string>): (r: Option<string>)
    ensures r != Some("")
    ensures r.Some? ==> r == namespace
    ensures namespace.Some? && namespace.value != "" ==> r == namespace
  {
    if namespace.Some? && |namespace.value| == 0 then None else namespace
  }

  /** Looks a name up in a two-level cache. */
  function Find(cache: map<Option<string>, map<string, QualifiedName>>, namespace: Option<string>, name: string): Option<QualifiedName>
  {
    if namespace in cache && name in cache[namespace] then Some(cache[namespace][name]) else None
  }

  /**
   * The cache shared by all callers.  Every entry is filed under its own
   * (normalized) namespace and name.
   */
  class NameCache {
    var cache: map<Option<string>, map<string, QualifiedName>>

    ghost predicate Valid()
      reads this
    {
      forall ns, n :: ns in cache && n in cache[ns] ==>
        ns != Some("") && cache[ns][n].namespace == ns && cache[ns][n].name == n
    }

    constructor ()
      ensures Valid() && cache == map[]
    {
      cache := map[];
    }

    /**
     * QualifiedName.get(namespace, name): the interned instance for the
     * pair, created and filed on first use.  A null name is refused and
     * leaves the cache as it was.
     */
    method Get(namespace: Option<string>, name: Option<string>) returns (r: Result<QualifiedName>)
      requires Valid()
      modifies this
      ensures Valid()
      ensures name.None? ==> r == Failure(IllegalArgument) && cache == old(cache)
      ensures name.Some? ==>
        (r.Success? && r.value.namespace == Normalize(namespace) && r.value.name == name.value &&
         Find(cache, Normalize(namespace), name.value) == Some(r.value))
      ensures name.Some? && Find(old(cache), Normalize(namespace), name.value).Some? ==>
        r.value == Find(old(cache), Normalize(namespace), name.value).value && cache == old(cache)
      ensures name.Some? && Find(old(cache), Normalize(namespace), name.value).None? ==>
        fresh(r.value) && (forall ns, n :: Find(old(cache), ns, n).Some? ==> Find(cache, ns, n) == Find(old(cache), ns, n))
    {
      var ns := Normalize(namespace);
      if ns !in cache {
        if name.None? {
          return Failure(IllegalArgument);
        }
        var q := new QualifiedName(ns, name.value);
        cache := cache[ns := map[name.value := q]];
        return Success(q);
      }
      var names := cache[ns];
      if name.None? || name.value !in names {
        if name.None? {
          return Failure(IllegalArgument);
        }
        var q := new QualifiedName(ns, name.value);
        cache := cache[ns := names[name.value := q]];
        return Success(q);
      }
      return Success(names[name.value]);
    }

    /** QualifiedName.get(name): the name in no namespace. */
    method GetLocal(name: Option<string>) returns (r: Result<QualifiedName>)
      requires Valid()
      modifies this
      ensures Valid()
      ensures name.None? ==> r == Failure(IllegalArgument) && cache == old(cache)
      ensures name.Some? ==>
        (r.Success? && r.value.namespace == None && r.value.name == name.value &&
         Find(cache, None, name.value) == Some(r.value))
      ensures name.Some? && Find(old(cache), None, name.value).Some? ==>
        r.value == Find(old(cache), None, name.value).value && cache == old(cache)
      ensures name.Some? && Find(old(cache), None, name.value).None? ==>
        fresh(r.value) && (forall ns, n :: Find(old(cache), ns, n).Some? ==> Find(cache, ns, n) == Find(old(cache), ns, n))
    {
      r := Get(None, name);
    }

    /**
     * Interning is identity: asking twice for a name, once with the empty
     * namespace and once with none, yields the very same instance.
     */
    method GetTwice(name: string) returns (first: QualifiedName, second: QualifiedName)
      requires Valid()
      modifies this
      ensures Valid()
      ensures first == second && first.namespace == None && first.name == name
    {
      var a := Get(Some(""), Some(name));
      var b := GetLocal(Some(name));
      first, second := a.value, b.value;
    }
  }

  /**
   * Distinct cache entries are distinct instances: interning never hands
   * out one object for two different names.
   */
  lemma DistinctNamesDistinctInstances(c: NameCache, ns1: Option<string>, n1: string, ns2: Option<string>, n2: string)
    requires c.Valid()
    requires Find(c.cache, ns1, n1).Some? && Find(c.cache, ns2, n2).Some?
    ensures Find(c.cache, ns1, n1) == Find(c.cache, ns2, n2) <==> ns1 == ns2 && n1 == n2
  {
  }

  /** QualifiedName.toString(): the name, prefixed by "namespace:" when there is one. */
  function ToString(q: QualifiedName): (r: string)
    ensures q.namespace.None? ==> r == q.name
    ensures q.namespace.Some? ==> r == q.namespace.value + ":" + q.name
    ensures |r| >= |q.name| && r[|r| - |q.name|..] == q.name
  {
    if q.namespace.None? then q.name else q.namespace.value + ":" + q.name
  }

  /** QualifiedName.toClarkString(): the name, prefixed by "{namespace}" when there is one. */
  function ToClarkString(q: QualifiedName): (r: string)
    ensures q.namespace.None? ==> r == q.name
    ensures q.namespace.Some? ==> r == "{" + q.namespace.value + "}" + q.name
    ensures |r| >= |q.name| && r[|r| - |q.name|..] == q.name
  {
    if q.namespace.None? then q.name else "{" + q.namespace.value + "}" + q.name
  }

  /** Index of the first occurrence of `c` in `s`, if any. */
  function IndexOf(s: string, c: char): (r: Option<nat>)
    ensures r.Some? ==> r.value < |s| && s[r.value] == c && c !in s[..r.value]
    ensures r.None? ==> c !in s
  {
    if |s| == 0 then None
    else if s[0] == c then Some(0)
    else match IndexOf(s[1..], c)
      case None => None
      case Some(i) => Some(i + 1)
  }

  /** Reads Clark notation back: "{ns}name" or a bare name. */
  function ParseClark(s: string): (Option<string>, string)
  {
    if |s| > 0 && s[0] == '{' then
      match IndexOf(s[1..], '}')
        case None => (None, s)
        case Some(i) => (Some(s[1..i + 1]), s[i + 2..])
    else (None, s)
  }

  /**
   * Clark notation loses nothing: a namespace without '}' and a local
   * name that cannot be mistaken for one are read back unchanged.
   */
  lemma ClarkRoundTrip(q: QualifiedName)
    requires q.namespace.Some? ==> '}' !in q.namespace.value
    requires q.namespace.None? ==> |q.name| == 0 || q.name[0] != '{'
    ensures ParseClark(ToClarkString(q)) == (q.namespace, q.name)
  {
    var s := ToClarkString(q);
    if q.namespace.Some? {
      var ns := q.namespace.value;
      assert s[0] == '{';
      assert s[1..] == ns + ("}" + q.name);
      IndexOfPrefix(ns, "}" + q.name, '}');
      assert IndexOf(s[1..], '}') == Some(|ns|);
      assert s[1..|ns| + 1] == ns;
      assert s[|ns| + 2..] == q.name;
      assert ParseClark(s) == (Some(s[1..|ns| + 1]), s[|ns| + 2..]);
    }
  }

  lemma {:induction false} IndexOfPrefix(a: string, b: string, c: char)
    requires c !in a && |b| > 0 && b[0] == c
    ensures IndexOf(a + b, c) == Some(|a|)
  {
    if |a| > 0 {
      assert (a + b)[1..] == a[1..] + b;
      IndexOfPrefix(a[1..], b, c);
    } else {
      assert a + b == b;
    }
  }

  /**
   * The plain rendering, unlike Clark notation, is ambiguous: a colon in
   * the namespace or in the local name can make two different names print
   * alike.
   */
  lemma PlainRenderingAmbiguous(p: QualifiedName, q: QualifiedName)
    requires p.namespace == Some("a:b") && p.name == "c"
    requires q.namespace == Some("a") && q.name == "b:c"
    ensures ToString(p) == ToString(q) && ToClarkString(p) != ToClarkString(q)
  {
    assert ToString(p) == "a:b" + ":" + "c" == "a:b:c";
    assert ToString(q) == "a" + ":" + "b:c" == "a:b:c";
    assert ToClarkString(p)[2] == ':';
    assert ToClarkString(q)[2] == '}';
  }
}
