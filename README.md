# xmlobjects in Dafny

A model of the core of dmfs/xmlobjects, a Java library that maps streaming
XML to objects and back, with proofs about it.

- **Name interning** (`QualifiedNames`, qualified_name.dfy). `QualifiedName.get` interns one
  instance per (namespace, local name) pair in a two-level cache; the empty namespace
  counts as no namespace; equality is identity; names render plainly or in Clark notation.
- **Descriptor registries** (`ElementDescriptors`, element_descriptor.dfy, and the older
  `XmlElementDescriptors`, xml_element_descriptor.dfy). Each context maps names to
  descriptors. Lookups fall back to the DEFAULT context. A name is registered once per
  context. `overload` replaces a descriptor unless its context was collected.
- **Pull engine**: `PullEngine` (pull_engine.dfy) gives the semantics of
  `XmlObjectPull.pullInternal` as a state machine over the parser's events. `XmlObjectPulls`
  (xml_object_pull.dfy) is the imperative class. Its loop mutates the path, the object stack,
  the current builder and the recycle pool in place, and is proved to end where the machine
  ends. `XmlPaths` (xml_path.dfy) and `ParserContexts` (parser_context.dfy) are the path of
  descriptors and the parser context. `PullProperties` (pull_properties.dfy) proves what the
  loop guarantees.
- **Builders**: `ObjectBuilders` (object_builders.dfy) covers the builder/ package (string,
  integer, URI, string attribute, list, set, map, element map, transient). `PullBuilders`
  (pull_builders.dfy) covers the older pull/builder/ package (list, set, transient, URI,
  qualified name). Both dispatch over a closed datatype of builder configurations. The
  default behaviour of AbstractObjectBuilder / AbstractXmlObjectBuilder applies wherever a
  builder does not override it. `JavaText` (java_text.dfy) supplies `String.trim`,
  `Integer.parseInt` and `Integer.toString`.
- **Serializer**: `Serializers` (serializer.dfy) covers `XmlObjectSerializer` and
  `SerializerContext`. The XmlSerializer sink is the list of calls it receives. The proofs
  show that every element written is well bracketed, that attributes follow their start
  tag, and that namespace prefixes are distinct and decodable. `ObjectSerializers`
  (object_serializers.dfy) covers the serializer/ classes of the older API.

Java objects whose identity matters (names, descriptors, contexts, builders) are Dafny
objects compared by reference. The objects builders create are values of the `Value`
datatype. Exceptions are the `Failure` case of a `Result`.

Prefixes follow XmlObjectSerializer.java:319-324: base-26 digits, least significant first,
so namespace 26 gets "AB". This is not a bijective spreadsheet-style numbering, which
would give "AA".

## Model

| member | source | states |
|---|---|---|
| QualifiedNames.QualifiedName.constructor | src/org/dmfs/xmlobjects/QualifiedName.java:118-129 | the instance carries the given namespace and name |
| QualifiedNames.Normalize | src/org/dmfs/xmlobjects/QualifiedName.java:80-83 | the empty namespace becomes no namespace; every other namespace is kept |
| QualifiedNames.NameCache.Get | src/org/dmfs/xmlobjects/QualifiedName.java:78-107 | a null name fails with IllegalArgument and leaves the cache unchanged. Otherwise the result has the normalized namespace and the name, and is filed in the cache. A cached pair returns the cached instance with no change. A new pair gets a fresh instance, and every earlier entry is kept. |
| QualifiedNames.NameCache.GetLocal | src/org/dmfs/xmlobjects/QualifiedName.java:62-65 | same as `get(null, name)`: a null name fails with IllegalArgument and no change. A cached local name returns the cached instance with no change. A new one gets a fresh instance in no namespace, filed in the cache, and every earlier entry is kept. |
| QualifiedNames.NameCache.GetTwice | src/org/dmfs/xmlobjects/QualifiedName.java:62-107 | `get("", n)` and `get(n)` return the identical instance |
| QualifiedNames.DistinctNamesDistinctInstances | src/org/dmfs/xmlobjects/QualifiedName.java:85-106 | two cache entries are the same instance exactly when their namespace and name are equal |
| QualifiedNames.ToString | src/org/dmfs/xmlobjects/QualifiedName.java:147-150 | `namespace:name` when there is a namespace, the bare name otherwise |
| QualifiedNames.ToClarkString | src/org/dmfs/xmlobjects/QualifiedName.java:160-163 | `{namespace}name` when there is a namespace, the bare name otherwise |
| QualifiedNames.ClarkRoundTrip | src/org/dmfs/xmlobjects/QualifiedName.java:160-163 | parsing Clark notation gives back the namespace and the name, when the namespace has no '}' and a bare name does not start with '{' |
| QualifiedNames.PlainRenderingAmbiguous | src/org/dmfs/xmlobjects/QualifiedName.java:147-150 | two different names can render alike in plain form but never in Clark form |
| ElementDescriptors.ElementDescriptor.constructor | src/org/dmfs/xmlobjects/ElementDescriptor.java:188-198 | the descriptor carries the given name, builder and context |
| ElementDescriptors.ContextOf | src/org/dmfs/xmlobjects/ElementDescriptor.java:201-204 | the context while it is alive, null once it has been collected |
| ElementDescriptors.Resolve | src/org/dmfs/xmlobjects/ElementDescriptor.java:62-83 | the context's entry if it has one, else the DEFAULT entry, else null |
| ElementDescriptors.ContextShadowsDefault | src/org/dmfs/xmlobjects/ElementDescriptor.java:69-82 | the context's entry shadows the DEFAULT one. A lookup in the context agrees with a DEFAULT-only lookup exactly when the context lacks the name or holds the same descriptor. |
| ElementDescriptors.Registry.Target | src/org/dmfs/xmlobjects/ElementDescriptor.java:64-67 | a null context means DEFAULT |
| ElementDescriptors.Registry.Get | src/org/dmfs/xmlobjects/ElementDescriptor.java:53-59 | consults the DEFAULT context only; non-null exactly when DEFAULT has the name |
| ElementDescriptors.Registry.GetIn | src/org/dmfs/xmlobjects/ElementDescriptor.java:62-83 | the context's descriptor when present, else `get(qname)`; a result is always filed under its own name |
| ElementDescriptors.Registry.Register | src/org/dmfs/xmlobjects/ElementDescriptor.java:145-166 | a name already in the context fails with IllegalState and leaves the map unchanged. A null name fails with IllegalArgument. Otherwise a fresh descriptor with the given name, builder and context is added under the name. |
| ElementDescriptors.Registry.RegisterName | src/org/dmfs/xmlobjects/ElementDescriptor.java:127-130 | behaves as register(QualifiedName.get(name), ...). A null name fails with IllegalArgument before anything is registered. Otherwise it fails (IllegalState, no change) exactly when the interned local name is already in the context. A success is a fresh descriptor with that name and builder, filed under it. |
| ElementDescriptors.Registry.Overload | src/org/dmfs/xmlobjects/ElementDescriptor.java:169-185 | a collected context fails with IllegalState and no change. Otherwise a fresh descriptor with the new builder replaces the entry for the old name, and the old descriptor is untouched. |
| XmlElementDescriptors.XmlElementDescriptor.constructor | src/org/dmfs/xmlobjects/XmlElementDescriptor.java:193-206 | the descriptor carries exactly the given name, builder, anonymous-children builder, serializer and context |
| XmlElementDescriptors.ContextOf | src/org/dmfs/xmlobjects/XmlElementDescriptor.java:209-212 | the context while alive, null once collected |
| XmlElementDescriptors.XmlRegistry.Target | src/org/dmfs/xmlobjects/XmlElementDescriptor.java:82-85 | a null context means DEFAULT |
| XmlElementDescriptors.XmlRegistry.Get | src/org/dmfs/xmlobjects/XmlElementDescriptor.java:71-77 | consults the DEFAULT context only |
| XmlElementDescriptors.XmlRegistry.GetIn | src/org/dmfs/xmlobjects/XmlElementDescriptor.java:80-101 | the context's descriptor first, then DEFAULT's |
| XmlElementDescriptors.XmlRegistry.Register | src/org/dmfs/xmlobjects/XmlElementDescriptor.java:135-157 | a duplicate fails with IllegalState and no map change. A null name fails with IllegalArgument. Otherwise the new descriptor holds exactly the arguments and is filed under its name. |
| XmlElementDescriptors.XmlRegistry.RegisterBuilder | src/org/dmfs/xmlobjects/XmlElementDescriptor.java:104-107 | register with a null anonymous-children builder and serializer, in DEFAULT. A null name fails with IllegalArgument and a duplicate with IllegalState, both without change. Otherwise a fresh descriptor with the name and builder is filed under the name. |
| XmlElementDescriptors.XmlRegistry.RegisterSerializer | src/org/dmfs/xmlobjects/XmlElementDescriptor.java:110-113 | register with a null anonymous-children builder, in DEFAULT. A null name fails with IllegalArgument and a duplicate with IllegalState, both without change. Otherwise a fresh descriptor with the name, builder and serializer is filed under the name. |
| XmlElementDescriptors.XmlRegistry.RegisterAnonymous | src/org/dmfs/xmlobjects/XmlElementDescriptor.java:116-119 | register with a null serializer, in DEFAULT. A null name fails with IllegalArgument and a duplicate with IllegalState, both without change. Otherwise a fresh descriptor with the name and both builders is filed under the name. |
| XmlElementDescriptors.XmlRegistry.RegisterIn | src/org/dmfs/xmlobjects/XmlElementDescriptor.java:122-131 | register with a null anonymous-children builder, in the given context. A null name fails with IllegalArgument and a duplicate with IllegalState, both without change. Otherwise a fresh descriptor with the name, builder, serializer and context is filed under the name. |
| XmlElementDescriptors.Overload | src/org/dmfs/xmlobjects/XmlElementDescriptor.java:173-190 | a collected context fails with IllegalState. Otherwise the name's entry becomes a fresh descriptor with the new builders and serializer. |
| XmlElementDescriptors.OverloadSerializer | src/org/dmfs/xmlobjects/XmlElementDescriptor.java:160-170 | overload with a null anonymous-children builder: a collected context fails with IllegalState and no change. Otherwise the name's entry becomes a fresh descriptor in the same context with the new builder and serializer. The context's liveness is unchanged. |
| XmlElementDescriptors.RegisterThenGet | src/org/dmfs/xmlobjects/XmlElementDescriptor.java:135-157 | a new name registers successfully, get in that context then returns that descriptor under that name, and registering the name again fails with IllegalState |
| XmlPaths.Reversed | src/org/dmfs/xmlobjects/pull/XmlPath.java:38-44 | the varargs in reverse, innermost first, as the constructor's stack holds them |
| XmlPaths.ReversedTwice | src/org/dmfs/xmlobjects/pull/XmlPath.java:38-44 | reversing twice gives the original order back |
| XmlPaths.XmlPath.constructor | src/org/dmfs/xmlobjects/pull/XmlPath.java:35-45 | null varargs give the empty path. Otherwise the path has length n, its root is the first argument and its innermost element the last. |
| XmlPaths.XmlPath.Matches | src/org/dmfs/xmlobjects/pull/XmlPath.java:55-58 | true exactly when both paths have the same length and identical descriptors at each position |
| XmlPaths.XmlPath.Clone | src/org/dmfs/xmlobjects/pull/XmlPath.java:61-64 | a fresh path with the same elements, so later changes to the original do not reach it |
| XmlPaths.XmlPath.Length | src/org/dmfs/xmlobjects/pull/XmlPath.java:67-71 | the number of descriptors |
| XmlPaths.XmlPath.Append | src/org/dmfs/xmlobjects/pull/XmlPath.java:74-77 | the length grows by one and peek returns the appended descriptor |
| XmlPaths.XmlPath.Peek | src/org/dmfs/xmlobjects/pull/XmlPath.java:80-83 | the innermost descriptor, null for the empty path |
| XmlPaths.XmlPath.PeekLast | src/org/dmfs/xmlobjects/pull/XmlPath.java:86-89 | the root (first appended) descriptor, null for the empty path |
| XmlPaths.XmlPath.Pop | src/org/dmfs/xmlobjects/pull/XmlPath.java:92-95 | the empty path fails with NoSuchElement. Otherwise it returns the innermost descriptor and undoes the append that added it. |
| XmlPaths.AppendedMatchesConstructed | src/org/dmfs/xmlobjects/pull/XmlPath.java:35-77 | appending d1..dn one by one matches new XmlPath(d1..dn) |
| ParserContexts.Padded | src/org/dmfs/xmlobjects/pull/ParserContext.java:180-183 | pads with nulls up to the depth and keeps every existing slot |
| ParserContexts.WithState | src/org/dmfs/xmlobjects/pull/ParserContext.java:136-142 | the padded list with the entry stored at depth-1 |
| ParserContexts.StateAtWithState | src/org/dmfs/xmlobjects/pull/ParserContext.java:136-160 | padding loses no state; storing a state changes only that depth and descriptor |
| ParserContexts.ParserContext.constructor | src/org/dmfs/xmlobjects/pull/ParserContext.java:43-45 | empty pool, no state |
| ParserContexts.ParserContext.Recycle | src/org/dmfs/xmlobjects/pull/ParserContext.java:98-104 | null changes nothing. Otherwise the object takes the descriptor's single slot, overwriting it, and every other slot is kept. |
| ParserContexts.ParserContext.GetRecycled | src/org/dmfs/xmlobjects/pull/ParserContext.java:119-123 | returns the descriptor's pooled object (null if none) and removes it; other slots are kept |
| ParserContexts.ParserContext.GetDepthStateMap | src/org/dmfs/xmlobjects/pull/ParserContext.java:172-196 | pads the list to the depth. Without create it returns the slot as is. With create it returns the existing map, or installs and returns an empty one. |
| ParserContexts.ParserContext.SetState | src/org/dmfs/xmlobjects/pull/ParserContext.java:136-142 | stores the object for the depth and descriptor |
| ParserContexts.ParserContext.GetState | src/org/dmfs/xmlobjects/pull/ParserContext.java:150-160 | the object stored for the depth and descriptor, null if none |
| ParserContexts.StateRoundTrip | src/org/dmfs/xmlobjects/pull/ParserContext.java:136-160 | setState then getState at the same depth and descriptor returns the object |
| ObjectBuilders.Get | src/org/dmfs/xmlobjects/builder/ListObjectBuilder.java:103-116 | the collection builders return an empty collection, whether or not there is a recycled instance of their own kind. Every other builder returns null. A null builder is a NullPointerException. The only other failure is a ClassCast on a recycled value. |
| ObjectBuilders.UpdateAttribute | src/org/dmfs/xmlobjects/builder/StringAttributeObjectBuilder.java:52-63 | only the attribute builder, and only for its configured name, replaces the object with the value; everything else keeps it |
| ObjectBuilders.IntegerText | src/org/dmfs/xmlobjects/builder/IntegerObjectBuilder.java:62-77 | strict parses verbatim and fails exactly on unparsable text. Lenient trims first and gives null instead of failing. Any result is an int. |
| ObjectBuilders.UriText | src/org/dmfs/xmlobjects/builder/UriObjectBuilder.java:72-87 | the same strict/lenient policy with the URI parser |
| ObjectBuilders.UpdateText | src/org/dmfs/xmlobjects/builder/StringObjectBuilder.java:53-56 | the string builder returns the text. The integer and URI builders parse it, ignoring the previous object. The others keep the object. |
| ObjectBuilders.Append | src/org/dmfs/xmlobjects/builder/ListObjectBuilder.java:127 | appends at the end, keeping the prefix |
| ObjectBuilders.Add | src/org/dmfs/xmlobjects/builder/SetObjectBuilder.java:148 | adds the member |
| ObjectBuilders.Put | src/org/dmfs/xmlobjects/builder/MapObjectBuilder.java:134 | sets the key and keeps every other key |
| ObjectBuilders.PutElement | src/org/dmfs/xmlobjects/builder/ElementMapObjectBuilder.java:106 | sets the descriptor's entry and keeps every other entry |
| ObjectBuilders.UpdateChild | src/org/dmfs/xmlobjects/builder/TransientObjectBuilder.java:76-84 | a child the builder does not select keeps the object. Transient replaces the object with the child. List appends and set adds. |
| ObjectBuilders.UpdateAnonymousChild | src/org/dmfs/xmlobjects/builder/AbstractObjectBuilder.java:74-78 | keeps the object |
| ObjectBuilders.Finish | src/org/dmfs/xmlobjects/builder/AbstractObjectBuilder.java:82-85 | keeps the object |
| ObjectBuilders.ListCollectsInOrder | src/org/dmfs/xmlobjects/builder/ListObjectBuilder.java:121-130 | after any child updates the list is its old contents followed by exactly the selected children, in document order |
| ObjectBuilders.SetCollects | src/org/dmfs/xmlobjects/builder/SetObjectBuilder.java:140-152 | the set gains exactly the selected children; a null child gets in only when storeNull is set |
| ObjectBuilders.TransientKeepsLast | src/org/dmfs/xmlobjects/builder/TransientObjectBuilder.java:76-84 | the result is the last selected child, or the object itself when none is selected |
| ObjectBuilders.MapKeepsLastPerIndex | src/org/dmfs/xmlobjects/builder/MapObjectBuilder.java:124-138 | each index holds the last child filed under it. Children with a null index are dropped. Other keys keep their entries. |
| ObjectBuilders.ElementMapKeepsLastPerDescriptor | src/org/dmfs/xmlobjects/builder/ElementMapObjectBuilder.java:103-109 | each descriptor holds its last child, and other entries are kept |
| ObjectBuilders.WriteAttributes | src/org/dmfs/xmlobjects/builder/StringAttributeObjectBuilder.java:67-71 | the attribute builder writes exactly one attribute with its configured name; the others write none |
| ObjectBuilders.ElementCall | src/org/dmfs/xmlobjects/builder/ListObjectBuilder.java:138-150 | a child write of the element, with the configured descriptor when there is one |
| ObjectBuilders.ListWriteChildren | src/org/dmfs/xmlobjects/builder/ListObjectBuilder.java:134-154 | one child write per element, in list order (the loop is proved against ElementCalls) |
| ObjectBuilders.SetWriteChildren | src/org/dmfs/xmlobjects/builder/SetObjectBuilder.java:156-176 | the loop computes the element calls of the visited members: one child write per member, every member written, none twice |
| ObjectBuilders.MapWriteChildren | src/org/dmfs/xmlobjects/builder/MapObjectBuilder.java:142-152 | over an enumeration of the map's entries, the loop writes the value of each key once, with the configured descriptor, in the order of the visited keys |
| ObjectBuilders.ElementMapWriteChildren | src/org/dmfs/xmlobjects/builder/ElementMapObjectBuilder.java:114-124 | over an enumeration of the map's entries, one child write per entry, with the entry's key as descriptor and its value as child; every entry is written and no descriptor twice |
| ObjectBuilders.EntriesOnce | src/org/dmfs/xmlobjects/builder/ElementMapObjectBuilder.java:119 | an enumeration of a map's entries visits every key exactly once, paired with its value |
| ObjectBuilders.EnumeratesOnce | src/org/dmfs/xmlobjects/builder/SetObjectBuilder.java:162 | an enumeration of a set never visits a member twice |
| ObjectBuilders.SetWritesEachMember | src/org/dmfs/xmlobjects/builder/SetObjectBuilder.java:156-176 | with Java's iteration, the set builder writes every member exactly once and nothing else |
| ObjectBuilders.MapWritesEachValue | src/org/dmfs/xmlobjects/builder/MapObjectBuilder.java:142-152 | with Java's iteration, the map builder writes the value of every key once, under the configured descriptor |
| ObjectBuilders.ElementMapWritesEachEntry | src/org/dmfs/xmlobjects/builder/ElementMapObjectBuilder.java:114-124 | with Java's iteration, the element-map builder writes every entry once under its own descriptor, no descriptor twice |
| ObjectBuilders.WriteChildren | src/org/dmfs/xmlobjects/builder/IntegerObjectBuilder.java:81-92 | a null object writes nothing, except that the strict integer and URI builders fail with IllegalState. The collection builders write only child elements: a list in order, a set, map or element map in its iteration order, each member or entry once under Java's iteration (SetWritesEachMember, MapWritesEachValue, ElementMapWritesEachEntry). |
| ObjectBuilders.StringRoundTrip | src/org/dmfs/xmlobjects/builder/StringObjectBuilder.java:53-64 | the string is written as one text node and read back unchanged |
| ObjectBuilders.IntegerRoundTrip | src/org/dmfs/xmlobjects/builder/IntegerObjectBuilder.java:62-92 | every int is written in decimal and read back, strict or lenient |
| ObjectBuilders.UriRoundTrip | src/org/dmfs/xmlobjects/builder/UriObjectBuilder.java:72-102 | a URI is written in ASCII form and read back, given a parser that reads that form back |
| ObjectBuilders.StringAttributeRoundTrip | src/org/dmfs/xmlobjects/builder/StringAttributeObjectBuilder.java:52-71 | the value written as the attribute reads back through the attribute update |
| ObjectBuilders.ListRoundTrip | src/org/dmfs/xmlobjects/builder/ListObjectBuilder.java:103-154 | a list built from children of its descriptor writes back one child per collected child, in order |
| JavaText.Trim | src/org/dmfs/xmlobjects/builder/IntegerObjectBuilder.java:66 | cuts off only characters up to U+0020, and the result neither starts nor ends with one |
| JavaText.TrimIdempotent | src/org/dmfs/xmlobjects/builder/IntegerObjectBuilder.java:66 | trimming twice is trimming once |
| JavaText.ParseInt | src/org/dmfs/xmlobjects/builder/IntegerObjectBuilder.java:66 | an accepted text is an optional sign then digits, and its value is an int |
| JavaText.ParseIntValue | src/org/dmfs/xmlobjects/builder/IntegerObjectBuilder.java:66 | an optional '+' or '-' followed by decimal digits parses to its signed value when that fits an int, and is refused otherwise (leading zeros, "+7" and "-0" included). With ParseInt's own contract this makes acceptance an if-and-only-if. |
| JavaText.IntToString | src/org/dmfs/xmlobjects/builder/IntegerObjectBuilder.java:86 | non-empty, with a leading '-' exactly for negative numbers |
| JavaText.IntRoundTrip | src/org/dmfs/xmlobjects/builder/IntegerObjectBuilder.java:66-86 | parseInt(toString(n)) == n for every int, and the text is already trimmed |
| PullBuilders.Get | src/org/dmfs/xmlobjects/pull/builder/ListObjectBuilder.java:89-102 | list and set give an empty collection. The qualified-name builder gives the descriptor's name, ignoring the recycled value. The others give null. |
| PullBuilders.UpdateAttribute | src/org/dmfs/xmlobjects/pull/builder/AbstractXmlObjectBuilder.java:46-50 | keeps the object |
| PullBuilders.UpdateText | src/org/dmfs/xmlobjects/pull/builder/UriObjectBuilder.java:68-83 | the URI builder parses with the strict/lax policy; the others keep the object |
| PullBuilders.UpdateChild | src/org/dmfs/xmlobjects/pull/builder/ListObjectBuilder.java:107-116 | a child that is not selected keeps the object. List appends, set adds, and transient replaces the object with the child. |
| PullBuilders.UpdateAnonymousChild | src/org/dmfs/xmlobjects/pull/builder/AbstractXmlObjectBuilder.java:69-73 | keeps the object |
| PullBuilders.Finish | src/org/dmfs/xmlobjects/pull/builder/AbstractXmlObjectBuilder.java:77-80 | keeps the object |
| PullBuilders.QualifiedNameBuildsName | src/org/dmfs/xmlobjects/pull/builder/QualifiedNameObjectBuilder.java:41-44 | whatever the updates, the built value is the element's own qualified name |
| PullBuilders.KeepsObject | src/org/dmfs/xmlobjects/pull/builder/AbstractXmlObjectBuilder.java:39-80 | the inherited updates leave the object as it is |
| PullBuilders.ListCollectsInOrder | src/org/dmfs/xmlobjects/pull/builder/ListObjectBuilder.java:107-116 | the list is its old contents followed by the selected children, in order |
| PullBuilders.SetCollects | src/org/dmfs/xmlobjects/pull/builder/SetObjectBuilder.java:85-93 | the set gains exactly the children of its descriptor, null ones included |
| PullBuilders.TransientKeepsLast | src/org/dmfs/xmlobjects/pull/builder/TransientObjectBuilder.java:52-60 | the last matching child wins; with none the object is kept |
| PullBuilders.TransientBuildsLastChild | src/org/dmfs/xmlobjects/pull/builder/TransientObjectBuilder.java:52-60 | built from get, the value is the last matching child, or null with none |
| ObjectSerializers.WriteAttributes | src/org/dmfs/xmlobjects/serializer/AbstractObjectSerializer.java:37-42 | no attribute for any object, null included |
| ObjectSerializers.SetWritesEachMember | src/org/dmfs/xmlobjects/serializer/CollectionObjectSerializer.java:53-60 | with Java's iteration, the collection serializer writes every member of a set exactly once, under its descriptor, and nothing else |
| ObjectSerializers.WriteChildren | src/org/dmfs/xmlobjects/serializer/CollectionObjectSerializer.java:53-60 | collection: one write per element, in iteration order, with the configured descriptor; a null collection is a NullPointerException. Transient: exactly one write of the object itself, null included. Integer: one text of its decimal form, nothing for null. Default: nothing. |
| ObjectSerializers.CollectionWriteChildren | src/org/dmfs/xmlobjects/serializer/CollectionObjectSerializer.java:56-59 | the for loop makes one child write per element, in order |
| ObjectSerializers.IntegerWritesReadBack | src/org/dmfs/xmlobjects/serializer/IntegerObjectSerializer.java:33-40 | the text written for an int reads back as that int through the integer builder |
| ObjectSerializers.CollectionRoundTrip | src/org/dmfs/xmlobjects/serializer/CollectionObjectSerializer.java:53-60 | a list written by the collection serializer reads back as the same list through a list builder of the same child descriptor |
| PullEngine.Start | src/org/dmfs/xmlobjects/pull/XmlObjectPull.java:166-180 | no ignore depth; the recycle argument is pending; the current object is the top of the stack |
| PullEngine.ApplyAttributes | src/org/dmfs/xmlobjects/pull/XmlObjectPull.java:214-219 | fails only for a null builder with attributes |
| PullEngine.AttributesKeepLast | src/org/dmfs/xmlobjects/pull/XmlObjectPull.java:214-219 | the attribute builder ends up with the last occurrence of its attribute; the others ignore attributes |
| PullEngine.WriteBack | src/org/dmfs/xmlobjects/pull/XmlObjectPull.java:266-283 | the stack top becomes the updated object when the builder changed the stacked instance itself (`shared`), and in the corrected loop after every update; otherwise the stack is left alone |
| PullEngine.StartTagStep | src/org/dmfs/xmlobjects/pull/XmlObjectPull.java:188-230 | ignored depths and unknown names change nothing but the position and the ignore depth. A probe stops at the target start tag before any builder call. A known element pushes its descriptor and one object together. |
| PullEngine.OpenStep | src/org/dmfs/xmlobjects/pull/XmlObjectPull.java:201-222 | takes the pending recycle value or the pool's, calls get then the attributes, and pushes descriptor and object |
| PullEngine.EndTagStep | src/org/dmfs/xmlobjects/pull/XmlObjectPull.java:231-276 | a sibling move stops before leaving the subtree. A pop removes one descriptor and one object. A pull returns the finished target object. The end tag at the ignore depth clears it. |
| PullEngine.Popped | src/org/dmfs/xmlobjects/pull/XmlObjectPull.java:247-257 | both stacks lose their top; the parent's builder and object are reloaded |
| PullEngine.AttachStep | src/org/dmfs/xmlobjects/pull/XmlObjectPull.java:259-268 | returns the child when it is the target at the requested path and not probing; otherwise the parent's builder takes it. A list, set, map or element-map parent adds the child to the instance on the stack, so the stack top becomes the updated object; any other parent leaves the stack alone in the loop as written. |
| PullEngine.CloseStep | src/org/dmfs/xmlobjects/pull/XmlObjectPull.java:242-268 | with an empty path or stack, NoSuchElement; otherwise pop and attach |
| PullEngine.TextStep | src/org/dmfs/xmlobjects/pull/XmlObjectPull.java:277-286 | the text update replaces the current object. The loop as written leaves the stack alone, and the corrected loop writes the object back to the stack top. Ignored text changes nothing. |
| PullEngine.Step | src/org/dmfs/xmlobjects/pull/XmlObjectPull.java:184-292 | a continuing iteration advances the parser by one event |
| PullEngine.Run | src/org/dmfs/xmlobjects/pull/XmlObjectPull.java:182-293 | the loop ends inside the stream, at the event where it returned or threw |
| PullEngine.RunUnfolds | src/org/dmfs/xmlobjects/pull/XmlObjectPull.java:182-293 | the loop is its iterations: a continuing iteration runs on from the next machine, a return gives the iteration's object, a throw gives its exception |
| PullProperties.StepKeepsStackAligned | src/org/dmfs/xmlobjects/pull/XmlObjectPull.java:221-248 | an iteration keeps the stack as long as the path |
| PullProperties.RunKeepsStackAligned | src/org/dmfs/xmlobjects/pull/XmlObjectPull.java:182-293 | a whole pull keeps the stack as long as the path |
| PullProperties.StartIsConsistent | src/org/dmfs/xmlobjects/pull/XmlObjectPull.java:174-180 | the loop starts in agreement with the document |
| PullProperties.StepKeepsConsistent | src/org/dmfs/xmlobjects/pull/XmlObjectPull.java:184-292 | on a well-nested document, an iteration keeps the path and the ignore depth in agreement with the open elements |
| PullProperties.RunKeepsConsistent | src/org/dmfs/xmlobjects/pull/XmlObjectPull.java:182-293 | a pull that returns leaves the machine in agreement with the document |
| PullProperties.SkipsUnknownSubtree | src/org/dmfs/xmlobjects/pull/XmlObjectPull.java:224-227 | an unknown element and its whole subtree are skipped: the run equals the run from the event after its end tag |
| PullProperties.Skipping | src/org/dmfs/xmlobjects/pull/XmlObjectPull.java:270-274 | with an ignore depth, every event inside is passed over until the end tag at that depth clears it |
| PullProperties.IgnoredStep | src/org/dmfs/xmlobjects/pull/XmlObjectPull.java:270-274 | with an ignore depth, an event inside it is passed over and the end tag at that depth clears it, in one iteration |
| PullProperties.ProbeStops | src/org/dmfs/xmlobjects/pull/XmlObjectPull.java:196-199 | a probe returns null and stops only at the target start tag at the path, at the end of the document, or (sibling) before leaving the subtree |
| PullProperties.PullStops | src/org/dmfs/xmlobjects/pull/XmlObjectPull.java:259-263 | a pull stops at the end of the document, or right after the end tag of a target element whose parent path is the requested one, returning its object |
| PullProperties.MoveToNextFindsTarget | src/org/dmfs/xmlobjects/pull/XmlObjectPull.java:81-85 | moveToNext answers true exactly when it stopped at the target start tag at the path |
| PullProperties.MoveToNextSiblingFindsTarget | src/org/dmfs/xmlobjects/pull/XmlObjectPull.java:98-101 | on a well-nested document, moveToNextSibling answers true exactly when it stopped at the target start tag at the path |
| PullProperties.SiblingStaysInSubtree | src/org/dmfs/xmlobjects/pull/XmlObjectPull.java:235-239 | a sibling move never pops an element of the caller's path |
| PullProperties.WriteBackKeepsStackTop | src/org/dmfs/xmlobjects/pull/XmlObjectPull.java:251-252 | the stack top is the current object whenever the current builder is a collection builder, and in the corrected loop always |
| PullProperties.SampleRun | src/org/dmfs/xmlobjects/pull/XmlObjectPull.java:182-293 | the sample document `<t><a>x</a><b/></t>` pulled as `t` returns null as written and "x" corrected |
| PullProperties.StaleParentObject | src/org/dmfs/xmlobjects/pull/XmlObjectPull.java:251-252 | the transient builder takes "x" as `t`'s object, yet the loop as written returns null |
| PullProperties.ListSampleCloses | src/org/dmfs/xmlobjects/builder/ListObjectBuilder.java:121-129 | the end tag of an item below a list parent pops it and appends its object to the list on the stack, which becomes the current object |
| PullProperties.ListParentCollectsChildren | src/org/dmfs/xmlobjects/pull/XmlObjectPull.java:182-293 | `<l><i>1</i><i>2</i></l>` with `l` a list of `i` returns ["1", "2"], in the loop as written and in the corrected loop |
| PullProperties.WriteBackKeepsLastChild | src/org/dmfs/xmlobjects/pull/XmlObjectPull.java:266-267 | the corrected loop returns "x", the last `a` child |
| XmlObjectPulls.UpdateAttributes | src/org/dmfs/xmlobjects/pull/XmlObjectPull.java:214-219 | the attribute loop computes ApplyAttributes |
| XmlObjectPulls.XmlObjectPull.constructor | src/org/dmfs/xmlobjects/pull/XmlObjectPull.java:58-64 | at the first event after START_DOCUMENT, with an empty path and an empty stack |
| XmlObjectPulls.XmlObjectPull.SetContext | src/org/dmfs/xmlobjects/pull/XmlObjectPull.java:67-70 | sets the context and nothing else |
| XmlObjectPulls.XmlObjectPull.IsEndOfDocument | src/org/dmfs/xmlobjects/pull/XmlObjectPull.java:110-113 | true exactly at END_DOCUMENT |
| XmlObjectPulls.XmlObjectPull.CurrentElementDescriptor | src/org/dmfs/xmlobjects/pull/XmlObjectPull.java:121-136 | the descriptor the context resolves for the current tag's name; at text or end of document, interning the null name fails with IllegalArgument |
| XmlObjectPulls.XmlObjectPull.PullInternal | src/org/dmfs/xmlobjects/pull/XmlObjectPull.java:157-294 | a type from a foreign context fails with IllegalArgument before anything changes. Otherwise the fields end as Run ends, and the result is Run's. |
| XmlObjectPulls.XmlObjectPull.Loop | src/org/dmfs/xmlobjects/pull/XmlObjectPull.java:182-293 | the while loop ends in Run's final machine with Run's result |
| XmlObjectPulls.XmlObjectPull.Iteration | src/org/dmfs/xmlobjects/pull/XmlObjectPull.java:184-292 | one pass of the switch and parser.next() performs Step |
| XmlObjectPulls.XmlObjectPull.StartTagCase | src/org/dmfs/xmlobjects/pull/XmlObjectPull.java:188-230 | performs StartTagStep in place |
| XmlObjectPulls.XmlObjectPull.OpenElement | src/org/dmfs/xmlobjects/pull/XmlObjectPull.java:201-222 | performs OpenStep in place |
| XmlObjectPulls.XmlObjectPull.EndTagCase | src/org/dmfs/xmlobjects/pull/XmlObjectPull.java:231-276 | performs EndTagStep in place |
| XmlObjectPulls.XmlObjectPull.CloseElement | src/org/dmfs/xmlobjects/pull/XmlObjectPull.java:247-268 | performs CloseStep in place |
| XmlObjectPulls.XmlObjectPull.AttachElement | src/org/dmfs/xmlobjects/pull/XmlObjectPull.java:259-268 | performs AttachStep in place, writing a collection parent's updated object back to the stack top |
| XmlObjectPulls.XmlObjectPull.TextCase | src/org/dmfs/xmlobjects/pull/XmlObjectPull.java:277-286 | performs TextStep in place |
| XmlObjectPulls.XmlObjectPull.Pull | src/org/dmfs/xmlobjects/pull/XmlObjectPull.java:150-153 | pullInternal in pull mode |
| XmlObjectPulls.XmlObjectPull.MoveToNext | src/org/dmfs/xmlobjects/pull/XmlObjectPull.java:81-85 | probe mode; answers whether the parser is not at the end of the document |
| XmlObjectPulls.XmlObjectPull.MoveToNextSibling | src/org/dmfs/xmlobjects/pull/XmlObjectPull.java:98-101 | sibling mode; answers whether the result is non-null or the depth is one below the path |
| Serializers.Wrapped | src/org/dmfs/xmlobjects/serializer/XmlObjectSerializer.java:144-151 | IllegalArgument and IllegalState become SerializerException; anything else passes unchanged |
| Serializers.TextEvents | src/org/dmfs/xmlobjects/serializer/XmlObjectSerializer.java:157-174 | a null text writes nothing; any other text writes one text node |
| Serializers.AttributeEvents | src/org/dmfs/xmlobjects/serializer/XmlObjectSerializer.java:103-117 | one attribute call per reported attribute, in order, with its namespace, name and value |
| Serializers.WriteChild | src/org/dmfs/xmlobjects/serializer/XmlObjectSerializer.java:127-153 | a null descriptor is a NullPointerException and a null builder a SerializerException, both writing nothing. Otherwise the output starts with the start tag and, on success, ends with the matching end tag. No IllegalArgument or IllegalState escapes. |
| Serializers.Element | src/org/dmfs/xmlobjects/serializer/XmlObjectSerializer.java:137-152 | the start tag comes first. An attribute failure ends the output right after the start tag. Success means the end tag closes the output. |
| Serializers.WriteCall | src/org/dmfs/xmlobjects/serializer/XmlObjectSerializer.java:157-174 | a text call writes its text node and cannot fail |
| Serializers.WriteCalls | src/org/dmfs/xmlobjects/serializer/XmlObjectSerializer.java:141 | no calls write nothing; no IllegalArgument or IllegalState escapes |
| Serializers.WriteChildNests | src/org/dmfs/xmlobjects/serializer/XmlObjectSerializer.java:139-142 | every element written is well bracketed. The output never closes an element that is not open. Enclosing elements stay open. A success closes all it opened. |
| Serializers.ElementNests | src/org/dmfs/xmlobjects/serializer/XmlObjectSerializer.java:137-143 | the same for one element's start tag, attributes, children and end tag |
| Serializers.WriteCallNests | src/org/dmfs/xmlobjects/serializer/XmlObjectSerializer.java:141 | the same for one child writer call |
| Serializers.WriteCallsNest | src/org/dmfs/xmlobjects/serializer/XmlObjectSerializer.java:141 | the same for a builder's sequence of child writer calls |
| Serializers.WriteChildPlacesAttributes | src/org/dmfs/xmlobjects/serializer/XmlObjectSerializer.java:139-141 | every attribute follows its start tag or another attribute, so the sink's misplaced-attribute error cannot arise |
| Serializers.ElementPlacesAttributes | src/org/dmfs/xmlobjects/serializer/XmlObjectSerializer.java:139-141 | the same for one element |
| Serializers.WriteCallsPlaceAttributes | src/org/dmfs/xmlobjects/serializer/XmlObjectSerializer.java:141 | the same for a sequence of child writer calls |
| Serializers.WriteTextElement | src/org/dmfs/xmlobjects/serializer/XmlObjectSerializer.java:157-174 | a string element becomes start tag, one text node (none for null), end tag |
| Serializers.Prefix | src/org/dmfs/xmlobjects/serializer/XmlObjectSerializer.java:319-324 | non-empty, upper-case letters, the first one being PREFIX_CHARS[k % 26] |
| Serializers.PrefixValue | src/org/dmfs/xmlobjects/serializer/XmlObjectSerializer.java:319-324 | the lowest digit of the value is the first letter |
| Serializers.PrefixRoundTrip | src/org/dmfs/xmlobjects/serializer/XmlObjectSerializer.java:319-324 | reading a prefix back gives its number |
| Serializers.PrefixInjective | src/org/dmfs/xmlobjects/serializer/XmlObjectSerializer.java:317-329 | different namespaces get different prefixes |
| Serializers.PrefixExamples | src/org/dmfs/xmlobjects/serializer/XmlObjectSerializer.java:319-324 | 0 gives "A", 25 "Z", 26 "AB", 27 "BB", 676 "AAB" |
| Serializers.Bindings | src/org/dmfs/xmlobjects/serializer/XmlObjectSerializer.java:317-329 | one setPrefix per enumerated namespace |
| Serializers.BindingsBindEachOnce | src/org/dmfs/xmlobjects/serializer/XmlObjectSerializer.java:307-330 | every known namespace is bound, nothing else is, and no prefix is used twice |
| Serializers.WithNamespace | src/org/dmfs/xmlobjects/serializer/XmlObjectSerializer.java:245-255 | null and empty namespaces change nothing; any other namespace is added |
| Serializers.WithNamespaceIdempotent | src/org/dmfs/xmlobjects/serializer/XmlObjectSerializer.java:245-255 | repeating useNamespace has no further effect |
| Serializers.WithNamespaceCommutes | src/org/dmfs/xmlobjects/serializer/XmlObjectSerializer.java:245-255 | the order of useNamespace calls does not matter |
| Serializers.SerializerContext.constructor | src/org/dmfs/xmlobjects/serializer/SerializerContext.java:51-62 | the given XmlContext, no known namespaces, nothing written |
| Serializers.UseNamespace | src/org/dmfs/xmlobjects/serializer/XmlObjectSerializer.java:245-255 | the known namespaces become WithNamespace of the old ones; nothing is written |
| Serializers.UseNamespaceOf | src/org/dmfs/xmlobjects/serializer/XmlObjectSerializer.java:264-267 | useNamespace with the name's namespace |
| Serializers.UseNamespaceOfElement | src/org/dmfs/xmlobjects/serializer/XmlObjectSerializer.java:276-279 | useNamespace with the descriptor's namespace |
| Serializers.PrefixOf | src/org/dmfs/xmlobjects/serializer/XmlObjectSerializer.java:319-324 | the do-while loop builds Prefix(count) |
| Serializers.BindNamespaces | src/org/dmfs/xmlobjects/serializer/XmlObjectSerializer.java:307-330 | with no namespaces, nothing. Otherwise one setPrefix per namespace, in iteration order, with Prefix(count). |
| Serializers.Document | src/org/dmfs/xmlobjects/serializer/XmlObjectSerializer.java:292-299 | startDocument, the bindings, the root's output, and endDocument only when the root raised nothing |
| Serializers.Serialize | src/org/dmfs/xmlobjects/serializer/XmlObjectSerializer.java:292-299 | the sink receives Document(bindings of the known namespaces plus the root's, root element). The error is the root's. |
| Serializers.WriteRoot | src/org/dmfs/xmlobjects/serializer/XmlObjectSerializer.java:297-298 | the root's output, then endDocument unless it raised |
| Serializers.DocumentWellFormed | src/org/dmfs/xmlobjects/serializer/XmlObjectSerializer.java:292-299 | a completed document ends with endDocument, has the root start tag right after the bindings, is well bracketed and places every attribute |
| Serializers.DocumentNests | src/org/dmfs/xmlobjects/serializer/XmlObjectSerializer.java:292-299 | a nesting root keeps the whole document nesting and its attributes placed |

## Left out

- Concurrency: the `synchronized` blocks. The model is single-threaded.
- Garbage collection: weakly held contexts become an explicit `alive` flag.
- `hashCode` is left out; equality is identity, which is reference equality here.
- The external XmlPullParser is its event sequence, with element and attribute names already interned. `getText()` is never null.
- The external XmlSerializer accepts every call. Its own IllegalArgument/IllegalState errors are therefore not modelled. The attribute-placement lemmas show the serializer never makes the misplaced-attribute call that would raise one.
- `setOutput` (both overloads) only configures the sink and is left out.
- The serializer factory call in the `SerializerContext` constructor is left out.
- Hash iteration order (HashSet, HashMap, `knownNamespaces`) is a parameter. `IterationOrder` gives it for builders and serializers, and an `order` sequence that must enumerate the set gives it for `bindNamespaces`. `VisitsOnce` states what Java promises of an iteration (every member or entry once, in some order); the per-member lemmas assume it, and `WriteChildren` itself is defined for any order.
- Serializers.WriteChild: the Java recursion has no depth limit. A `fuel` bound stands for the stack depth, and running out is a StackOverflowError.
- Serializers.BindNamespaces: `count` is a Java int. The model uses unbounded numbers; more than 2^31 namespaces cannot be held in a HashSet anyway.
- ObjectBuilders.Get: `recycle.clear(); return recycle` returns an empty collection value. The aliasing of the recycled instance is not captured.
- Collections on the object stack are values. The one sharing that matters to the loop, a collection builder adding a child to the instance on the stack, is modelled by writing the updated collection back to the stack top (`InPlace`, `WriteBack`).
- PullBuilders.Get: the same for the older list and set builders.
- The older registry keeps its descriptors in its own `XmlDescriptorMap`, because XmlContext.java is not part of this model.
- XmlPaths.XmlPath.constructor: null entries inside the varargs are not modelled. Descriptors on a path are never null, and the engine never appends null.
- The anonymous-children builder of XmlElementDescriptor is stored, but the engine never dispatches to it (unknown elements are skipped). `UpdateAnonymousChild` models only the default.
- The one-line convenience wrappers `register(String, builder)` and `register(QualifiedName, builder)` are `RegisterName` and `Register` with a null context.
- pull/builder/DoubleObjectBuilder.java, the reflection builders and serializers, and the Android classes are not part of this model.
- `URI` parsing is a parameter (`parse`) of the URI builders. A URI is represented by its ASCII form.
- The per-depth state of ParserContext is keyed by a depth and descriptor passed as parameters. XmlObjectPull.java has no `getCurrentDepth`.
- XmlObjectPulls.XmlObjectPull.Pull, MoveToNext and MoveToNextSibling take a non-null type and a non-null path. In Java a null type throws NullPointerException at `type.getContext()` (XmlObjectPull.java:160) before anything changes. A null path throws NullPointerException once the loop first dereferences it: in `XmlPath.matches` (pull/XmlPath.java:57, reached from XmlObjectPull.java:196 and 259) or at `path.length()` (XmlObjectPull.java:235). These exceptions are not modelled.
- The root-pop case is modelled as the code does it. The outermost element can close without matching the target (XmlObjectPull.java:251-267 with an empty path). The loop then hands the child to the stale builder with a null object, and the model follows that path instead of excluding it.
- The scope of descriptor lookups is read once per `serialize`/`pullInternal` call; the registries do not change during a call.
- JavaText.IsDigit: only the ASCII digits '0'-'9' count. `Integer.parseInt` also accepts other Unicode decimal digits (through `Character.digit`), which the model refuses.
- ObjectBuilders.SetWriteChildren: the source calls a three-argument `ElementDescriptor.get(qname, descriptor, xmlContext)` (builder/SetObjectBuilder.java:167). ElementDescriptor.java has no such overload, so the model looks the name up with the two-argument lookup (`Resolve`), as ListObjectBuilder.java:145 does.
- ObjectBuilders.WriteChildren: the integer builder calls a one-argument `writeText(String)` (builder/IntegerObjectBuilder.java:86), and the child writer has no such overload. The model treats it as the two-argument `writeText(text, context)` that StringObjectBuilder.java:63 uses.
- The lenient integer builder's `text.trim()` on a null text is not modelled, since parser text is never null.

## Findings

| source | as written | input that shows it | evidently intended | confidence | as-written member | corrected member |
|---|---|---|---|---|---|---|
| src/org/dmfs/xmlobjects/pull/XmlObjectPull.java:221, 251-252, 282-283 | The object stack keeps the object pushed at the start tag. For a builder whose update returns a new object (transient, string, integer, URI), text and child updates change only the local `currentObject`. When another known child closes, the parent's object is reloaded from the stack and the earlier updates are lost. The list, set, map and element-map builders add to the stacked instance itself and are not affected. | `<t><a>x</a><b/></t>`, with `t` a TransientObjectBuilder passing `a` through and `a` a StringObjectBuilder. Pulling `t` returns null. | The updated object is written back to the top of the stack, so `t` yields "x". | not executed | PullProperties.StaleParentObject | PullProperties.WriteBackKeepsLastChild |
