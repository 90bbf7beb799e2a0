/**
 * XmlPath.java: the path of element descriptors from the document root to
 * the current element.  The source keeps it in a LinkedList used as a
 * stack, so `elements` holds the innermost element first and the root
 * last.
 */
module XmlPaths {
  import opened Wrappers
  import opened ElementDescriptors

  /** The innermost element of a path held innermost first, null for the empty path (LinkedList.peek). */
  function Innermost(elements: seq<ElementDescriptor>): (r: ElementDescriptor?)
    ensures |elements| > 0 ==> r == elements[0]
    ensures |elements| == 0 ==> r == null
  {
    if |elements| == 0 then null else elements[0]
  }

  /** The order in which pushing the descriptors one by one leaves them in the list. */
  function Reversed(s: seq<ElementDescriptor>): (r: seq<ElementDescriptor>)
    ensures |r| == |s|
    ensures forall i :: 0 <= i < |s| ==> r[i] == s[|s| - 1 - i]
  {
    if |s| == 0 then [] else Reversed(s[1..]) + [s[0]]
  }

  class XmlPath {
    /** mPathElements, innermost first. */
    var elements: seq<ElementDescriptor>

    /**
     * new XmlPath(path...): the path whose root is the first descriptor
     * given and whose innermost element is the last; a null argument
     * array gives the empty path.
     */
    constructor (path: Option<seq<ElementDescriptor>>)
      ensures path.None? ==> elements == []
      ensures path.Some? ==> elements == Reversed(path.value)
      ensures path.Some? && |path.value| > 0 ==>
        PeekLast() == path.value[0] && Peek() == path.value[|path.value| - 1] && Length() == |path.value|
    {
      var pushed: seq<ElementDescriptor> := [];
      if path.Some? {
        var i := 0;
        while i < |path.value|
          invariant 0 <= i <= |path.value|
          invariant pushed == Reversed(path.value[..i])
        {
          assert path.value[..i + 1][1..] == path.value[1..i + 1];
          pushed := [path.value[i]] + pushed;
          i := i + 1;
          assert pushed == Reversed(path.value[..i]);
        }
        assert path.value[..i] == path.value;
      }
      elements := pushed;
    }

    /** XmlPath.matches: the same descriptors (by identity) at the same positions. */
    function Matches(other: XmlPath): (r: bool)
      reads this, other
      ensures r <==> |elements| == |other.elements| && forall i :: 0 <= i < |elements| ==> elements[i] == other.elements[i]
    {
      elements == other.elements
    }

    /** XmlPath.clone: an independent path with the same elements. */
    method Clone() returns (r: XmlPath)
      ensures fresh(r) && r.elements == elements
    {
      r := new XmlPath(Some(Reversed(elements)));
      ReversedTwice(elements);
    }

    /** XmlPath.length */
    function Length(): (r: nat)
      reads this
      ensures r == |elements|
    {
      |elements|
    }

    /** XmlPath.append: the descriptor becomes the innermost element. */
    method Append(d: ElementDescriptor)
      modifies this
      ensures elements == [d] + old(elements)
      ensures Peek() == d && Length() == old(Length()) + 1
    {
      elements := [d] + elements;
    }

    /** XmlPath.peek: the innermost element, null for the empty path. */
    function Peek(): (r: ElementDescriptor?)
      reads this
      ensures r == Innermost(elements)
    {
      Innermost(elements)
    }

    /** XmlPath.peekLast: the root element, null for the empty path. */
    function PeekLast(): (r: ElementDescriptor?)
      reads this
      ensures |elements| > 0 ==> r == elements[|elements| - 1]
      ensures |elements| == 0 ==> r == null
    {
      if |elements| == 0 then null else elements[|elements| - 1]
    }

    /**
     * XmlPath.pop: removes and returns the innermost element; the empty
     * path raises NoSuchElementException.  Popping undoes an append.
     */
    method Pop() returns (r: Result<ElementDescriptor>)
      modifies this
      ensures old(|elements|) == 0 ==> r == Failure(NoSuchElement) && elements == old(elements)
      ensures old(|elements|) > 0 ==> r == Success(old(elements)[0]) && [r.value] + elements == old(elements)
    {
      if |elements| == 0 {
        return Failure(NoSuchElement);
      }
      r := Success(elements[0]);
      elements := elements[1..];
    }
  }

  lemma {:induction false} ReversedTwice(s: seq<ElementDescriptor>)
    ensures Reversed(Reversed(s)) == s
  {
    var r := Reversed(Reversed(s));
    assert |r| == |s|;
    forall i | 0 <= i < |s| ensures r[i] == s[i] {
      assert Reversed(s)[|s| - 1 - i] == s[i];
    }
  }

  /**
   * A path built by appending descriptors one after the other matches the
   * path constructed from the same descriptors, root first.
   */
  method AppendedMatchesConstructed(path: seq<ElementDescriptor>) returns (built: XmlPath, constructed: XmlPath)
    ensures fresh(built) && fresh(constructed) && built.Matches(constructed)
  {
    built := new XmlPath(None);
    var i := 0;
    while i < |path|
      invariant 0 <= i <= |path|
      invariant built.elements == Reversed(path[..i])
      modifies built
    {
      assert path[..i + 1][1..] == path[1..i + 1];
      built.Append(path[i]);
      i := i + 1;
      assert built.elements == Reversed(path[..i]);
    }
    assert path[..i] == path;
    constructed := new XmlPath(Some(path));
  }
}
