/** The style registry of src/utils/css-manager.ts: one `<style>` element per
    component name, appended to the document head on first registration and
    removed again on request. */
module Styles {

  /** A `<style>` element tagged with the component that owns it. */
  class StyleElement {
    const component: string
    const text: string

    constructor (component: string, text: string)
      ensures this.component == component && this.text == text
    {
      this.component := component;
      this.text := text;
    }
  }

  predicate Distinct(elements: seq<StyleElement>) {
    forall i, j :: 0 <= i < j < |elements| ==> elements[i] != elements[j]
  }

  /** The head after `element.remove()`: every other element. */
  function Without(elements: seq<StyleElement>, element: StyleElement): (r: seq<StyleElement>)
    ensures forall i :: 0 <= i < |r| ==> r[i] in elements && r[i] != element
    ensures forall i :: 0 <= i < |elements| && elements[i] != element ==> elements[i] in r
    ensures element !in elements ==> r == elements
  {
    if |elements| == 0 then []
    else if elements[0] == element then Without(elements[1..], element)
    else [elements[0]] + Without(elements[1..], element)
  }

  /** The rest of a head without repeats has none either, and does not
      hold the first element. */
  lemma DistinctTail(elements: seq<StyleElement>)
    requires Distinct(elements) && |elements| > 0
    ensures Distinct(elements[1..]) && elements[0] !in elements[1..]
  {
    var tail := elements[1..];
    forall i, j | 0 <= i < j < |tail| ensures tail[i] != tail[j] {
      assert tail[i] == elements[i + 1] && tail[j] == elements[j + 1];
    }
    forall i | 0 <= i < |tail| ensures tail[i] != elements[0] {
      assert tail[i] == elements[i + 1];
    }
  }

  /** In a head without repeats, removing the element at `k` leaves the
      elements before it and those after it, in document order. */
  lemma {:induction false} WithoutAt(elements: seq<StyleElement>, k: nat)
    requires Distinct(elements) && k < |elements|
    ensures Without(elements, elements[k]) == elements[..k] + elements[k + 1..]
  {
    var tail := elements[1..];
    if k == 0 {
      calc {
        Without(elements, elements[0]);
        Without(tail, elements[0]);
      == { DistinctTail(elements); }
        tail;
      }
    } else {
      calc {
        Without(elements, elements[k]);
      == { assert elements[0] != elements[k]; }
        [elements[0]] + Without(tail, elements[k]);
      == { assert tail[k - 1] == elements[k]; DistinctTail(elements); WithoutAt(tail, k - 1); }
        [elements[0]] + (tail[..k - 1] + tail[k..]);
      == { assert elements[..k] == [elements[0]] + tail[..k - 1]; assert elements[k + 1..] == tail[k..]; }
        elements[..k] + elements[k + 1..];
      }
    }
  }

  /** Removing an element from a head without repeats keeps it without
      repeats, and shortens it by one when the element was there. */
  lemma {:induction false} WithoutDistinct(elements: seq<StyleElement>, element: StyleElement)
    requires Distinct(elements)
    ensures Distinct(Without(elements, element))
    ensures element in elements ==> |Without(elements, element)| == |elements| - 1
  {
    if |elements| > 0 {
      var tail := elements[1..];
      assert Distinct(tail) by {
        forall i, j | 0 <= i < j < |tail| ensures tail[i] != tail[j] {
          assert tail[i] == elements[i + 1] && tail[j] == elements[j + 1];
        }
      }
      WithoutDistinct(tail, element);
      if elements[0] == element {
        assert element !in tail by {
          forall i | 0 <= i < |tail| ensures tail[i] != element {
            assert tail[i] == elements[i + 1];
          }
        }
        assert Without(tail, element) == tail;
      } else {
        var rest := Without(tail, element);
        assert elements[0] !in tail by {
          forall i | 0 <= i < |tail| ensures tail[i] != elements[0] {
            assert tail[i] == elements[i + 1];
          }
        }
        assert elements[0] !in rest;
        assert element in elements ==> element in tail;
      }
    }
  }

  class CSSManager {
    /** Registered component names and their elements. */
    var styleSheets: map<string, StyleElement>
    /** The style elements in the document head, in document order. */
    var head: seq<StyleElement>

    /** Registered names and the elements in the head correspond one to one:
        each registered element sits in the head once and carries its name,
        and each element in the head is the one registered under its name. */
    predicate Valid()
      reads this
    {
      Distinct(head)
      && (forall name :: name in styleSheets ==> styleSheets[name] in head && styleSheets[name].component == name)
      && (forall i :: 0 <= i < |head| ==> head[i].component in styleSheets && styleSheets[head[i].component] == head[i])
    }

    constructor ()
      ensures Valid() && styleSheets == map[] && head == []
    {
      styleSheets := map[];
      head := [];
    }

    /** Registers `styles` under a new name by appending one element holding
        them; a name already registered keeps its first styles. */
    method AddStyles(componentName: string, styles: string)
      requires Valid()
      modifies this`styleSheets, this`head
      ensures Valid()
      ensures old(componentName in styleSheets) ==> styleSheets == old(styleSheets) && head == old(head)
      ensures componentName in styleSheets
      ensures old(componentName !in styleSheets) ==>
                && fresh(styleSheets[componentName])
                && styleSheets[componentName].text == styles
                && styleSheets == old(styleSheets)[componentName := styleSheets[componentName]]
                && head == old(head) + [styleSheets[componentName]]
    {
      if componentName in styleSheets {
        return;
      }
      var styleSheet := new StyleElement(componentName, styles);
      head := head + [styleSheet];
      styleSheets := styleSheets[componentName := styleSheet];
    }

    /** Takes a registered name's element out of the head and forgets the
        name; an unknown name changes nothing. */
    method RemoveStyles(componentName: string)
      requires Valid()
      modifies this`styleSheets, this`head
      ensures Valid()
      ensures old(componentName !in styleSheets) ==> styleSheets == old(styleSheets) && head == old(head)
      ensures old(componentName in styleSheets) ==>
                && styleSheets == old(styleSheets) - {componentName}
                && head == Without(old(head), old(styleSheets)[componentName])
                && |head| == |old(head)| - 1
    {
      if componentName in styleSheets {
        var styleSheet := styleSheets[componentName];
        WithoutDistinct(head, styleSheet);
        head := Without(head, styleSheet);
        styleSheets := styleSheets - {componentName};
      }
    }
  }

  /** The static side of `CSSManager`: its one `instance` slot. */
  class CSSManagerStatic {
    var instance: CSSManager?

    constructor ()
      ensures instance == null
    {
      instance := null;
    }

    /** Creates the registry on first use; afterwards hands out that same
        object. */
    method GetInstance() returns (m: CSSManager)
      modifies this`instance
      ensures old(instance) != null ==> m == old(instance)
      ensures old(instance) == null ==> fresh(m) && m.Valid() && m.styleSheets == map[] && m.head == []
      ensures instance == m
    {
      if instance == null {
        instance := new CSSManager();
      }
      m := instance;
    }
  }
}
