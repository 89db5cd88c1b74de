/**
 * The agent's element cache: every element the driver may refer to later is
 * stored under a fresh decimal id, and lookups by selector resolve either from
 * the screen's root or below a cached base element.
 */
module AndroidElementsHash {

  import opened Wrappers
  import opened Text

  const ELEMENT_NOT_FOUND := "ElementNotFoundException"

  /** How a selector picks among its matches: as written, the k-th instance, or the k-th index. */
  datatype Pick = AsGiven | Instance(k: nat) | Index(k: nat)

  /**
   * A UiSelector: `text` is what its toString printed when it reached the
   * agent, `pick` the instance or index later set on it.
   */
  datatype Selector = Selector(text: string, pick: Pick)

  /** A UiObject is a lazy query: a selector from the root, or a child selector below another object. */
  datatype UiObj = Root(sel: Selector) | Child(parent: UiObj, sel: Selector)

  /** A cached element: its id and the object it stands for. */
  datatype Element = Element(id: string, obj: UiObj)

  /** android.graphics.Rect. */
  datatype Rect = Rect(left: int, top: int, right: int, bottom: int)

  /**
   * What the device shows: the objects whose query currently matches, and the
   * bounds of those whose bounds can be read (reading any other throws
   * UiObjectNotFoundException).
   */
  datatype Screen = Screen(existing: set<UiObj>, bounds: map<UiObj, Rect>)

  /** Rect.intersects: the two rectangles overlap in an area of positive size. */
  predicate Intersects(a: Rect, b: Rect) {
    a.left < b.right && b.left < a.right && a.top < b.bottom && b.top < a.bottom
  }

  function WithInstance(sel: Selector, k: nat): Selector {
    Selector(sel.text, Instance(k))
  }

  function WithIndex(sel: Selector, k: nat): Selector {
    Selector(sel.text, Index(k))
  }

  /** The printed selector holds "CLASS_REGEX=": enumeration from the root then goes by index. */
  predicate UseIndex(sel: Selector) {
    Contains(sel.text, "CLASS_REGEX=")
  }

  /** A run of one or more decimal digits. */
  predicate IsDigits(s: string) {
    s != [] && AllDigits(s)
  }

  /**
   * The pattern `.*INSTANCE=\d+]$` matched against the whole printed selector:
   * a first part without line terminators, "INSTANCE=", digits, and a final ']'.
   */
  predicate EndsWithInstance(s: string) {
    exists i: nat, j: nat ::
      i + 9 <= j < |s| && OccursAt(s, "INSTANCE=", i) && IsDigits(s[i + 9..j]) && s[j..] == "]" &&
      forall t :: 0 <= t < i ==> !IsJavaLineTerminator(s[t])
  }

  /** The object getElements tries at round k: below the base with instance k, or from the root. */
  function Candidate(base: Option<Element>, sel: Selector, k: nat): UiObj {
    match base
    case Some(b) => Child(b.obj, WithInstance(sel, k))
    case None => Root(if UseIndex(sel) then WithIndex(sel, k) else WithInstance(sel, k))
  }

  /** The object found for a selector: the base's child when the key names a cached element, else from the root. */
  function Target(base: Option<Element>, sel: Selector): UiObj {
    match base
    case Some(b) => Child(b.obj, sel)
    case None => Root(sel)
  }

  /** Id `key` was issued by one of the first `counter` additions. */
  ghost predicate Issued(key: string, counter: nat) {
    exists n: nat :: 1 <= n <= counter && key == NatToDecimal(n)
  }

  /** The next id is not among those already issued. */
  lemma NextIdFresh(key: string, counter: nat)
    requires Issued(key, counter)
    ensures key != NatToDecimal(counter + 1)
  {
    var n: nat :| 1 <= n <= counter && key == NatToDecimal(n);
    DecimalInjective(n, counter + 1);
  }

  class ElementsHash {
    var counter: nat
    var elements: map<string, Element>

    /** Every entry is stored under its own id, and every id was issued by an earlier addition. */
    ghost predicate Valid()
      reads this
    {
      forall key :: key in elements ==> elements[key].id == key && Issued(key, counter)
    }

    constructor()
      ensures Valid() && counter == 0 && elements == map[]
    {
      counter := 0;
      elements := map[];
    }

    /** addElement: the counter goes up by one and the element is stored under its decimal form, an id never used before. */
    method AddElement(obj: UiObj) returns (el: Element)
      requires Valid()
      modifies this
      ensures Valid()
      ensures counter == old(counter) + 1
      ensures el == Element(NatToDecimal(counter), obj)
      ensures el.id !in old(elements)
      ensures elements == old(elements)[el.id := el]
    {
      counter := counter + 1;
      var key := NatToDecimal(counter);
      el := Element(key, obj);
      forall k | k in elements
        ensures k != key && Issued(k, counter)
      {
        NextIdFresh(k, counter - 1);
      }
      elements := elements[key := el];
    }

    /** getElement(key): the cached element, or nothing for an unknown key. */
    function GetElement(key: string): (r: Option<Element>)
      reads this
      ensures r.None? <==> key !in elements
      ensures r.Some? ==> r.value == elements[key]
      ensures Valid() && r.Some? ==> r.value.id == key
    {
      if key in elements then Some(elements[key]) else None
    }

    /**
     * getElement(sel, key): the object the selector finds, from the cached
     * element `key` when there is one; it must exist on the screen and, below
     * a base, overlap the base's bounds, or ElementNotFoundException is thrown
     * and the cache is left as it was.
     */
    method GetElementBySelector(sel: Selector, key: string, screen: Screen) returns (r: Result<Element, string>)
      requires Valid()
      modifies this
      ensures Valid()
      ensures r.Ok? <==> Findable(Base(old(elements), key), sel, screen)
      ensures r.Err? ==> r.error == ELEMENT_NOT_FOUND && counter == old(counter) && elements == old(elements)
      ensures r.Ok? ==> r.value.obj == Target(Base(old(elements), key), sel)
      ensures r.Ok? ==> counter == old(counter) + 1 && r.value.id == NatToDecimal(counter)
      ensures r.Ok? ==> r.value.id !in old(elements) && elements == old(elements)[r.value.id := r.value]
    {
      var base := GetElement(key);
      var obj := Target(base, sel);
      if obj !in screen.existing {
        return Err(ELEMENT_NOT_FOUND);
      }
      if base.Some? {
        if base.value.obj !in screen.bounds || obj !in screen.bounds {
          return Err(ELEMENT_NOT_FOUND);
        }
        if !Intersects(screen.bounds[base.value.obj], screen.bounds[obj]) {
          return Err(ELEMENT_NOT_FOUND);
        }
      }
      var el := AddElement(obj);
      return Ok(el);
    }

    /**
     * getElements(sel, key): a selector ending in an instance gives at most
     * its one match; otherwise rounds k = 0, 1, ... cache the k-th match until
     * the first round that finds nothing.  The found elements take the next
     * ids in order.
     */
    method GetElements(sel: Selector, key: string, screen: Screen) returns (found: seq<Element>)
      requires Valid()
      modifies this
      ensures Valid()
      ensures counter == old(counter) + |found| && NumberedFrom(found, old(counter))
      ensures elements == Stored(old(elements), found)
      ensures EndsWithInstance(sel.text) ==> Single(found, Target(Base(old(elements), key), sel), screen)
      ensures !EndsWithInstance(sel.text) ==> Enumerated(found, Base(old(elements), key), sel, screen)
    {
      ghost var oldElements, oldCounter := elements, counter;
      found := [];
      var base := GetElement(key);
      if EndsWithInstance(sel.text) {
        var obj := Target(base, sel);
        if obj in screen.existing {
          var el := AddElement(obj);
          found := [el];
        }
        return;
      }
      found := Enumerate(base, sel, screen);
    }

    /** The search loop of getElements: round k caches the object of round k while it exists. */
    method Enumerate(base: Option<Element>, sel: Selector, screen: Screen) returns (found: seq<Element>)
      requires Valid()
      modifies this
      ensures Valid()
      ensures counter == old(counter) + |found| && NumberedFrom(found, old(counter))
      ensures elements == Stored(old(elements), found)
      ensures Enumerated(found, base, sel, screen)
    {
      ghost var oldElements, oldCounter := elements, counter;
      found := [];
      var k := 0;
      var keepSearching := true;
      ghost var tried: set<UiObj> := {};
      while keepSearching
        invariant Valid() && k == |found| && counter == oldCounter + k
        invariant NumberedFrom(found, oldCounter) && elements == Stored(oldElements, found)
        invariant FoundInOrder(found, base, sel, screen)
        invariant tried <= screen.existing && |tried| == k
        invariant forall o :: o in tried ==> RoundOf(o) < k
        invariant !keepSearching ==> Candidate(base, sel, k) !in screen.existing
        decreases |screen.existing| - k, keepSearching
      {
        var obj := Candidate(base, sel, k);
        if obj in screen.existing {
          CandidateRound(base, sel, k);
          var el := AddElement(obj);
          assert (found + [el])[..k] == found;
          found := found + [el];
          tried := tried + {obj};
          k := k + 1;
          SubsetCard(tried, screen.existing);
        } else {
          keepSearching := false;
        }
      }
    }
  }

  /**
   * The selector's object exists and, below a base, both bounds can be read
   * and overlap (UiAutomator can return a child from another parent).
   */
  predicate Findable(base: Option<Element>, sel: Selector, screen: Screen) {
    var obj := Target(base, sel);
    obj in screen.existing &&
    (base.Some? ==>
       base.value.obj in screen.bounds && obj in screen.bounds &&
       Intersects(screen.bounds[base.value.obj], screen.bounds[obj]))
  }

  /** The cached element a key names, if any. */
  function Base(elements: map<string, Element>, key: string): Option<Element> {
    if key in elements then Some(elements[key]) else None
  }

  /** The cache after storing each found element under its id, in order. */
  function Stored(m: map<string, Element>, found: seq<Element>): map<string, Element>
    decreases |found|
  {
    if found == [] then m
    else Stored(m, found[..|found| - 1])[found[|found| - 1].id := found[|found| - 1]]
  }

  /** The i-th found element (from 0) carries id counter + i + 1. */
  predicate NumberedFrom(found: seq<Element>, counter: nat)
    decreases |found|
  {
    found == [] ||
    (NumberedFrom(found[..|found| - 1], counter) && found[|found| - 1].id == NatToDecimal(counter + |found|))
  }

  /** The i-th found element is the object of round i, and it exists. */
  predicate FoundInOrder(found: seq<Element>, base: Option<Element>, sel: Selector, screen: Screen)
    decreases |found|
  {
    found == [] ||
    (FoundInOrder(found[..|found| - 1], base, sel, screen) &&
     found[|found| - 1].obj == Candidate(base, sel, |found| - 1) &&
     found[|found| - 1].obj in screen.existing)
  }

  /** Rounds 0 .. |found|-1 all found their object, and the next round found nothing. */
  predicate Enumerated(found: seq<Element>, base: Option<Element>, sel: Selector, screen: Screen) {
    FoundInOrder(found, base, sel, screen) && Candidate(base, sel, |found|) !in screen.existing
  }

  /** The object is found at most once: exactly when it exists. */
  predicate Single(found: seq<Element>, obj: UiObj, screen: Screen) {
    |found| <= 1 && (found == [] <==> obj !in screen.existing) && (found != [] ==> found[0].obj == obj)
  }

  /** The instance or index a query's last selector was given (0 when none). */
  function RoundOf(o: UiObj): nat {
    match o.sel.pick
    case AsGiven => 0
    case Instance(k) => k
    case Index(k) => k
  }

  lemma CandidateRound(base: Option<Element>, sel: Selector, k: nat)
    ensures RoundOf(Candidate(base, sel, k)) == k
  {
  }

  /** Every found element was of round i, for its position i, and it existed. */
  lemma {:induction false} FoundInOrderAll(found: seq<Element>, base: Option<Element>, sel: Selector, screen: Screen)
    requires FoundInOrder(found, base, sel, screen)
    ensures forall i :: 0 <= i < |found| ==> found[i].obj == Candidate(base, sel, i) && found[i].obj in screen.existing
  {
    if found != [] {
      FoundInOrderAll(found[..|found| - 1], base, sel, screen);
    }
  }

  /** The ids handed out are the decimal forms of counter + 1, counter + 2, ... */
  lemma {:induction false} NumberedAll(found: seq<Element>, counter: nat)
    requires NumberedFrom(found, counter)
    ensures forall i :: 0 <= i < |found| ==> found[i].id == NatToDecimal(counter + i + 1)
  {
    if found != [] {
      NumberedAll(found[..|found| - 1], counter);
    }
  }

  /**
   * Storing freshly numbered elements into a valid cache keeps every earlier
   * entry, and adds exactly the found elements under their own ids.
   */
  lemma {:induction false} StoredKeepsAndAdds(m: map<string, Element>, counter: nat, found: seq<Element>)
    requires forall key :: key in m ==> Issued(key, counter)
    requires NumberedFrom(found, counter)
    ensures forall key :: key in m ==> key in Stored(m, found) && Stored(m, found)[key] == m[key]
    ensures forall i :: 0 <= i < |found| ==> found[i].id !in m && found[i].id in Stored(m, found)
    ensures forall key :: key in Stored(m, found) ==> key in m || exists i :: 0 <= i < |found| && found[i].id == key
  {
    NumberedAll(found, counter);
    forall i | 0 <= i < |found|
      ensures found[i].id !in m
    {
      if found[i].id in m {
        var n: nat :| 1 <= n <= counter && found[i].id == NatToDecimal(n);
        DecimalInjective(n, counter + i + 1);
      }
    }
    if found != [] {
      var prefix := found[..|found| - 1];
      StoredKeepsAndAdds(m, counter, prefix);
      assert forall i :: 0 <= i < |prefix| ==> prefix[i] == found[i];
    }
  }

  lemma SubsetCard(a: set<UiObj>, b: set<UiObj>)
    requires a <= b
    ensures |a| <= |b|
  {
    assert b == a + (b - a);
  }
}
