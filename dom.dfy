/** The parts of a rendered page the scrapers read. A detail page is its elements in
    document order; a listing card is the text of its title and price elements and the
    `href` of its link, each absent when `querySelector` finds nothing. */
module Dom {
  import opened Common

  /** The simple selectors the scrapers use: `#id`, `.class` and `[data-testid="…"]`. */
  datatype Selector = ById(id: string) | ByClass(name: string) | ByTestId(value: string)

  /** One element: its id, classes and data-testid attributes, its `innerText`, and, for
      an iframe, `contentWindow.document.body.innerText`, or the error reading it throws
      (the frame's document may be missing or belong to another origin). */
  datatype Element = Element(
    id: Option<string>,
    classes: set<string>,
    testId: Option<string>,
    innerText: string,
    frameBody: Outcome<string>)

  /** One listing card: `innerText` of its title and price elements, `href` of its link. */
  datatype Card = Card(title: Option<string>, price: Option<string>, href: Option<string>)

  predicate Matches(e: Element, sel: Selector)
  {
    match sel
    case ById(x) => e.id == Some(x)
    case ByClass(c) => c in e.classes
    case ByTestId(v) => e.testId == Some(v)
  }

  /** `e` matches the selector group `s1, s2, …`. */
  predicate MatchesAny(e: Element, group: seq<Selector>)
  {
    exists k :: 0 <= k < |group| && Matches(e, group[k])
  }

  /** The position of the first element, in document order, matching the group. */
  function FirstMatch(doc: seq<Element>, group: seq<Selector>): (r: Option<nat>)
    ensures r.Some? ==> r.value < |doc| && MatchesAny(doc[r.value], group)
    ensures r.Some? ==> forall j :: 0 <= j < r.value ==> !MatchesAny(doc[j], group)
    ensures r.None? <==> forall j :: 0 <= j < |doc| ==> !MatchesAny(doc[j], group)
  {
    if doc == [] then None
    else if MatchesAny(doc[0], group) then Some(0)
    else match FirstMatch(doc[1..], group)
      case None => None
      case Some(i) => Some(i + 1)
  }

  /** `document.querySelector(group)`: the first element in document order that matches
      any selector of the group, whichever selector it matches. */
  function QuerySelector(doc: seq<Element>, group: seq<Selector>): (r: Option<Element>)
    ensures r.None? <==> forall j :: 0 <= j < |doc| ==> !MatchesAny(doc[j], group)
    ensures r.Some? ==> r.value in doc && MatchesAny(r.value, group)
    ensures r.Some? ==>
              exists i :: 0 <= i < |doc| && r.value == doc[i] && MatchesAny(doc[i], group) &&
                (forall j :: 0 <= j < i ==> !MatchesAny(doc[j], group))
  {
    match FirstMatch(doc, group)
    case None => None
    case Some(i) => Some(doc[i])
  }

  /** `document.querySelector(sel)` with a single selector. */
  function Found(doc: seq<Element>, sel: Selector): Option<Element>
  {
    QuerySelector(doc, [sel])
  }

  /** A group that finds nothing finds nothing through any one of its selectors. */
  lemma {:induction false} GroupMissIsMemberMiss(doc: seq<Element>, group: seq<Selector>, k: nat)
    requires k < |group|
    requires QuerySelector(doc, group).None?
    ensures QuerySelector(doc, [group[k]]).None?
  {
    forall j | 0 <= j < |doc|
      ensures !MatchesAny(doc[j], [group[k]])
    {
      assert !Matches(doc[j], group[k]);
    }
  }

  /** `q1 || q2 || …` over separate `querySelector` calls: the element found by the first
      selector, in priority order, that finds anything; every selector before it missed. */
  function FirstPresent(doc: seq<Element>, selectors: seq<Selector>): (r: Option<Element>)
    ensures r.None? <==> forall k :: 0 <= k < |selectors| ==> Found(doc, selectors[k]).None?
    ensures forall k :: 0 <= k < |selectors| && Found(doc, selectors[k]).Some? &&
                        (forall j :: 0 <= j < k ==> Found(doc, selectors[j]).None?) ==>
              r == Found(doc, selectors[k])
    ensures r.Some? ==>
              exists k :: 0 <= k < |selectors| &&
                (forall j :: 0 <= j < k ==> Found(doc, selectors[j]).None?) &&
                r == Found(doc, selectors[k])
  {
    FirstFound(sel => Found(doc, sel), selectors)
  }
}
