/** The page as the extraction sees it: an abstract, read-only DOM oracle.

    An element answers two questions: its rendered text, and the list of its
    descendants that a CSS selector matches, in document order. Reading the
    text of a node can fail (the node may have gone from the page); that is
    `text == None`. Navigation to a URL either fails or yields a page, with
    the URL the browser ended up at and the root of its document. */
module Dom {
  import opened Wrappers

  datatype Element = Element(text: Option<string>, query: string -> seq<Element>)

  datatype Page = Page(url: string, root: Element)

  /** `page.goto(url)`: `None` when navigation raises. */
  type Browser = string -> Option<Page>
}

/** Selector fallback: try an ordered list of selectors and keep the matches
    of the first one that matches anything. */
module Selectors {
  import opened Dom

  /** Selector `k` is the first of `sels` that matches anything under `e`. */
  ghost predicate IsFirstHit(e: Element, sels: seq<string>, k: int) {
    0 <= k < |sels| && |e.query(sels[k])| > 0
    && forall j :: 0 <= j < k ==> |e.query(sels[j])| == 0
  }

  /** The matches of the first selector that matches anything, or nothing
      when none does. */
  function FirstMatch(e: Element, sels: seq<string>): (r: seq<Element>)
    ensures |r| == 0 <==> forall j :: 0 <= j < |sels| ==> |e.query(sels[j])| == 0
    ensures |r| > 0 ==> exists k :: IsFirstHit(e, sels, k) && r == e.query(sels[k])
  {
    if |sels| == 0 then []
    else if |e.query(sels[0])| > 0 then e.query(sels[0])
    else
      HitsShift(e, sels);
      FirstMatch(e, sels[1..])
  }

  /** When the first selector matches nothing, a first hit in the rest of
      the list is a first hit one place further on in the whole list. */
  lemma HitsShift(e: Element, sels: seq<string>)
    requires |sels| > 0 && |e.query(sels[0])| == 0
    ensures forall j :: 1 <= j < |sels| ==> sels[1..][j - 1] == sels[j]
    ensures forall k :: IsFirstHit(e, sels[1..], k) ==> IsFirstHit(e, sels, k + 1)
  {
    forall k | IsFirstHit(e, sels[1..], k) ensures IsFirstHit(e, sels, k + 1) {
      forall j | 0 <= j < k + 1 ensures |e.query(sels[j])| == 0 {
        if j > 0 { assert sels[j] == sels[1..][j - 1]; }
      }
    }
  }

  /** The first hit is unique, so `FirstMatch` is the matches of that hit. */
  lemma FirstMatchAtHit(e: Element, sels: seq<string>, k: int)
    requires IsFirstHit(e, sels, k)
    ensures FirstMatch(e, sels) == e.query(sels[k])
  {
    var r := FirstMatch(e, sels);
    var k' :| IsFirstHit(e, sels, k') && r == e.query(sels[k']);
    assert !(k' < k) && !(k < k');
  }

  /** Selectors after the first hit are never consulted: replacing them by
      anything at all leaves the result unchanged. */
  lemma {:induction false} LaterSelectorsIgnored(e: Element, sels: seq<string>, k: nat, rest: seq<string>)
    requires IsFirstHit(e, sels, k)
    ensures FirstMatch(e, sels[..k + 1] + rest) == FirstMatch(e, sels)
  {
    var sels' := sels[..k + 1] + rest;
    assert forall j :: 0 <= j <= k ==> sels'[j] == sels[j];
    assert IsFirstHit(e, sels', k);
    FirstMatchAtHit(e, sels', k);
    FirstMatchAtHit(e, sels, k);
  }

  /** The selector loop: `for selector in selectors: elements =
      query_selector_all(selector); if elements: found = elements; break`. */
  method ResolveFirst(e: Element, sels: seq<string>) returns (found: seq<Element>)
    ensures found == FirstMatch(e, sels)
  {
    found := [];
    var i := 0;
    while i < |sels|
      invariant 0 <= i <= |sels|
      invariant forall j :: 0 <= j < i ==> |e.query(sels[j])| == 0
    {
      var elements := e.query(sels[i]);
      if |elements| > 0 {
        assert IsFirstHit(e, sels, i);
        FirstMatchAtHit(e, sels, i);
        found := elements;
        return;
      }
      i := i + 1;
    }
  }
}
