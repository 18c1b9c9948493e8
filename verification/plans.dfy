/** Plan extraction for one provider (`scrape_verizon` and `scrape_tmobile`,
    which differ only in their constants, given here by `ProviderSpec`).

    The specification functions (`PlanName`, `PricesIn`, `PricesOf`,
    `PlanFrom`, `Collected`, `ProviderPlans`) say what a scrape yields; the
    methods `ExtractPlan` and `ScrapeProvider` are the loops of the source,
    proved to compute them. */
module Plans {
  import opened Wrappers
  import opened Text
  import opened Dom
  import opened Selectors
  import opened PriceParser
  import opened Seqs

  datatype YesNo = Yes | No

  /** The fixed configuration of one provider. */
  datatype ProviderSpec = ProviderSpec(
    name: string,
    providerType: string,
    url: string,
    containerSelectors: seq<string>,
    nameSelectors: seq<string>,
    priceSelectors: seq<string>,
    autopayDiscount: Option<Cents>,
    taxesFeesIncluded: YesNo)

  /** One plan in wide form: up to five prices, slot `n` nominally being the
      price for `n` lines. */
  datatype WideRecord = WideRecord(
    providerName: string,
    providerType: string,
    planName: string,
    price1: Option<Cents>,
    price2: Option<Cents>,
    price3: Option<Cents>,
    price4: Option<Cents>,
    price5: Option<Cents>,
    autopayDiscount: Option<Cents>,
    taxesFeesIncluded: YesNo,
    sourceUrl: string)
  {
    /** The price slot for `n` lines (`price_1_line`, `price_2_lines`, ...). */
    function Slot(n: int): Option<Cents>
      requires 1 <= n <= PriceSlots
    {
      if n == 1 then price1
      else if n == 2 then price2
      else if n == 3 then price3
      else if n == 4 then price4
      else price5
    }
  }

  /** At most this many plan containers are processed (`containers[:5]`). */
  const MaxContainers := 5

  /** A record has this many price slots, for one to five lines. */
  const PriceSlots := 5

  const UnknownPlan := "Unknown Plan"

  const Verizon := ProviderSpec(
    "Verizon", "MNO", "https://www.verizon.com/plans/unlimited/",
    ["[data-testid*=\"plan\"]", ".plan-card", ".unlimited-plan", ".plan-container", ".plan-tile"],
    ["h2", "h3", ".plan-name", ".plan-title", "[data-testid*=\"title\"]"],
    [".price", "[data-testid*=\"price\"]", ".cost", ".monthly-price"],
    Some(1000), No)

  const TMobile := ProviderSpec(
    "T-Mobile", "MNO", "https://www.t-mobile.com/cell-phone-plans",
    [".plan-tile", "[data-testid*=\"plan\"]", ".plan-card", ".plan-container"],
    ["h2", "h3", ".plan-title", ".plan-name"],
    [".price", ".cost", "[data-testid*=\"price\"]"],
    Some(500), Yes)

  /** Verizon's configuration: its URL, the container, name and price
      selectors in the order they are tried, a $10 autopay discount, and
      taxes and fees not included. */
  lemma VerizonConfiguration()
    ensures Verizon.name == "Verizon" && Verizon.providerType == "MNO"
    ensures Verizon.url == "https://www.verizon.com/plans/unlimited/"
    ensures Verizon.containerSelectors
            == ["[data-testid*=\"plan\"]", ".plan-card", ".unlimited-plan", ".plan-container", ".plan-tile"]
    ensures Verizon.nameSelectors == ["h2", "h3", ".plan-name", ".plan-title", "[data-testid*=\"title\"]"]
    ensures Verizon.priceSelectors == [".price", "[data-testid*=\"price\"]", ".cost", ".monthly-price"]
    ensures Verizon.autopayDiscount == Some(1000) && Verizon.taxesFeesIncluded == No
  {
  }

  /** T-Mobile's configuration: its URL, the container, name and price
      selectors in the order they are tried, a $5 autopay discount, and
      taxes and fees included. */
  lemma TMobileConfiguration()
    ensures TMobile.name == "T-Mobile" && TMobile.providerType == "MNO"
    ensures TMobile.url == "https://www.t-mobile.com/cell-phone-plans"
    ensures TMobile.containerSelectors == [".plan-tile", "[data-testid*=\"plan\"]", ".plan-card", ".plan-container"]
    ensures TMobile.nameSelectors == ["h2", "h3", ".plan-title", ".plan-name"]
    ensures TMobile.priceSelectors == [".price", ".cost", "[data-testid*=\"price\"]"]
    ensures TMobile.autopayDiscount == Some(500) && TMobile.taxesFeesIncluded == Yes
  {
  }

  function Min(a: int, b: int): int {
    if a <= b then a else b
  }

  // ---------------------------------------------------------------------
  // Plan name
  // ---------------------------------------------------------------------

  /** The plan name of container `c`: the trimmed text of the first element
      of the first name selector that matches, or "Unknown Plan". `None`
      when reading that text fails. */
  function PlanName(c: Element, sels: seq<string>): (r: Option<string>)
    ensures r.Some? && r.value != [] ==> !IsSpace(r.value[0]) && !IsSpace(r.value[|r.value| - 1])
  {
    var hits := FirstMatch(c, sels);
    if |hits| == 0 then Some(UnknownPlan)
    else if hits[0].text.None? then None
    else Some(Trim(hits[0].text.value))
  }

  /** The name comes from the earliest name selector that matches anything,
      and defaults to "Unknown Plan" only when none does. */
  lemma PlanNameFromFirstHit(c: Element, sels: seq<string>, k: int)
    requires IsFirstHit(c, sels, k)
    ensures c.query(sels[k])[0].text.None? ==> PlanName(c, sels) == None
    ensures c.query(sels[k])[0].text.Some? ==>
              PlanName(c, sels) == Some(Trim(c.query(sels[k])[0].text.value))
  {
    FirstMatchAtHit(c, sels, k);
  }

  lemma PlanNameDefault(c: Element, sels: seq<string>)
    ensures PlanName(c, sels) == Some(UnknownPlan)
            <==> (forall j :: 0 <= j < |sels| ==> |c.query(sels[j])| == 0)
                 || exists k :: IsFirstHit(c, sels, k) && c.query(sels[k])[0].text.Some?
                                && Trim(c.query(sels[k])[0].text.value) == UnknownPlan
  {
    var hits := FirstMatch(c, sels);
    if |hits| > 0 {
      var k :| IsFirstHit(c, sels, k) && hits == c.query(sels[k]);
      PlanNameFromFirstHit(c, sels, k);
      forall k' | IsFirstHit(c, sels, k') ensures k' == k {
        assert !(k' < k) && !(k < k');
      }
    }
  }

  // ---------------------------------------------------------------------
  // Prices
  // ---------------------------------------------------------------------

  /** Python truthiness of an optional price: present and non-zero. */
  predicate Truthy(p: Option<Cents>) {
    p.Some? && p.value != 0
  }

  /** The truthiness filter `if price:`: a missing or zero price is dropped. */
  function Kept(p: Option<Cents>): seq<Cents> {
    if Truthy(p) then [p.value] else []
  }

  /** Both price lists, one after the other; `None` if either failed. */
  function Then(a: Option<seq<Cents>>, b: Option<seq<Cents>>): Option<seq<Cents>> {
    if a.Some? && b.Some? then Some(a.value + b.value) else None
  }

  predicate AllPositive(ps: seq<Cents>) {
    forall k :: 0 <= k < |ps| ==> ps[k] > 0
  }

  /** The prices parsed from the texts of `elems`, in element order, with
      missing and zero prices dropped; `None` when reading a text fails. */
  function PricesIn(elems: seq<Element>): (r: Option<seq<Cents>>)
    ensures r.None? <==> exists k :: 0 <= k < |elems| && elems[k].text.None?
    ensures r.Some? ==> |r.value| <= |elems| && AllPositive(r.value)
  {
    if |elems| == 0 then Some([])
    else
      var init := elems[..|elems| - 1];
      var last := elems[|elems| - 1];
      assert forall k :: 0 <= k < |init| ==> init[k] == elems[k];
      if last.text.None? then None
      else Then(PricesIn(init), Some(Kept(ExtractPrice(last.text))))
  }

  /** The prices of container `c` over all price selectors, in selector
      order and within one selector in element order. */
  function PricesOf(c: Element, sels: seq<string>): (r: Option<seq<Cents>>)
    ensures r.None? <==> exists j :: 0 <= j < |sels| && PricesIn(c.query(sels[j])).None?
    ensures r.Some? ==> AllPositive(r.value)
  {
    if |sels| == 0 then Some([])
    else
      var init := sels[..|sels| - 1];
      assert forall j :: 0 <= j < |init| ==> init[j] == sels[j];
      Then(PricesOf(c, init), PricesIn(c.query(sels[|sels| - 1])))
  }

  /** A readable element contributes its parsed price when that is present
      and non-zero, and nothing otherwise; an unreadable one fails the
      container. */
  lemma PricesOfOneElement(e: Element)
    ensures e.text.None? ==> PricesIn([e]) == None
    ensures e.text.Some? && Truthy(ExtractPrice(e.text)) ==> PricesIn([e]) == Some([ExtractPrice(e.text).value])
    ensures e.text.Some? && !Truthy(ExtractPrice(e.text)) ==> PricesIn([e]) == Some([])
  {
    assert [e][..0] == [];
    if e.text.Some? {
      var kept := Kept(ExtractPrice(e.text));
      assert PricesIn([e]) == Then(Some([]), Some(kept));
      assert [] + kept == kept;
    }
  }

  /** A single price selector contributes the prices of the elements it
      matches. */
  lemma PricesOfOneSelector(c: Element, sel: string)
    ensures PricesOf(c, [sel]) == PricesIn(c.query(sel))
  {
    assert [sel][..0] == [];
    var r := PricesIn(c.query(sel));
    if r.Some? {
      assert [] + r.value == r.value;
    }
  }

  /** The elements' prices are those of a prefix followed by those of the
      rest: document order is kept. */
  lemma {:induction false} PricesInAppend(a: seq<Element>, b: seq<Element>)
    ensures PricesIn(a + b) == Then(PricesIn(a), PricesIn(b))
    decreases |b|
  {
    if |b| == 0 {
      assert a + b == a;
      if PricesIn(a).Some? {
        assert PricesIn(a).value + [] == PricesIn(a).value;
      }
    } else {
      var b' := b[..|b| - 1];
      var last := b[|b| - 1];
      assert (a + b)[..|a + b| - 1] == a + b';
      assert (a + b)[|a + b| - 1] == last;
      PricesInAppend(a, b');
      if last.text.Some? && PricesIn(a).Some? && PricesIn(b').Some? {
        ConcatAssoc(PricesIn(a).value, PricesIn(b').value, Kept(ExtractPrice(last.text)));
      }
    }
  }

  /** The selectors' prices are those of a prefix of the selector list
      followed by those of the rest: selector order is kept. */
  lemma {:induction false} PricesOfAppend(c: Element, a: seq<string>, b: seq<string>)
    ensures PricesOf(c, a + b) == Then(PricesOf(c, a), PricesOf(c, b))
    decreases |b|
  {
    if |b| == 0 {
      assert a + b == a;
      if PricesOf(c, a).Some? {
        assert PricesOf(c, a).value + [] == PricesOf(c, a).value;
      }
    } else {
      var b' := b[..|b| - 1];
      var last := PricesIn(c.query(b[|b| - 1]));
      assert (a + b)[..|a + b| - 1] == a + b';
      assert (a + b)[|a + b| - 1] == b[|b| - 1];
      PricesOfAppend(c, a, b');
      if last.Some? && PricesOf(c, a).Some? && PricesOf(c, b').Some? {
        ConcatAssoc(PricesOf(c, a).value, PricesOf(c, b').value, last.value);
      }
    }
  }

  // ---------------------------------------------------------------------
  // One plan record
  // ---------------------------------------------------------------------

  function SlotOf(prices: seq<Cents>, n: nat): Option<Cents>
    requires n >= 1
  {
    if |prices| > n - 1 then Some(prices[n - 1]) else None
  }

  function MakeRecord(spec: ProviderSpec, name: string, prices: seq<Cents>, url: string): WideRecord {
    WideRecord(spec.name, spec.providerType, name,
      SlotOf(prices, 1), SlotOf(prices, 2), SlotOf(prices, 3), SlotOf(prices, 4), SlotOf(prices, 5),
      spec.autopayDiscount, spec.taxesFeesIncluded, url)
  }

  /** The values of the populated slots among the first `n`, in slot order. */
  function FilledSlots(r: WideRecord, n: nat): seq<Cents>
    requires n <= PriceSlots
  {
    if n == 0 then []
    else FilledSlots(r, n - 1) + (if r.Slot(n).Some? then [r.Slot(n).value] else [])
  }

  /** Positional filling: the populated slots are exactly slots 1..k for
      k = min(5, number of prices), and read in order they are the first
      five prices; any further price is discarded. */
  lemma SlotsHoldFirstFivePrices(spec: ProviderSpec, name: string, prices: seq<Cents>, url: string)
    ensures forall n :: 1 <= n <= PriceSlots ==>
              MakeRecord(spec, name, prices, url).Slot(n) == (if n <= |prices| then Some(prices[n - 1]) else None)
    ensures FilledSlots(MakeRecord(spec, name, prices, url), PriceSlots) == prices[..Min(|prices|, PriceSlots)]
  {
    var r := MakeRecord(spec, name, prices, url);
    forall n | 0 <= n <= PriceSlots
      ensures FilledSlots(r, n) == prices[..Min(|prices|, n)]
    {
      FilledSlotsPrefix(spec, name, prices, url, n);
    }
  }

  lemma {:induction false} FilledSlotsPrefix(spec: ProviderSpec, name: string, prices: seq<Cents>, url: string, n: nat)
    requires n <= PriceSlots
    ensures FilledSlots(MakeRecord(spec, name, prices, url), n) == prices[..Min(|prices|, n)]
  {
    if n > 0 {
      FilledSlotsPrefix(spec, name, prices, url, n - 1);
      if n <= |prices| {
        assert prices[..n] == prices[..n - 1] + [prices[n - 1]];
      }
    }
  }

  /** The record built from container `c`, or `None` when reading one of
      its texts fails (the per-container `except` skips it). */
  function PlanFrom(c: Element, spec: ProviderSpec, url: string): (r: Option<WideRecord>)
    ensures r.Some? ==>
              && r.value.providerName == spec.name
              && r.value.providerType == spec.providerType
              && r.value.autopayDiscount == spec.autopayDiscount
              && r.value.taxesFeesIncluded == spec.taxesFeesIncluded
              && r.value.sourceUrl == url
              && Some(r.value.planName) == PlanName(c, spec.nameSelectors)
  {
    var name := PlanName(c, spec.nameSelectors);
    var prices := PricesOf(c, spec.priceSelectors);
    if name.None? || prices.None? then None
    else Some(MakeRecord(spec, name.value, prices.value, url))
  }

  /** Slot `n` of a record holds the container's `n`-th price, and is empty
      when there are fewer than `n` prices; none of them is zero. */
  lemma PlanSlots(c: Element, spec: ProviderSpec, url: string)
    requires PlanFrom(c, spec, url).Some?
    ensures PricesOf(c, spec.priceSelectors).Some?
    ensures var prices := PricesOf(c, spec.priceSelectors).value;
            forall n :: 1 <= n <= PriceSlots ==>
              PlanFrom(c, spec, url).value.Slot(n) == (if n <= |prices| then Some(prices[n - 1]) else None)
    ensures var prices := PricesOf(c, spec.priceSelectors).value;
            FilledSlots(PlanFrom(c, spec, url).value, PriceSlots) == prices[..Min(|prices|, PriceSlots)]
    ensures forall n :: 1 <= n <= PriceSlots && PlanFrom(c, spec, url).value.Slot(n).Some? ==>
              PlanFrom(c, spec, url).value.Slot(n).value > 0
  {
    var prices := PricesOf(c, spec.priceSelectors).value;
    SlotsHoldFirstFivePrices(spec, PlanName(c, spec.nameSelectors).value, prices, url);
  }

  /** Reading one more element: its truthy price is appended, and an
      unreadable text fails the whole list. */
  lemma PricesInSnoc(elems: seq<Element>, m: nat)
    requires m < |elems|
    ensures elems[m].text.None? ==> PricesIn(elems) == None
    ensures elems[m].text.Some? ==>
              PricesIn(elems[..m + 1]) == Then(PricesIn(elems[..m]), Some(Kept(ExtractPrice(elems[m].text))))
  {
    var prefix := elems[..m + 1];
    assert prefix[..m] == elems[..m] && prefix[m] == elems[m];
  }

  /** Trying one more selector: its prices are appended. */
  lemma PricesOfSnoc(c: Element, sels: seq<string>, k: nat)
    requires k < |sels|
    ensures PricesOf(c, sels[..k + 1]) == Then(PricesOf(c, sels[..k]), PricesIn(c.query(sels[k])))
  {
    var prefix := sels[..k + 1];
    assert prefix[..k] == sels[..k] && prefix[k] == sels[k];
  }

  /** The inner price loop: `extract_price` on the text of each element in
      turn, the truthy results appended; `None` when reading a text raises. */
  method CollectElementPrices(elements: seq<Element>) returns (result: Option<seq<Cents>>)
    ensures result == PricesIn(elements)
  {
    var found: seq<Cents> := [];
    assert elements[..0] == [];
    for m := 0 to |elements|
      invariant PricesIn(elements[..m]) == Some(found)
    {
      PricesInSnoc(elements, m);
      var text := elements[m].text;
      if text.None? {
        return None;
      }
      var price := ExtractPrice(text);
      if Truthy(price) {
        found := found + [price.value];
      } else {
        assert found + [] == found;
      }
    }
    assert elements[..|elements|] == elements;
    result := Some(found);
  }

  /** The price loops of the per-container body: every price selector, and
      within it every element it matches. `None` when reading a text raises. */
  method CollectPrices(c: Element, sels: seq<string>) returns (result: Option<seq<Cents>>)
    ensures result == PricesOf(c, sels)
  {
    var prices: seq<Cents> := [];
    for k := 0 to |sels|
      invariant PricesOf(c, sels[..k]) == Some(prices)
    {
      var found := CollectElementPrices(c.query(sels[k]));
      PricesOfSnoc(c, sels, k);
      if found.None? {
        return None;
      }
      prices := prices + found.value;
    }
    assert sels[..|sels|] == sels;
    result := Some(prices);
  }

  /** The body of the per-container loop: name lookup, then the prices,
      then the record; `None` when a text cannot be read. */
  method ExtractPlan(c: Element, spec: ProviderSpec, url: string) returns (plan: Option<WideRecord>)
    ensures plan == PlanFrom(c, spec, url)
  {
    var name := UnknownPlan;
    var hits := ResolveFirst(c, spec.nameSelectors);
    if |hits| > 0 {
      var text := hits[0].text;
      if text.None? {
        assert PlanName(c, spec.nameSelectors).None?;
        return None;
      }
      name := Trim(text.value);
    }
    assert PlanName(c, spec.nameSelectors) == Some(name);
    var prices := CollectPrices(c, spec.priceSelectors);
    if prices.None? {
      return None;
    }
    plan := Some(MakeRecord(spec, name, prices.value, url));
  }

  // ---------------------------------------------------------------------
  // All plans of a provider
  // ---------------------------------------------------------------------

  /** `containers[:5]`. */
  function FirstPlans(cs: seq<Element>): (r: seq<Element>)
    ensures |r| == Min(|cs|, MaxContainers)
    ensures forall k :: 0 <= k < |r| ==> r[k] == cs[k]
  {
    if |cs| <= MaxContainers then cs else cs[..MaxContainers]
  }

  /** The outcome of the per-container body for each of `cs`, in order. */
  function Extracted(cs: seq<Element>, spec: ProviderSpec, url: string): seq<Option<WideRecord>> {
    seq(|cs|, k requires 0 <= k < |cs| => PlanFrom(cs[k], spec, url))
  }

  /** The records of the containers `cs`, in order, skipping those whose
      extraction fails. */
  function Collected(cs: seq<Element>, spec: ProviderSpec, url: string): (plans: seq<WideRecord>)
    ensures |plans| <= |cs|
  {
    Present(Extracted(cs, spec, url))
  }

  /** For each collected record, the index of the container it came from. */
  ghost function Origins(cs: seq<Element>, spec: ProviderSpec, url: string): seq<nat> {
    Positions(Extracted(cs, spec, url))
  }

  /** Each collected record is the record of the container it came from. */
  lemma OriginsLocate(cs: seq<Element>, spec: ProviderSpec, url: string)
    ensures |Origins(cs, spec, url)| == |Collected(cs, spec, url)|
    ensures forall k :: 0 <= k < |Origins(cs, spec, url)| ==>
              && Origins(cs, spec, url)[k] < |cs|
              && PlanFrom(cs[Origins(cs, spec, url)[k]], spec, url) == Some(Collected(cs, spec, url)[k])
  {
    PositionsLocate(Extracted(cs, spec, url));
  }

  /** No container is lost: every container whose extraction succeeds has
      its record collected, whatever happens to the others. */
  lemma CollectedComplete(cs: seq<Element>, spec: ProviderSpec, url: string, k: nat)
    requires k < |cs| && PlanFrom(cs[k], spec, url).Some?
    ensures k in Origins(cs, spec, url)
  {
    PositionsComplete(Extracted(cs, spec, url), k);
  }

  /** The selected container indices are strictly increasing. */
  lemma OriginsIncreasing(cs: seq<Element>, spec: ProviderSpec, url: string)
    ensures forall k :: 0 <= k < |Origins(cs, spec, url)| ==> Origins(cs, spec, url)[k] < |cs|
    ensures forall k, l :: 0 <= k < l < |Origins(cs, spec, url)| ==>
              Origins(cs, spec, url)[k] < Origins(cs, spec, url)[l]
  {
    PositionsIncreasing(Extracted(cs, spec, url));
  }

  /** When no container fails, there is one record per container, in order. */
  lemma CollectedAll(cs: seq<Element>, spec: ProviderSpec, url: string)
    requires forall k :: 0 <= k < |cs| ==> PlanFrom(cs[k], spec, url).Some?
    ensures |Collected(cs, spec, url)| == |cs|
    ensures forall k :: 0 <= k < |cs| ==> Collected(cs, spec, url)[k] == PlanFrom(cs[k], spec, url).value
  {
    PresentAll(Extracted(cs, spec, url));
  }

  /** What scraping a provider yields: navigate to its URL (nothing when
      that fails), resolve the plan containers by selector fallback, and
      collect the records of the first five. */
  function ProviderPlans(browser: Browser, spec: ProviderSpec): (plans: seq<WideRecord>)
    ensures |plans| <= MaxContainers
  {
    match browser(spec.url)
    case None => []
    case Some(page) =>
      var cs := FirstMatch(page.root, spec.containerSelectors);
      Collected(FirstPlans(cs), spec, page.url)
  }

  /** A provider whose page fails to load, or on which no container
      selector matches, yields no records. */
  lemma NoPageOrNoContainersNoPlans(browser: Browser, spec: ProviderSpec)
    requires browser(spec.url).None?
             || forall j :: 0 <= j < |spec.containerSelectors| ==>
                  |browser(spec.url).value.root.query(spec.containerSelectors[j])| == 0
    ensures ProviderPlans(browser, spec) == []
  {
  }

  /** The records are those of the first five containers of the first
      container selector that matches whose extraction succeeds: each record
      comes from one of them, in document order and without repeats, and
      each of them yields a record, even when another container fails. */
  lemma PlansComeFromFirstFiveContainers(browser: Browser, spec: ProviderSpec, page: Page, k: int)
    requires browser(spec.url) == Some(page) && IsFirstHit(page.root, spec.containerSelectors, k)
    ensures var cs := page.root.query(spec.containerSelectors[k]);
            var plans := ProviderPlans(browser, spec);
            var idx := Origins(FirstPlans(cs), spec, page.url);
            && |idx| == |plans|
            && (forall n :: 0 <= n < |idx| ==>
                  idx[n] < Min(|cs|, MaxContainers) && PlanFrom(cs[idx[n]], spec, page.url) == Some(plans[n]))
            && (forall n, m :: 0 <= n < m < |idx| ==> idx[n] < idx[m])
            && (forall n :: 0 <= n < Min(|cs|, MaxContainers) && PlanFrom(cs[n], spec, page.url).Some? ==> n in idx)
  {
    FirstMatchAtHit(page.root, spec.containerSelectors, k);
    var cs := page.root.query(spec.containerSelectors[k]);
    var shown := FirstPlans(cs);
    OriginsLocate(shown, spec, page.url);
    OriginsIncreasing(shown, spec, page.url);
    forall n | 0 <= n < Min(|cs|, MaxContainers) && PlanFrom(cs[n], spec, page.url).Some?
      ensures n in Origins(shown, spec, page.url)
    {
      assert shown[n] == cs[n];
      CollectedComplete(shown, spec, page.url, n);
    }
  }

  /** When no container fails, a provider yields exactly min(5, containers)
      records, record `n` from container `n`. */
  lemma OnePlanPerContainer(browser: Browser, spec: ProviderSpec, page: Page, k: int)
    requires browser(spec.url) == Some(page) && IsFirstHit(page.root, spec.containerSelectors, k)
    requires var cs := page.root.query(spec.containerSelectors[k]);
             forall n :: 0 <= n < Min(|cs|, MaxContainers) ==> PlanFrom(cs[n], spec, page.url).Some?
    ensures var cs := page.root.query(spec.containerSelectors[k]);
            var plans := ProviderPlans(browser, spec);
            && |plans| == Min(|cs|, MaxContainers)
            && forall n :: 0 <= n < |plans| ==> plans[n] == PlanFrom(cs[n], spec, page.url).value
  {
    FirstMatchAtHit(page.root, spec.containerSelectors, k);
    var cs := page.root.query(spec.containerSelectors[k]);
    CollectedAll(FirstPlans(cs), spec, page.url);
  }

  /** `scrape_verizon` / `scrape_tmobile`. */
  method ScrapeProvider(browser: Browser, spec: ProviderSpec) returns (plans: seq<WideRecord>)
    ensures plans == ProviderPlans(browser, spec)
  {
    var navigation := browser(spec.url);
    if navigation.None? {
      return [];
    }
    var page := navigation.value;
    var containers := ResolveFirst(page.root, spec.containerSelectors);
    if |containers| == 0 {
      return [];
    }
    var shown := FirstPlans(containers);
    ghost var outcomes := Extracted(shown, spec, page.url);
    plans := [];
    assert outcomes[..0] == [];
    for i := 0 to |shown|
      invariant plans == Present(outcomes[..i])
    {
      var plan := ExtractPlan(shown[i], spec, page.url);
      assert plan == outcomes[i];
      PresentSnoc(outcomes, i);
      if plan.Some? {
        plans := plans + [plan.value];
      }
    }
    assert outcomes[..|shown|] == outcomes;
    assert plans == Collected(shown, spec, page.url);
  }
}
