/** The run (`main`): scrape every provider in list order, concatenate their
    records, and normalise them when there are any. */
module Orchestrator {
  import opened Wrappers
  import opened Dom
  import opened Plans
  import opened Normalizer
  import opened Seqs

  /** The providers scraped, in order. */
  const Providers := [Verizon, TMobile]

  /** Two providers are scraped, Verizon first and T-Mobile second, each at
      its own URL. */
  lemma ProvidersInOrder()
    ensures |Providers| == 2
    ensures Providers[0].name == "Verizon" && Providers[1].name == "T-Mobile"
    ensures Providers[0].url != Providers[1].url
  {
  }

  /** The records of all providers in `specs`, in provider order. */
  function AllPlans(browser: Browser, specs: seq<ProviderSpec>): (all: seq<WideRecord>)
    ensures |all| <= MaxContainers * |specs|
  {
    if |specs| == 0 then []
    else AllPlans(browser, specs[..|specs| - 1]) + ProviderPlans(browser, specs[|specs| - 1])
  }

  /** Provider order is kept: the records of a list of providers are those
      of a prefix of the list followed by those of the rest. */
  lemma {:induction false} AllPlansAppend(browser: Browser, a: seq<ProviderSpec>, b: seq<ProviderSpec>)
    ensures AllPlans(browser, a + b) == AllPlans(browser, a) + AllPlans(browser, b)
    decreases |b|
  {
    if |b| == 0 {
      assert a + b == a;
    } else {
      var b' := b[..|b| - 1];
      AllPlansAppend(browser, a, b');
      assert (a + b)[..|a + b| - 1] == a + b' && (a + b)[|a + b| - 1] == b[|b| - 1];
      ConcatAssoc(AllPlans(browser, a), AllPlans(browser, b'), ProviderPlans(browser, b[|b| - 1]));
    }
  }

  /** A provider whose page fails to load contributes nothing, and the
      others still contribute their records in order. */
  lemma FailedProviderSkipped(browser: Browser, a: seq<ProviderSpec>, failed: ProviderSpec, b: seq<ProviderSpec>)
    requires browser(failed.url).None?
    ensures AllPlans(browser, a + [failed] + b) == AllPlans(browser, a) + AllPlans(browser, b)
  {
    AllPlansAppend(browser, a + [failed], b);
    AllPlansAppend(browser, a, [failed]);
    assert [failed][..0] == [];
    assert AllPlans(browser, [failed]) == [];
    assert AllPlans(browser, a) + [] == AllPlans(browser, a);
  }

  /** The run's records: Verizon's, then T-Mobile's; when Verizon's page
      fails to load, T-Mobile's alone. */
  lemma RunOrder(browser: Browser)
    ensures AllPlans(browser, Providers) == ProviderPlans(browser, Verizon) + ProviderPlans(browser, TMobile)
    ensures browser(Verizon.url).None? ==> AllPlans(browser, Providers) == ProviderPlans(browser, TMobile)
  {
    assert Providers[..1] == [Verizon];
    assert [Verizon][..0] == [];
  }

  /** The provider loop: `all_scraped_data.extend(scrape_function(page))`
      for each provider in turn. */
  method ScrapeAll(browser: Browser, specs: seq<ProviderSpec>) returns (all: seq<WideRecord>)
    ensures all == AllPlans(browser, specs)
  {
    all := [];
    for i := 0 to |specs|
      invariant all == AllPlans(browser, specs[..i])
    {
      var data := ScrapeProvider(browser, specs[i]);
      all := all + data;
      assert specs[..i + 1][..i] == specs[..i];
    }
    assert specs[..|specs|] == specs;
  }

  /** `main`: the table to save, with one row per populated slot of every
      record, or nothing when no provider yielded any record. */
  method Run(browser: Browser) returns (table: Option<seq<Row>>)
    ensures table.None? <==> AllPlans(browser, Providers) == []
    ensures table.Some? ==> table.value == NormalizedRows(AllPlans(browser, Providers))
    ensures table.Some? ==> |table.value| == TotalPopulated(AllPlans(browser, Providers))
  {
    var all := ScrapeAll(browser, Providers);
    if |all| == 0 {
      return None;
    }
    var rows := Normalize(all);
    NormalizedCount(all);
    table := Some(rows);
  }
}
