/** The galamsey detection service: merge the Sentinel-1 and U-Net site lists
    by id, filter and grade the merged sites, and summarise them. */
module Detection {
  import opened Wrappers
  import opened Text

  datatype Status = Active | Inactive | Rehabilitated
  datatype SiteSize = SmallSite | MediumSite | LargeSite
  datatype Degradation = Low | Medium | High
  datatype Method = Sentinel1 | Sentinel2 | PlanetNicfi | UnetDeepLearning

  /** `GalamseySite`; area in km² and confidence in [0, 1] as exact reals. */
  datatype Site = Site(
    id: string,
    name: string,
    lat: real,
    lng: real,
    status: Status,
    size: SiteSize,
    lastUpdated: string,
    region: string,
    confidence: real,
    area: real,
    degradation: Degradation,
    satelliteImage: Option<string>,
    detectionMethod: Method)

  const MinAreaKm2: real := 0.01
  const MaxAreaKm2: real := 50.0

  function Max(a: real, b: real): (m: real)
    ensures m >= a && m >= b && (m == a || m == b)
  {
    if a >= b then a else b
  }

  function Ids(sites: seq<Site>): (ids: seq<string>)
    ensures |ids| == |sites|
    ensures forall i | 0 <= i < |sites| :: ids[i] == sites[i].id
  {
    if sites == [] then [] else Ids(sites[..|sites| - 1]) + [sites[|sites| - 1].id]
  }

  /** The ids in order of first occurrence, each once. */
  function Dedup(xs: seq<string>): (d: seq<string>)
    ensures Distinct(d)
    ensures forall x :: x in d <==> x in xs
  {
    if xs == [] then []
    else
      var init := Dedup(xs[..|xs| - 1]);
      var last := xs[|xs| - 1];
      assert forall x :: x in xs <==> x in xs[..|xs| - 1] || x == last by {
        assert xs == xs[..|xs| - 1] + [last];
      }
      if last in init then init else init + [last]
  }

  // ----- combineDetectionResults -----

  /** The `Map<string, GalamseySite>`: keys in insertion order and the entries. */
  datatype Table = Table(keys: seq<string>, entries: map<string, Site>) {
    ghost predicate Valid() {
      Distinct(keys) && (forall k :: k in entries <==> k in keys)
    }
  }

  const Empty := Table([], map[])

  /** `combinedMap.set(site.id, { ...site, detectionMethod: 'sentinel-1' })` */
  function AddSentinel(t: Table, site: Site): Table {
    Table(if site.id in t.entries then t.keys else t.keys + [site.id],
          t.entries[site.id := site.(detectionMethod := Sentinel1)])
  }

  /** One U-Net site: raise the existing entry's confidence and area to the
      maxima and mark it U-Net, or insert the site marked U-Net. */
  function AddUnet(t: Table, site: Site): Table {
    if site.id in t.entries then
      var existing := t.entries[site.id];
      Table(t.keys, t.entries[site.id := existing.(
        confidence := Max(existing.confidence, site.confidence),
        area := Max(existing.area, site.area),
        detectionMethod := UnetDeepLearning)])
    else
      Table(t.keys + [site.id], t.entries[site.id := site.(detectionMethod := UnetDeepLearning)])
  }

  function FoldSentinel(t: Table, sites: seq<Site>): Table {
    if sites == [] then t else AddSentinel(FoldSentinel(t, sites[..|sites| - 1]), sites[|sites| - 1])
  }

  function FoldUnet(t: Table, sites: seq<Site>): Table {
    if sites == [] then t else AddUnet(FoldUnet(t, sites[..|sites| - 1]), sites[|sites| - 1])
  }

  /** `Array.from(combinedMap.values())` */
  function Values(t: Table): (r: seq<Site>)
    requires forall k | k in t.keys :: k in t.entries
    ensures |r| == |t.keys|
    ensures forall i | 0 <= i < |r| :: r[i] == t.entries[t.keys[i]]
  {
    seq(|t.keys|, i requires 0 <= i < |t.keys| => t.entries[t.keys[i]])
  }

  /** The table after both loops. */
  function Merged(sentinel: seq<Site>, unet: seq<Site>): Table {
    FoldUnet(FoldSentinel(Empty, sentinel), unet)
  }

  /** The last site with the given id (the one a later `set` leaves in the map). */
  function LastWith(sites: seq<Site>, id: string): (s: Site)
    requires id in Ids(sites)
    ensures s in sites && s.id == id
  {
    var init := sites[..|sites| - 1];
    var last := sites[|sites| - 1];
    assert Ids(sites) == Ids(init) + [last.id];
    if last.id == id then last else LastWith(init, id)
  }

  /** The first site with the given id. */
  function FirstWith(sites: seq<Site>, id: string): (s: Site)
    requires id in Ids(sites)
    ensures s in sites && s.id == id
  {
    var init := sites[..|sites| - 1];
    var last := sites[|sites| - 1];
    assert Ids(sites) == Ids(init) + [last.id];
    if id in Ids(init) then FirstWith(init, id) else last
  }

  /** The largest confidence among the sites with the given id. */
  function MaxConfidence(sites: seq<Site>, id: string): real
    requires id in Ids(sites)
  {
    var init := sites[..|sites| - 1];
    var last := sites[|sites| - 1];
    assert Ids(sites) == Ids(init) + [last.id];
    if id !in Ids(init) then last.confidence
    else if last.id == id then Max(MaxConfidence(init, id), last.confidence)
    else MaxConfidence(init, id)
  }

  /** The largest area among the sites with the given id. */
  function MaxArea(sites: seq<Site>, id: string): real
    requires id in Ids(sites)
  {
    var init := sites[..|sites| - 1];
    var last := sites[|sites| - 1];
    assert Ids(sites) == Ids(init) + [last.id];
    if id !in Ids(init) then last.area
    else if last.id == id then Max(MaxArea(init, id), last.area)
    else MaxArea(init, id)
  }

  /** The merged site for an id, stated per source list rather than per step:
      a Sentinel-1 site keeps its own fields (the last one with the id), is
      marked 'sentinel-1' when no U-Net site shares the id, and otherwise takes
      the largest confidence and area of all and is marked 'unet-deep-learning';
      a U-Net-only site is the first U-Net site with the id, with the largest
      confidence and area among the U-Net sites with that id. */
  function Expected(sentinel: seq<Site>, unet: seq<Site>, id: string): (s: Site)
    requires id in Ids(sentinel) || id in Ids(unet)
    ensures s.id == id
  {
    if id in Ids(sentinel) then
      var base := LastWith(sentinel, id);
      if id in Ids(unet) then
        base.(confidence := Max(base.confidence, MaxConfidence(unet, id)),
              area := Max(base.area, MaxArea(unet, id)),
              detectionMethod := UnetDeepLearning)
      else
        base.(detectionMethod := Sentinel1)
    else
      FirstWith(unet, id).(confidence := MaxConfidence(unet, id), area := MaxArea(unet, id),
                           detectionMethod := UnetDeepLearning)
  }

  /** What the table holds after the Sentinel-1 loop: it is valid, its keys
      are the ids in first occurrence order, and each entry is the last site
      with its id. */
  ghost predicate SentinelAsExpected(sentinel: seq<Site>) {
    var t := FoldSentinel(Empty, sentinel);
    && t.Valid()
    && t.keys == Dedup(Ids(sentinel))
    && forall k | k in t.entries :: k in Ids(sentinel) && t.entries[k] == Expected(sentinel, [], k)
  }

  /** The Sentinel-1 loop, by induction on the list. */
  lemma {:induction false} FoldSentinelSpec(sentinel: seq<Site>)
    ensures SentinelAsExpected(sentinel)
  {
    if sentinel != [] {
      FoldSentinelSpec(sentinel[..|sentinel| - 1]);
      FoldSentinelStep(sentinel);
    }
  }

  /** The inductive step of `FoldSentinelSpec`: one more Sentinel-1 site. */
  lemma FoldSentinelStep(sentinel: seq<Site>)
    requires sentinel != [] && SentinelAsExpected(sentinel[..|sentinel| - 1])
    ensures SentinelAsExpected(sentinel)
  {
    var init := sentinel[..|sentinel| - 1];
    var last := sentinel[|sentinel| - 1];
    assert sentinel == init + [last];
    var before := FoldSentinel(Empty, init);
    var t := FoldSentinel(Empty, sentinel);
    assert t == AddSentinel(before, last);
    assert Ids(sentinel) == Ids(init) + [last.id];
    assert t.keys == Dedup(Ids(sentinel)) by {
      assert Ids(sentinel)[..|Ids(sentinel)| - 1] == Ids(init);
    }
    assert t.Valid() by {
      assert forall k :: k in t.entries <==> k in before.entries || k == last.id;
    }
    forall k | k in t.entries
      ensures k in Ids(sentinel) && t.entries[k] == Expected(sentinel, [], k)
    {
      SentinelStepEntry(init, last, before, k);
    }
  }

  /** One Sentinel-1 site set: the entry for any id is the last site with it. */
  lemma SentinelStepEntry(init: seq<Site>, x: Site, before: Table, k: string)
    requires forall k' | k' in before.entries :: k' in Ids(init) && before.entries[k'] == Expected(init, [], k')
    requires k in AddSentinel(before, x).entries
    ensures k in Ids(init + [x]) && AddSentinel(before, x).entries[k] == Expected(init + [x], [], k)
  {
    var sentinel := init + [x];
    assert sentinel[..|sentinel| - 1] == init;
    assert Ids(sentinel) == Ids(init) + [x.id];
    if k != x.id {
      assert k in Ids(init);
    }
  }

  /** What the table holds after both loops, stated against the inputs: it is
      valid, its keys are the ids in first-occurrence order, and each entry is
      as `Expected` describes it. */
  ghost predicate MergedAsExpected(sentinel: seq<Site>, unet: seq<Site>) {
    var t := Merged(sentinel, unet);
    && t.Valid()
    && t.keys == Dedup(Ids(sentinel) + Ids(unet))
    && forall k | k in t.entries ::
         (k in Ids(sentinel) || k in Ids(unet)) && t.entries[k] == Expected(sentinel, unet, k)
  }

  /** The U-Net loop, from the table the Sentinel-1 loop left. */
  lemma {:induction false} FoldUnetSpec(sentinel: seq<Site>, unet: seq<Site>)
    ensures MergedAsExpected(sentinel, unet)
  {
    if unet == [] {
      FoldUnetBase(sentinel);
    } else {
      FoldUnetSpec(sentinel, unet[..|unet| - 1]);
      FoldUnetStep(sentinel, unet);
    }
  }

  /** The base case of `FoldUnetSpec`: no U-Net site. */
  lemma FoldUnetBase(sentinel: seq<Site>)
    ensures MergedAsExpected(sentinel, [])
  {
    FoldSentinelSpec(sentinel);
    assert Ids(sentinel) + Ids([]) == Ids(sentinel);
  }

  /** The inductive step of `FoldUnetSpec`: one more U-Net site. */
  lemma FoldUnetStep(sentinel: seq<Site>, unet: seq<Site>)
    requires unet != [] && MergedAsExpected(sentinel, unet[..|unet| - 1])
    ensures MergedAsExpected(sentinel, unet)
  {
    var init, x := unet[..|unet| - 1], unet[|unet| - 1];
    assert unet == init + [x];
    var before := Merged(sentinel, init);
    var t := Merged(sentinel, unet);
    assert t == AddUnet(before, x);
    assert Ids(unet) == Ids(init) + [x.id];
    assert t.keys == Dedup(Ids(sentinel) + Ids(unet)) by {
      var all := Ids(sentinel) + Ids(unet);
      assert all == (Ids(sentinel) + Ids(init)) + [x.id];
      assert all[..|all| - 1] == Ids(sentinel) + Ids(init);
    }
    assert t.Valid() by {
      assert forall k :: k in t.entries <==> k in before.entries || k == x.id;
    }
    forall k | k in t.entries
      ensures (k in Ids(sentinel) || k in Ids(unet)) && t.entries[k] == Expected(sentinel, unet, k)
    {
      UnetStepEntry(sentinel, init, x, before, k);
    }
  }

  /** One U-Net site merged: the entry for any id matches `Expected` for the
      longer list when the entries before it matched it for the shorter one. */
  lemma UnetStepEntry(sentinel: seq<Site>, init: seq<Site>, x: Site, before: Table, k: string)
    requires forall k' | k' in before.entries ::
      (k' in Ids(sentinel) || k' in Ids(init)) && before.entries[k'] == Expected(sentinel, init, k')
    requires forall k' :: k' in before.entries <==> k' in Ids(sentinel) || k' in Ids(init)
    requires k in AddUnet(before, x).entries
    ensures (k in Ids(sentinel) || k in Ids(init + [x]))
      && AddUnet(before, x).entries[k] == Expected(sentinel, init + [x], k)
  {
    var unet := init + [x];
    assert unet[..|unet| - 1] == init;
    assert Ids(unet) == Ids(init) + [x.id];
    if k == x.id {
      if k in before.entries {
        if k in Ids(sentinel) {
          if k in Ids(init) {
            assert MaxConfidence(unet, k) == Max(MaxConfidence(init, k), x.confidence);
            assert MaxArea(unet, k) == Max(MaxArea(init, k), x.area);
          } else {
            assert MaxConfidence(unet, k) == x.confidence;
            assert MaxArea(unet, k) == x.area;
          }
        } else {
          assert FirstWith(unet, k) == FirstWith(init, k);
          assert MaxConfidence(unet, k) == Max(MaxConfidence(init, k), x.confidence);
          assert MaxArea(unet, k) == Max(MaxArea(init, k), x.area);
        }
      } else {
        assert FirstWith(unet, k) == x;
        assert MaxConfidence(unet, k) == x.confidence;
        assert MaxArea(unet, k) == x.area;
      }
    } else {
      assert k in Ids(unet) <==> k in Ids(init);
      if k in Ids(init) {
        assert MaxConfidence(unet, k) == MaxConfidence(init, k);
        assert MaxArea(unet, k) == MaxArea(init, k);
        if k !in Ids(sentinel) {
          assert FirstWith(unet, k) == FirstWith(init, k);
        }
      }
    }
  }

  /** Every key of the merged table has an entry. */
  lemma MergedKeysHaveEntries(sentinel: seq<Site>, unet: seq<Site>)
    ensures forall k | k in Merged(sentinel, unet).keys :: k in Merged(sentinel, unet).entries
  {
    FoldUnetSpec(sentinel, unet);
  }

  /** The merged list: every id of either input exactly once, Sentinel-1 ids
      first in input order, then the U-Net ids not seen before, and each site
      as `Expected` describes it. */
  lemma CombinedSites(sentinel: seq<Site>, unet: seq<Site>)
    ensures var t := Merged(sentinel, unet);
      && (forall k | k in t.keys :: k in t.entries)
      && var r := Values(t);
      && Ids(r) == Dedup(Ids(sentinel) + Ids(unet))
      && Distinct(Ids(r))
      && forall i | 0 <= i < |r| ::
           (r[i].id in Ids(sentinel) || r[i].id in Ids(unet)) && r[i] == Expected(sentinel, unet, r[i].id)
  {
    FoldUnetSpec(sentinel, unet);
    var t := Merged(sentinel, unet);
    var r := Values(t);
    assert forall i | 0 <= i < |r| :: r[i].id == t.keys[i] by {
      forall i | 0 <= i < |r| ensures r[i].id == t.keys[i] {
        assert r[i] == Expected(sentinel, unet, t.keys[i]);
      }
    }
  }

  /** With no repeated id inside the U-Net list, the rule reads per pair of
      sites: a site found by both methods takes the larger confidence and the
      larger area, is marked 'unet-deep-learning', and keeps every other field
      of its Sentinel-1 record; a site found by one method only is that site,
      marked with that method. */
  lemma MergeRule(sentinel: seq<Site>, unet: seq<Site>, id: string)
    requires Distinct(Ids(unet))
    requires id in Ids(sentinel) || id in Ids(unet)
    ensures var e := Expected(sentinel, unet, id);
      && (id in Ids(sentinel) && id !in Ids(unet) ==> e == LastWith(sentinel, id).(detectionMethod := Sentinel1))
      && (id !in Ids(sentinel) && id in Ids(unet) ==> e == FirstWith(unet, id).(detectionMethod := UnetDeepLearning))
      && (id in Ids(sentinel) && id in Ids(unet) ==>
            var s, u := LastWith(sentinel, id), FirstWith(unet, id);
            && e.confidence == Max(s.confidence, u.confidence)
            && e.area == Max(s.area, u.area)
            && e.detectionMethod == UnetDeepLearning
            && e.(confidence := s.confidence, area := s.area, detectionMethod := s.detectionMethod) == s)
  {
    if id in Ids(unet) {
      UniqueIdMaxima(unet, id);
    }
  }

  lemma {:induction false} UniqueIdMaxima(sites: seq<Site>, id: string)
    requires Distinct(Ids(sites)) && id in Ids(sites)
    ensures MaxConfidence(sites, id) == FirstWith(sites, id).confidence
    ensures MaxArea(sites, id) == FirstWith(sites, id).area
  {
    var init := sites[..|sites| - 1];
    var last := sites[|sites| - 1];
    assert Ids(sites) == Ids(init) + [last.id];
    if id in Ids(init) {
      assert last.id != id by {
        var j :| 0 <= j < |init| && Ids(init)[j] == id;
        assert Ids(sites)[j] == id && Ids(sites)[|sites| - 1] == last.id;
      }
      assert Distinct(Ids(init)) by {
        assert forall i | 0 <= i < |init| :: Ids(init)[i] == Ids(sites)[i];
      }
      UniqueIdMaxima(init, id);
    }
  }

  /** `combineDetectionResults`: the two `forEach` loops over the insertion-ordered
      map, then `Array.from(combinedMap.values())`. */
  method CombineDetectionResults(sentinel: seq<Site>, unet: seq<Site>) returns (combined: seq<Site>)
    ensures forall k | k in Merged(sentinel, unet).keys :: k in Merged(sentinel, unet).entries
    ensures combined == Values(Merged(sentinel, unet))
  {
    var t := SentinelPass(sentinel);
    t := UnetPass(t, unet);
    assert t == Merged(sentinel, unet);
    MergedKeysHaveEntries(sentinel, unet);
    combined := MapValues(t);
  }

  /** The first `forEach`: every Sentinel-1 site set under its id. */
  method SentinelPass(sentinel: seq<Site>) returns (t: Table)
    ensures t == FoldSentinel(Empty, sentinel)
  {
    var keys: seq<string> := [];
    var entries: map<string, Site> := map[];
    var i := 0;
    while i < |sentinel|
      invariant 0 <= i <= |sentinel|
      invariant Table(keys, entries) == FoldSentinel(Empty, sentinel[..i])
    {
      assert sentinel[..i + 1][..i] == sentinel[..i];
      var site := sentinel[i];
      if site.id !in entries {
        keys := keys + [site.id];
      }
      entries := entries[site.id := site.(detectionMethod := Sentinel1)];
      i := i + 1;
    }
    assert sentinel[..|sentinel|] == sentinel;
    t := Table(keys, entries);
  }

  /** The second `forEach`: every U-Net site merged into the map. */
  method UnetPass(start: Table, unet: seq<Site>) returns (t: Table)
    ensures t == FoldUnet(start, unet)
  {
    var keys := start.keys;
    var entries := start.entries;
    var j := 0;
    while j < |unet|
      invariant 0 <= j <= |unet|
      invariant Table(keys, entries) == FoldUnet(start, unet[..j])
    {
      assert unet[..j + 1][..j] == unet[..j];
      var site := unet[j];
      if site.id in entries {
        var existing := entries[site.id];
        entries := entries[site.id := existing.(
          confidence := Max(existing.confidence, site.confidence),
          area := Max(existing.area, site.area),
          detectionMethod := UnetDeepLearning)];
      } else {
        entries := entries[site.id := site.(detectionMethod := UnetDeepLearning)];
        keys := keys + [site.id];
      }
      j := j + 1;
    }
    assert unet[..|unet|] == unet;
    t := Table(keys, entries);
  }

  /** The map's values in key insertion order. */
  method MapValues(t: Table) returns (values: seq<Site>)
    requires forall k | k in t.keys :: k in t.entries
    ensures values == Values(t)
  {
    values := [];
    var k := 0;
    while k < |t.keys|
      invariant 0 <= k <= |t.keys|
      invariant |values| == k
      invariant forall m | 0 <= m < k :: values[m] == t.entries[t.keys[m]]
    {
      values := values + [t.entries[t.keys[k]]];
      k := k + 1;
    }
  }

  // ----- applyPostProcessingFilters -----

  /** The area and confidence bounds a site must meet to be kept. */
  predicate Kept(s: Site) {
    !(s.area < MinAreaKm2 || s.area > MaxAreaKm2) && !(s.confidence < 0.5)
  }

  /** The degradation level assigned to a kept site. */
  function Level(area: real, confidence: real): Degradation {
    if area > 5.0 && confidence > 0.8 then High
    else if area > 1.0 && confidence > 0.6 then Medium
    else Low
  }

  function Graded(s: Site): (g: Site)
    ensures Kept(g) == Kept(s) && g.id == s.id && g.area == s.area && g.confidence == s.confidence
  {
    s.(degradation := Level(s.area, s.confidence))
  }

  /** `sites.filter(...)` with the level written into each kept site: only
      sites within the bounds remain, each with its level, and every site
      within the bounds is there. */
  function PostProcess(sites: seq<Site>): (r: seq<Site>)
    ensures |r| <= |sites|
    ensures forall i | 0 <= i < |r| :: Kept(r[i]) && r[i].degradation == Level(r[i].area, r[i].confidence)
  {
    if sites == [] then []
    else (if Kept(sites[0]) then [Graded(sites[0])] else []) + PostProcess(sites[1..])
  }

  /** Every site in the output is an input site, graded; every input site
      within the bounds is in the output, graded. */
  lemma {:induction false} PostProcessMembers(sites: seq<Site>)
    ensures var r := PostProcess(sites);
      && (forall x | x in r :: exists y | y in sites :: x == Graded(y))
      && (forall y | y in sites && Kept(y) :: Graded(y) in r)
  {
    if sites != [] {
      var rest := sites[1..];
      PostProcessMembers(rest);
      assert sites == [sites[0]] + rest;
      var head := if Kept(sites[0]) then [Graded(sites[0])] else [];
      var r := PostProcess(sites);
      assert r == head + PostProcess(rest);
      forall x | x in r ensures exists y | y in sites :: x == Graded(y) {
        if x in head {
          assert x == Graded(sites[0]) && sites[0] in sites;
        } else {
          assert x in PostProcess(rest);
          var y :| y in rest && x == Graded(y);
          assert y in sites;
        }
      }
    }
  }

  /** The filter keeps relative order: it distributes over concatenation. */
  lemma {:induction false} PostProcessAppend(a: seq<Site>, b: seq<Site>)
    ensures PostProcess(a + b) == PostProcess(a) + PostProcess(b)
  {
    if a != [] {
      assert (a + b)[1..] == a[1..] + b;
      PostProcessAppend(a[1..], b);
    } else {
      assert a + b == b;
    }
  }

  /** Filtering an already filtered list changes nothing. */
  lemma {:induction false} PostProcessIdempotent(sites: seq<Site>)
    ensures PostProcess(PostProcess(sites)) == PostProcess(sites)
  {
    if sites != [] {
      PostProcessIdempotent(sites[1..]);
      var head := if Kept(sites[0]) then [Graded(sites[0])] else [];
      PostProcessAppend(head, PostProcess(sites[1..]));
      if Kept(sites[0]) {
        var g := Graded(sites[0]);
        assert Graded(g) == g;
        assert PostProcess([g]) == [g] by {
          assert [g][1..] == [];
        }
      }
    }
  }

  // ----- calculateStatistics -----

  function SumArea(sites: seq<Site>): real {
    if sites == [] then 0.0 else SumArea(sites[..|sites| - 1]) + sites[|sites| - 1].area
  }

  function SumConfidence(sites: seq<Site>): real {
    if sites == [] then 0.0 else SumConfidence(sites[..|sites| - 1]) + sites[|sites| - 1].confidence
  }

  function CountStatus(sites: seq<Site>, st: Status): (n: nat)
    ensures n <= |sites|
  {
    if sites == [] then 0
    else CountStatus(sites[..|sites| - 1], st) + (if sites[|sites| - 1].status == st then 1 else 0)
  }

  /** The statistics; `averageConfidence` is `None` where JavaScript yields NaN (0 / 0). */
  datatype Stats = Stats(
    totalArea: real, activeSites: nat, inactiveSites: nat, rehabilitatedSites: nat,
    averageConfidence: Option<real>)

  function CalculateStatistics(sites: seq<Site>): (st: Stats)
    ensures st.activeSites + st.inactiveSites + st.rehabilitatedSites == |sites|
    ensures st.totalArea == SumArea(sites)
    ensures st.averageConfidence.None? <==> sites == []
    ensures sites != [] ==> st.averageConfidence.value * (|sites| as real) == SumConfidence(sites)
    ensures st.activeSites == CountStatus(sites, Active)
    ensures st.inactiveSites == CountStatus(sites, Inactive)
    ensures st.rehabilitatedSites == CountStatus(sites, Rehabilitated)
  {
    StatusCountsPartition(sites);
    Stats(SumArea(sites), CountStatus(sites, Active), CountStatus(sites, Inactive),
          CountStatus(sites, Rehabilitated),
          if sites == [] then None else Some(SumConfidence(sites) / (|sites| as real)))
  }

  lemma {:induction false} StatusCountsPartition(sites: seq<Site>)
    ensures CountStatus(sites, Active) + CountStatus(sites, Inactive) + CountStatus(sites, Rehabilitated) == |sites|
  {
    if sites != [] {
      StatusCountsPartition(sites[..|sites| - 1]);
    }
  }

  /** The positions of `sites` holding a site of status `st`. */
  function StatusPositions(sites: seq<Site>, st: Status): (ps: set<int>)
    ensures forall i :: i in ps <==> 0 <= i < |sites| && sites[i].status == st
  {
    set i | 0 <= i < |sites| && sites[i].status == st
  }

  /** A status count is the number of positions holding a site of that status. */
  lemma {:induction false} CountStatusPositions(sites: seq<Site>, st: Status)
    ensures CountStatus(sites, st) == |StatusPositions(sites, st)|
  {
    if sites != [] {
      var n := |sites| - 1;
      CountStatusPositions(sites[..n], st);
      var before := StatusPositions(sites[..n], st);
      if sites[n].status == st {
        assert StatusPositions(sites, st) == before + {n};
      } else {
        assert StatusPositions(sites, st) == before;
      }
    }
  }

  /** The average confidence of kept sites lies between 0.5 and the largest
      confidence present, and the total area between the area bounds times the count. */
  lemma {:induction false} KeptSiteBounds(sites: seq<Site>, top: real)
    requires forall i | 0 <= i < |sites| :: Kept(sites[i]) && sites[i].confidence <= top
    ensures 0.5 * (|sites| as real) <= SumConfidence(sites) <= top * (|sites| as real)
    ensures MinAreaKm2 * (|sites| as real) <= SumArea(sites) <= MaxAreaKm2 * (|sites| as real)
  {
    if sites != [] {
      KeptSiteBounds(sites[..|sites| - 1], top);
    }
  }

  // ----- detectGalamseySites -----

  datatype DetectionResult = DetectionResult(
    sites: seq<Site>, totalArea: real, activeSites: nat, inactiveSites: nat,
    rehabilitatedSites: nat, averageConfidence: Option<real>, lastProcessed: string)

  /** The whole pipeline on two lists; `now` is the ISO time stamp of the run. */
  function Pipeline(sentinel: seq<Site>, unet: seq<Site>, now: string): DetectionResult {
    MergedKeysHaveEntries(sentinel, unet);
    var sites := PostProcess(Values(Merged(sentinel, unet)));
    var st := CalculateStatistics(sites);
    DetectionResult(sites, st.totalArea, st.activeSites, st.inactiveSites, st.rehabilitatedSites,
                    st.averageConfidence, now)
  }

  function MockSentinel1(): seq<Site> {
    [ Site("sentinel_1", "Tarkwa Mining Complex", 5.3, -1.9, Active, LargeSite, "2024-01-15", "Western",
           0.85, 12.5, High, None, Sentinel1),
      Site("sentinel_2", "Obuasi Gold Fields", 6.2, -1.7, Active, MediumSite, "2024-01-10", "Ashanti",
           0.78, 8.2, High, None, Sentinel1) ]
  }

  function MockUNet(): seq<Site> {
    [ Site("unet_1", "Prestea Mining Area", 5.4, -2.1, Inactive, SmallSite, "2023-12-20", "Western",
           0.92, 2.1, Medium, None, UnetDeepLearning),
      Site("unet_2", "Konongo Gold Mine", 6.6, -1.2, Rehabilitated, MediumSite, "2024-01-05", "Ashanti",
           0.88, 4.7, Low, None, UnetDeepLearning),
      Site("unet_3", "Dunkwa Mining District", 5.9, -1.8, Active, LargeSite, "2024-01-12", "Central",
           0.95, 15.3, High, None, UnetDeepLearning) ]
  }

  /** `detectGalamseySites(region)`: the region argument is not used; the
      pipeline runs over the two built-in lists. */
  method DetectGalamseySites(region: Option<string>, now: string) returns (r: DetectionResult)
    ensures r == Pipeline(MockSentinel1(), MockUNet(), now)
  {
    var sentinelResults := MockSentinel1();
    var unetResults := MockUNet();
    var combinedSites := CombineDetectionResults(sentinelResults, unetResults);
    var filteredSites := PostProcess(combinedSites);
    var stats := CalculateStatistics(filteredSites);
    r := DetectionResult(filteredSites, stats.totalArea, stats.activeSites, stats.inactiveSites,
                         stats.rehabilitatedSites, stats.averageConfidence, now);
  }

  /** Setting a new key appends its value to the map's values. */
  lemma ValuesAppend(t: Table, k: string, x: Site)
    requires forall k' | k' in t.keys :: k' in t.entries
    requires k !in t.entries
    ensures var t' := Table(t.keys + [k], t.entries[k := x]);
      (forall k' | k' in t'.keys :: k' in t'.entries) && Values(t') == Values(t) + [x]
  {
    var t' := Table(t.keys + [k], t.entries[k := x]);
    assert forall i | 0 <= i < |t.keys| :: t.keys[i] in t.keys;
  }

  /** Sentinel-1 sites with ids new to the table and to each other, already
      marked 'sentinel-1', are appended to the values unchanged and in order. */
  lemma {:induction false} SentinelPassThrough(t: Table, sites: seq<Site>)
    requires forall k | k in t.keys :: k in t.entries
    requires forall i | 0 <= i < |sites| :: sites[i].detectionMethod == Sentinel1 && sites[i].id !in t.entries
    requires Distinct(Ids(sites))
    ensures var r := FoldSentinel(t, sites);
      && (forall k | k in r.keys :: k in r.entries)
      && (forall k | k in r.entries :: k in t.entries || k in Ids(sites))
      && Values(r) == Values(t) + sites
  {
    if sites != [] {
      var init, x := sites[..|sites| - 1], sites[|sites| - 1];
      assert sites == init + [x];
      assert Ids(sites) == Ids(init) + [x.id];
      assert x.id !in Ids(init) by {
        assert forall i | 0 <= i < |init| :: Ids(init)[i] == Ids(sites)[i];
      }
      SentinelPassThrough(t, init);
      assert x.(detectionMethod := Sentinel1) == x;
      ValuesAppend(FoldSentinel(t, init), x.id, x);
      assert Values(t) + sites == (Values(t) + init) + [x];
    }
  }

  /** U-Net sites with ids new to the table and to each other, already marked
      'unet-deep-learning', are appended to the values unchanged and in order. */
  lemma {:induction false} UnetPassThrough(t: Table, sites: seq<Site>)
    requires forall k | k in t.keys :: k in t.entries
    requires forall i | 0 <= i < |sites| :: sites[i].detectionMethod == UnetDeepLearning && sites[i].id !in t.entries
    requires Distinct(Ids(sites))
    ensures var r := FoldUnet(t, sites);
      && (forall k | k in r.keys :: k in r.entries)
      && (forall k | k in r.entries :: k in t.entries || k in Ids(sites))
      && Values(r) == Values(t) + sites
  {
    if sites != [] {
      var init, x := sites[..|sites| - 1], sites[|sites| - 1];
      assert sites == init + [x];
      assert Ids(sites) == Ids(init) + [x.id];
      assert x.id !in Ids(init) by {
        assert forall i | 0 <= i < |init| :: Ids(init)[i] == Ids(sites)[i];
      }
      UnetPassThrough(t, init);
      assert x.(detectionMethod := UnetDeepLearning) == x;
      ValuesAppend(FoldUnet(t, init), x.id, x);
      assert Values(t) + sites == (Values(t) + init) + [x];
    }
  }

  /** Ids distinct across two lists are distinct within each and never shared. */
  lemma DistinctParts(a: seq<string>, b: seq<string>)
    requires Distinct(a + b)
    ensures Distinct(a) && Distinct(b)
    ensures forall i | 0 <= i < |b| :: b[i] !in a
  {
    var all := a + b;
    assert forall i | 0 <= i < |a| :: a[i] == all[i];
    assert forall i | 0 <= i < |b| :: b[i] == all[|a| + i];
  }

  /** When no id repeats across both lists and every site already carries its
      list's method, the merge is the Sentinel-1 sites followed by the U-Net
      sites, unchanged. */
  lemma DisjointMerge(sentinel: seq<Site>, unet: seq<Site>)
    requires forall i | 0 <= i < |sentinel| :: sentinel[i].detectionMethod == Sentinel1
    requires forall i | 0 <= i < |unet| :: unet[i].detectionMethod == UnetDeepLearning
    requires Distinct(Ids(sentinel) + Ids(unet))
    ensures var t := Merged(sentinel, unet);
      (forall k | k in t.keys :: k in t.entries) && Values(t) == sentinel + unet
  {
    DistinctParts(Ids(sentinel), Ids(unet));
    SentinelPassThrough(Empty, sentinel);
    var t := FoldSentinel(Empty, sentinel);
    assert Values(t) == sentinel by {
      assert Values(Empty) == [];
    }
    UnetPassThrough(t, unet);
  }

  /** On the built-in lists no id is shared, so the merge is the five sites in
      input order. */
  lemma MockMerge()
    ensures forall k | k in Merged(MockSentinel1(), MockUNet()).keys :: k in Merged(MockSentinel1(), MockUNet()).entries
    ensures var s, u := MockSentinel1(), MockUNet();
      Values(Merged(s, u)) == [s[0], s[1], u[0], u[1], u[2]]
  {
    MockIdsDistinct();
    DisjointMerge(MockSentinel1(), MockUNet());
  }

  /** The five built-in ids are all different. */
  lemma MockIdsDistinct()
    ensures Distinct(Ids(MockSentinel1()) + Ids(MockUNet()))
  {
    var ids := Ids(MockSentinel1()) + Ids(MockUNet());
    assert ids == ["sentinel_1", "sentinel_2", "unet_1", "unet_2", "unet_3"];
  }

  /** Every built-in site passes the filter. */
  lemma MockFilter()
    ensures var s, u := MockSentinel1(), MockUNet();
      PostProcess([s[0], s[1], u[0], u[1], u[2]])
        == [Graded(s[0]), Graded(s[1]), Graded(u[0]), Graded(u[1]), Graded(u[2])]
  {
    var s, u := MockSentinel1(), MockUNet();
    assert Kept(s[0]) && Kept(s[1]) && Kept(u[0]) && Kept(u[1]) && Kept(u[2]);
    assert PostProcess([u[2]]) == [Graded(u[2])] by { assert [u[2]][1..] == []; }
    assert PostProcess([u[1], u[2]]) == [Graded(u[1]), Graded(u[2])] by {
      assert [u[1], u[2]][1..] == [u[2]];
    }
    assert PostProcess([u[0], u[1], u[2]]) == [Graded(u[0]), Graded(u[1]), Graded(u[2])] by {
      assert [u[0], u[1], u[2]][1..] == [u[1], u[2]];
    }
    assert PostProcess([s[1], u[0], u[1], u[2]])
        == [Graded(s[1]), Graded(u[0]), Graded(u[1]), Graded(u[2])] by {
      assert [s[1], u[0], u[1], u[2]][1..] == [u[0], u[1], u[2]];
    }
    assert [s[0], s[1], u[0], u[1], u[2]][1..] == [s[1], u[0], u[1], u[2]];
  }

  /** On the built-in lists the run keeps the five merged sites, graded. */
  lemma MockSites(now: string)
    ensures var s, u := MockSentinel1(), MockUNet();
      Pipeline(s, u, now).sites == [Graded(s[0]), Graded(s[1]), Graded(u[0]), Graded(u[1]), Graded(u[2])]
  {
    MockMerge();
    MockFilter();
  }

  /** Counting statuses over a five-site list. */
  lemma CountFive(sites: seq<Site>, st: Status)
    requires |sites| == 5
    ensures CountStatus(sites, st)
      == (if sites[0].status == st then 1 else 0) + (if sites[1].status == st then 1 else 0)
       + (if sites[2].status == st then 1 else 0) + (if sites[3].status == st then 1 else 0)
       + (if sites[4].status == st then 1 else 0)
  {
    assert sites[..4][..3] == sites[..3];
    assert sites[..3][..2] == sites[..2];
    assert sites[..2][..1] == sites[..1];
    assert sites[..1][..0] == [];
    assert CountStatus(sites[..1], st) == (if sites[0].status == st then 1 else 0);
    assert CountStatus(sites[..2], st) == CountStatus(sites[..1], st) + (if sites[1].status == st then 1 else 0);
    assert CountStatus(sites[..3], st) == CountStatus(sites[..2], st) + (if sites[2].status == st then 1 else 0);
    assert CountStatus(sites[..4], st) == CountStatus(sites[..3], st) + (if sites[3].status == st then 1 else 0);
  }

  /** On the built-in lists the run yields five sites, three active, one
      inactive and one rehabilitated, graded high, medium, medium, medium, high. */
  lemma MockRun(now: string)
    ensures var r := Pipeline(MockSentinel1(), MockUNet(), now);
      && Ids(r.sites) == ["sentinel_1", "sentinel_2", "unet_1", "unet_2", "unet_3"]
      && r.activeSites == 3 && r.inactiveSites == 1 && r.rehabilitatedSites == 1
      && seq(5, i requires 0 <= i < 5 => r.sites[i].degradation) == [High, Medium, Medium, Medium, High]
  {
    MockGrades(now);
    MockCounts(now);
  }

  /** The ids and grades of the built-in run. */
  lemma MockGrades(now: string)
    ensures var r := Pipeline(MockSentinel1(), MockUNet(), now);
      && Ids(r.sites) == ["sentinel_1", "sentinel_2", "unet_1", "unet_2", "unet_3"]
      && seq(5, i requires 0 <= i < 5 => r.sites[i].degradation) == [High, Medium, Medium, Medium, High]
  {
    MockSites(now);
  }

  /** The status counts of the built-in run. */
  lemma MockCounts(now: string)
    ensures var r := Pipeline(MockSentinel1(), MockUNet(), now);
      r.activeSites == 3 && r.inactiveSites == 1 && r.rehabilitatedSites == 1
  {
    var s, u := MockSentinel1(), MockUNet();
    var sites := [Graded(s[0]), Graded(s[1]), Graded(u[0]), Graded(u[1]), Graded(u[2])];
    MockSites(now);
    CountFive(sites, Active);
    CountFive(sites, Inactive);
    CountFive(sites, Rehabilitated);
  }
}
