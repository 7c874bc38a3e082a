/** collectors.models.restapi.APIInfoObject: the offered API of a service, one
    OfferDescription per package, merged as offers arrive. */
module ApiInfo {
  import opened Common
  import opened Http
  import opened PathMaps
  import opened Offers

  /** A possibly null path map, read as an empty map when null. */
  function ContentOf(m: Option<PathMap<HttpMethod>>): PathMap<HttpMethod>
  {
    if m.Some? then m.value else map[]
  }

  /** joinPathToMethods: when one side is null or empty the other side is returned as it is;
      otherwise a fresh map with every path of either side and, per path, the union of the
      verbs. */
  function JoinPathToMethods(m1: Option<PathMap<HttpMethod>>, m2: Option<PathMap<HttpMethod>>)
    : (r: Option<PathMap<HttpMethod>>)
    ensures r == m1 || r == m2 || (m1.Some? && m2.Some? && r == Some(Union(m1.value, m2.value)))
  {
    if m1.None? || m1.value == map[] then m2
    else if m2.None? || m2.value == map[] then m1
    else Some(Union(m1.value, m2.value))
  }

  /** Whatever the branch, the joined content is the key-wise union of the two contents. */
  lemma JoinContent(m1: Option<PathMap<HttpMethod>>, m2: Option<PathMap<HttpMethod>>)
    ensures ContentOf(JoinPathToMethods(m1, m2)) == Union(ContentOf(m1), ContentOf(m2))
  {
    if m1.None? || m1.value == map[] {
      assert ContentOf(m1) == map[];
      UnionEmpty(ContentOf(m2));
    } else if m2.None? || m2.value == map[] {
      assert ContentOf(m2) == map[];
      UnionEmpty(ContentOf(m1));
    }
  }

  /** The joined content does not depend on the order of the arguments. */
  lemma JoinCommutative(m1: Option<PathMap<HttpMethod>>, m2: Option<PathMap<HttpMethod>>)
    ensures ContentOf(JoinPathToMethods(m1, m2)) == ContentOf(JoinPathToMethods(m2, m1))
  {
    JoinContent(m1, m2);
    JoinContent(m2, m1);
    UnionCommutative(ContentOf(m1), ContentOf(m2));
  }

  /** Joining a map with itself gives it back. */
  lemma JoinIdempotent(m: Option<PathMap<HttpMethod>>)
    ensures JoinPathToMethods(m, m) == m
  {
    if m.Some? {
      UnionIdempotent(m.value);
    }
  }

  /** An offer as a value: its package and its (possibly null) mappings. */
  datatype Entry = Entry(packageName: string, mappings: Option<PathMap<HttpMethod>>)

  /** The values currently held by a list of offers. */
  function EntriesOf(offers: seq<OfferDescription>): (es: seq<Entry>)
    reads offers
    ensures |es| == |offers|
    ensures forall i :: 0 <= i < |offers| ==> es[i] == Entry(offers[i].packageName, offers[i].mappings)
  {
    seq(|offers|, i requires 0 <= i < |offers| reads offers => Entry(offers[i].packageName, offers[i].mappings))
  }

  /** The package names of a list of offers. */
  function Names(es: seq<Entry>): (ns: seq<string>)
    ensures |ns| == |es| && forall i :: 0 <= i < |es| ==> ns[i] == es[i].packageName
  {
    seq(|es|, i requires 0 <= i < |es| => es[i].packageName)
  }

  lemma NamesSnoc(es: seq<Entry>, e: Entry)
    ensures Names(es + [e]) == Names(es) + [e.packageName]
  {
  }

  /** The package names after adding those of xs one by one, each new name at the end. */
  function AddNames(ns: seq<string>, xs: seq<string>): seq<string>
    decreases |xs|
  {
    if xs == [] then ns else AddNames(if xs[0] in ns then ns else ns + [xs[0]], xs[1..])
  }

  lemma {:induction false} AddNamesSnoc(ns: seq<string>, xs: seq<string>, x: string)
    ensures AddNames(ns, xs + [x]) == var r := AddNames(ns, xs); if x in r then r else r + [x]
    decreases |xs|
  {
    if xs == [] {
      assert xs + [x] == [x];
      assert AddNames(ns, [x]) == AddNames(if x in ns then ns else ns + [x], []);
    } else {
      assert (xs + [x])[1..] == xs[1..] + [x];
      AddNamesSnoc(if xs[0] in ns then ns else ns + [xs[0]], xs[1..], x);
    }
  }

  /** A name is present afterwards iff it was before or is added, and no name is doubled. */
  lemma {:induction false} AddNamesHas(ns: seq<string>, xs: seq<string>, p: string)
    ensures p in AddNames(ns, xs) <==> p in ns || p in xs
    ensures Distinct(ns) ==> Distinct(AddNames(ns, xs))
    decreases |xs|
  {
    if xs != [] {
      var ns' := if xs[0] in ns then ns else ns + [xs[0]];
      AddNamesHas(ns', xs[1..], p);
      assert xs == [xs[0]] + xs[1..];
    }
  }

  predicate Distinct(ns: seq<string>)
  {
    forall i, j :: 0 <= i < j < |ns| ==> ns[i] != ns[j]
  }

  /** addOffer on values: the first entry of the same package gets the offer's mappings
      joined in; without one, the offer is appended. */
  function AddEntry(es: seq<Entry>, e: Entry): seq<Entry>
  {
    var k := IndexOf(Names(es), e.packageName);
    if k == -1 then es + [e]
    else es[k := Entry(es[k].packageName, JoinPathToMethods(es[k].mappings, e.mappings))]
  }

  /** addOffers on values: addOffer, left to right. */
  function AddEntries(es: seq<Entry>, news: seq<Entry>): seq<Entry>
    decreases |news|
  {
    if news == [] then es else AddEntries(AddEntry(es, news[0]), news[1..])
  }

  /** The content recorded for a package: that of its first entry, or nothing. */
  function ContentFor(es: seq<Entry>, p: string): PathMap<HttpMethod>
  {
    var k := IndexOf(Names(es), p);
    if k == -1 then map[] else ContentOf(es[k].mappings)
  }

  /** Adding keeps every package once: the list grows exactly when the package is new. */
  lemma AddEntryShape(es: seq<Entry>, e: Entry)
    requires Distinct(Names(es))
    ensures Distinct(Names(AddEntry(es, e)))
    ensures Names(AddEntry(es, e)) == if e.packageName in Names(es) then Names(es) else Names(es) + [e.packageName]
  {
    var r := AddEntry(es, e);
    if e.packageName in Names(es) {
      assert Names(r) == Names(es);
    } else {
      assert Names(r) == Names(es) + [e.packageName];
    }
  }

  /** Adding an offer unions its mappings into its package's content and leaves every other
      package's content alone. */
  lemma AddEntryContent(es: seq<Entry>, e: Entry, p: string)
    requires Distinct(Names(es))
    ensures ContentFor(AddEntry(es, e), p)
         == if p == e.packageName then Union(ContentFor(es, p), ContentOf(e.mappings)) else ContentFor(es, p)
  {
    var r := AddEntry(es, e);
    AddEntryShape(es, e);
    var k := IndexOf(Names(es), e.packageName);
    var j := IndexOf(Names(es), p);
    if k == -1 {
      assert Names(r) == Names(es) + [e.packageName];
      if p == e.packageName {
        assert IndexOf(Names(r), p) == |es|;
        UnionEmpty(ContentOf(e.mappings));
      } else if j != -1 {
        assert IndexOf(Names(r), p) == j;
      } else {
        assert p !in Names(r);
      }
    } else {
      assert Names(r) == Names(es);
      if p == e.packageName {
        JoinContent(es[k].mappings, e.mappings);
      }
    }
  }

  /** Folding addOffer keeps every package once and only ever adds packages. */
  lemma AddEntriesShape(es: seq<Entry>, news: seq<Entry>)
    requires Distinct(Names(es))
    ensures Distinct(Names(AddEntries(es, news)))
    ensures Names(es) <= Names(AddEntries(es, news))
    ensures forall p :: p in Names(AddEntries(es, news)) <==> p in Names(es) || p in Names(news)
  {
    AddEntriesDistinct(es, news);
    AddEntriesNames(es, news);
  }

  lemma {:induction false} AddEntriesDistinct(es: seq<Entry>, news: seq<Entry>)
    requires Distinct(Names(es))
    ensures Distinct(Names(AddEntries(es, news)))
    ensures Names(es) <= Names(AddEntries(es, news))
    decreases |news|
  {
    if news != [] {
      var es' := AddEntry(es, news[0]);
      assert AddEntries(es, news) == AddEntries(es', news[1..]);
      AddEntryShape(es, news[0]);
      AddEntriesDistinct(es', news[1..]);
    }
  }

  lemma AddEntriesNames(es: seq<Entry>, news: seq<Entry>)
    requires Distinct(Names(es))
    ensures forall p :: p in Names(AddEntries(es, news)) <==> p in Names(es) || p in Names(news)
  {
    forall p
      ensures p in Names(AddEntries(es, news)) <==> p in Names(es) || p in Names(news)
    {
      AddEntriesHas(es, news, p);
    }
  }

  lemma {:induction false} AddEntriesHas(es: seq<Entry>, news: seq<Entry>, p: string)
    requires Distinct(Names(es))
    ensures p in Names(AddEntries(es, news)) <==> p in Names(es) || p in Names(news)
    decreases |news|
  {
    if news != [] {
      var n := news[0].packageName;
      var es' := AddEntry(es, news[0]);
      assert AddEntries(es, news) == AddEntries(es', news[1..]);
      AddEntryShape(es, news[0]);
      AddEntriesHas(es', news[1..], p);
      if n !in Names(es) {
        assert p in Names(es) + [n] <==> p in Names(es) || p == n;
      }
      assert Names(news) == [n] + Names(news[1..]);
    }
  }

  /** addOffers on values, one offer more: the last offer is added after the others. */
  lemma {:induction false} AddEntriesSnoc(es: seq<Entry>, news: seq<Entry>, e: Entry)
    ensures AddEntries(es, news + [e]) == AddEntry(AddEntries(es, news), e)
    decreases |news|
  {
    if news == [] {
      assert news + [e] == [e];
      assert AddEntries(es, [e]) == AddEntries(AddEntry(es, e), []);
    } else {
      assert (news + [e])[1..] == news[1..] + [e];
      AddEntriesSnoc(AddEntry(es, news[0]), news[1..], e);
    }
  }

  /** The mappings the entries of package p among news bring, united in list order. */
  function Gathered(news: seq<Entry>, p: string): PathMap<HttpMethod>
    decreases |news|
  {
    if news == [] then map[]
    else Union(BroughtBy(news[0], p), Gathered(news[1..], p))
  }

  /** The mappings entry e brings to package p. */
  function BroughtBy(e: Entry, p: string): PathMap<HttpMethod>
  {
    if e.packageName == p then ContentOf(e.mappings) else map[]
  }

  /** Entry e is of package p and maps path q. */
  predicate MapsPath(e: Entry, p: string, q: string)
  {
    e.packageName == p && q in ContentOf(e.mappings)
  }

  /** Entry e is of package p and maps path q to verb v. */
  predicate MapsVerb(e: Entry, p: string, q: string, v: HttpMethod)
  {
    e.packageName == p && v in At(ContentOf(e.mappings), q)
  }

  /** A path is gathered for p iff some entry of package p maps it. */
  lemma {:induction false} GatheredKeys(news: seq<Entry>, p: string, q: string)
    ensures q in Gathered(news, p) <==> exists i :: 0 <= i < |news| && MapsPath(news[i], p, q)
    decreases |news|
  {
    if news != [] {
      var rest := news[1..];
      GatheredKeys(rest, p, q);
      assert q in BroughtBy(news[0], p) <==> MapsPath(news[0], p, q);
      if q in Gathered(rest, p) {
        var i :| 0 <= i < |rest| && MapsPath(rest[i], p, q);
        assert news[i + 1] == rest[i];
      }
      if exists i :: 1 <= i < |news| && MapsPath(news[i], p, q) {
        var i :| 1 <= i < |news| && MapsPath(news[i], p, q);
        assert rest[i - 1] == news[i];
      }
    }
  }

  /** A verb is gathered under path q for p iff some entry of package p maps q to it. */
  lemma {:induction false} GatheredVerbs(news: seq<Entry>, p: string, q: string, v: HttpMethod)
    ensures v in At(Gathered(news, p), q) <==> exists i :: 0 <= i < |news| && MapsVerb(news[i], p, q, v)
    decreases |news|
  {
    if news != [] {
      var rest := news[1..];
      GatheredVerbs(rest, p, q, v);
      assert At(Gathered(news, p), q) == At(BroughtBy(news[0], p), q) + At(Gathered(rest, p), q);
      assert v in At(BroughtBy(news[0], p), q) <==> MapsVerb(news[0], p, q, v);
      if v in At(Gathered(rest, p), q) {
        var i :| 0 <= i < |rest| && MapsVerb(rest[i], p, q, v);
        assert news[i + 1] == rest[i];
      }
      if exists i :: 1 <= i < |news| && MapsVerb(news[i], p, q, v) {
        var i :| 1 <= i < |news| && MapsVerb(news[i], p, q, v);
        assert rest[i - 1] == news[i];
      }
    }
  }

  /** addOffers on values: each package ends up with its old content united with the
      mappings of every added entry of that package. */
  lemma {:induction false} AddEntriesContent(es: seq<Entry>, news: seq<Entry>, p: string)
    requires Distinct(Names(es))
    ensures ContentFor(AddEntries(es, news), p) == Union(ContentFor(es, p), Gathered(news, p))
    decreases |news|
  {
    if news == [] {
      UnionEmpty(ContentFor(es, p));
    } else {
      var es' := AddEntry(es, news[0]);
      assert AddEntries(es, news) == AddEntries(es', news[1..]);
      AddEntryShape(es, news[0]);
      AddEntryContent(es, news[0], p);
      AddEntriesContent(es', news[1..], p);
      var x := BroughtBy(news[0], p);
      if news[0].packageName != p {
        UnionEmpty(ContentFor(es, p));
      }
      assert ContentFor(es', p) == Union(ContentFor(es, p), x);
      UnionAssociative(ContentFor(es, p), x, Gathered(news[1..], p));
    }
  }

  /** The offers to add are objects of their own: none is already in the list and none
      occurs twice, so adding one offer never changes an offer still to come. */
  predicate Separate(api: seq<OfferDescription>, offers: seq<OfferDescription>)
  {
    (forall i :: 0 <= i < |offers| ==> offers[i] !in api)
    && forall i, j :: 0 <= i < j < |offers| ==> offers[i] != offers[j]
  }

  /** The class itself. */
  class APIInfoObject {
    var microserviceName: string
    var api: seq<OfferDescription>

    constructor (name: string)
      ensures microserviceName == name && api == []
    {
      microserviceName := name;
      api := [];
    }

    /** At most one offer per package name. */
    predicate UniquePackages()
      reads this, api
    {
      Distinct(Names(EntriesOf(api)))
    }

    /** addOffer: the first offer of the same package gets the new offer's mappings joined in
        and nothing else changes; without one, the offer object is appended. */
    method AddOffer(offer: OfferDescription)
      modifies this, api
      ensures microserviceName == old(microserviceName)
      ensures var k := IndexOf(Names(old(EntriesOf(api))), offer.packageName);
        if k == -1 then
          api == old(api) + [offer] && forall o :: o in old(api) ==> o.mappings == old(o.mappings)
        else
          api == old(api)
          && api[k].mappings == old(JoinPathToMethods(api[k].mappings, offer.mappings))
          && forall o :: o in api && o != api[k] ==> o.mappings == old(o.mappings)
      ensures Names(EntriesOf(api)) == var ns := Names(old(EntriesOf(api)));
        if offer.packageName in ns then ns else ns + [offer.packageName]
      ensures old(UniquePackages()) ==> UniquePackages()
      ensures old(UniquePackages()) && offer !in old(api)
          ==> EntriesOf(api) == AddEntry(old(EntriesOf(api)), Entry(offer.packageName, old(offer.mappings)))
    {
      ghost var names := Names(EntriesOf(api));
      ghost var eb := EntriesOf(api);
      ghost var e := Entry(offer.packageName, offer.mappings);
      if |api| == 0 {
        api := [offer];
        AppendedEntry(eb, e);
        return;
      }
      // the for-each loop stops at the first offer of the same package
      var i := 0;
      while i < |api| && api[i].packageName != offer.packageName
        invariant 0 <= i <= |api|
        invariant forall j :: 0 <= j < i ==> names[j] != offer.packageName
      {
        i := i + 1;
      }
      if i < |api| {
        assert IndexOf(names, offer.packageName) == i by {
          assert names[i] == offer.packageName;
        }
        var current := api[i];
        current.mappings := JoinPathToMethods(current.mappings, offer.mappings);
        assert Names(EntriesOf(api)) == names;
        if Distinct(names) && offer !in old(api) {
          assert EntriesOf(api)[i] == Entry(eb[i].packageName, JoinPathToMethods(eb[i].mappings, e.mappings));
          forall j | 0 <= j < |eb| && j != i
            ensures EntriesOf(api)[j] == eb[j]
          {
            assert names[j] != names[i];
          }
          FoundEntries(eb, e, i, EntriesOf(api));
        }
      } else {
        assert offer.packageName !in names;
        api := api + [offer];
        assert Names(EntriesOf(api)) == names + [offer.packageName];
        AppendedEntry(eb, e);
        assert EntriesOf(api) == eb + [e];
      }
    }

    /** addOffers: addOffer for each offer, in list order. The list only grows, every
        package of either list is present afterwards and uniqueness of packages is kept; for
        offers that are objects of their own, the resulting values are AddEntries of the old
        ones. */
    method AddOffers(offers: seq<OfferDescription>)
      modifies this, api, offers
      ensures microserviceName == old(microserviceName)
      ensures old(api) <= api && |api| <= |old(api)| + |offers|
      ensures forall o :: o in api ==> o in old(api) || o in offers
      ensures forall p :: p in Names(EntriesOf(api)) <==> p in Names(old(EntriesOf(api))) || p in Names(old(EntriesOf(offers)))
      ensures old(UniquePackages()) ==> UniquePackages()
      ensures old(UniquePackages()) && Separate(old(api), offers)
          ==> EntriesOf(api) == AddEntries(old(EntriesOf(api)), old(EntriesOf(offers)))
    {
      ghost var e0 := EntriesOf(api);
      ghost var news := EntriesOf(offers);
      ghost var sep := UniquePackages() && Separate(api, offers);
      ghost var done: seq<Entry> := [];
      var i := 0;
      while i < |offers|
        invariant 0 <= i <= |offers| && done == news[..i]
        invariant microserviceName == old(microserviceName)
        invariant old(api) <= api && |api| <= |old(api)| + i
        invariant forall j :: 0 <= j < |api| ==> api[j] in old(api) || api[j] in offers
        invariant Names(EntriesOf(api)) == AddNames(Names(e0), Names(done))
        invariant old(UniquePackages()) ==> UniquePackages()
        invariant sep ==> UniquePackages()
        invariant sep ==> forall j :: i <= j < |offers| ==> news[j] == Entry(offers[j].packageName, offers[j].mappings)
        invariant sep ==> forall j :: i <= j < |offers| ==> offers[j] !in api
        invariant sep ==> EntriesOf(api) == AddEntries(e0, done)
      {
        AddNext(offers, i, e0, news, done, sep, old(api));
        PrefixSnoc(news, i);
        done := done + [news[i]];
        i := i + 1;
      }
      WholePrefix(news);
      forall p
        ensures p in Names(EntriesOf(api)) <==> p in Names(e0) || p in Names(news)
      {
        AddNamesHas(Names(e0), Names(news), p);
      }
    }

    /** One turn of the addOffers loop: addOffer(offers[i]), with the loop's bookkeeping. */
    method AddNext(offers: seq<OfferDescription>, i: nat, ghost e0: seq<Entry>, ghost news: seq<Entry>,
                   ghost done: seq<Entry>, ghost sep: bool, ghost start: seq<OfferDescription>)
      requires i < |offers| == |news| && news[i].packageName == offers[i].packageName
      requires forall j :: 0 <= j < |api| ==> api[j] in start || api[j] in offers
      requires Names(EntriesOf(api)) == AddNames(Names(e0), Names(done))
      requires sep ==> UniquePackages()
      requires sep ==> forall j :: i <= j < |offers| ==> news[j] == Entry(offers[j].packageName, offers[j].mappings)
      requires sep ==> forall j :: i <= j < |offers| ==> offers[j] !in api
      requires sep ==> EntriesOf(api) == AddEntries(e0, done)
      requires sep ==> forall j, m :: 0 <= j < m < |offers| ==> offers[j] != offers[m]
      modifies this, api
      ensures microserviceName == old(microserviceName)
      ensures old(api) <= api && |api| <= |old(api)| + 1
      ensures forall j :: 0 <= j < |api| ==> api[j] in start || api[j] in offers
      ensures Names(EntriesOf(api)) == AddNames(Names(e0), Names(done + [news[i]]))
      ensures old(UniquePackages()) ==> UniquePackages()
      ensures sep ==> forall j :: i < j < |offers| ==> news[j] == Entry(offers[j].packageName, offers[j].mappings)
      ensures sep ==> forall j :: i < j < |offers| ==> offers[j] !in api
      ensures sep ==> EntriesOf(api) == AddEntries(e0, done + [news[i]])
    {
      ghost var before := api;
      ghost var eb := EntriesOf(api);
      assert sep ==> Entry(offers[i].packageName, offers[i].mappings) == news[i] && offers[i] !in api;
      AddOffer(offers[i]);
      assert api == before || api == before + [offers[i]];
      if api != before {
        SnocWithin(before, offers[i], start, offers);
      }
      assert Names(EntriesOf(api)) == AddNames(Names(e0), Names(done + [news[i]])) by {
        NamesSnoc(done, news[i]);
        AddNamesSnoc(Names(e0), Names(done), news[i].packageName);
      }
      assert sep ==> EntriesOf(api) == AddEntries(e0, done + [news[i]]) by {
        if sep {
          assert EntriesOf(api) == AddEntry(eb, news[i]);
          AddEntriesSnoc(e0, done, news[i]);
        }
      }
    }
  }

  /** The object-level effect of AddOffer, read on values: when the packages are distinct,
      updating the first entry of e's package in place (every other entry unchanged) is
      AddEntry. */
  lemma FoundEntries(es: seq<Entry>, e: Entry, k: nat, after: seq<Entry>)
    requires Distinct(Names(es)) && k < |es| && IndexOf(Names(es), e.packageName) == k
    requires |after| == |es|
    requires after[k] == Entry(es[k].packageName, JoinPathToMethods(es[k].mappings, e.mappings))
    requires forall j :: 0 <= j < |es| && j != k ==> after[j] == es[j]
    ensures after == AddEntry(es, e)
  {
  }

  /** ... and appending e when its package is new is AddEntry too. */
  lemma AppendedEntry(es: seq<Entry>, e: Entry)
    requires e.packageName !in Names(es)
    ensures es + [e] == AddEntry(es, e)
  {
  }
}
