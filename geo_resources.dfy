/** `MigrateGeoSite` and `MigrateGeoIP` of `types/v2rayjson/geo_resources.go`: V2Ray's
    geosite list to sing-box's category map, and V2Ray's geoip list to the sequence of
    networks inserted into the sing-box database. */
module GeoResources {
  import opened Wrappers
  import opened Strings
  import opened Seqs

  /** `routercommon.Domain_Type`; other enumeration values keep their number. */
  datatype DomainType = Plain | Regex | RootDomain | Full | OtherType(code: int)

  /** A V2Ray geosite domain with the keys of its attributes, in order. */
  datatype Domain = Domain(domainType: DomainType, value: string, attributes: seq<string>)

  datatype GeoSiteEntry = GeoSiteEntry(countryCode: string, domains: seq<Domain>)

  /** sing-box's geosite item types. */
  datatype ItemType = ExactDomain | DomainSuffix | DomainKeyword | DomainRegex

  datatype Item = Item(itemType: ItemType, value: string)

  /** The items one V2Ray domain becomes. */
  function ItemsOf(d: Domain): (r: seq<Item>)
    ensures d.domainType.Plain? ==> r == [Item(DomainKeyword, d.value)]
    ensures d.domainType.Regex? ==> r == [Item(DomainRegex, d.value)]
    ensures d.domainType.Full? ==> r == [Item(ExactDomain, d.value)]
    ensures d.domainType.RootDomain? ==>
      |r| > 0 && r[|r| - 1] == Item(DomainSuffix, "." + d.value) &&
      (Item(ExactDomain, d.value) in r <==> Contains(d.value, "."))
    ensures d.domainType.OtherType? ==> r == []
  {
    match d.domainType
    case Plain => [Item(DomainKeyword, d.value)]
    case Regex => [Item(DomainRegex, d.value)]
    case RootDomain =>
      (if Contains(d.value, ".") then [Item(ExactDomain, d.value)] else []) + [Item(DomainSuffix, "." + d.value)]
    case Full => [Item(ExactDomain, d.value)]
    case OtherType(_) => []
  }

  /** The items of a list of domains, in order. */
  function Classified(ds: seq<Domain>): seq<Item>
    decreases |ds|
  {
    if ds == [] then [] else Classified(ds[..|ds| - 1]) + ItemsOf(ds[|ds| - 1])
  }

  /** Every item of a classified list comes from one of its domains, and every domain's
      items are in it. */
  lemma {:induction false} ClassifiedItems(ds: seq<Domain>)
    ensures forall it :: it in Classified(ds) ==> exists d :: d in ds && it in ItemsOf(d)
    ensures forall d, it :: d in ds && it in ItemsOf(d) ==> it in Classified(ds)
    decreases |ds|
  {
    if ds != [] {
      var init := ds[..|ds| - 1];
      ClassifiedItems(init);
      assert ds == init + [ds[|ds| - 1]];
      assert forall d :: d in init ==> d in ds;
    }
  }

  function Lookup(m: map<string, seq<Domain>>, k: string): seq<Domain> {
    if k in m then m[k] else []
  }

  /** The inner loop: the domain is appended under each of the given attribute keys. */
  function AddKeys(m: map<string, seq<Domain>>, d: Domain, keys: seq<string>): map<string, seq<Domain>>
    decreases |keys|
  {
    if keys == [] then m
    else
      var before := AddKeys(m, d, keys[..|keys| - 1]);
      var k := keys[|keys| - 1];
      before[k := Lookup(before, k) + [d]]
  }

  /** The attribute map of an entry: for every key, the entry's domains that carry it. */
  function Attrs(ds: seq<Domain>): map<string, seq<Domain>>
    decreases |ds|
  {
    if ds == [] then map[] else AddKeys(Attrs(ds[..|ds| - 1]), ds[|ds| - 1], ds[|ds| - 1].attributes)
  }

  lemma {:induction false} AddKeysSpec(m: map<string, seq<Domain>>, d: Domain, keys: seq<string>)
    ensures forall k :: k in AddKeys(m, d, keys) <==> k in m || k in keys
    ensures forall k, x :: k in AddKeys(m, d, keys) && x in AddKeys(m, d, keys)[k] ==> (k in m && x in m[k]) || (x == d && k in keys)
    ensures forall k :: k in keys ==> d in AddKeys(m, d, keys)[k]
    ensures forall k, x :: k in m && x in m[k] ==> x in AddKeys(m, d, keys)[k]
    decreases |keys|
  {
    if keys != [] {
      var init := keys[..|keys| - 1];
      AddKeysSpec(m, d, init);
      assert keys == init + [keys[|keys| - 1]];
    }
  }

  /** A category key belongs to the attribute map exactly when some domain carries it; its
      list holds exactly the domains that carry it. */
  lemma {:induction false} AttrsSpec(ds: seq<Domain>)
    ensures forall k, x :: k in Attrs(ds) && x in Attrs(ds)[k] ==> x in ds && k in x.attributes
    ensures forall d, k :: d in ds && k in d.attributes ==> k in Attrs(ds) && d in Attrs(ds)[k]
    ensures forall k :: k in Attrs(ds) ==> exists d :: d in ds && k in d.attributes
    decreases |ds|
  {
    if ds != [] {
      var init := ds[..|ds| - 1];
      var last := ds[|ds| - 1];
      AttrsSpec(init);
      AddKeysSpec(Attrs(init), last, last.attributes);
      assert ds == init + [last];
    }
  }

  /** A name of the written map: an entry's lower-cased code, or the synthetic "code@key"
      category of one of its attribute keys. */
  datatype Category = Base(code: string) | WithAttribute(code: string, key: string)
  {
    function Name(): string {
      match this
      case Base(c) => c
      case WithAttribute(c, k) => c + "@" + k
    }
  }

  /** The synthetic categories of an entry, one per attribute key. */
  function Categories(code: string, attrs: map<string, seq<Domain>>): map<Category, seq<Item>> {
    map k | k in attrs :: WithAttribute(code, k) := Uniq(Classified(attrs[k]))
  }

  /** What one entry writes: its lower-cased code with its de-duplicated items, and its
      attribute categories. */
  function EntryMap(e: GeoSiteEntry): map<Category, seq<Item>> {
    var code := ToLower(e.countryCode);
    map[Base(code) := Uniq(Classified(e.domains))] + Categories(code, Attrs(e.domains))
  }

  /** The category map of a whole list: later entries overwrite earlier ones. */
  function SiteMap(entries: seq<GeoSiteEntry>): map<Category, seq<Item>>
    decreases |entries|
  {
    if entries == [] then map[] else SiteMap(entries[..|entries| - 1]) + EntryMap(entries[|entries| - 1])
  }

  /** The migrated category map, or the decoding error. */
  function GeoSiteOf(input: Result<seq<GeoSiteEntry>>): Result<map<Category, seq<Item>>> {
    match input
    case Err(e) => Err(e)
    case Ok(entries) => Ok(SiteMap(entries))
  }

  /** The domain loop of one entry: its items, and the attribute map. */
  method ScanDomains(ds: seq<Domain>) returns (items: seq<Item>, attrs: map<string, seq<Domain>>)
    ensures items == Classified(ds) && attrs == Attrs(ds)
  {
    items, attrs := [], map[];
    var i := 0;
    while i < |ds|
      invariant 0 <= i <= |ds|
      invariant items == Classified(ds[..i]) && attrs == Attrs(ds[..i])
    {
      assert ds[..i + 1][..i] == ds[..i];
      var d := ds[i];
      var j := 0;
      var before := attrs;
      while j < |d.attributes|
        invariant 0 <= j <= |d.attributes|
        invariant attrs == AddKeys(before, d, d.attributes[..j])
      {
        assert d.attributes[..j + 1][..j] == d.attributes[..j];
        var k := d.attributes[j];
        attrs := attrs[k := (if k in attrs then attrs[k] else []) + [d]];
        j := j + 1;
      }
      assert d.attributes[..j] == d.attributes;
      items := items + ItemsOf(d);
      i := i + 1;
    }
    assert ds[..i] == ds;
  }

  /** The loop that classifies a list of domains. */
  method ClassifyAll(ds: seq<Domain>) returns (items: seq<Item>)
    ensures items == Classified(ds)
  {
    items := [];
    var i := 0;
    while i < |ds|
      invariant 0 <= i <= |ds|
      invariant items == Classified(ds[..i])
    {
      assert ds[..i + 1][..i] == ds[..i];
      items := items + ItemsOf(ds[i]);
      i := i + 1;
    }
    assert ds[..i] == ds;
  }

  /** The attribute loop of one entry, in whatever order the map is iterated. */
  method WriteCategories(domainMap: map<Category, seq<Item>>, code: string, attrs: map<string, seq<Domain>>)
    returns (m: map<Category, seq<Item>>)
    ensures m == domainMap + Categories(code, attrs)
  {
    var cats: map<Category, seq<Item>> := map[];
    var remaining := attrs.Keys;
    while remaining != {}
      invariant remaining <= attrs.Keys
      invariant forall n :: n in cats <==> n.WithAttribute? && n.code == code && n.key in attrs && n.key !in remaining
      invariant forall n :: n in cats ==> cats[n] == Uniq(Classified(attrs[n.key]))
      decreases remaining
    {
      var a :| a in remaining;
      var items := ClassifyAll(attrs[a]);
      cats := cats[WithAttribute(code, a) := Uniq(items)];
      remaining := remaining - {a};
    }
    CategoriesExactly(code, attrs, cats);
    m := domainMap + cats;
  }

  /** A map holding exactly the attribute categories of `code`, each with its de-duplicated
      items, is `Categories(code, attrs)`. */
  lemma CategoriesExactly(code: string, attrs: map<string, seq<Domain>>, cats: map<Category, seq<Item>>)
    requires forall n :: n in cats <==> n.WithAttribute? && n.code == code && n.key in attrs
    requires forall n :: n in cats ==> cats[n] == Uniq(Classified(attrs[n.key]))
    ensures cats == Categories(code, attrs)
  {
    var all := Categories(code, attrs);
    assert forall n :: n in all <==> n in cats;
    assert forall n :: n in all ==> all[n] == cats[n];
  }

  /** Writing one key and then merging a map is merging both at once. */
  lemma UpdateThenMerge<K, V>(m: map<K, V>, k: K, v: V, c: map<K, V>)
    ensures m[k := v] + c == m + (map[k := v] + c)
  {
    var left, right := m[k := v] + c, m + (map[k := v] + c);
    assert forall x :: x in left <==> x in right;
    assert forall x :: x in left ==> left[x] == right[x];
  }

  /** `MigrateGeoSite` up to the writer: the decoding error, or the category map. */
  method MigrateGeoSite(input: Result<seq<GeoSiteEntry>>) returns (r: Result<map<Category, seq<Item>>>)
    ensures r == GeoSiteOf(input)
  {
    if input.Err? {
      return Err(input.error);
    }
    var entries := input.value;
    var domainMap: map<Category, seq<Item>> := map[];
    var i := 0;
    while i < |entries|
      invariant 0 <= i <= |entries|
      invariant domainMap == SiteMap(entries[..i])
    {
      SiteMapTake(entries, i);
      var e := entries[i];
      var code := ToLower(e.countryCode);
      var items, attrs := ScanDomains(e.domains);
      ghost var before := domainMap;
      domainMap := domainMap[Base(code) := Uniq(items)];
      domainMap := WriteCategories(domainMap, code, attrs);
      UpdateThenMerge(before, Base(code), Uniq(items), Categories(code, attrs));
      i := i + 1;
    }
    assert entries[..i] == entries;
    r := Ok(domainMap);
  }

  /** One more entry merges its map over the map of the entries before it. */
  lemma SiteMapTake(entries: seq<GeoSiteEntry>, i: nat)
    requires i < |entries|
    ensures SiteMap(entries[..i + 1]) == SiteMap(entries[..i]) + EntryMap(entries[i])
  {
    assert entries[..i + 1][..i] == entries[..i];
  }

  /** Every written list is free of duplicate items. */
  lemma {:induction false} SiteMapNoDuplicates(entries: seq<GeoSiteEntry>)
    ensures forall k :: k in SiteMap(entries) ==> NoDuplicates(SiteMap(entries)[k])
    decreases |entries|
  {
    if entries != [] {
      var init := entries[..|entries| - 1];
      var e := entries[|entries| - 1];
      SiteMapNoDuplicates(init);
      EntryMapNoDuplicates(e);
      assert SiteMap(entries) == SiteMap(init) + EntryMap(e);
    }
  }

  /** Every list one entry writes is free of duplicate items. */
  lemma EntryMapNoDuplicates(e: GeoSiteEntry)
    ensures forall k :: k in EntryMap(e) ==> NoDuplicates(EntryMap(e)[k])
  {
    var code := ToLower(e.countryCode);
    var attrs := Attrs(e.domains);
    var entry := EntryMap(e);
    forall k | k in entry
      ensures NoDuplicates(entry[k])
    {
      if k == Base(code) {
        UniqSpec(Classified(e.domains));
      } else {
        UniqSpec(Classified(attrs[k.key]));
      }
    }
  }

  /** The last entry whose code lower-cases to a name decides that name's base list. */
  lemma LastEntryWins(entries: seq<GeoSiteEntry>)
    requires entries != []
    ensures var e := entries[|entries| - 1];
      Base(ToLower(e.countryCode)) in SiteMap(entries) &&
      SiteMap(entries)[Base(ToLower(e.countryCode))] == Uniq(Classified(e.domains))
  {
    var e := entries[|entries| - 1];
    var code := ToLower(e.countryCode);
    assert Base(code) !in Categories(code, Attrs(e.domains));
    assert EntryMap(e)[Base(code)] == Uniq(Classified(e.domains));
    assert SiteMap(entries) == SiteMap(entries[..|entries| - 1]) + EntryMap(e);
  }

  /** A domain with attribute key `k` is in the "code@k" category of its entry with all its
      items. */
  lemma AttributeCategoryHolds(e: GeoSiteEntry, k: string, d: Domain)
    requires d in e.domains && k in d.attributes
    ensures WithAttribute(ToLower(e.countryCode), k) in EntryMap(e)
    ensures forall it :: it in ItemsOf(d) ==> it in EntryMap(e)[WithAttribute(ToLower(e.countryCode), k)]
  {
    var code, attrs := ToLower(e.countryCode), Attrs(e.domains);
    AttrsSpec(e.domains);
    assert k in attrs && d in attrs[k];
    var items := Classified(attrs[k]);
    ClassifiedItems(attrs[k]);
    UniqSpec(items);
    assert WithAttribute(code, k) in Categories(code, attrs);
    assert EntryMap(e)[WithAttribute(code, k)] == Uniq(items);
    forall it | it in ItemsOf(d)
      ensures it in EntryMap(e)[WithAttribute(code, k)]
    {
      assert it in items;
    }
  }

  /** Every item of a "code@k" category comes from a domain of the entry that carries `k`,
      so a domain without attributes is in no such category. */
  lemma AttributeCategoryOnly(e: GeoSiteEntry, k: string, it: Item)
    requires WithAttribute(ToLower(e.countryCode), k) in EntryMap(e)
    requires it in EntryMap(e)[WithAttribute(ToLower(e.countryCode), k)]
    ensures exists d :: d in e.domains && k in d.attributes && it in ItemsOf(d)
  {
    var attrs := Attrs(e.domains);
    AttrsSpec(e.domains);
    assert k in attrs;
    assert EntryMap(e)[WithAttribute(ToLower(e.countryCode), k)] == Uniq(Classified(attrs[k]));
    UniqSpec(Classified(attrs[k]));
    ClassifiedItems(attrs[k]);
    var d :| d in attrs[k] && it in ItemsOf(d);
    assert d in e.domains && k in d.attributes;
  }

  // ----- geoip -----

  /** A V2Ray CIDR: the address bytes as stored and the prefix length. */
  datatype Cidr = Cidr(ip: seq<bv8>, prefix: nat)

  datatype GeoIPEntry = GeoIPEntry(countryCode: string, cidrs: seq<Cidr>)

  /** `net.IPMask` as `net.CIDRMask` builds it: the number of leading ones and the width. */
  datatype IPMask = IPMask(ones: nat, bits: nat)

  datatype IPNet = IPNet(ip: seq<bv8>, mask: Option<IPMask>)

  /** `net.IP.To4`: a 4-byte address as it is, the last four bytes of an IPv4-mapped 16-byte
      address, otherwise nothing. */
  function To4(ip: seq<bv8>): (r: Option<seq<bv8>>)
    ensures r.Some? ==> |r.value| == 4
  {
    if |ip| == 4 then Some(ip)
    else if |ip| == 16 && (forall i :: 0 <= i < 10 ==> ip[i] == 0) && ip[10] == 0xff && ip[11] == 0xff then Some(ip[12..])
    else None
  }

  /** `net.CIDRMask`: no mask unless the width is 32 or 128 and the prefix fits in it. */
  function CidrMask(ones: nat, bits: nat): Option<IPMask> {
    if (bits == 32 || bits == 128) && ones <= bits then Some(IPMask(ones, bits)) else None
  }

  /** The network inserted for a CIDR. */
  function Normalised(c: Cidr): (r: IPNet)
    ensures To4(c.ip).Some? ==> r.ip == To4(c.ip).value
    ensures To4(c.ip).None? ==> r.ip == c.ip
    ensures |c.ip| == 4 || |c.ip| == 16 ==>
      (|r.ip| == 4 || |r.ip| == 16) && (r.mask.Some? <==> c.prefix <= 8 * |r.ip|) &&
      (r.mask.Some? ==> r.mask.value == IPMask(c.prefix, 8 * |r.ip|))
  {
    var ip := if To4(c.ip).Some? then To4(c.ip).value else c.ip;
    IPNet(ip, CidrMask(c.prefix, |ip| * 8))
  }

  function Tagged(code: string, cidrs: seq<Cidr>): seq<(IPNet, string)>
    decreases |cidrs|
  {
    if cidrs == [] then [] else Tagged(code, cidrs[..|cidrs| - 1]) + [(Normalised(cidrs[|cidrs| - 1]), code)]
  }

  /** The insertions, in entry order and then CIDR order, each tagged with its entry's code. */
  function Inserts(entries: seq<GeoIPEntry>): seq<(IPNet, string)>
    decreases |entries|
  {
    if entries == [] then []
    else
      var e := entries[|entries| - 1];
      Inserts(entries[..|entries| - 1]) + Tagged(e.countryCode, e.cidrs)
  }

  lemma {:induction false} TaggedSpec(code: string, cidrs: seq<Cidr>)
    ensures |Tagged(code, cidrs)| == |cidrs|
    ensures forall i :: 0 <= i < |cidrs| ==> Tagged(code, cidrs)[i] == (Normalised(cidrs[i]), code)
    decreases |cidrs|
  {
    if cidrs != [] {
      TaggedSpec(code, cidrs[..|cidrs| - 1]);
    }
  }

  /** The first error the writer reports for a sequence of insertions. */
  function FirstInsertError(reqs: seq<(IPNet, string)>, insertError: (IPNet, string) -> Option<string>): Option<string>
    decreases |reqs|
  {
    if reqs == [] then None
    else if insertError(reqs[0].0, reqs[0].1).Some? then insertError(reqs[0].0, reqs[0].1)
    else FirstInsertError(reqs[1..], insertError)
  }

  /** No error when every insertion succeeds; otherwise the error of the first insertion
      that fails. */
  lemma {:induction false} FirstInsertErrorSpec(reqs: seq<(IPNet, string)>, insertError: (IPNet, string) -> Option<string>)
    ensures FirstInsertError(reqs, insertError).None? <==> forall i :: 0 <= i < |reqs| ==> insertError(reqs[i].0, reqs[i].1).None?
    ensures FirstInsertError(reqs, insertError).Some? ==>
      (exists i :: 0 <= i < |reqs| && insertError(reqs[i].0, reqs[i].1) == FirstInsertError(reqs, insertError) &&
        (forall j :: 0 <= j < i ==> insertError(reqs[j].0, reqs[j].1).None?))
    decreases |reqs|
  {
    if reqs != [] && insertError(reqs[0].0, reqs[0].1).None? {
      FirstInsertErrorSpec(reqs[1..], insertError);
      assert forall i :: 0 < i < |reqs| ==> reqs[i] == reqs[1..][i - 1];
      if FirstInsertError(reqs, insertError).Some? {
        var i :| 0 <= i < |reqs[1..]| && insertError(reqs[1..][i].0, reqs[1..][i].1) == FirstInsertError(reqs, insertError) &&
          (forall j :: 0 <= j < i ==> insertError(reqs[1..][j].0, reqs[1..][j].1).None?);
        assert insertError(reqs[i + 1].0, reqs[i + 1].1) == FirstInsertError(reqs, insertError);
      }
    }
  }

  lemma {:induction false} FirstInsertErrorAppend(a: seq<(IPNet, string)>, b: seq<(IPNet, string)>, insertError: (IPNet, string) -> Option<string>)
    ensures FirstInsertError(a + b, insertError) ==
      (if FirstInsertError(a, insertError).Some? then FirstInsertError(a, insertError) else FirstInsertError(b, insertError))
    decreases |a|
  {
    if a == [] {
      assert a + b == b;
    } else {
      assert (a + b)[0] == a[0] && (a + b)[1..] == a[1..] + b;
      FirstInsertErrorAppend(a[1..], b, insertError);
    }
  }

  lemma {:induction false} InsertsPrefix(entries: seq<GeoIPEntry>, k: nat)
    requires k <= |entries|
    ensures Inserts(entries[..k]) <= Inserts(entries)
    decreases |entries|
  {
    if k < |entries| {
      var init := entries[..|entries| - 1];
      InsertsPrefix(init, k);
      assert init[..k] == entries[..k];
    } else {
      assert entries[..k] == entries;
    }
  }

  /** `MigrateGeoIP` up to the writer: the decoding error, the first insertion error, or the
      insertions made. */
  function GeoIPOf(input: Result<seq<GeoIPEntry>>, insertError: (IPNet, string) -> Option<string>): Result<seq<(IPNet, string)>> {
    match input
    case Err(e) => Err(e)
    case Ok(entries) =>
      var reqs := Inserts(entries);
      match FirstInsertError(reqs, insertError)
      case Some(e) => Err(e)
      case None => Ok(reqs)
  }

  /** The CIDR loop of one entry: the first insertion error, if any. */
  method InsertEntry(e: GeoIPEntry, insertError: (IPNet, string) -> Option<string>) returns (err: Option<string>)
    ensures err == FirstInsertError(Tagged(e.countryCode, e.cidrs), insertError)
  {
    var j := 0;
    while j < |e.cidrs|
      invariant 0 <= j <= |e.cidrs|
      invariant FirstInsertError(Tagged(e.countryCode, e.cidrs[..j]), insertError).None?
    {
      var c := e.cidrs[j];
      var ip := c.ip;
      var ip4 := To4(ip);
      if ip4.Some? {
        ip := ip4.value;
      }
      var ipNet := IPNet(ip, CidrMask(c.prefix, |ip| * 8));
      assert ipNet == Normalised(c);
      TaggedStep(e.countryCode, e.cidrs, j, insertError);
      var insertErr := insertError(ipNet, e.countryCode);
      if insertErr.Some? {
        return insertErr;
      }
      j := j + 1;
    }
    assert e.cidrs[..j] == e.cidrs;
    err := None;
  }

  /** One CIDR of the loop after CIDRs that all inserted: its error, if any, is the first
      error of the entry; otherwise the inserted prefix grows by it. */
  lemma TaggedStep(code: string, cidrs: seq<Cidr>, j: nat, insertError: (IPNet, string) -> Option<string>)
    requires j < |cidrs| && FirstInsertError(Tagged(code, cidrs[..j]), insertError).None?
    ensures var err := insertError(Normalised(cidrs[j]), code);
      (err.Some? ==> FirstInsertError(Tagged(code, cidrs), insertError) == err) &&
      (err.None? ==> FirstInsertError(Tagged(code, cidrs[..j + 1]), insertError).None?)
  {
    var pre, next := Tagged(code, cidrs[..j]), (Normalised(cidrs[j]), code);
    assert cidrs[..j + 1][..j] == cidrs[..j];
    assert Tagged(code, cidrs[..j + 1]) == pre + [next];
    FirstInsertErrorAppend(pre, [next], insertError);
    assert cidrs == cidrs[..j + 1] + cidrs[j + 1..];
    TaggedAppend(code, cidrs[..j + 1], cidrs[j + 1..]);
    FirstInsertErrorAppend(pre + [next], Tagged(code, cidrs[j + 1..]), insertError);
  }

  lemma {:induction false} TaggedAppend(code: string, a: seq<Cidr>, b: seq<Cidr>)
    ensures Tagged(code, a + b) == Tagged(code, a) + Tagged(code, b)
    decreases |b|
  {
    if b == [] {
      assert a + b == a;
    } else {
      var init := b[..|b| - 1];
      TaggedAppend(code, a, init);
      assert (a + b)[..|a + b| - 1] == a + init;
    }
  }

  /** `MigrateGeoIP`'s nested loops: entries in order, then their CIDRs in order; the first
      insertion error aborts. */
  method MigrateGeoIP(input: Result<seq<GeoIPEntry>>, insertError: (IPNet, string) -> Option<string>)
    returns (r: Result<seq<(IPNet, string)>>)
    ensures r == GeoIPOf(input, insertError)
  {
    if input.Err? {
      return Err(input.error);
    }
    var entries := input.value;
    var i := 0;
    while i < |entries|
      invariant 0 <= i <= |entries|
      invariant FirstInsertError(Inserts(entries[..i]), insertError).None?
    {
      var e := entries[i];
      var err := InsertEntry(e, insertError);
      InsertsStep(entries, i, insertError);
      if err.Some? {
        return Err(err.value);
      }
      i := i + 1;
    }
    assert entries[..i] == entries;
    r := Ok(Inserts(entries));
  }

  /** The insertions of one more entry come after those of the entries before it. */
  lemma InsertsTake(entries: seq<GeoIPEntry>, i: nat)
    requires i < |entries|
    ensures Inserts(entries[..i + 1]) == Inserts(entries[..i]) + Tagged(entries[i].countryCode, entries[i].cidrs)
  {
    assert entries[..i + 1][..i] == entries[..i];
  }

  /** An error among the insertions of a prefix is the first error of the whole database. */
  lemma PrefixErrorWins(entries: seq<GeoIPEntry>, k: nat, insertError: (IPNet, string) -> Option<string>)
    requires k <= |entries| && FirstInsertError(Inserts(entries[..k]), insertError).Some?
    ensures FirstInsertError(Inserts(entries), insertError) == FirstInsertError(Inserts(entries[..k]), insertError)
  {
    InsertsPrefix(entries, k);
    var done, all := Inserts(entries[..k]), Inserts(entries);
    assert all == done + all[|done|..];
    FirstInsertErrorAppend(done, all[|done|..], insertError);
  }

  /** One entry of the GeoIP loop after entries that all inserted: its first error, if any,
      is the first error of the whole database; otherwise the inserted prefix grows by it. */
  lemma InsertsStep(entries: seq<GeoIPEntry>, i: nat, insertError: (IPNet, string) -> Option<string>)
    requires i < |entries| && FirstInsertError(Inserts(entries[..i]), insertError).None?
    ensures var err := FirstInsertError(Tagged(entries[i].countryCode, entries[i].cidrs), insertError);
      (err.Some? ==> FirstInsertError(Inserts(entries), insertError) == err) &&
      (err.None? ==> FirstInsertError(Inserts(entries[..i + 1]), insertError).None?)
  {
    InsertsTake(entries, i);
    FirstInsertErrorAppend(Inserts(entries[..i]), Tagged(entries[i].countryCode, entries[i].cidrs), insertError);
    if FirstInsertError(Tagged(entries[i].countryCode, entries[i].cidrs), insertError).Some? {
      PrefixErrorWins(entries, i + 1, insertError);
    }
  }

  /** A sequence that starts with `pre + t` holds `t` right after `pre`. */
  lemma SliceAfter<T>(pre: seq<T>, t: seq<T>, all: seq<T>)
    requires pre + t <= all
    ensures |pre| + |t| <= |all|
    ensures forall j :: 0 <= j < |t| ==> all[|pre| + j] == t[j]
  {
    forall j | 0 <= j < |t|
      ensures all[|pre| + j] == t[j]
    {
      assert all[|pre| + j] == (pre + t)[|pre| + j];
    }
  }

  /** The insertions of the entries before `k`, then those of entry `k`, begin the
      insertions of the whole database. */
  lemma InsertsBefore(entries: seq<GeoIPEntry>, k: nat)
    requires k < |entries|
    ensures Inserts(entries[..k]) + Tagged(entries[k].countryCode, entries[k].cidrs) <= Inserts(entries)
  {
    InsertsPrefix(entries, k + 1);
    InsertsTake(entries, k);
  }

  /** From position `pos` on, `all` holds the normalised `cidrs` in order, each with `code`. */
  predicate TaggedAt(all: seq<(IPNet, string)>, pos: nat, code: string, cidrs: seq<Cidr>) {
    pos + |cidrs| <= |all| &&
    forall j :: 0 <= j < |cidrs| ==> all[pos + j] == (Normalised(cidrs[j]), code)
  }

  /** A sequence that starts with `pre` and one entry's insertions holds those, in order,
      right after `pre`. */
  lemma TaggedAfter(pre: seq<(IPNet, string)>, code: string, cidrs: seq<Cidr>, all: seq<(IPNet, string)>)
    requires pre + Tagged(code, cidrs) <= all
    ensures TaggedAt(all, |pre|, code, cidrs)
  {
    TaggedSpec(code, cidrs);
    SliceAfter(pre, Tagged(code, cidrs), all);
  }

  /** The insertions follow the entries and their CIDRs in order, and each carries its
      entry's code. */
  lemma {:induction false} InsertOrder(entries: seq<GeoIPEntry>, k: nat)
    requires k < |entries|
    ensures TaggedAt(Inserts(entries), |Inserts(entries[..k])|, entries[k].countryCode, entries[k].cidrs)
  {
    InsertsBefore(entries, k);
    TaggedAfter(Inserts(entries[..k]), entries[k].countryCode, entries[k].cidrs, Inserts(entries));
  }
}
