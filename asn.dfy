/**
 * The ASN classification engine of bgpip_tools/asn.py: rule filters
 * (country test AND name test), filter groups (explicit exclude/include
 * overrides, then OR of the filters), their construction from configuration,
 * and the pass that sorts every registry record into buckets.
 *
 * The regular-expression engine is not modelled: a `Compiles` value says
 * which patterns `re.compile` accepts and a `Finds` value says where
 * `re.findall` finds at least one match; both are parameters.
 */
module Asn {
  import opened Wrappers

  /** `ASNFilter.REGEX_IGNORECASE`: patterns are compiled case-insensitively. */
  const REGEX_IGNORECASE: bool := true

  /** One registry record; a JSON null country is `None`. */
  datatype AsnRecord = AsnRecord(asn: int, country: Option<string>, name: string)

  /** A compiled pattern: its source text and whether it was compiled with re.IGNORECASE. */
  datatype Pattern = Pattern(source: string, ignoreCase: bool)

  /** Whether `re.compile` accepts a pattern. */
  type Compiles = Pattern -> bool

  /** Whether `re.findall(pattern, text)` is non-empty, i.e. the pattern occurs somewhere in the text. */
  type Finds = (Pattern, string) -> bool

  /** Configuration errors, raised while the filters are being built. */
  datatype ConfigError =
    | UnexpectedKeywords(keys: set<string>)  // TypeError: a key the constructor does not take
    | BadPattern(source: string)             // re.error from re.compile

  /** Python truthiness of an optional string: present and non-empty. */
  predicate Truthy(o: Option<string>) {
    o.Some? && o.value != ""
  }

  predicate IsNegated(country: string) {
    |country| > 0 && country[0] == '!'
  }

  // ---------------------------------------------------------------------------
  // ASNFilter
  // ---------------------------------------------------------------------------

  /** One entry under `filters`: the keyword arguments of ASNFilter(...). */
  datatype FilterConfig = FilterConfig(
    country: Option<string>,
    regexp: Option<string>,
    jq: Option<string>,
    unknownKeys: set<string>)

  /** An ASNFilter: its three settings and the pattern compiled from `regexp`. */
  datatype AsnFilter = AsnFilter(
    country: Option<string>,
    regexp: Option<string>,
    jq: Option<string>,
    compiled: Option<Pattern>)
  {
    /** What `__init__` establishes: a pattern is compiled exactly when `regexp` is truthy. */
    predicate Valid() {
      compiled == if Truthy(regexp) then Some(Pattern(regexp.value, REGEX_IGNORECASE)) else None
    }
  }

  /** ASNFilter.__init__: compile the pattern when `regexp` is truthy. */
  function NewFilter(cfg: FilterConfig, compiles: Compiles): (r: Result<AsnFilter, ConfigError>)
    ensures r.Success? <==>
      cfg.unknownKeys == {} && (Truthy(cfg.regexp) ==> compiles(Pattern(cfg.regexp.value, REGEX_IGNORECASE)))
    ensures r.Success? ==>
      r.value.Valid() && r.value.country == cfg.country && r.value.regexp == cfg.regexp && r.value.jq == cfg.jq
    ensures r.Success? && Truthy(cfg.regexp) ==> r.value.compiled.value.ignoreCase == REGEX_IGNORECASE
    ensures r.Failure? && cfg.unknownKeys == {} ==> r.error == BadPattern(cfg.regexp.value)
    ensures r.Failure? && cfg.unknownKeys != {} ==> r.error == UnexpectedKeywords(cfg.unknownKeys)
  {
    if cfg.unknownKeys != {} then Failure(UnexpectedKeywords(cfg.unknownKeys))
    else if Truthy(cfg.regexp) then
      var p := Pattern(cfg.regexp.value, REGEX_IGNORECASE);
      if compiles(p) then Success(AsnFilter(cfg.country, cfg.regexp, cfg.jq, Some(p)))
      else Failure(BadPattern(cfg.regexp.value))
    else Success(AsnFilter(cfg.country, cfg.regexp, cfg.jq, None))
  }

  /** The country test on its own: unset passes; "!XX" passes unless the country is XX; "XX" passes only for XX. */
  predicate CountryPasses(rule: Option<string>, country: Option<string>) {
    !Truthy(rule) ||
    (IsNegated(rule.value) && country != Some(rule.value[1..])) ||
    (!IsNegated(rule.value) && country == rule)
  }

  /** The name test on its own: unset passes; otherwise the case-insensitive pattern must occur in the name. */
  predicate NamePasses(regexp: Option<string>, name: string, finds: Finds) {
    !Truthy(regexp) || finds(Pattern(regexp.value, REGEX_IGNORECASE), name)
  }

  /** ASNFilter.match_dict, with its early returns. */
  function FilterMatches(f: AsnFilter, rec: AsnRecord, finds: Finds): (r: bool)
    requires f.Valid()
    ensures r <==> CountryPasses(f.country, rec.country) && NamePasses(f.regexp, rec.name, finds)
    ensures !Truthy(f.country) && !Truthy(f.regexp) ==> r
    ensures Truthy(f.country) && IsNegated(f.country.value) && !Truthy(f.regexp) ==>
      (r <==> rec.country != Some(f.country.value[1..]))
    ensures Truthy(f.country) && !IsNegated(f.country.value) && !Truthy(f.regexp) ==>
      (r <==> rec.country == f.country)
    ensures Truthy(f.regexp) && !finds(Pattern(f.regexp.value, REGEX_IGNORECASE), rec.name) ==> !r
  {
    if Truthy(f.country) && IsNegated(f.country.value) && rec.country == Some(f.country.value[1..]) then false
    else if Truthy(f.country) && !IsNegated(f.country.value) && f.country != rec.country then false
    else if Truthy(f.regexp) && !finds(f.compiled.value, rec.name) then false
    else true
  }

  // ---------------------------------------------------------------------------
  // ASNFilterGroup
  // ---------------------------------------------------------------------------

  /** An ASNFilterGroup: OR-combined filters and the two explicit override sets. */
  datatype AsnFilterGroup = AsnFilterGroup(filters: seq<AsnFilter>, includes: set<int>, excludes: set<int>)
  {
    predicate Valid() {
      forall i :: 0 <= i < |filters| ==> filters[i].Valid()
    }
  }

  /** `set(xs) if xs else set()`: a missing or empty list gives the empty set. */
  function AsSet(xs: Option<seq<int>>): (s: set<int>)
    ensures forall x :: x in s <==> xs.Some? && x in xs.value
    ensures xs.None? || xs.value == [] ==> s == {}
  {
    if xs.Some? && |xs.value| > 0 then set x | x in xs.value else {}
  }

  /** ASNFilterGroup.match_self_asn: exclusion decides first, then inclusion; None is "no decision". */
  function MatchSelfAsn(g: AsnFilterGroup, asn: int): (r: Option<bool>)
    ensures r == Some(false) <==> asn in g.excludes
    ensures r == Some(true) <==> asn in g.includes && asn !in g.excludes
    ensures r == None <==> asn !in g.includes && asn !in g.excludes
  {
    if asn in g.excludes then Some(false)
    else if asn in g.includes then Some(true)
    else None
  }

  /** The `for filter_ in self.filters` loop: true as soon as one filter matches. */
  function AnyFilterMatches(filters: seq<AsnFilter>, rec: AsnRecord, finds: Finds): (r: bool)
    requires forall i :: 0 <= i < |filters| ==> filters[i].Valid()
    ensures r <==> exists i :: 0 <= i < |filters| && FilterMatches(filters[i], rec, finds)
  {
    if |filters| == 0 then false
    else if FilterMatches(filters[0], rec, finds) then true
    else
      var rest := AnyFilterMatches(filters[1..], rec, finds);
      assert forall i :: 1 <= i < |filters| ==> filters[i] == filters[1..][i - 1];
      rest
  }

  /** ASNFilterGroup.match_dict. */
  function GroupMatches(g: AsnFilterGroup, rec: AsnRecord, finds: Finds): (r: bool)
    requires g.Valid()
    ensures rec.asn in g.excludes ==> !r
    ensures rec.asn in g.includes && rec.asn !in g.excludes ==> r
    ensures rec.asn !in g.includes && rec.asn !in g.excludes ==>
      (r <==> exists i :: 0 <= i < |g.filters| && FilterMatches(g.filters[i], rec, finds))
    ensures rec.asn !in g.includes && rec.asn !in g.excludes && |g.filters| == 0 ==> !r
  {
    var decided := MatchSelfAsn(g, rec.asn);
    if decided.Some? then decided.value
    else AnyFilterMatches(g.filters, rec, finds)
  }

  // ---------------------------------------------------------------------------
  // Construction from configuration
  // ---------------------------------------------------------------------------

  /** The `asn_filters` mapping of one bucket; `None` is an absent key. */
  datatype GroupConfig = GroupConfig(
    filters: Option<seq<FilterConfig>>,
    includes: Option<seq<int>>,
    excludes: Option<seq<int>>,
    unknownKeys: set<string>)
  {
    /** An empty mapping is falsy. */
    predicate IsEmpty() {
      filters.None? && includes.None? && excludes.None? && unknownKeys == {}
    }

    /** `config.pop('filters', [])`. */
    function FilterConfigs(): seq<FilterConfig> {
      if filters.Some? then filters.value else []
    }
  }

  /** One bucket's configuration file; only its `asn_filters` entry is read. */
  datatype BucketConfig = BucketConfig(asnFilters: Option<GroupConfig>)

  /** `v.get('asn_filters')` is truthy. */
  predicate HasFilters(b: BucketConfig) {
    b.asnFilters.Some? && !b.asnFilters.value.IsEmpty()
  }

  /** The filters built in order; the first that fails to build raises. */
  function BuildFilters(cfgs: seq<FilterConfig>, compiles: Compiles): (r: Result<seq<AsnFilter>, ConfigError>)
    ensures r.Success? <==> forall i :: 0 <= i < |cfgs| ==> NewFilter(cfgs[i], compiles).Success?
    ensures r.Success? ==> |r.value| == |cfgs|
    ensures r.Success? ==> forall i :: 0 <= i < |cfgs| ==> r.value[i] == NewFilter(cfgs[i], compiles).value
    ensures r.Failure? ==> exists i :: (0 <= i < |cfgs| && NewFilter(cfgs[i], compiles) == Failure(r.error) &&
      forall j :: 0 <= j < i ==> NewFilter(cfgs[j], compiles).Success?)
  {
    if |cfgs| == 0 then Success([])
    else
      var init := cfgs[..|cfgs| - 1];
      assert forall i :: 0 <= i < |init| ==> init[i] == cfgs[i];
      match BuildFilters(init, compiles)
      case Failure(e) => Failure(e)
      case Success(fs) =>
        match NewFilter(cfgs[|cfgs| - 1], compiles)
        case Failure(e) => Failure(e)
        case Success(f) => Success(fs + [f])
  }

  /** ASNFilterGroup.from_config as a value: the filters, then the remaining keys as keyword arguments. */
  function GroupFromConfig(cfg: GroupConfig, compiles: Compiles): (r: Result<AsnFilterGroup, ConfigError>)
    ensures r.Success? ==> r.value.Valid()
    ensures r.Success? <==> BuildFilters(cfg.FilterConfigs(), compiles).Success? && cfg.unknownKeys == {}
    ensures r.Success? ==> r.value == AsnFilterGroup(BuildFilters(cfg.FilterConfigs(), compiles).value, AsSet(cfg.includes), AsSet(cfg.excludes))
    ensures BuildFilters(cfg.FilterConfigs(), compiles).Failure? ==> r == Failure(BuildFilters(cfg.FilterConfigs(), compiles).error)
    ensures BuildFilters(cfg.FilterConfigs(), compiles).Success? && cfg.unknownKeys != {} ==> r == Failure(UnexpectedKeywords(cfg.unknownKeys))
  {
    match BuildFilters(cfg.FilterConfigs(), compiles)
    case Failure(e) => Failure(e)
    case Success(fs) =>
      if cfg.unknownKeys != {} then Failure(UnexpectedKeywords(cfg.unknownKeys))
      else Success(AsnFilterGroup(fs, AsSet(cfg.includes), AsSet(cfg.excludes)))
  }

  /** ASNFilterGroup.from_config: builds the filter list with a loop and append. */
  method FromConfig(cfg: GroupConfig, compiles: Compiles) returns (r: Result<AsnFilterGroup, ConfigError>)
    ensures r == GroupFromConfig(cfg, compiles)
    ensures r.Success? ==> |r.value.filters| == |cfg.FilterConfigs()|
    ensures r.Success? ==> forall i :: 0 <= i < |r.value.filters| ==>
      r.value.filters[i] == NewFilter(cfg.FilterConfigs()[i], compiles).value
  {
    var cfgs := cfg.FilterConfigs();
    var filters: seq<AsnFilter> := [];
    var i := 0;
    while i < |cfgs|
      invariant 0 <= i <= |cfgs|
      invariant BuildFilters(cfgs[..i], compiles) == Success(filters)
    {
      var f := NewFilter(cfgs[i], compiles);
      assert cfgs[..i + 1][..i] == cfgs[..i];
      if f.Failure? {
        assert BuildFilters(cfgs[..i + 1], compiles) == Failure(f.error);
        return Failure(f.error);
      }
      filters := filters + [f.value];
      i := i + 1;
    }
    assert cfgs[..i] == cfgs;
    if cfg.unknownKeys != {} {
      return Failure(UnexpectedKeywords(cfg.unknownKeys));
    }
    return Success(AsnFilterGroup(filters, AsSet(cfg.includes), AsSet(cfg.excludes)));
  }

  /** The buckets whose configuration has a truthy `asn_filters`. */
  function FilteredBuckets(config: map<string, BucketConfig>): set<string> {
    set k | k in config && HasFilters(config[k])
  }

  /** load_asn_filters: one group per bucket with truthy `asn_filters`; a build error aborts. */
  method LoadAsnFilters(config: map<string, BucketConfig>, compiles: Compiles)
    returns (r: Result<map<string, AsnFilterGroup>, ConfigError>)
    ensures r.Success? <==> forall k :: k in FilteredBuckets(config) ==>
      GroupFromConfig(config[k].asnFilters.value, compiles).Success?
    ensures r.Success? ==> r.value.Keys == FilteredBuckets(config)
    ensures r.Success? ==> forall k :: k in r.value ==>
      Success(r.value[k]) == GroupFromConfig(config[k].asnFilters.value, compiles) && r.value[k].Valid()
    ensures r.Failure? ==> exists k :: (k in FilteredBuckets(config) &&
      GroupFromConfig(config[k].asnFilters.value, compiles) == Failure(r.error))
  {
    var groups: map<string, AsnFilterGroup> := map[];
    var todo := config.Keys;
    while todo != {}
      invariant todo <= config.Keys
      invariant groups.Keys == FilteredBuckets(config) - todo
      invariant forall k :: k in groups ==>
        Success(groups[k]) == GroupFromConfig(config[k].asnFilters.value, compiles) && groups[k].Valid()
      decreases todo
    {
      var k :| k in todo;
      var v := config[k];
      if HasFilters(v) {
        var g := FromConfig(v.asnFilters.value, compiles);
        if g.Failure? {
          assert k in FilteredBuckets(config);
          return Failure(g.error);
        }
        groups := groups[k := g.value];
      }
      todo := todo - {k};
    }
    return Success(groups);
  }

  // ---------------------------------------------------------------------------
  // Classification of the registry stream
  // ---------------------------------------------------------------------------

  /** The ASNs that one group collects from a record stream, in stream order, duplicates kept. */
  function Members(g: AsnFilterGroup, records: seq<AsnRecord>, finds: Finds): seq<int>
    requires g.Valid()
  {
    if |records| == 0 then []
    else
      var last := records[|records| - 1];
      Members(g, records[..|records| - 1], finds) + (if GroupMatches(g, last, finds) then [last.asn] else [])
  }

  /** The nested loops of load_asns_by_config: every record against every group, appending matches. */
  method Classify(groups: map<string, AsnFilterGroup>, records: seq<AsnRecord>, finds: Finds)
    returns (asns: map<string, seq<int>>)
    requires forall k :: k in groups ==> groups[k].Valid()
    ensures asns.Keys == groups.Keys
    ensures forall k :: k in asns ==> asns[k] == Members(groups[k], records, finds)
  {
    asns := map k | k in groups :: [];
    var i := 0;
    while i < |records|
      invariant 0 <= i <= |records|
      invariant asns.Keys == groups.Keys
      invariant forall k :: k in asns ==> asns[k] == Members(groups[k], records[..i], finds)
    {
      i := i + 1;
      asns := ClassifyUpTo(groups, records, i, asns, finds);
    }
    assert records[..i] == records;
  }

  /** The inner loop for record `i - 1`: each matching group's list grows by its ASN. */
  method ClassifyUpTo(groups: map<string, AsnFilterGroup>, records: seq<AsnRecord>, i: nat,
                      before: map<string, seq<int>>, finds: Finds)
    returns (asns: map<string, seq<int>>)
    requires forall k :: k in groups ==> groups[k].Valid()
    requires 0 < i <= |records| && before.Keys == groups.Keys
    requires forall k :: k in before ==> before[k] == Members(groups[k], records[..i - 1], finds)
    ensures asns.Keys == groups.Keys
    ensures forall k :: k in asns ==> asns[k] == Members(groups[k], records[..i], finds)
  {
    var rec := records[i - 1];
    assert records[..i][..i - 1] == records[..i - 1];
    asns := before;
    var todo := groups.Keys;
    while todo != {}
      invariant todo <= groups.Keys
      invariant asns.Keys == groups.Keys
      invariant forall k :: k in asns && k in todo ==> asns[k] == Members(groups[k], records[..i - 1], finds)
      invariant forall k :: k in asns && k !in todo ==> asns[k] == Members(groups[k], records[..i], finds)
      decreases todo
    {
      var k :| k in todo;
      if GroupMatches(groups[k], rec, finds) {
        asns := asns[k := asns[k] + [rec.asn]];
      }
      todo := todo - {k};
    }
  }

  /** load_asns_by_config: build the groups, then classify the registry stream. */
  method LoadAsnsByConfig(config: map<string, BucketConfig>, records: seq<AsnRecord>, compiles: Compiles, finds: Finds)
    returns (r: Result<map<string, seq<int>>, ConfigError>)
    ensures r.Success? <==> forall k :: k in FilteredBuckets(config) ==>
      GroupFromConfig(config[k].asnFilters.value, compiles).Success?
    ensures r.Success? ==> r.value.Keys == FilteredBuckets(config)
    ensures r.Success? ==> forall k :: k in r.value ==>
      var g := GroupFromConfig(config[k].asnFilters.value, compiles).value;
      g.Valid() && r.value[k] == Members(g, records, finds)
    ensures r.Failure? ==> exists k :: (k in FilteredBuckets(config) &&
      GroupFromConfig(config[k].asnFilters.value, compiles) == Failure(r.error))
  {
    var groups := LoadAsnFilters(config, compiles);
    if groups.Failure? {
      return Failure(groups.error);
    }
    var asns := Classify(groups.value, records, finds);
    return Success(asns);
  }

  // ---------------------------------------------------------------------------
  // Properties of the classification
  // ---------------------------------------------------------------------------

  /** An ASN is listed in a bucket exactly when some record carrying it matches the group. */
  lemma {:induction false} MembersIff(g: AsnFilterGroup, records: seq<AsnRecord>, finds: Finds, x: int)
    requires g.Valid()
    ensures x in Members(g, records, finds) <==>
      exists i :: 0 <= i < |records| && records[i].asn == x && GroupMatches(g, records[i], finds)
  {
    if |records| > 0 {
      var init := records[..|records| - 1];
      MembersIff(g, init, finds, x);
      assert forall i :: 0 <= i < |init| ==> init[i] == records[i];
    }
  }

  /**
   * Classifying a stream in two parts and concatenating gives the same lists:
   * each record is appended once to each bucket it matches, in stream order.
   */
  lemma {:induction false} MembersAppend(g: AsnFilterGroup, a: seq<AsnRecord>, b: seq<AsnRecord>, finds: Finds)
    requires g.Valid()
    ensures Members(g, a + b, finds) == Members(g, a, finds) + Members(g, b, finds)
  {
    if |b| > 0 {
      var b' := b[..|b| - 1];
      MembersAppend(g, a, b', finds);
      assert (a + b)[..|a + b| - 1] == a + b';
    } else {
      assert a + b == a;
    }
  }

  /** An excluded ASN is never listed, whatever the filters and the includes say. */
  lemma ExcludedNeverListed(g: AsnFilterGroup, records: seq<AsnRecord>, finds: Finds, x: int)
    requires g.Valid() && x in g.excludes
    ensures x !in Members(g, records, finds)
  {
    MembersIff(g, records, finds, x);
  }

  /** An included, non-excluded ASN is listed once it appears in the stream, whatever the filters say. */
  lemma IncludedAlwaysListed(g: AsnFilterGroup, records: seq<AsnRecord>, finds: Finds, i: nat)
    requires g.Valid() && i < |records|
    requires records[i].asn in g.includes && records[i].asn !in g.excludes
    ensures records[i].asn in Members(g, records, finds)
  {
    MembersIff(g, records, finds, records[i].asn);
  }

  /** A record that matches a group lands in that group's list, so it lands in every bucket it matches. */
  lemma MatchingRecordListed(g: AsnFilterGroup, records: seq<AsnRecord>, finds: Finds, i: nat)
    requires g.Valid() && i < |records| && GroupMatches(g, records[i], finds)
    ensures records[i].asn in Members(g, records, finds)
  {
    MembersIff(g, records, finds, records[i].asn);
  }

  /** The lists are not deduplicated: two matching records with the same ASN give it twice. */
  lemma RepeatedAsnListedTwice(g: AsnFilterGroup, rec: AsnRecord, finds: Finds)
    requires g.Valid() && GroupMatches(g, rec, finds)
    ensures Members(g, [rec, rec], finds) == [rec.asn, rec.asn]
  {
    assert [rec, rec][..1] == [rec];
    assert [rec][..0] == [];
    assert Members(g, [rec], finds) == [rec.asn];
  }

  /** The bucket "eu" with the single rule country "DE" keeps ASN 1 (DE) and drops ASN 2 (FR). */
  lemma EuScenario(finds: Finds)
    ensures var g := AsnFilterGroup([AsnFilter(Some("DE"), None, None, None)], {}, {});
      g.Valid() &&
      Members(g, [AsnRecord(1, Some("DE"), "one"), AsnRecord(2, Some("FR"), "two")], finds) == [1]
  {
    var g := AsnFilterGroup([AsnFilter(Some("DE"), None, None, None)], {}, {});
    var rs := [AsnRecord(1, Some("DE"), "one"), AsnRecord(2, Some("FR"), "two")];
    assert rs[..1] == [rs[0]];
    assert [rs[0]][..0] == [];
    assert GroupMatches(g, rs[0], finds);
    assert !FilterMatches(g.filters[0], rs[1], finds);
    assert !GroupMatches(g, rs[1], finds);
  }
}
