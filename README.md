# bgpip-tools in Dafny

bgpip-tools builds per-region lists of IP prefixes in two steps. This project models both:

- **ASN classification** (`bgpip_tools/asn.py`). Each registry record (ASN, country, name) is run through the configured filter groups, and its ASN goes into every bucket whose group matches. A group applies its explicit excludes first, then its includes, then the OR of its filters. A filter is a country test (negated with a leading `!`) ANDed with a case-insensitive name regexp.
- **Prefix collection: the later revision** (`src/bgpip_tools/bgp.py`). Each element of a routing-table dump is handled in turn. A RIB entry that has an AS-path and a prefix, and is not a default route, adds its prefix to every bucket whose ASN set contains the origin ASN, provided its address family is selected. The origin is the last token of the AS-path, braces stripped, parsed as an int.
  - The scan stops in a dry run. A keyboard interrupt raised while an element is being handled ends the scan quietly, and what was collected so far is kept.
  - Afterwards, each bucket's prefixes that are not in the bogon set are handed to a merge.
- **Prefix collection: the earlier revision** (`bgpip_tools/bgp.py`). The same collector, with no family selection and no bogon filter.

## Layout

| file | module | models |
|---|---|---|
| `wrappers.dfy` | `Wrappers` | `Option` and `Result` |
| `asn.dfy` | `Asn` | filters, filter groups, building them from configuration, classifying the record stream |
| `origin.dfy` | `Origin` | `re.split('[ ,]+', …)[-1]`, `.strip('{}')` and `int(…)` on an AS-path, each proved against an independent description |
| `rib.dfy` | `Rib` | the routing element, the entries kept, the default routes, and how many elements the scan loop handles |
| `bgp.dfy` | `Bgp` | the later collector, as a class whose `result` map the methods update |
| `bgp_legacy.dfy` | `LegacyBgp` | the earlier collector, and how it relates to the later one |

### Modelling choices

- **External code is passed in as function values**, so the model assumes nothing about what it computes. Only `Compiles` can fail; `inBogons` and `merge` are taken always to return (see "## Left out"):
  - `Compiles` models `re.compile` and `Finds` models `re.findall` being non-empty;
  - `inBogons` models membership in the bogon IPSet;
  - `merge` models `netaddr.cidr_merge` together with the `str` rendering;
  - the registry records and the routing elements are `seq` parameters;
  - the configuration is a `map` of typed values.
- **A keyboard interrupt is an optional element index.** `interrupt == Some(j)` means the interrupt arrives while element `j` is about to be handled. Element `j` contributes nothing, and the elements before it are collected and merged.
- **Both collectors take the AS-path parser as a constant of the class and of the specification functions.** `LoadCidrByAsns` sets it to `Origin.OriginAsn`, so the two loops are proved once for any parser.
- **`Rib.HandledCount` gives the number of elements handled.** It is the least of the stream length, `DRY_RUN_COUNTER + 2` in a dry run, and the interrupt index.
  - The later revision checks the dry-run counter inside the `try` and the earlier one after it. In this model the two placements break at the same element.
- **Duplicates and sets:**
  - The bucket lists of `load_asns_by_config` keep duplicates. The code appends once per matching record (bgpip_tools/asn.py:97), so two records with the same ASN list it twice (`Asn.RepeatedAsnListedTwice`).
  - The prefix buckets are sets (`Bgp.RepeatCollapses`).
- **In the later revision, `ValueError` comes after `asns_sets` and `result` are built** (src/bgpip_tools/bgp.py:25-29). Nothing observable happens first, so the model fails before anything else.
- **The predicates the contracts are phrased in:**
  - `Asn.HasFilters` is the truthiness test `if not asn_filters` (bgpip_tools/asn.py:80-82). It holds when the bucket has an `asn_filters` mapping with at least one key.
  - `Bgp.Admits(…, e, k)` is the add condition of `_handle_elem` in the later revision (src/bgpip_tools/bgp.py:50-55). It holds when `e` yields an origin (`Rib.KeptOrigin`), `k` is a bucket, the origin is in `k`'s ASN set, and the prefix's family is selected. `Bgp.Contribution` is `{prefix}` when that holds and `{}` otherwise.
  - `LegacyBgp.LegacyAdmits` and `LegacyBgp.LegacyContribution` are the same without the family test (bgpip_tools/bgp.py:43-46).

## Model

| member | source | states |
|---|---|---|
| Asn.NewFilter | bgpip_tools/asn.py:10-20 | construction succeeds iff there are no unknown keywords and a truthy `regexp` compiles; it then keeps the settings and compiles the pattern case-insensitively exactly when `regexp` is truthy; on failure the error is the unknown keywords when there are any, and the bad pattern otherwise |
| Asn.FilterMatches | bgpip_tools/asn.py:22-35 | a record matches iff the country test and the name test both pass. With no country and no regexp rule, every record matches. A `!XX` rule rejects exactly country XX. A plain rule accepts exactly its country. A regexp that finds nothing rejects |
| Asn.AsSet | bgpip_tools/asn.py:47-50 | membership is list membership; a missing or empty list gives the empty set |
| Asn.MatchSelfAsn | bgpip_tools/asn.py:60-64 | the result is false iff the ASN is excluded, true iff it is included and not excluded, and "no decision" iff it is in neither set |
| Asn.AnyFilterMatches | bgpip_tools/asn.py:71-74 | true iff some filter of the list matches the record |
| Asn.GroupMatches | bgpip_tools/asn.py:66-74 | an excluded ASN never matches; an included, non-excluded ASN always matches; any other record matches iff some filter matches, so an empty filter list gives false |
| Asn.BuildFilters | bgpip_tools/asn.py:55-57 | succeeds iff every entry builds; the result is then the filters built from the entries in order; on failure the error is that of the first entry that fails |
| Asn.GroupFromConfig | bgpip_tools/asn.py:52-58 | succeeds iff the filters build and no unknown keyword remains; the group is then those filters with the include and exclude sets; on failure the error is the first failing filter's, and `UnexpectedKeywords` for leftover keys only when every filter builds |
| Asn.FromConfig | bgpip_tools/asn.py:52-58 | the append loop returns the same group or error as `GroupFromConfig`; index i of the list is the filter built from entry i |
| Asn.LoadAsnFilters | bgpip_tools/asn.py:77-85 | succeeds iff every bucket with truthy `asn_filters` builds its group; the result maps exactly those buckets to their groups; on failure the error is a failing bucket's |
| Asn.Members | bgpip_tools/asn.py:92-97 | the list one bucket holds after the record stream: `MembersIff` says which ASNs it lists, `MembersAppend` that it is in stream order, and `Classify` that the loops compute it |
| Asn.Classify | bgpip_tools/asn.py:90-97 | every group gets a list, and each list is `Members` of that group over the whole stream |
| Asn.ClassifyUpTo | bgpip_tools/asn.py:94-97 | if every list is that group's `Members` over the first i - 1 records, after the inner loop over the groups for record i - 1 it is the group's `Members` over the first i records, and no bucket is added or lost |
| Asn.LoadAsnsByConfig | bgpip_tools/asn.py:88-99 | fails iff some group fails to build; otherwise every bucket that has filters, and only those, maps to `Members` of its group over the records; on failure the error is that of a bucket whose group fails to build |
| Asn.MembersIff | bgpip_tools/asn.py:94-97 | an ASN is listed iff some record that carries it matches the group |
| Asn.MembersAppend | bgpip_tools/asn.py:94-97 | classifying two parts of the stream and concatenating gives the list for the whole; the order of the list is stream order |
| Asn.ExcludedNeverListed | bgpip_tools/asn.py:60-69 | an excluded ASN is never listed, whatever the includes and the filters say |
| Asn.IncludedAlwaysListed | bgpip_tools/asn.py:60-69 | an included, non-excluded ASN is listed once a record with it appears |
| Asn.MatchingRecordListed | bgpip_tools/asn.py:95-97 | a record that matches a group is listed in that group's bucket, and so in every bucket it matches |
| Asn.RepeatedAsnListedTwice | bgpip_tools/asn.py:97 | two matching records with the same ASN list it twice: no deduplication |
| Asn.EuScenario | bgpip_tools/asn.py:22-35 | a group with the rule country "DE" keeps a DE record and drops an FR record |
| Origin.Split | src/bgpip_tools/bgp.py:44 | `re.split('[ ,]+', …)` always gives at least one piece; `SplitPiecesHaveNoSeparator` says no piece holds a separator, and `SplitLastIsTrailingToken` that the last piece is the path's trailing token |
| Origin.FirstSeparatorShape | src/bgpip_tools/bgp.py:27 | what precedes the first separator contains no separator, and the character found is one |
| Origin.RunEndShape | src/bgpip_tools/bgp.py:27 | a separator run is maximal: all separators, then the end of the string or a non-separator |
| Origin.SplitPiecesHaveNoSeparator | src/bgpip_tools/bgp.py:27 | no piece of the split on `[ ,]+` contains a space or a comma |
| Origin.TrailingTokenShape | src/bgpip_tools/bgp.py:44 | the trailing token is a suffix with no separator, preceded by a separator unless it is the whole string |
| Origin.TrailingTokenUnique | src/bgpip_tools/bgp.py:44 | any suffix with those three properties is the trailing token |
| Origin.TrailingTokenAfterSeparator | src/bgpip_tools/bgp.py:44 | cutting the path after any separator leaves its trailing token unchanged |
| Origin.SplitLastIsTrailingToken | src/bgpip_tools/bgp.py:44 | the last piece of the split is the longest separator-free suffix of the path |
| Origin.StripLeadingShape | src/bgpip_tools/bgp.py:44 | removing leading braces leaves a suffix; every character removed is a brace, and the first one kept is not |
| Origin.StripTrailingShape | src/bgpip_tools/bgp.py:44 | removing trailing braces leaves a prefix; every character removed is a brace, and the last one kept is not |
| Origin.StripBraces | src/bgpip_tools/bgp.py:44 | `.strip('{}')` never lengthens its argument; `StripBracesShape` says exactly which slice it keeps |
| Origin.StripBracesShape | src/bgpip_tools/bgp.py:44 | `.strip('{}')` leaves the slice after the leading braces; it starts and ends with a non-brace, and everything outside it is a brace |
| Origin.ParseDigitsValue | src/bgpip_tools/bgp.py:44 | a string parses as digits iff it is non-empty and all ASCII digits, and its value is the decimal value |
| Origin.ParseInt | src/bgpip_tools/bgp.py:44 | `int()` on the stripped piece: `ParseIntAccepts` says which strings it accepts and their value, and `DecimalRoundTrip` that it reads back `str(n)` |
| Origin.ParseIntAccepts | src/bgpip_tools/bgp.py:44 | `int()` accepts exactly digits, or a sign followed by digits, with the decimal value, negated after `-` |
| Origin.DecimalRoundTrip | src/bgpip_tools/bgp.py:44 | `int(str(n)) == n` for every natural number n |
| Origin.OriginAsn | src/bgpip_tools/bgp.py:44 | the `last_asn` expression, None where Python raises: `OriginIsTrailingToken`, `OriginOfLastHop` and `NoOriginAfterTrailingSeparator` say what it yields |
| Origin.OriginIsTrailingToken | src/bgpip_tools/bgp.py:44 | the origin is the path's trailing token, braces stripped, parsed |
| Origin.LastPieceAfterSeparator | src/bgpip_tools/bgp.py:44 | whatever precedes it, a separator-free token after a separator is the last piece of the split |
| Origin.StripWrapped | src/bgpip_tools/bgp.py:44 | `.strip('{}')` removes one optional brace on either side of a string that starts and ends with a non-brace, and nothing more |
| Origin.OriginOfLastHop | src/bgpip_tools/bgp.py:44 | whatever precedes it, a path that ends in a separator and then an ASN yields that ASN. The ASN may carry an opening brace, a closing one, or both |
| Origin.OriginOfPlainPath | src/bgpip_tools/bgp.py:44 | "3 2 1" has origin 1 |
| Origin.OriginOfTwoHopPath | src/bgpip_tools/bgp.py:44 | "5 9" has origin 9 |
| Origin.OriginOfAsSetTail | src/bgpip_tools/bgp.py:44 | "64500 {65001,65002}" has origin 65002, the last member of the trailing AS-SET |
| Origin.NoOriginAfterTrailingSeparator | src/bgpip_tools/bgp.py:44-48 | a path that ends in a separator has an empty last piece, and its origin does not parse |
| Rib.KeptOrigin | src/bgpip_tools/bgp.py:32-48 | an element yields an origin iff it is a RIB entry with an AS-path and a prefix, the prefix is not a default route, and the path parses; that origin is the parsed one |
| Rib.HandledCount | src/bgpip_tools/bgp.py:60-69 | the count never exceeds the stream length, DRY_RUN_COUNTER + 2 in a dry run, or the interrupt index, and it equals one of them |
| Rib.HandledAfter | src/bgpip_tools/bgp.py:60-69 | after handling element i, the scan has done i + 1 elements within its count, and a dry run past DRY_RUN_COUNTER stops exactly there |
| Bgp.AsnSets | src/bgpip_tools/bgp.py:25 | the same buckets, each holding exactly the ASNs of its list |
| Bgp.BogonFree | src/bgpip_tools/bgp.py:73-76 | the prefixes kept are exactly those of the bucket that the bogon set does not contain |
| Bgp.Collector.constructor | src/bgpip_tools/bgp.py:25-26 | the ASN sets, the selected families and the parser are stored, and every bucket starts empty |
| Bgp.Collector.HandleElem | src/bgpip_tools/bgp.py:31-55 | every bucket gains exactly this element's contribution, and no bucket is added or lost |
| Bgp.Collector.Scan | src/bgpip_tools/bgp.py:60-69 | from the empty buckets, exactly `HandledCount` elements are handled, and each bucket then holds exactly what those elements gather |
| Bgp.Collector.HandleUpTo | src/bgpip_tools/bgp.py:60-65 | if the buckets hold what the first i - 1 elements gather, handling element i - 1 makes them hold what the first i gather |
| Bgp.Collector.MergeBuckets | src/bgpip_tools/bgp.py:78-83 | every bucket maps to the merge of its bogon-free prefixes |
| Bgp.LoadCidrByAsns | src/bgpip_tools/bgp.py:15-83 | fails with `NoFamilySelected` iff neither family is selected (the bogon test and the merge are taken never to raise). Otherwise the result has exactly the keys of `asns`, and each maps to the merge of the bogon-free prefixes gathered from the handled elements |
| Bgp.Gathered | src/bgpip_tools/bgp.py:50-69 | bucket k's prefix set after a stream: `GatheredIff` says which prefixes it holds, `GatheredAppend` that order and cutting do not matter, and `Collector.Scan` that the loop computes it |
| Bgp.GatheredStep | src/bgpip_tools/bgp.py:60-65 | handling one more element adds its contribution to every bucket |
| Bgp.GatheredIff | src/bgpip_tools/bgp.py:50-55 | a prefix is in bucket k iff some element carries it that is kept, has its origin in k's ASN set, and has a selected family |
| Bgp.GatheredAppend | src/bgpip_tools/bgp.py:60-65 | the stream can be cut anywhere and the two parts' sets united |
| Bgp.IgnoredElementChangesNothing | src/bgpip_tools/bgp.py:32-48 | an element that is not a RIB entry, lacks a field, is a default route or has an unparsable origin changes no bucket, and the scan goes on |
| Bgp.DefaultRoutesNeverGathered | src/bgpip_tools/bgp.py:40-41 | 0.0.0.0/0 and ::/0 are in no bucket, whatever their origin |
| Bgp.GatheredPrefixSound | src/bgpip_tools/bgp.py:39-55 | every collected prefix belongs to a selected family, and comes from a RIB entry whose origin is in the bucket's set |
| Bgp.RepeatCollapses | src/bgpip_tools/bgp.py:50-55 | a repeated element collapses to one set entry |
| Bgp.EuScenario | src/bgpip_tools/bgp.py:50-55 | with bucket "eu" = {1} and IPv4 only, origin 1 brings its prefix and origin 9 brings nothing |
| Bgp.EuScenarioWithOriginAsn | src/bgpip_tools/bgp.py:44-55 | the same scenario with the real AS-path parser |
| LegacyBgp.LegacyCollector.constructor | bgpip_tools/bgp.py:20-21 | the ASN sets and the parser are stored, and every bucket starts empty |
| LegacyBgp.LegacyCollector.HandleElem | bgpip_tools/bgp.py:24-46 | every bucket gains exactly this element's contribution, whatever the family |
| LegacyBgp.LegacyCollector.Scan | bgpip_tools/bgp.py:49-59 | from the empty buckets, exactly `HandledCount` elements are handled (dry-run check after the `try`), and each bucket then holds exactly what they gather |
| LegacyBgp.LegacyCollector.HandleUpTo | bgpip_tools/bgp.py:49-56 | if the buckets hold what the first i - 1 elements gather, handling element i - 1 makes them hold what the first i gather |
| LegacyBgp.LegacyCollector.MergeBuckets | bgpip_tools/bgp.py:61-66 | every bucket maps to the merge of its prefixes, with no bogon filter |
| LegacyBgp.LoadCidrByAsns | bgpip_tools/bgp.py:11-66 | the result has exactly the keys of `asns`, and each maps to the merge of the prefixes gathered from the handled elements |
| LegacyBgp.LegacyGathered | bgpip_tools/bgp.py:43-59 | bucket k's prefix set after a stream in the earlier revision: `LegacyGatheredIff` says which prefixes it holds, `LegacyIsBothFamilies` relates it to `Bgp.Gathered`, and `LegacyCollector.Scan` that the loop computes it |
| LegacyBgp.LegacyGatheredStep | bgpip_tools/bgp.py:49-56 | handling one more element adds its contribution to every bucket |
| LegacyBgp.LegacyGatheredIff | bgpip_tools/bgp.py:43-46 | a prefix is in bucket k iff some kept element carries it whose origin is in k's ASN set |
| LegacyBgp.LegacyIsBothFamilies | bgpip_tools/bgp.py:43-46 | the earlier revision gathers exactly what the later one gathers with both families selected |
| LegacyBgp.FamilyRestriction | src/bgpip_tools/bgp.py:50-55 | selecting families in the later revision keeps exactly the earlier revision's prefixes of the selected families |
| LegacyBgp.LegacyIgnoredElementChangesNothing | bgpip_tools/bgp.py:25-41 | an ignored element, or one with an unparsable origin, changes no bucket, and the scan goes on |
| LegacyBgp.LegacyDefaultRoutesNeverGathered | bgpip_tools/bgp.py:32-33 | 0.0.0.0/0 and ::/0 are never collected |
| LegacyBgp.LegacyRepeatCollapses | bgpip_tools/bgp.py:43-46 | a repeated element collapses to one set entry |
| LegacyBgp.SameResultWithoutBogons | bgpip_tools/bgp.py:11-66 | with both families selected and an empty bogon set, the two revisions return the same map |

## Left out

- Reading the inputs is not modelled: YAML configuration, the registry JSONL stream, the pybgpstream element stream, and the downloads. They are `seq` and `map` parameters. Logging, `print` and `tqdm` progress bars are not modelled either.
- The click command line is not part of this model, and neither is writing the output files. This includes the call sites in src/bgpip_tools/__main__.py:120,131, which pass `dry_run` positionally into the `v4` parameter. `load_cidr_by_asns` is modelled by its own signature.
- The Python regular-expression engine is represented by the `Compiles` and `Finds` parameters.
- `netaddr.cidr_merge` and the `str(v.cidr)` rendering are represented by the `merge` parameter. Nothing is assumed or proved about coverage by the merged blocks.
- The bogon IPSet of src/bgpip_tools/bogon.py is represented by the `inBogons` parameter. That it holds only the selected families' bogon blocks is not modelled.
- `jq` is stored by the filter and never used, as in the code.
- Origin.ParseInt: accepts an optional sign and ASCII digits only. Python's `int()` also accepts surrounding whitespace, underscores between digits, and non-ASCII digits; those inputs are not modelled.
- Bgp.Collector.Scan: the interrupt is taken to arrive before element `interrupt` adds anything. An interrupt raised in the middle of the bucket loop, after some `.add` calls, would leave a partial contribution; this is not modelled. The same holds for LegacyBgp.LegacyCollector.Scan.
- Asn.FromConfig: `config.pop('filters', [])` removes the key from the caller's dictionary. That side effect is not modelled.
- A registry record here always has the `asn`, `country` and `name` keys, so the `KeyError` that a record missing one would raise is not modelled.
- The message text of `TypeError`, `re.error` and `ValueError` is not modelled. The `*filters` tuple of `ASNFilterGroup` (bgpip_tools/asn.py:47-48) is a `seq` here.
- Asn.LoadAsnFilters: on failure the error is that of some bucket whose group fails to build. Python raises the error of the first such bucket in the iteration order of `get_config_dict()`; the configuration here is a `map`, which carries no order, so which failing bucket is reported is not modelled.
- Bgp.Collector.Scan: a keyboard interrupt that arrives outside the `try` is not modelled. This covers one raised while the stream's `next()` in the `for` header fetches an element (src/bgpip_tools/bgp.py:60-63). It propagates out of `load_cidr_by_asns` with no result. `interrupt` describes only the caught case.
- LegacyBgp.LegacyCollector.Scan: the same holds for an interrupt during the element fetch (bgpip_tools/bgp.py:49-52) and during the dry-run check after the `try` (bgpip_tools/bgp.py:58-59). Both propagate out of `load_cidr_by_asns`.
- Bgp.LoadCidrByAsns: the bogon test `cidr not in ipset` (src/bgpip_tools/bgp.py:75) and `netaddr.cidr_merge` (src/bgpip_tools/bgp.py:81) are taken never to raise. netaddr raises `AddrFormatError` on a collected prefix that is not a CIDR, which ends `load_cidr_by_asns` after the scan with no result; the model returns a map instead. So "fails iff neither family is selected" covers only the `ValueError` of src/bgpip_tools/bgp.py:28-29.
- LegacyBgp.LoadCidrByAsns: likewise, `netaddr.cidr_merge` (bgpip_tools/bgp.py:64) is taken never to raise, although it raises `AddrFormatError` on a non-CIDR prefix; the model always returns a map.
- A YAML or JSON null is treated as an absent key. This loses the following behaviour:
  - `asn_filters: {includes: null}` is a non-empty, truthy mapping (bgpip_tools/asn.py:81), so Python keeps the bucket with an empty group. `GroupConfig(None, None, None, {})` is `IsEmpty()`, so the model drops the bucket.
  - `filters: null` makes the loop at bgpip_tools/asn.py:56 raise `TypeError`. The model builds no filters instead.
  - An empty bucket file makes `v` None, and `v.get` raises `AttributeError` at bgpip_tools/asn.py:80. A `BucketConfig` always exists in the model.
  - A null `name` in a registry record makes `re.findall` raise `TypeError` at bgpip_tools/asn.py:32 when the filter has a truthy regexp. `AsnRecord.name` is never null in the model; `country` is modelled as nullable because the comparisons at bgpip_tools/asn.py:26-28 accept None.
