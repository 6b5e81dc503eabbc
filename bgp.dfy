/**
 * The prefix collector of src/bgpip_tools/bgp.py, `load_cidr_by_asns`:
 * a single pass over the routing-table elements that adds each kept prefix
 * to every bucket whose ASN set holds its origin and whose address family
 * is selected, with dry-run and interrupt exits, followed by bogon
 * filtering and a per-bucket merge.
 *
 * The bogon IPSet and `netaddr.cidr_merge` are foreign: `inBogons(p)` says
 * whether the bogon set contains prefix `p` (some equal or enclosing block
 * is in it) and `merge` renders the merged blocks of a set of prefixes.
 * Both are parameters and nothing is assumed about them.
 */
module Bgp {
  import opened Wrappers
  import opened Origin
  import opened Rib

  /** ValueError('either v4 or v6 should be True'). */
  datatype BgpError = NoFamilySelected

  /** `{k: set(v) for k, v in asns.items()}`. */
  function AsnSets(asns: map<string, seq<int>>): (m: map<string, set<int>>)
    ensures m.Keys == asns.Keys
    ensures forall k :: k in m ==> forall x :: x in m[k] <==> x in asns[k]
  {
    map k | k in asns :: set x | x in asns[k]
  }

  /**
   * Element `e` adds its prefix to bucket `k`: it is a kept entry, its origin
   * is in the bucket's ASN set, and its address family is selected.
   */
  predicate Admits(asnsSets: map<string, set<int>>, v4: bool, v6: bool, origin: OriginParser, e: Elem, k: string) {
    && KeptOrigin(e, origin).Some?
    && k in asnsSets
    && KeptOrigin(e, origin).value in asnsSets[k]
    && (if IsV6(e.fields["prefix"]) then v6 else v4)
  }

  /** What element `e` adds to bucket `k`. */
  function Contribution(asnsSets: map<string, set<int>>, v4: bool, v6: bool, origin: OriginParser, e: Elem, k: string): set<string> {
    if Admits(asnsSets, v4, v6, origin, e, k) then {e.fields["prefix"]} else {}
  }

  /** Bucket `k`'s prefix set after a stream of elements has been handled. */
  function Gathered(asnsSets: map<string, set<int>>, v4: bool, v6: bool, origin: OriginParser, elems: seq<Elem>, k: string): set<string> {
    if |elems| == 0 then {}
    else
      Gathered(asnsSets, v4, v6, origin, elems[..|elems| - 1], k)
        + Contribution(asnsSets, v4, v6, origin, elems[|elems| - 1], k)
  }

  /** `cidrs_filter(cidrs, ipset)`: the prefixes the bogon set does not contain. */
  function BogonFree(cidrs: set<string>, inBogons: string -> bool): (r: set<string>)
    ensures r <= cidrs
    ensures forall c :: c in r ==> !inBogons(c)
    ensures forall c :: c in cidrs && !inBogons(c) ==> c in r
  {
    set c | c in cidrs && !inBogons(c)
  }

  /** The state `load_cidr_by_asns` shares with its inner `_handle_elem`. */
  class Collector {
    const asnsSets: map<string, set<int>>
    const v4: bool
    const v6: bool
    /** The AS-path parser `_handle_elem` applies; `OriginAsn` in `LoadCidrByAsns`. */
    const origin: OriginParser
    var result: map<string, set<string>>

    ghost predicate Valid()
      reads this
    {
      result.Keys == asnsSets.Keys
    }

    /** `asns_sets` and `result = {k: set() for k in asns}`. */
    constructor (asns: map<string, seq<int>>, v4: bool, v6: bool, origin: OriginParser)
      ensures Valid()
      ensures asnsSets == AsnSets(asns) && this.v4 == v4 && this.v6 == v6 && this.origin == origin
      ensures result.Keys == asns.Keys && forall k :: k in result ==> result[k] == {}
    {
      asnsSets := AsnSets(asns);
      this.v4 := v4;
      this.v6 := v6;
      this.origin := origin;
      result := map k | k in asns :: {};
    }

    /** `_handle_elem`: the early returns, then one `.add` per matching bucket and selected family. */
    method HandleElem(e: Elem)
      requires Valid()
      modifies this
      ensures Valid()
      ensures forall k :: k in result ==> result[k] == old(result)[k] + Contribution(asnsSets, v4, v6, origin, e, k)
    {
      if e.recordType != "rib" {
        return;
      }
      if e.elemType != "R" {
        return;
      }
      if "as-path" !in e.fields || "prefix" !in e.fields {
        return;
      }
      var prefix := e.fields["prefix"];
      var isV6Prefix := ':' in prefix;
      if prefix == "0.0.0.0/0" || prefix == "::/0" {
        return;
      }
      var lastAsn := origin(e.fields["as-path"]);
      assert KeptOrigin(e, origin) == lastAsn;
      if lastAsn.None? {
        // "parse asn error" is logged and the element is skipped
        return;
      }
      assert forall k :: k in asnsSets ==> (Admits(asnsSets, v4, v6, origin, e, k) <==>
        lastAsn.value in asnsSets[k] && (if isV6Prefix then v6 else v4));
      var todo := asnsSets.Keys;
      while todo != {}
        invariant todo <= asnsSets.Keys
        invariant Valid()
        invariant forall k :: k in result && k in todo ==> result[k] == old(result)[k]
        invariant forall k :: k in result && k !in todo ==>
          result[k] == old(result)[k] + Contribution(asnsSets, v4, v6, origin, e, k)
        decreases todo
      {
        var k :| k in todo;
        if lastAsn.value in asnsSets[k] {
          if v4 && !isV6Prefix {
            result := result[k := result[k] + {prefix}];
          }
          if v6 && isV6Prefix {
            result := result[k := result[k] + {prefix}];
          }
        }
        todo := todo - {k};
      }
    }

    /**
     * The `enumerate` loop, from the empty buckets `result` starts with:
     * handle each element, stop after element DRY_RUN_COUNTER + 1 in a dry
     * run, and stop without raising when the handling of element `interrupt`
     * is interrupted.
     */
    method Scan(elems: seq<Elem>, dryRun: bool, interrupt: Option<nat>) returns (handled: nat)
      requires Valid() && forall k :: k in result ==> result[k] == {}
      modifies this
      ensures Valid()
      ensures handled == HandledCount(|elems|, dryRun, interrupt)
      ensures Collected(elems[..handled])
    {
      var i := 0;
      while i < |elems|
        invariant 0 <= i <= HandledCount(|elems|, dryRun, interrupt)
        invariant dryRun ==> i <= DRY_RUN_COUNTER + 1
        invariant Valid()
        invariant Collected(elems[..i])
      {
        if interrupt == Some(i) {
          // KeyboardInterrupt: leave the loop with what has been collected
          break;
        }
        HandledAfter(|elems|, dryRun, interrupt, i);
        i := i + 1;
        // handles elems[i - 1], the element of this iteration
        HandleUpTo(elems, i);
        if dryRun && i - 1 > DRY_RUN_COUNTER {
          break;
        }
      }
      handled := i;
    }

    /** Every bucket holds exactly what `prefix` gathers for its name. */
    ghost predicate Collected(prefix: seq<Elem>)
      reads this
    {
      forall k :: k in result ==> result[k] == Gathered(asnsSets, v4, v6, origin, prefix, k)
    }

    /** One pass of the loop body: the buckets grow from the first `i - 1` elements' sets to the first `i`'s. */
    method HandleUpTo(elems: seq<Elem>, i: nat)
      requires 0 < i <= |elems| && Valid()
      requires Collected(elems[..i - 1])
      modifies this
      ensures Valid()
      ensures Collected(elems[..i])
    {
      HandleElem(elems[i - 1]);
      GatheredStep(asnsSets, v4, v6, origin, elems, i - 1);
    }

    /** The final loop: each bucket's bogon-free prefixes handed to the merge. */
    method MergeBuckets(inBogons: string -> bool, merge: set<string> -> seq<string>)
      returns (cidrMap: map<string, seq<string>>)
      ensures cidrMap.Keys == result.Keys
      ensures forall k :: k in cidrMap ==> cidrMap[k] == merge(BogonFree(result[k], inBogons))
    {
      cidrMap := map[];
      var todo := result.Keys;
      while todo != {}
        invariant todo <= result.Keys
        invariant cidrMap.Keys == result.Keys - todo
        invariant forall k :: k in cidrMap ==> cidrMap[k] == merge(BogonFree(result[k], inBogons))
        decreases todo
      {
        var k :| k in todo;
        cidrMap := cidrMap[k := merge(BogonFree(result[k], inBogons))];
        todo := todo - {k};
      }
    }
  }

  /**
   * load_cidr_by_asns(bgp_config, asns, v4, v6, dry_run) over the element
   * stream `elems`: a ValueError before any element is read when no family is
   * selected; otherwise every bucket of `asns`, mapped to the merge of its
   * bogon-free collected prefixes.
   */
  method LoadCidrByAsns(
    asns: map<string, seq<int>>, elems: seq<Elem>, v4: bool, v6: bool, dryRun: bool,
    interrupt: Option<nat>, inBogons: string -> bool, merge: set<string> -> seq<string>)
    returns (r: Result<map<string, seq<string>>, BgpError>)
    ensures r.Failure? <==> !v4 && !v6
    ensures r.Success? ==> r.value.Keys == asns.Keys
    ensures r.Success? ==> forall k :: k in r.value ==>
      r.value[k] == merge(BogonFree(
        Gathered(AsnSets(asns), v4, v6, OriginAsn, elems[..HandledCount(|elems|, dryRun, interrupt)], k), inBogons))
  {
    if !v4 && !v6 {
      return Failure(NoFamilySelected);
    }
    var collector := new Collector(asns, v4, v6, OriginAsn);
    var handled := collector.Scan(elems, dryRun, interrupt);
    var cidrMap := collector.MergeBuckets(inBogons, merge);
    return Success(cidrMap);
  }

  // ---------------------------------------------------------------------------
  // Properties of the collected sets
  // ---------------------------------------------------------------------------

  /** A prefix is in bucket `k` exactly when some element admitted to `k` carries it. */
  lemma {:induction false} GatheredIff(
    asnsSets: map<string, set<int>>, v4: bool, v6: bool, origin: OriginParser, elems: seq<Elem>, k: string, p: string)
    ensures p in Gathered(asnsSets, v4, v6, origin, elems, k) <==>
      exists i :: 0 <= i < |elems| && Admits(asnsSets, v4, v6, origin, elems[i], k) && elems[i].fields["prefix"] == p
  {
    if |elems| > 0 {
      var init := elems[..|elems| - 1];
      GatheredIff(asnsSets, v4, v6, origin, init, k, p);
      assert forall i :: 0 <= i < |init| ==> init[i] == elems[i];
    }
  }

  /** Handling one more element adds its contribution to every bucket. */
  lemma GatheredStep(asnsSets: map<string, set<int>>, v4: bool, v6: bool, origin: OriginParser, elems: seq<Elem>, i: nat)
    requires i < |elems|
    ensures forall k :: (Gathered(asnsSets, v4, v6, origin, elems[..i + 1], k) ==
      Gathered(asnsSets, v4, v6, origin, elems[..i], k) + Contribution(asnsSets, v4, v6, origin, elems[i], k))
  {
    assert elems[..i + 1][..i] == elems[..i];
  }

  /** The stream may be cut anywhere and the two halves' sets united (order-insensitivity). */
  lemma {:induction false} GatheredAppend(
    asnsSets: map<string, set<int>>, v4: bool, v6: bool, origin: OriginParser, a: seq<Elem>, b: seq<Elem>, k: string)
    ensures Gathered(asnsSets, v4, v6, origin, a + b, k) == Gathered(asnsSets, v4, v6, origin, a, k) + Gathered(asnsSets, v4, v6, origin, b, k)
  {
    if |b| > 0 {
      var b' := b[..|b| - 1];
      GatheredAppend(asnsSets, v4, v6, origin, a, b', k);
      assert (a + b)[..|a + b| - 1] == a + b';
    } else {
      assert a + b == a;
    }
  }

  /**
   * An element that is not a RIB table-dump entry, lacks the AS-path or the
   * prefix, carries a default route, or whose origin does not parse, changes
   * no bucket, and the elements after it are still collected.
   */
  lemma IgnoredElementChangesNothing(
    asnsSets: map<string, set<int>>, v4: bool, v6: bool, origin: OriginParser, a: seq<Elem>, e: Elem, b: seq<Elem>, k: string)
    requires !IsRibEntry(e) || IsDefaultRoute(e.fields["prefix"]) || origin(e.fields["as-path"]).None?
    ensures Gathered(asnsSets, v4, v6, origin, a + [e] + b, k) == Gathered(asnsSets, v4, v6, origin, a + b, k)
  {
    GatheredAppend(asnsSets, v4, v6, origin, a + [e], b, k);
    GatheredAppend(asnsSets, v4, v6, origin, a, b, k);
    assert (a + [e])[..|a + [e]| - 1] == a;
  }

  /** The default routes never reach a bucket, whatever their origin. */
  lemma DefaultRoutesNeverGathered(asnsSets: map<string, set<int>>, v4: bool, v6: bool, origin: OriginParser, elems: seq<Elem>, k: string)
    ensures "0.0.0.0/0" !in Gathered(asnsSets, v4, v6, origin, elems, k)
    ensures "::/0" !in Gathered(asnsSets, v4, v6, origin, elems, k)
  {
    GatheredIff(asnsSets, v4, v6, origin, elems, k, "0.0.0.0/0");
    GatheredIff(asnsSets, v4, v6, origin, elems, k, "::/0");
  }

  /** Every collected prefix belongs to a selected family and to an element whose origin is in the bucket. */
  lemma GatheredPrefixSound(
    asnsSets: map<string, set<int>>, v4: bool, v6: bool, origin: OriginParser, elems: seq<Elem>, k: string, p: string)
    requires p in Gathered(asnsSets, v4, v6, origin, elems, k)
    ensures if IsV6(p) then v6 else v4
    ensures exists i :: (0 <= i < |elems| && IsRibEntry(elems[i]) && elems[i].fields["prefix"] == p &&
      KeptOrigin(elems[i], origin).Some? && k in asnsSets && KeptOrigin(elems[i], origin).value in asnsSets[k])
  {
    GatheredIff(asnsSets, v4, v6, origin, elems, k, p);
  }

  /** A repeated observation of the same element collapses into one set entry. */
  lemma RepeatCollapses(asnsSets: map<string, set<int>>, v4: bool, v6: bool, origin: OriginParser, elems: seq<Elem>, e: Elem, k: string)
    ensures Gathered(asnsSets, v4, v6, origin, elems + [e, e], k) == Gathered(asnsSets, v4, v6, origin, elems + [e], k)
  {
    assert (elems + [e, e])[..|elems| + 1] == elems + [e];
  }

  /**
   * Bucket "eu" = {1}, IPv4 only: an element whose path "3 2 1" ends in AS 1
   * brings 203.0.113.0/24; one whose path "5 9" ends in AS 9 brings nothing.
   */
  lemma EuScenario(origin: OriginParser)
    requires origin("3 2 1") == Some(1) && origin("5 9") == Some(9)
    ensures var elems := [
        Elem("rib", "R", map["as-path" := "3 2 1", "prefix" := "203.0.113.0/24"]),
        Elem("rib", "R", map["as-path" := "5 9", "prefix" := "198.51.100.0/24"])];
      Gathered(map["eu" := {1}], true, false, origin, elems, "eu") == {"203.0.113.0/24"}
  {
    var e1 := Elem("rib", "R", map["as-path" := "3 2 1", "prefix" := "203.0.113.0/24"]);
    var e2 := Elem("rib", "R", map["as-path" := "5 9", "prefix" := "198.51.100.0/24"]);
    var sets := map["eu" := {1}];
    assert !IsV6("203.0.113.0/24");
    assert Admits(sets, true, false, origin, e1, "eu");
    assert !Admits(sets, true, false, origin, e2, "eu");
    assert [e1, e2][..1] == [e1];
    assert [e1][..0] == [];
  }

  /** The same scenario with the parser both revisions use. */
  lemma EuScenarioWithOriginAsn()
    ensures var elems := [
        Elem("rib", "R", map["as-path" := "3 2 1", "prefix" := "203.0.113.0/24"]),
        Elem("rib", "R", map["as-path" := "5 9", "prefix" := "198.51.100.0/24"])];
      Gathered(map["eu" := {1}], true, false, OriginAsn, elems, "eu") == {"203.0.113.0/24"}
  {
    OriginOfPlainPath();
    OriginOfTwoHopPath();
    EuScenario(OriginAsn);
  }
}
