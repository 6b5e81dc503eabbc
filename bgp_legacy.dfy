/**
 * The earlier prefix collector of bgpip_tools/bgp.py, `load_cidr_by_asns`:
 * the same pass over the routing-table elements, without address-family
 * selection and without the bogon filter. Its results are related to the
 * later revision's at the end of the module.
 */
module LegacyBgp {
  import opened Wrappers
  import opened Origin
  import opened Rib
  import Bgp

  /** Element `e` adds its prefix to bucket `k`: a kept entry whose origin is in the bucket's ASN set. */
  predicate LegacyAdmits(asnsSets: map<string, set<int>>, origin: OriginParser, e: Elem, k: string) {
    && KeptOrigin(e, origin).Some?
    && k in asnsSets
    && KeptOrigin(e, origin).value in asnsSets[k]
  }

  function LegacyContribution(asnsSets: map<string, set<int>>, origin: OriginParser, e: Elem, k: string): set<string> {
    if LegacyAdmits(asnsSets, origin, e, k) then {e.fields["prefix"]} else {}
  }

  /** Bucket `k`'s prefix set after a stream of elements has been handled. */
  function LegacyGathered(asnsSets: map<string, set<int>>, origin: OriginParser, elems: seq<Elem>, k: string): set<string> {
    if |elems| == 0 then {}
    else
      LegacyGathered(asnsSets, origin, elems[..|elems| - 1], k)
        + LegacyContribution(asnsSets, origin, elems[|elems| - 1], k)
  }

  /** The state `load_cidr_by_asns` shares with its inner `_handle_elem`. */
  class LegacyCollector {
    const asnsSets: map<string, set<int>>
    /** The AS-path parser `_handle_elem` applies; `OriginAsn` in `LoadCidrByAsns`. */
    const origin: OriginParser
    var result: map<string, set<string>>

    ghost predicate Valid()
      reads this
    {
      result.Keys == asnsSets.Keys
    }

    /** `asns_sets` and `result = {k: set() for k in asns}`. */
    constructor (asns: map<string, seq<int>>, origin: OriginParser)
      ensures Valid()
      ensures asnsSets == Bgp.AsnSets(asns) && this.origin == origin
      ensures result.Keys == asns.Keys && forall k :: k in result ==> result[k] == {}
    {
      asnsSets := Bgp.AsnSets(asns);
      this.origin := origin;
      result := map k | k in asns :: {};
    }

    /** `_handle_elem`: the early returns, then one `.add` per bucket whose set holds the origin. */
    method HandleElem(e: Elem)
      requires Valid()
      modifies this
      ensures Valid()
      ensures forall k :: k in result ==> result[k] == old(result)[k] + LegacyContribution(asnsSets, origin, e, k)
    {
      if e.recordType != "rib" {
        return;
      }
      if e.elemType != "R" {
        return;
      }
      if "as-path" !in e.fields || "prefix" !in e.fields {
        return;
      }
      var prefix := e.fields["prefix"];
      if prefix == "0.0.0.0/0" || prefix == "::/0" {
        return;
      }
      var lastAsn := origin(e.fields["as-path"]);
      assert KeptOrigin(e, origin) == lastAsn;
      if lastAsn.None? {
        // the fields and the error are printed and the element is skipped
        return;
      }
      var todo := asnsSets.Keys;
      while todo != {}
        invariant todo <= asnsSets.Keys
        invariant Valid()
        invariant forall k :: k in result && k in todo ==> result[k] == old(result)[k]
        invariant forall k :: k in result && k !in todo ==>
          result[k] == old(result)[k] + LegacyContribution(asnsSets, origin, e, k)
        decreases todo
      {
        var k :| k in todo;
        if lastAsn.value in asnsSets[k] {
          result := result[k := result[k] + {prefix}];
        }
        todo := todo - {k};
      }
    }

    /**
     * The `enumerate` loop, from the empty buckets `result` starts with:
     * handle each element, leave the loop when the handling of element
     * `interrupt` is interrupted, and stop after element DRY_RUN_COUNTER + 1
     * in a dry run (this check follows the `try`).
     */
    method Scan(elems: seq<Elem>, dryRun: bool, interrupt: Option<nat>) returns (handled: nat)
      requires Valid() && forall k :: k in result ==> result[k] == {}
      modifies this
      ensures Valid()
      ensures handled == HandledCount(|elems|, dryRun, interrupt)
      ensures Collected(elems[..handled])
    {
      var i := 0;
      while i < |elems|
        invariant 0 <= i <= HandledCount(|elems|, dryRun, interrupt)
        invariant dryRun ==> i <= DRY_RUN_COUNTER + 1
        invariant Valid()
        invariant Collected(elems[..i])
      {
        if interrupt == Some(i) {
          // KeyboardInterrupt: leave the loop with what has been collected
          break;
        }
        HandledAfter(|elems|, dryRun, interrupt, i);
        i := i + 1;
        // handles elems[i - 1], the element of this iteration
        HandleUpTo(elems, i);
        if dryRun && i - 1 > DRY_RUN_COUNTER {
          break;
        }
      }
      handled := i;
    }

    /** Every bucket holds exactly what `prefix` gathers for its name. */
    ghost predicate Collected(prefix: seq<Elem>)
      reads this
    {
      forall k :: k in result ==> result[k] == LegacyGathered(asnsSets, origin, prefix, k)
    }

    /** One pass of the loop body: the buckets grow from the first `i - 1` elements' sets to the first `i`'s. */
    method HandleUpTo(elems: seq<Elem>, i: nat)
      requires 0 < i <= |elems| && Valid()
      requires Collected(elems[..i - 1])
      modifies this
      ensures Valid()
      ensures Collected(elems[..i])
    {
      HandleElem(elems[i - 1]);
      LegacyGatheredStep(asnsSets, origin, elems, i - 1);
    }

    /** The final loop: each bucket's prefixes handed to the merge. */
    method MergeBuckets(merge: set<string> -> seq<string>) returns (cidrMap: map<string, seq<string>>)
      ensures cidrMap.Keys == result.Keys
      ensures forall k :: k in cidrMap ==> cidrMap[k] == merge(result[k])
    {
      cidrMap := map[];
      var todo := result.Keys;
      while todo != {}
        invariant todo <= result.Keys
        invariant cidrMap.Keys == result.Keys - todo
        invariant forall k :: k in cidrMap ==> cidrMap[k] == merge(result[k])
        decreases todo
      {
        var k :| k in todo;
        cidrMap := cidrMap[k := merge(result[k])];
        todo := todo - {k};
      }
    }
  }

  /**
   * load_cidr_by_asns(bgp_config, asns, dry_run) over the element stream
   * `elems`: every bucket of `asns`, mapped to the merge of its collected prefixes.
   */
  method LoadCidrByAsns(
    asns: map<string, seq<int>>, elems: seq<Elem>, dryRun: bool, interrupt: Option<nat>,
    merge: set<string> -> seq<string>)
    returns (cidrMap: map<string, seq<string>>)
    ensures cidrMap.Keys == asns.Keys
    ensures forall k :: k in cidrMap ==>
      cidrMap[k] == merge(LegacyGathered(Bgp.AsnSets(asns), OriginAsn, elems[..HandledCount(|elems|, dryRun, interrupt)], k))
  {
    var collector := new LegacyCollector(asns, OriginAsn);
    var handled := collector.Scan(elems, dryRun, interrupt);
    cidrMap := collector.MergeBuckets(merge);
  }

  // ---------------------------------------------------------------------------
  // Properties, and the relation to the later revision
  // ---------------------------------------------------------------------------

  /** Handling one more element adds its contribution to every bucket. */
  lemma LegacyGatheredStep(asnsSets: map<string, set<int>>, origin: OriginParser, elems: seq<Elem>, i: nat)
    requires i < |elems|
    ensures forall k :: (LegacyGathered(asnsSets, origin, elems[..i + 1], k) ==
      LegacyGathered(asnsSets, origin, elems[..i], k) + LegacyContribution(asnsSets, origin, elems[i], k))
  {
    assert elems[..i + 1][..i] == elems[..i];
  }

  /** A prefix is in bucket `k` exactly when some element admitted to `k` carries it. */
  lemma {:induction false} LegacyGatheredIff(
    asnsSets: map<string, set<int>>, origin: OriginParser, elems: seq<Elem>, k: string, p: string)
    ensures p in LegacyGathered(asnsSets, origin, elems, k) <==>
      exists i :: 0 <= i < |elems| && LegacyAdmits(asnsSets, origin, elems[i], k) && elems[i].fields["prefix"] == p
  {
    if |elems| > 0 {
      var init := elems[..|elems| - 1];
      LegacyGatheredIff(asnsSets, origin, init, k, p);
      assert forall i :: 0 <= i < |init| ==> init[i] == elems[i];
    }
  }

  /** The earlier revision collects what the later one collects with both families selected. */
  lemma {:induction false} LegacyIsBothFamilies(
    asnsSets: map<string, set<int>>, origin: OriginParser, elems: seq<Elem>, k: string)
    ensures LegacyGathered(asnsSets, origin, elems, k) == Bgp.Gathered(asnsSets, true, true, origin, elems, k)
  {
    if |elems| > 0 {
      LegacyIsBothFamilies(asnsSets, origin, elems[..|elems| - 1], k);
    }
  }

  /**
   * An element that is not a RIB table-dump entry, lacks the AS-path or the
   * prefix, carries a default route, or whose origin does not parse, changes
   * no bucket, and the elements after it are still collected.
   */
  lemma LegacyIgnoredElementChangesNothing(
    asnsSets: map<string, set<int>>, origin: OriginParser, a: seq<Elem>, e: Elem, b: seq<Elem>, k: string)
    requires !IsRibEntry(e) || IsDefaultRoute(e.fields["prefix"]) || origin(e.fields["as-path"]).None?
    ensures LegacyGathered(asnsSets, origin, a + [e] + b, k) == LegacyGathered(asnsSets, origin, a + b, k)
  {
    LegacyIsBothFamilies(asnsSets, origin, a + [e] + b, k);
    LegacyIsBothFamilies(asnsSets, origin, a + b, k);
    Bgp.IgnoredElementChangesNothing(asnsSets, true, true, origin, a, e, b, k);
  }

  /** The default routes never reach a bucket, whatever their origin. */
  lemma LegacyDefaultRoutesNeverGathered(asnsSets: map<string, set<int>>, origin: OriginParser, elems: seq<Elem>, k: string)
    ensures "0.0.0.0/0" !in LegacyGathered(asnsSets, origin, elems, k)
    ensures "::/0" !in LegacyGathered(asnsSets, origin, elems, k)
  {
    LegacyIsBothFamilies(asnsSets, origin, elems, k);
    Bgp.DefaultRoutesNeverGathered(asnsSets, true, true, origin, elems, k);
  }

  /** A repeated observation of the same element collapses into one set entry. */
  lemma LegacyRepeatCollapses(asnsSets: map<string, set<int>>, origin: OriginParser, elems: seq<Elem>, e: Elem, k: string)
    ensures LegacyGathered(asnsSets, origin, elems + [e, e], k) == LegacyGathered(asnsSets, origin, elems + [e], k)
  {
    assert (elems + [e, e])[..|elems| + 1] == elems + [e];
  }

  /**
   * Selecting one family in the later revision keeps exactly the earlier
   * revision's prefixes of that family.
   */
  lemma FamilyRestriction(
    asnsSets: map<string, set<int>>, origin: OriginParser, elems: seq<Elem>, k: string, p: string, v4: bool, v6: bool)
    ensures p in Bgp.Gathered(asnsSets, v4, v6, origin, elems, k) <==>
      p in LegacyGathered(asnsSets, origin, elems, k) && (if Rib.IsV6(p) then v6 else v4)
  {
    Bgp.GatheredIff(asnsSets, v4, v6, origin, elems, k, p);
    LegacyGatheredIff(asnsSets, origin, elems, k, p);
  }

  /**
   * Both revisions of `load_cidr_by_asns`, both families selected in the
   * later one and the bogon filter made empty: the same buckets, the same
   * merged prefixes.
   */
  method SameResultWithoutBogons(
    asns: map<string, seq<int>>, elems: seq<Elem>, dryRun: bool, interrupt: Option<nat>,
    merge: set<string> -> seq<string>)
    returns (legacy: map<string, seq<string>>, later: Result<map<string, seq<string>>, Bgp.BgpError>)
    ensures later.Success? && later.value == legacy
  {
    legacy := LoadCidrByAsns(asns, elems, dryRun, interrupt, merge);
    later := Bgp.LoadCidrByAsns(asns, elems, true, true, dryRun, interrupt, p => false, merge);
    var n := HandledCount(|elems|, dryRun, interrupt);
    forall k | k in legacy
      ensures later.value[k] == legacy[k]
    {
      var g := LegacyGathered(Bgp.AsnSets(asns), OriginAsn, elems[..n], k);
      LegacyIsBothFamilies(Bgp.AsnSets(asns), OriginAsn, elems[..n], k);
      assert Bgp.BogonFree(g, p => false) == g;
    }
  }
}
