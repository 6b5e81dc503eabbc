/**
 * What both revisions of `load_cidr_by_asns` share: the routing-table element
 * they read, the entries they keep, the default routes they drop, and how
 * far the dry-run and interrupt exits of the scan loop let it go.
 */
module Rib {
  import opened Wrappers

  /** A routing-stream element: `record_type`, `type` and the `fields` dictionary. */
  datatype Elem = Elem(recordType: string, elemType: string, fields: map<string, string>)

  /** `DRY_RUN_COUNTER`, the element index after which a dry run stops. */
  const DRY_RUN_COUNTER: nat := 100_000

  /** A RIB table-dump entry with both an AS-path and a prefix. */
  predicate IsRibEntry(e: Elem) {
    e.recordType == "rib" && e.elemType == "R" && "as-path" in e.fields && "prefix" in e.fields
  }

  predicate IsDefaultRoute(prefix: string) {
    prefix == "0.0.0.0/0" || prefix == "::/0"
  }

  /** The address family test: a prefix containing ':' is IPv6. */
  predicate IsV6(prefix: string) {
    ':' in prefix
  }

  /**
   * How the collectors read the origin ASN off an AS-path. Both revisions use
   * `OriginAsn`; the collectors are stated for any parser so that their proofs
   * do not depend on how the path is split and parsed.
   */
  type OriginParser = string -> Option<int>

  /**
   * The origin ASN of an element the collectors keep: a RIB entry, not a
   * default route, whose AS-path yields an origin. None for every element
   * that is returned from early or whose origin fails to parse.
   */
  function KeptOrigin(e: Elem, origin: OriginParser): (r: Option<int>)
    ensures r.Some? <==>
      IsRibEntry(e) && !IsDefaultRoute(e.fields["prefix"]) && origin(e.fields["as-path"]).Some?
    ensures r.Some? ==> r == origin(e.fields["as-path"])
  {
    if !IsRibEntry(e) || IsDefaultRoute(e.fields["prefix"]) then None
    else origin(e.fields["as-path"])
  }

  /**
   * How many elements the `enumerate` loop handles before it stops. A dry
   * run breaks after the element with index DRY_RUN_COUNTER + 1; an
   * interrupt raised while element `j` is handled breaks with `j` elements done.
   * The count is the least of these limits and the stream length.
   */
  function HandledCount(n: nat, dryRun: bool, interrupt: Option<nat>): (c: nat)
    ensures c <= n
    ensures dryRun ==> c <= DRY_RUN_COUNTER + 2
    ensures interrupt.Some? ==> c <= interrupt.value
    ensures c == n || (dryRun && c == DRY_RUN_COUNTER + 2) || (interrupt.Some? && c == interrupt.value)
  {
    var bound := if dryRun && DRY_RUN_COUNTER + 2 < n then DRY_RUN_COUNTER + 2 else n;
    if interrupt.Some? && interrupt.value < bound then interrupt.value else bound
  }

  /** Where the scan loop is after handling element `i`: the count it stops at, or `i + 1` done so far. */
  lemma HandledAfter(n: nat, dryRun: bool, interrupt: Option<nat>, i: nat)
    requires i < n && i < HandledCount(n, dryRun, interrupt)
    ensures dryRun && i > DRY_RUN_COUNTER ==> HandledCount(n, dryRun, interrupt) == i + 1
    ensures i + 1 <= HandledCount(n, dryRun, interrupt)
  {
  }
}
