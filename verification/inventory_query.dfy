/** The inventory query of src/services/inventory.service.js: filter
    entries whose value is null, undefined or the empty string are dropped
    before the query string is built. */
module InventoryQuery {
  import opened Wrappers
  import Seqs

  /** The JavaScript values a filter entry can hold. */
  datatype JsValue = Undefined | Null | Str(s: string) | Num(n: int) | Bool(b: bool)

  /** `v != null && v !== ""`: loose inequality with null excludes both null
      and undefined; only the empty string among the other values is
      dropped. */
  predicate Keep(v: JsValue) {
    !v.Undefined? && !v.Null? && v != Str("")
  }

  /** Zero, false and non-empty strings are all kept. */
  lemma FalsyButKept(s: string)
    requires s != ""
    ensures Keep(Num(0)) && Keep(Bool(false)) && Keep(Str(s))
    ensures !Keep(Undefined) && !Keep(Null) && !Keep(Str(""))
  {
  }

  /** `Object.entries(filters).filter(([_, v]) => ...)`: the kept entries,
      in their original order. */
  function CleanFilters(entries: seq<(string, JsValue)>): (r: seq<(string, JsValue)>)
    ensures forall e :: e in r <==> e in entries && Keep(e.1)
    ensures Seqs.IsSubsequence(r, entries)
    decreases |entries|
  {
    if entries == [] then []
    else
      var rest := CleanFilters(entries[1..]);
      if Keep(entries[0].1) then
        assert entries[0] == entries[0] && entries[1..] == entries[1..];
        [entries[0]] + rest
      else
        Seqs.SubsequenceOfTail(rest, entries);
        rest
  }

  /** Cleaning twice changes nothing. */
  lemma {:induction false} CleanFiltersIdempotent(entries: seq<(string, JsValue)>)
    ensures CleanFilters(CleanFilters(entries)) == CleanFilters(entries)
    decreases |entries|
  {
    if entries != [] {
      CleanFiltersIdempotent(entries[1..]);
      if Keep(entries[0].1) {
        var c := CleanFilters(entries);
        assert c[0] == entries[0] && c[1..] == CleanFilters(entries[1..]);
      }
    }
  }

  /** `getInventory(filters = {})`: with no argument the default empty
      object gives an empty query. */
  function GetInventoryQuery(filters: Option<seq<(string, JsValue)>>): (r: seq<(string, JsValue)>)
    ensures filters.None? ==> r == []
    ensures filters.Some? ==> forall e :: e in r <==> e in filters.value && Keep(e.1)
  {
    CleanFilters(filters.GetOr([]))
  }
}
