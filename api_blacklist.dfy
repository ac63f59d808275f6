/**
 * The blacklist of expensive APIs shared by both Swift analysers: a
 * dictionary from a base name (a type such as `Data`) to the set of member
 * names that are expensive under it. The dictionary is represented by its
 * entries in one iteration order; `WellFormed` says it is a dictionary of
 * sets (no base twice, no member twice under one base).
 */
module ApiBlacklist {
  import opened Wrappers

  datatype ApiEntry = ApiEntry(base: string, members: seq<string>)

  type Blacklist = seq<ApiEntry>

  predicate WellFormed(bl: Blacklist)
  {
    (forall i, j :: 0 <= i < j < |bl| ==> bl[i].base != bl[j].base)
    && (forall i :: 0 <= i < |bl| ==>
          forall p, q :: 0 <= p < q < |bl[i].members| ==> bl[i].members[p] != bl[i].members[q])
  }

  /** The blacklist compiled into both analysers. */
  const ExpensiveApis: Blacklist := [
    ApiEntry("Data", ["init"]),
    ApiEntry("CryptoHelper", ["performExpensiveSyncOperation"])
  ]

  lemma ExpensiveApisWellFormed()
    ensures WellFormed(ExpensiveApis)
  {
  }

  /** `expensiveAPIs[base]`: the member set stored under `base`, if any. */
  function Lookup(bl: Blacklist, base: string): (r: Option<seq<string>>)
    ensures r.None? <==> forall i :: 0 <= i < |bl| ==> bl[i].base != base
    ensures r.Some? ==> exists i :: 0 <= i < |bl| && bl[i].base == base && bl[i].members == r.value
  {
    if bl == [] then None
    else if bl[0].base == base then Some(bl[0].members)
    else Lookup(bl[1..], base)
  }

  /** `expensiveAPIs[base]` exists and contains `name`. */
  predicate Matches(bl: Blacklist, base: string, name: string)
  {
    var members := Lookup(bl, base);
    members.Some? && name in members.value
  }

  /**
   * Matching is exact: a pair matches iff some entry has exactly that base
   * and lists exactly that member name.
   */
  lemma MatchesExactly(bl: Blacklist, base: string, name: string)
    requires WellFormed(bl)
    ensures Matches(bl, base, name) <==>
      exists i :: 0 <= i < |bl| && bl[i].base == base && name in bl[i].members
  {
    if exists i :: 0 <= i < |bl| && bl[i].base == base && name in bl[i].members {
      var i :| 0 <= i < |bl| && bl[i].base == base && name in bl[i].members;
      var j :| 0 <= j < |bl| && bl[j].base == base && bl[j].members == Lookup(bl, base).value;
      assert i == j;
    }
  }

  /** `expensiveAPIs.values.flatMap { $0 }`: every member name of every entry, entry by entry. */
  function FlatMembers(bl: Blacklist): (names: seq<string>)
    ensures forall i, m :: 0 <= i < |bl| && m in bl[i].members ==> m in names
    ensures forall m :: m in names ==> exists i :: 0 <= i < |bl| && m in bl[i].members
  {
    if bl == [] then [] else bl[0].members + FlatMembers(bl[1..])
  }
}
