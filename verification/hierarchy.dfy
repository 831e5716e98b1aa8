/** Flattening of the Manager -> TL -> LC tree into the lists used for
    searching and listing (`ALL_TLS`, `ALL_LCS`). */
module Hierarchy {
  import opened Types
  import opened Seqs

  /** The TLs a manager owns. */
  function TLsOf(m: Manager): seq<TL>
  {
    m.tls
  }

  /** The LCs a TL owns. */
  function LCsOf(t: TL): seq<LC>
  {
    t.lcs
  }

  /** Every TL of every manager, in manager order and then in each manager's
      own TL order; nothing is removed, so a duplicated TL appears twice. */
  function AllTLs(managers: seq<Manager>): (r: seq<TL>)
    ensures |r| == SumLengths(managers, TLsOf)
    ensures forall t :: t in r <==> exists m :: m in managers && t in m.tls
  {
    LemmaFlatMapLength(managers, TLsOf);
    LemmaFlatMapMembership(managers, TLsOf);
    FlatMap(managers, TLsOf)
  }

  /** Every LC of every TL, in TL order and then in each TL's own LC order;
      nothing is removed. */
  function AllLCs(tls: seq<TL>): (r: seq<LC>)
    ensures |r| == SumLengths(tls, LCsOf)
    ensures forall lc :: lc in r <==> exists t :: t in tls && lc in t.lcs
  {
    LemmaFlatMapLength(tls, LCsOf);
    LemmaFlatMapMembership(tls, LCsOf);
    FlatMap(tls, LCsOf)
  }

  /** Flattening a concatenation of managers concatenates their TLs. */
  lemma LemmaAllTLsAppend(a: seq<Manager>, b: seq<Manager>)
    ensures AllTLs(a + b) == AllTLs(a) + AllTLs(b)
  {
    LemmaFlatMapAppend(a, b, TLsOf);
  }

  /** Flattening a concatenation of TLs concatenates their LCs. */
  lemma LemmaAllLCsAppend(a: seq<TL>, b: seq<TL>)
    ensures AllLCs(a + b) == AllLCs(a) + AllLCs(b)
  {
    LemmaFlatMapAppend(a, b, LCsOf);
  }

  /** The i-th manager's TLs form one block, after the TLs of the managers
      before it and before those of the managers after it. */
  lemma LemmaAllTLsOrder(managers: seq<Manager>, i: int)
    requires 0 <= i < |managers|
    ensures AllTLs(managers) == AllTLs(managers[..i]) + managers[i].tls + AllTLs(managers[i + 1..])
  {
    LemmaFlatMapSplit(managers, TLsOf, i);
  }

  /** The i-th TL's LCs form one block, after the LCs of the TLs before it
      and before those of the TLs after it. */
  lemma LemmaAllLCsOrder(tls: seq<TL>, i: int)
    requires 0 <= i < |tls|
    ensures AllLCs(tls) == AllLCs(tls[..i]) + tls[i].lcs + AllLCs(tls[i + 1..])
  {
    LemmaFlatMapSplit(tls, LCsOf, i);
  }

  /** The LCs of one manager: those of its TLs, in order. */
  function ManagerLCs(m: Manager): seq<LC>
  {
    AllLCs(m.tls)
  }

  /** Flattening in two stages (all TLs, then their LCs) gives the same list
      as taking each manager's LCs in turn. */
  lemma {:induction false} LemmaAllLCsByManager(managers: seq<Manager>)
    ensures AllLCs(AllTLs(managers)) == FlatMap(managers, ManagerLCs)
  {
    if |managers| > 0 {
      var m, rest := managers[0], managers[1..];
      assert managers == [m] + rest;
      LemmaAllTLsAppend([m], rest);
      assert AllTLs([m]) == m.tls by {
        assert [m][1..] == [];
      }
      LemmaAllLCsAppend(m.tls, AllTLs(rest));
      LemmaAllLCsByManager(rest);
    }
  }

  /** The back-references of the tree agree with its ownership: every TL
      names the manager that owns it, and every LC names the TL and the
      manager that own it. */
  ghost predicate WellFormed(managers: seq<Manager>)
  {
    forall m, t :: m in managers && t in m.tls ==>
      && t.managerName == m.name
      && forall lc :: lc in t.lcs ==> lc.tlName == t.name && lc.managerName == m.name
  }

  /** In a well-formed tree every flattened LC is owned by a flattened TL
      whose name it carries, and that TL belongs to a manager whose name it
      also carries. */
  lemma LemmaWellFormedBackReferences(managers: seq<Manager>, lc: LC)
    requires WellFormed(managers)
    requires lc in AllLCs(AllTLs(managers))
    ensures exists t :: t in AllTLs(managers) && lc in t.lcs && lc.tlName == t.name
    ensures exists m :: m in managers && lc.managerName == m.name
  {
    var t :| t in AllTLs(managers) && lc in t.lcs;
    var m :| m in managers && t in m.tls;
  }
}
