/** The checkbox selection both cash-handover pages keep over their list: a
    set of selected ids, the "select all" flag, and the running total of the
    selected amounts. Records are generic here; each page passes the functions
    that read a record's id and amount. */
module Selection {
  import opened Common

  /** The ids of the listed records. */
  function Ids<T>(s: seq<T>, id: T -> int): set<int>
  {
    set i | 0 <= i < |s| :: id(s[i])
  }

  /** A list has no more distinct ids than records. */
  lemma {:induction false} IdsBound<T>(s: seq<T>, id: T -> int)
    ensures |Ids(s, id)| <= |s|
  {
    if s != [] {
      IdsBound(s[1..], id);
      assert Ids(s, id) == Ids(s[1..], id) + {id(s[0])} by {
        forall x | x in Ids(s, id)
          ensures x in Ids(s[1..], id) + {id(s[0])}
        {
          var i :| 0 <= i < |s| && id(s[i]) == x;
          if i > 0 {
            assert s[1..][i - 1] == s[i];
          }
        }
        forall x | x in Ids(s[1..], id)
          ensures x in Ids(s, id)
        {
          var i :| 0 <= i < |s[1..]| && id(s[1..][i]) == x;
          assert s[i + 1] == s[1..][i];
        }
      }
    }
  }

  /** The record's id is selected. */
  function InSel<T>(sel: set<int>, id: T -> int): T -> bool
  {
    t => id(t) in sel
  }

  /** The listed records whose id is selected, in list order. */
  function SelectedItems<T>(s: seq<T>, sel: set<int>, id: T -> int): seq<T>
  {
    Filter(s, InSel(sel, id))
  }

  /** The sum of `amount` over a list. */
  function SumOf<T>(s: seq<T>, amount: T -> int): int
  {
    if s == [] then 0 else amount(s[0]) + SumOf(s[1..], amount)
  }

  /** `amount(t)` when `t`'s id is selected, else 0. */
  function Share<T>(t: T, sel: set<int>, id: T -> int, amount: T -> int): int
  {
    if id(t) in sel then amount(t) else 0
  }

  /** The total of the amounts of the records whose id is selected, record by
      record. */
  function SumSelected<T>(s: seq<T>, sel: set<int>, id: T -> int, amount: T -> int): int
  {
    if s == [] then 0 else Share(s[0], sel, id, amount) + SumSelected(s[1..], sel, id, amount)
  }

  lemma {:induction false} SumSelectedAppend<T>(s: seq<T>, t: T, sel: set<int>, id: T -> int, amount: T -> int)
    ensures SumSelected(s + [t], sel, id, amount) == SumSelected(s, sel, id, amount) + Share(t, sel, id, amount)
  {
    if s != [] {
      assert (s + [t])[1..] == s[1..] + [t];
      SumSelectedAppend(s[1..], t, sel, id, amount);
    }
  }

  /** The running total is the sum of the amounts of the selected listed
      records. */
  lemma {:induction false} SumSelectedIsSumOfSelected<T>(s: seq<T>, sel: set<int>, id: T -> int, amount: T -> int)
    ensures SumSelected(s, sel, id, amount) == SumOf(SelectedItems(s, sel, id), amount)
  {
    if s != [] {
      SumSelectedIsSumOfSelected(s[1..], sel, id, amount);
      if id(s[0]) in sel {
        assert ([s[0]] + SelectedItems(s[1..], sel, id))[1..] == SelectedItems(s[1..], sel, id);
      }
    }
  }

  /** Only how the selection treats listed ids matters: two selections that
      agree on every listed id give the same total, so selected ids that are
      not in the list add nothing. */
  lemma {:induction false} SumSelectedAgrees<T>(s: seq<T>, sel1: set<int>, sel2: set<int>, id: T -> int, amount: T -> int)
    requires forall i :: 0 <= i < |s| ==> (id(s[i]) in sel1 <==> id(s[i]) in sel2)
    ensures SumSelected(s, sel1, id, amount) == SumSelected(s, sel2, id, amount)
  {
    if s != [] {
      assert id(s[0]) in sel1 <==> id(s[0]) in sel2;
      assert forall i :: 0 <= i < |s[1..]| ==> s[1..][i] == s[i + 1];
      SumSelectedAgrees(s[1..], sel1, sel2, id, amount);
    }
  }

  lemma {:induction false} SumSelectedNothing<T>(s: seq<T>, id: T -> int, amount: T -> int)
    ensures SumSelected(s, {}, id, amount) == 0
  {
    if s != [] {
      SumSelectedNothing(s[1..], id, amount);
    }
  }

  /** Selected ids missing from the list contribute nothing; with nothing
      selected the total is 0; with every id selected it is the whole sum. */
  lemma SumSelectedBounds<T>(s: seq<T>, sel: set<int>, id: T -> int, amount: T -> int)
    ensures SumSelected(s, sel, id, amount) == SumSelected(s, sel * Ids(s, id), id, amount)
    ensures SumSelected(s, {}, id, amount) == 0
    ensures SumSelected(s, Ids(s, id), id, amount) == SumOf(s, amount)
  {
    forall i | 0 <= i < |s|
      ensures id(s[i]) in Ids(s, id)
    {
    }
    SumSelectedAgrees(s, sel, sel * Ids(s, id), id, amount);
    SumSelectedNothing(s, id, amount);
    SumSelectedIsSumOfSelected(s, Ids(s, id), id, amount);
    FilterKeepsAll(s, InSel(Ids(s, id), id));
  }

  /** With nothing selected the total is 0. */
  lemma NothingSelectedTotal<T>(s: seq<T>, id: T -> int, amount: T -> int)
    ensures SumOf(SelectedItems(s, {}, id), amount) == 0
  {
    SumSelectedNothing(s, id, amount);
    SumSelectedIsSumOfSelected(s, {}, id, amount);
  }

  /** The `forEach` that the total effect runs: adds up the amounts of the
      listed records whose id is selected. */
  method ComputeTotal<T>(s: seq<T>, sel: set<int>, id: T -> int, amount: T -> int) returns (total: int)
    ensures total == SumOf(SelectedItems(s, sel, id), amount)
  {
    total := 0;
    var i := 0;
    while i < |s|
      invariant 0 <= i <= |s|
      invariant total == SumSelected(s[..i], sel, id, amount)
    {
      SumSelectedAppend(s[..i], s[i], sel, id, amount);
      assert s[..i + 1] == s[..i] + [s[i]];
      if id(s[i]) in sel {
        total := total + amount(s[i]);
      }
      i := i + 1;
    }
    assert s[..i] == s;
    SumSelectedIsSumOfSelected(s, sel, id, amount);
  }

  /** The selection after clicking one record's checkbox. */
  function Toggled(sel: set<int>, x: int): set<int>
  {
    if x in sel then sel - {x} else sel + {x}
  }

  /** `newSelectedIds.size === list.length && list.length > 0`. */
  predicate AllSelectedFlag(sel: set<int>, n: nat)
  {
    |sel| == n && n > 0
  }

  /** What the select-all effect sets the selection to. */
  function SelectionFor<T>(selectAll: bool, s: seq<T>, id: T -> int): set<int>
  {
    if selectAll then Ids(s, id) else {}
  }

  /** A click flips the clicked id and no other. */
  lemma ToggledSpec(sel: set<int>, x: int)
    ensures x in Toggled(sel, x) <==> x !in sel
    ensures forall y :: y != x ==> (y in Toggled(sel, x) <==> y in sel)
    ensures Toggled(Toggled(sel, x), x) == sel
  {
  }

  /** When everything listed was selected, clearing one checkbox leaves fewer
      selected ids than records, so the flag turns false, and the select-all
      effect then empties the whole selection. */
  lemma DeselectUnderSelectAll<T>(s: seq<T>, x: int, id: T -> int)
    requires x in Ids(s, id)
    ensures !AllSelectedFlag(Toggled(Ids(s, id), x), |s|)
    ensures SelectionFor(AllSelectedFlag(Toggled(Ids(s, id), x), |s|), s, id) == {}
  {
    IdsBound(s, id);
    assert Toggled(Ids(s, id), x) == Ids(s, id) - {x};
    assert |Ids(s, id) - {x}| == |Ids(s, id)| - 1;
  }

  /** With distinct ids there are exactly as many ids as records. */
  lemma {:induction false} DistinctIdsCount<T>(s: seq<T>, id: T -> int)
    requires forall i, j :: 0 <= i < j < |s| ==> id(s[i]) != id(s[j])
    ensures |Ids(s, id)| == |s|
  {
    if s != [] {
      assert forall i, j :: 0 <= i < j < |s[1..]| ==> s[1..][i] == s[i + 1] && s[1..][j] == s[j + 1];
      DistinctIdsCount(s[1..], id);
      assert Ids(s, id) == Ids(s[1..], id) + {id(s[0])} by {
        forall y | y in Ids(s, id)
          ensures y in Ids(s[1..], id) + {id(s[0])}
        {
          var i :| 0 <= i < |s| && id(s[i]) == y;
          if i > 0 {
            assert s[1..][i - 1] == s[i];
          }
        }
        forall y | y in Ids(s[1..], id)
          ensures y in Ids(s, id)
        {
          var i :| 0 <= i < |s[1..]| && id(s[1..][i]) == y;
          assert s[i + 1] == s[1..][i];
        }
      }
      forall i | 0 <= i < |s[1..]|
        ensures id(s[1..][i]) != id(s[0])
      {
        assert s[1..][i] == s[i + 1];
      }
    }
  }

  /** With distinct ids the flag is on exactly when every listed record is
      selected (and the list is not empty). */
  lemma AllSelectedFlagMeansAll<T>(s: seq<T>, sel: set<int>, id: T -> int)
    requires forall i, j :: 0 <= i < j < |s| ==> id(s[i]) != id(s[j])
    requires sel <= Ids(s, id)
    ensures AllSelectedFlag(sel, |s|) <==> |s| > 0 && sel == Ids(s, id)
  {
    DistinctIdsCount(s, id);
    if |sel| == |s| {
      assert |Ids(s, id) - sel| == |Ids(s, id)| - |sel|;
      assert Ids(s, id) - sel == {};
    }
  }
}
