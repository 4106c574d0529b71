/** The CR cash-handover page: the CR ticks unprocessed cash transactions,
    picks a recipient and hands them over, which marks the ticked ones
    'processing'. The page keeps the selection, the select-all flag and the
    running total of the ticked amounts. */
module CRHandovers {
  import opened Common
  import opened Paging
  import opened Selection

  const ItemsPerPage: nat := 5

  datatype CashTx = CashTx(id: int, name: string, cms: string, amount: int, date: string, status: string)

  function TxId(t: CashTx): int
  {
    t.id
  }

  function TxAmount(t: CashTx): int
  {
    t.amount
  }

  function MarkProcessing(t: CashTx): CashTx
  {
    t.(status := "processing")
  }

  /** The list after a handover of the ticked transactions. */
  function HandedOver(s: seq<CashTx>, sel: set<int>): seq<CashTx>
  {
    MapWhere(s, InSel(sel, TxId), MarkProcessing)
  }

  /** A handover marks exactly the ticked transactions 'processing' and
      leaves every other transaction, every other field, the length and the
      order as they were. */
  lemma HandedOverSpec(s: seq<CashTx>, sel: set<int>)
    ensures |HandedOver(s, sel)| == |s|
    ensures forall i :: 0 <= i < |s| ==>
              HandedOver(s, sel)[i] == (if s[i].id in sel then s[i].(status := "processing") else s[i])
    ensures forall i :: 0 <= i < |s| ==>
              HandedOver(s, sel)[i].id == s[i].id && HandedOver(s, sel)[i].amount == s[i].amount
  {
    MapWhereAt(s, InSel(sel, TxId), MarkProcessing);
    forall i | 0 <= i < |s|
      ensures InSel(sel, TxId)(s[i]) == (s[i].id in sel)
    {
      assert TxId(s[i]) == s[i].id;
    }
  }

  datatype PageState = PageState(
    transactions: seq<CashTx>,
    selected: set<int>,
    selectAll: bool,
    totalSelectedAmount: int,
    isHandoverModalOpen: bool,
    selectedRecipient: string,
    currentPage: int)

  class CRCashHandoversPage {
    var transactions: seq<CashTx>
    var selected: set<int>
    var selectAll: bool
    var totalSelectedAmount: int
    var isHandoverModalOpen: bool
    /** The fixed list of recipients offered in the select. */
    const handoverRecipients: seq<string>
    var selectedRecipient: string
    var currentPage: int

    function State(): PageState
      reads this
    {
      PageState(transactions, selected, selectAll, totalSelectedAmount, isHandoverModalOpen, selectedRecipient, currentPage)
    }

    /** The total effect has settled. */
    predicate Valid()
      reads this
    {
      totalSelectedAmount == SumOf(SelectedItems(transactions, selected, TxId), TxAmount)
    }

    /** The page as first rendered, over its seed list. */
    constructor (initial: seq<CashTx>, recipients: seq<string>)
      ensures Valid()
      ensures State() == PageState(initial, {}, false, 0, false, "", 1)
      ensures handoverRecipients == recipients
    {
      transactions := initial;
      selected := {};
      selectAll := false;
      totalSelectedAmount := 0;
      isHandoverModalOpen := false;
      handoverRecipients := recipients;
      selectedRecipient := "";
      currentPage := 1;
      new;
      NothingSelectedTotal(initial, TxId, TxAmount);
    }

    /** The effects after a state change: the select-all effect when its
        inputs changed, then the total effect's `forEach`. */
    method SettleEffects(selectAllEffect: bool)
      modifies this
      ensures Valid()
      ensures selected == (if selectAllEffect then SelectionFor(selectAll, transactions, TxId) else old(selected))
      ensures State() == old(State()).(selected := selected, totalSelectedAmount := totalSelectedAmount)
    {
      if selectAllEffect {
        if selectAll {
          selected := Ids(transactions, TxId);
        } else {
          selected := {};
        }
      }
      totalSelectedAmount := ComputeTotal(transactions, selected, TxId, TxAmount);
    }

    /** `handleTransactionSelect(id)`. */
    method HandleTransactionSelect(id: int)
      modifies this
      requires Valid()
      ensures Valid()
      ensures selectAll == AllSelectedFlag(Toggled(old(selected), id), |transactions|)
      ensures selected == (if selectAll != old(selectAll) then SelectionFor(selectAll, transactions, TxId)
                           else Toggled(old(selected), id))
      ensures State() == old(State()).(selected := selected, selectAll := selectAll, totalSelectedAmount := totalSelectedAmount)
    {
      var newSelectedIds := Toggled(selected, id);
      var before := selectAll;
      selected := newSelectedIds;
      selectAll := |newSelectedIds| == |transactions| && |transactions| > 0;
      SettleEffects(selectAll != before);
    }

    /** `handleSelectAll(checked)`. */
    method HandleSelectAll(checked: bool)
      modifies this
      requires Valid()
      ensures Valid()
      ensures selectAll == checked
      ensures selected == (if checked != old(selectAll) then SelectionFor(checked, transactions, TxId) else old(selected))
      ensures State() == old(State()).(selected := selected, selectAll := checked, totalSelectedAmount := totalSelectedAmount)
    {
      var before := selectAll;
      selectAll := checked;
      SettleEffects(checked != before);
    }

    /** `openHandoverModal`: opens only with something ticked. */
    method OpenHandoverModal()
      modifies this
      ensures State() == old(State()).(isHandoverModalOpen := if |selected| > 0 then true else old(isHandoverModalOpen))
    {
      if |selected| > 0 {
        isHandoverModalOpen := true;
      }
    }

    /** `closeHandoverModal`: closes and clears the recipient. */
    method CloseHandoverModal()
      modifies this
      ensures State() == old(State()).(isHandoverModalOpen := false, selectedRecipient := "")
    {
      isHandoverModalOpen := false;
      selectedRecipient := "";
    }

    method HandleRecipientChange(value: string)
      modifies this
      ensures State() == old(State()).(selectedRecipient := value)
    {
      selectedRecipient := value;
    }

    /** `handleHandover`: with a recipient chosen, marks the ticked
        transactions 'processing', clears the selection, flag and total and
        closes the modal; with none, changes nothing. */
    method HandleHandover()
      modifies this
      requires Valid()
      ensures Valid()
      ensures old(selectedRecipient) == "" ==> State() == old(State())
      ensures old(selectedRecipient) != "" ==>
                State() == old(State()).(transactions := HandedOver(old(transactions), old(selected)),
                                         selected := {}, selectAll := false, totalSelectedAmount := 0,
                                         isHandoverModalOpen := false, selectedRecipient := "")
    {
      if selectedRecipient != "" {
        transactions := HandedOver(transactions, selected);
        selected := {};
        selectAll := false;
        totalSelectedAmount := 0;
        isHandoverModalOpen := false;
        selectedRecipient := "";
        // The list changed, so both effects run; with the flag off they
        // leave the selection empty and the total 0.
        NothingSelectedTotal(transactions, TxId, TxAmount);
      }
    }

    function CurrentTransactions(): seq<CashTx>
      reads this
    {
      PageOf(transactions, currentPage, ItemsPerPage)
    }

    function TotalPagesNow(): nat
      reads this
    {
      TotalPages(|transactions|, ItemsPerPage)
    }

    method HandleNextPage()
      modifies this
      ensures State() == old(State()).(currentPage := NextPage(old(currentPage), TotalPagesNow()))
    {
      currentPage := if currentPage < TotalPagesNow() then currentPage + 1 else currentPage;
    }

    method HandlePrevPage()
      modifies this
      ensures State() == old(State()).(currentPage := PrevPage(old(currentPage)))
    {
      currentPage := if currentPage > 1 then currentPage - 1 else currentPage;
    }
  }
}
