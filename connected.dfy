/** The wallet's main screen: notifications for transactions whose status
    changed since the last list, the balance display cycle, and when the
    Send and Receive buttons are off. */
module Connected {
  import opened Shared

  datatype Notification = SuccessNote(text: string) | ErrorNote(text: string)

  /** `previous.find(t => t.contractId === id)`. */
  function FindByContractId(previous: seq<Transaction>, id: string): (r: Option<Transaction>)
    ensures r.None? <==> forall i :: 0 <= i < |previous| ==> previous[i].contractId != id
    ensures r.Some? ==> exists i :: 0 <= i < |previous| && previous[i] == r.value && r.value.contractId == id
                          && forall j :: 0 <= j < i ==> previous[j].contractId != id
  {
    if previous == [] then None
    else if previous[0].contractId == id then Some(previous[0])
    else
      var r := FindByContractId(previous[1..], id);
      assert forall j :: 1 <= j < |previous| ==> previous[j] == previous[1..][j - 1];
      if r.Some? then
        var i :| 0 <= i < |previous[1..]| && previous[1..][i] == r.value && r.value.contractId == id
                 && forall j :: 0 <= j < i ==> previous[1..][j].contractId != id;
        assert previous[i + 1] == r.value;
        r
      else r
  }

  function Who(tx: Transaction): string
  {
    if tx.transactionType == Sent then "Payment" else "Receipt"
  }

  /** The notification for one transaction of the new list, if any. */
  function NotificationFor(previous: seq<Transaction>, tx: Transaction): (r: Option<Notification>)
    ensures r.Some? <==> FindByContractId(previous, tx.contractId).Some?
                         && FindByContractId(previous, tx.contractId).value.status != tx.status
                         && (tx.status == Completed || tx.status == Failed)
    ensures r.Some? && tx.status == Completed ==> r.value == SuccessNote(Who(tx) + " completed successfully!")
    ensures r.Some? && tx.status == Failed ==> r.value == ErrorNote(Who(tx) + " failed")
  {
    var before := FindByContractId(previous, tx.contractId);
    if before.Some? && before.value.status != tx.status then
      if tx.status == Completed then Some(SuccessNote(Who(tx) + " completed successfully!"))
      else if tx.status == Failed then Some(ErrorNote(Who(tx) + " failed"))
      else None
    else None
  }

  /** The notifications of the loop over `current[..n]`, in list order. */
  function NotesUpTo(previous: seq<Transaction>, current: seq<Transaction>, n: nat): seq<Notification>
    requires n <= |current|
  {
    if n == 0 then []
    else
      var note := NotificationFor(previous, current[n - 1]);
      NotesUpTo(previous, current, n - 1) + (if note.Some? then [note.value] else [])
  }

  /** All notifications of one run of the effect; none when either list is empty. */
  function Notifications(previous: seq<Transaction>, current: seq<Transaction>): seq<Notification>
  {
    if |previous| == 0 || |current| == 0 then [] else NotesUpTo(previous, current, |current|)
  }

  /** Every notification comes from a transaction of the new list whose
      status differs from its previous entry and became COMPLETED or FAILED. */
  lemma {:induction false} NotesHaveCause(previous: seq<Transaction>, current: seq<Transaction>, n: nat, note: Notification)
    requires n <= |current|
    requires note in NotesUpTo(previous, current, n)
    ensures exists i :: 0 <= i < n && NotificationFor(previous, current[i]) == Some(note)
  {
    if n > 0 {
      var last := NotificationFor(previous, current[n - 1]);
      if note in NotesUpTo(previous, current, n - 1) {
        NotesHaveCause(previous, current, n - 1, note);
      } else {
        assert last == Some(note);
      }
    }
  }

  /** A list compared with itself gives no notification when contract ids are distinct. */
  lemma {:induction false} UnchangedListIsQuiet(list: seq<Transaction>, n: nat)
    requires n <= |list|
    requires forall i, j :: 0 <= i < j < |list| ==> list[i].contractId != list[j].contractId
    ensures NotesUpTo(list, list, n) == []
  {
    if n > 0 {
      UnchangedListIsQuiet(list, n - 1);
      var tx := list[n - 1];
      var found := FindByContractId(list, tx.contractId);
      assert found == Some(tx);
    }
  }

  /** The `for` loop of the effect. */
  method CollectNotifications(previous: seq<Transaction>, current: seq<Transaction>) returns (notes: seq<Notification>)
    requires |previous| > 0 && |current| > 0
    ensures notes == Notifications(previous, current)
  {
    notes := [];
    for i := 0 to |current|
      invariant notes == NotesUpTo(previous, current, i)
    {
      var tx := current[i];
      var before := FindByContractId(previous, tx.contractId);
      if before.Some? && before.value.status != tx.status {
        if tx.status == Completed {
          notes := notes + [SuccessNote(Who(tx) + " completed successfully!")];
        } else if tx.status == Failed {
          notes := notes + [ErrorNote(Who(tx) + " failed")];
        }
      }
    }
  }

  /** The effect's memory of the last list, and the notifications shown so far. */
  class StatusWatcher {
    var previous: seq<Transaction>
    var shown: seq<Notification>

    constructor (initial: seq<Transaction>)
      ensures previous == initial && shown == []
    {
      previous := initial;
      shown := [];
    }

    /** One run of the effect: notify, then remember the new list. */
    method OnTransactions(current: seq<Transaction>)
      modifies this
      ensures previous == current
      ensures shown == old(shown) + Notifications(old(previous), current)
    {
      if |previous| == 0 || |current| == 0 {
        previous := current;
        return;
      }
      var notes := CollectNotifications(previous, current);
      shown := shown + notes;
      previous := current;
    }
  }

  /** The click on the balance: 0 sats, 1 USD, 2 hidden, then 0 again. */
  function NextVisibility(v: nat): (r: nat)
    ensures r < 3
    ensures v < 2 ==> r == v + 1
    ensures v == 2 ==> r == 0
  {
    (v + 1) % 3
  }

  /** Three clicks bring the display back. */
  lemma VisibilityCycles(v: nat)
    requires v < 3
    ensures NextVisibility(NextVisibility(NextVisibility(v))) == v
    ensures NextVisibility(v) != v
  {
  }

  /** What `getBalanceWithVisibility` shows. */
  datatype BalanceDisplay = LoadingBalance | InSats | InUsd | Hidden | Nothing

  function BalanceShown(balanceKnown: bool, v: nat): (d: BalanceDisplay)
    ensures !balanceKnown <==> d == LoadingBalance
    ensures d == Nothing <==> balanceKnown && v > 2
    ensures balanceKnown ==> (v == 0 <==> d == InSats) && (v == 1 <==> d == InUsd) && (v == 2 <==> d == Hidden)
  {
    if !balanceKnown then LoadingBalance
    else if v == 0 then InSats
    else if v == 1 then InUsd
    else if v == 2 then Hidden
    else Nothing
  }

  /** Send and Receive are off without a connection, a balance or an address. */
  predicate ButtonsDisabled(connected: bool, balanceKnown: bool, hasAddress: bool)
  {
    !connected || !balanceKnown || !hasAddress
  }

  /** Both buttons are on exactly when connected, with a balance and an address. */
  lemma ButtonsEnabledIff(connected: bool, balanceKnown: bool, hasAddress: bool)
    ensures !ButtonsDisabled(connected, balanceKnown, hasAddress) <==> connected && balanceKnown && hasAddress
  {
  }

  /** Whenever Send and Receive are on, the balance display has left the
      loading state, whichever visibility is selected. */
  lemma EnabledButtonsShowBalance(connected: bool, balanceKnown: bool, hasAddress: bool, v: nat)
    requires !ButtonsDisabled(connected, balanceKnown, hasAddress)
    ensures BalanceShown(balanceKnown, v) != LoadingBalance
    ensures v < 3 ==> BalanceShown(balanceKnown, v) != Nothing
  {
  }
}
