/** The classifications the dashboard components compute from their props:
    the counts and controls of the blockchain card
    (src/components/dashboard/BlockchainCard.jsx), the transaction dialog's
    guard, record updates, risk colour and truncations
    (src/components/dashboard/TransactionModal.jsx), and the rows of the
    transaction table (src/components/dashboard/BlockchainTransactions.jsx). */
module Components {
  import opened Js
  import opened Blockchain

  // BlockchainCard

  /** `transactions.filter(tx => tx.verified)` */
  function VerifiedOnes(txs: seq<Transaction>): (r: seq<Transaction>)
    ensures |r| <= |txs|
    ensures forall t :: t in r <==> t in txs && t.verified
  {
    if txs == [] then []
    else (if txs[0].verified then [txs[0]] else []) + VerifiedOnes(txs[1..])
  }

  /** `transactions.filter(tx => !tx.verified)` */
  function PendingOnes(txs: seq<Transaction>): (r: seq<Transaction>)
    ensures |r| <= |txs|
    ensures forall t :: t in r <==> t in txs && !t.verified
  {
    if txs == [] then []
    else (if !txs[0].verified then [txs[0]] else []) + PendingOnes(txs[1..])
  }

  /** `transactions.filter(tx => tx.riskScore > 70)` */
  function HighRiskOnes(txs: seq<Transaction>): (r: seq<Transaction>)
    ensures |r| <= |txs|
    ensures forall t :: t in r <==> t in txs && t.riskScore > 70
  {
    if txs == [] then []
    else (if txs[0].riskScore > 70 then [txs[0]] else []) + HighRiskOnes(txs[1..])
  }

  /** Every transaction is counted as verified or as pending, never both. */
  lemma {:induction false} VerifiedPlusPendingIsTotal(txs: seq<Transaction>)
    ensures |VerifiedOnes(txs)| + |PendingOnes(txs)| == |txs|
  {
    if txs != [] {
      VerifiedPlusPendingIsTotal(txs[1..]);
    }
  }

  predicate IsVerified(t: Transaction) { t.verified }
  predicate IsPending(t: Transaction) { !t.verified }
  predicate IsHighRisk(t: Transaction) { t.riskScore > 70 }

  /** The positions of a list whose transaction satisfies `p`. */
  ghost function Positions(txs: seq<Transaction>, p: Transaction -> bool): set<int> {
    set i | 0 <= i < |txs| && p(txs[i])
  }

  /** One more transaction adds its own position exactly when it satisfies
      `p`. */
  lemma PositionsSnoc(init: seq<Transaction>, last: Transaction, p: Transaction -> bool)
    ensures |Positions(init + [last], p)| == |Positions(init, p)| + (if p(last) then 1 else 0)
  {
    var txs := init + [last];
    var added: set<int> := if p(last) then {|init|} else {};
    forall i
      ensures i in Positions(txs, p) <==> i in Positions(init, p) + added
    {
      if 0 <= i < |init| {
        assert txs[i] == init[i];
      }
    }
    assert Positions(txs, p) == Positions(init, p) + added;
    assert Positions(init, p) !! added;
  }

  /** `VerifiedOnes` distributes over concatenation, which with its value on the
      empty list fixes it for every list, duplicates and order included. */
  lemma {:induction false} VerifiedOnesAppend(a: seq<Transaction>, b: seq<Transaction>)
    ensures VerifiedOnes(a + b) == VerifiedOnes(a) + VerifiedOnes(b)
    decreases |a|
  {
    if a == [] {
      assert a + b == b;
    } else {
      assert (a + b)[1..] == a[1..] + b;
      VerifiedOnesAppend(a[1..], b);
    }
  }

  /** The count the card shows is the number of positions holding a
      transaction that is verified. */
  lemma {:induction false} VerifiedOnesCount(txs: seq<Transaction>)
    ensures |VerifiedOnes(txs)| == |Positions(txs, IsVerified)|
    decreases |txs|
  {
    if txs != [] {
      var init, last := txs[..|txs| - 1], txs[|txs| - 1];
      assert txs == init + [last];
      VerifiedOnesCount(init);
      VerifiedOnesAppend(init, [last]);
      assert [last][1..] == [];
      PositionsSnoc(init, last, IsVerified);
    }
  }

  /** `PendingOnes` distributes over concatenation, which with its value on the
      empty list fixes it for every list, duplicates and order included. */
  lemma {:induction false} PendingOnesAppend(a: seq<Transaction>, b: seq<Transaction>)
    ensures PendingOnes(a + b) == PendingOnes(a) + PendingOnes(b)
    decreases |a|
  {
    if a == [] {
      assert a + b == b;
    } else {
      assert (a + b)[1..] == a[1..] + b;
      PendingOnesAppend(a[1..], b);
    }
  }

  /** The count the card shows is the number of positions holding a
      transaction that is unverified. */
  lemma {:induction false} PendingOnesCount(txs: seq<Transaction>)
    ensures |PendingOnes(txs)| == |Positions(txs, IsPending)|
    decreases |txs|
  {
    if txs != [] {
      var init, last := txs[..|txs| - 1], txs[|txs| - 1];
      assert txs == init + [last];
      PendingOnesCount(init);
      PendingOnesAppend(init, [last]);
      assert [last][1..] == [];
      PositionsSnoc(init, last, IsPending);
    }
  }

  /** `HighRiskOnes` distributes over concatenation, which with its value on the
      empty list fixes it for every list, duplicates and order included. */
  lemma {:induction false} HighRiskOnesAppend(a: seq<Transaction>, b: seq<Transaction>)
    ensures HighRiskOnes(a + b) == HighRiskOnes(a) + HighRiskOnes(b)
    decreases |a|
  {
    if a == [] {
      assert a + b == b;
    } else {
      assert (a + b)[1..] == a[1..] + b;
      HighRiskOnesAppend(a[1..], b);
    }
  }

  /** The count the card shows is the number of positions holding a
      transaction that is scored above 70. */
  lemma {:induction false} HighRiskOnesCount(txs: seq<Transaction>)
    ensures |HighRiskOnes(txs)| == |Positions(txs, IsHighRisk)|
    decreases |txs|
  {
    if txs != [] {
      var init, last := txs[..|txs| - 1], txs[|txs| - 1];
      assert txs == init + [last];
      HighRiskOnesCount(init);
      HighRiskOnesAppend(init, [last]);
      assert [last][1..] == [];
      PositionsSnoc(init, last, IsHighRisk);
    }
  }

  /** A score of exactly 70 is not high risk; 71 is: appended to any list,
      the first leaves the high-risk count as it was and the second raises
      it by one. */
  lemma HighRiskIsStrict(txs: seq<Transaction>, t: Transaction)
    ensures |HighRiskOnes(txs + [t.(riskScore := 70)])| == |HighRiskOnes(txs)|
    ensures |HighRiskOnes(txs + [t.(riskScore := 71)])| == |HighRiskOnes(txs)| + 1
  {
    HighRiskOnesAppend(txs, [t.(riskScore := 70)]);
    HighRiskOnesAppend(txs, [t.(riskScore := 71)]);
    assert [t.(riskScore := 70)][1..] == [];
    assert [t.(riskScore := 71)][1..] == [];
  }

  /** The status badge's text. */
  function StatusLabel(status: Value): (s: string)
    ensures s == "Connected" <==> Truthy(Get(status, "connected"))
    ensures s == "Not Connected" <==> !Truthy(Get(status, "connected"))
  {
    if Truthy(Get(status, "connected")) then "Connected" else "Not Connected"
  }

  /** What the card's footer offers. */
  datatype WalletControl = ConnectButton(caption: string, disabled: bool) | ViewTransactionsLink

  /** The connect button without a wallet, the link to the table with one. */
  function WalletControlFor(status: Value, connectingWallet: bool): (c: WalletControl)
    ensures c.ConnectButton? <==> !Truthy(Get(status, "hasWallet"))
    ensures c.ConnectButton? ==> (c.disabled <==> connectingWallet)
    ensures c.ConnectButton? ==> (c.caption == "Connecting..." <==> connectingWallet)
    ensures c.ConnectButton? ==> (c.caption == "Connect Wallet" <==> !connectingWallet)
  {
    if !Truthy(Get(status, "hasWallet")) then
      ConnectButton(if connectingWallet then "Connecting..." else "Connect Wallet", connectingWallet)
    else ViewTransactionsLink
  }

  /** A status the service adopted from the connector offers the link
      exactly when the connector reported a wallet. */
  lemma ControlFollowsReportedWallet(s: ConnectionStatus, connectingWallet: bool)
    ensures WalletControlFor(StatusValue(s), connectingWallet) == ViewTransactionsLink <==> s.hasWallet
  {
  }

  // Shared risk colouring

  datatype RiskBand = HighRisk | MediumRisk | LowRisk

  /** Above 75 is high, 51 to 75 medium, the rest low. */
  function RiskBandOf(score: int): (b: RiskBand)
    ensures b == HighRisk <==> score > 75
    ensures b == MediumRisk <==> 50 < score <= 75
    ensures b == LowRisk <==> score <= 50
  {
    if score > 75 then HighRisk else if score > 50 then MediumRisk else LowRisk
  }

  function Hue(b: RiskBand): string {
    match b
    case HighRisk => "red"
    case MediumRisk => "yellow"
    case LowRisk => "green"
  }

  // TransactionModal

  /** The dialog renders only when it is open and has a transaction. */
  function ModalShown(showModal: Value, transaction: Value): (shown: bool)
    ensures shown <==> Truthy(showModal) && Truthy(transaction)
  {
    !(!Truthy(showModal) || !Truthy(transaction))
  }

  /** The draft risk assessment the dialog edits. */
  datatype Assessment = Assessment(score: int, flagged: bool)

  /** The slider's `onChange`: the new score, the flag kept. */
  function OnSliderChange(a: Assessment, value: int): (r: Assessment)
    ensures r.score == value && r.flagged == a.flagged
  {
    a.(score := value)
  }

  /** The checkbox's `onChange`: the flag negated, the score kept. */
  function OnCheckboxChange(a: Assessment): (r: Assessment)
    ensures r.flagged == !a.flagged && r.score == a.score
  {
    a.(flagged := !a.flagged)
  }

  /** Toggling twice restores the draft; sliding back to the old score
      restores it too. */
  lemma AssessmentUpdatesUndo(a: Assessment, value: int)
    ensures OnCheckboxChange(OnCheckboxChange(a)) == a
    ensures OnSliderChange(OnSliderChange(a, value), a.score) == a
  {
  }

  /** The colour class of the draft score. */
  function ModalScoreColour(score: int): string {
    if score > 75 then "text-red-400" else if score > 50 then "text-yellow-400" else "text-green-400"
  }

  /** `s.substring(0, n) + "..."`: the text shows the first n characters. */
  function Truncated(s: string, n: nat): (r: string)
    ensures |r| == (if |s| < n then |s| else n) + 3
    ensures r[..|r| - 3] <= s && r[|r| - 3..] == "..."
  {
    Prefix(s, n) + "..."
  }

  /** The id as the dialog shows it. */
  function ModalIdText(id: string): (r: string)
    ensures r == Truncated(id, 14)
    ensures |id| >= 14 ==> r == id[..14] + "..."
  {
    Truncated(id, 14)
  }

  /** The hash line, shown only for a non-empty hash. */
  function ModalHashText(hash: Option<string>): (r: Option<string>)
    ensures r.Some? <==> hash.Some? && hash.value != ""
    ensures r.Some? ==> r.value == Truncated(hash.value, 22)
  {
    match hash
    case Some(h) => if h != "" then Some(Truncated(h, 22)) else None
    case None => None
  }

  /** The verification line's text. */
  function VerifiedLabel(verified: bool): (s: string)
    ensures s == "Verified" <==> verified
    ensures s == "Pending Verification" <==> !verified
  {
    if verified then "Verified" else "Pending Verification"
  }

  // BlockchainTransactions

  /** What one table row shows. */
  datatype Row = Row(key: string, idText: string, barClass: string, barWidth: string, textClass: string, status: string)

  function BarClass(score: int): string {
    if score > 75 then "bg-red-500" else if score > 50 then "bg-yellow-500" else "bg-green-500"
  }

  function TextClass(score: int): string {
    if score > 75 then "text-red-400" else if score > 50 then "text-yellow-400" else "text-green-400"
  }

  /** The row for one transaction. */
  function RowFor(tx: Transaction): (row: Row)
    ensures row.key == tx.transactionId
    ensures row.idText == Truncated(tx.transactionId, 10)
    ensures row.status == "Flagged" <==> tx.flagged
    ensures row.status == "Clear" <==> !tx.flagged
    ensures row.barWidth == IntToString(tx.riskScore) + "%"
  {
    Row(tx.transactionId, Truncated(tx.transactionId, 10), BarClass(tx.riskScore),
        IntToString(tx.riskScore) + "%", TextClass(tx.riskScore),
        if tx.flagged then "Flagged" else "Clear")
  }

  /** `transactions.map(tx => <tr ...>)` */
  function Rows(txs: seq<Transaction>): (rows: seq<Row>)
    ensures |rows| == |txs|
    ensures forall i :: 0 <= i < |txs| ==> rows[i] == RowFor(txs[i])
  {
    if txs == [] then [] else [RowFor(txs[0])] + Rows(txs[1..])
  }

  /** The bar, the score text and the dialog's score colour all follow the
      same risk band. */
  lemma ColoursFollowRiskBand(score: int)
    ensures BarClass(score) == "bg-" + Hue(RiskBandOf(score)) + "-500"
    ensures TextClass(score) == "text-" + Hue(RiskBandOf(score)) + "-400"
    ensures ModalScoreColour(score) == TextClass(score)
  {
    if score > 75 {
      assert "bg-" + "red" + "-500" == "bg-red-500" && "text-" + "red" + "-400" == "text-red-400";
    } else if score > 50 {
      assert "bg-" + "yellow" + "-500" == "bg-yellow-500" && "text-" + "yellow" + "-400" == "text-yellow-400";
    } else {
      assert "bg-" + "green" + "-500" == "bg-green-500" && "text-" + "green" + "-400" == "text-green-400";
    }
  }

  /** A mock transaction's row is flagged exactly when its bar is red. */
  lemma MockRowsFlagRedBars(d: MockDraw, now: int)
    requires DrawInRange(d)
    ensures var row := RowFor(MockTransaction(d, now));
      row.status == "Flagged" <==> row.barClass == "bg-red-500"
  {
  }
}
