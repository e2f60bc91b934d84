/** The blockchain service's bookkeeping (src/utils/blockchain-service.js):
    the `initialized` flag, the connection status and its saved copy in
    `localStorage`, and the transaction history. The connector is an oracle:
    each call to it is a parameter saying how it answered. */
module Blockchain {
  import opened Js

  /** What the connector's `getStatus()` reports. */
  datatype ConnectionStatus = ConnectionStatus(connected: bool, contractAddress: string, networkUrl: string, hasWallet: bool)

  /** The status the service starts with. */
  const Disconnected := ConnectionStatus(false, "", "", false)

  /** The status as the JavaScript object the service holds and saves. */
  function StatusValue(s: ConnectionStatus): (v: Value)
    ensures Truthy(v)
    ensures Truthy(Get(v, "hasWallet")) <==> s.hasWallet
    ensures Truthy(Get(v, "connected")) <==> s.connected
  {
    Obj(map["connected" := Bool(s.connected), "contractAddress" := Str(s.contractAddress),
            "networkUrl" := Str(s.networkUrl), "hasWallet" := Bool(s.hasWallet)])
  }

  /** A transaction record. `kind` is the source's `type`; the amount is in
      cents. */
  datatype Transaction = Transaction(
    transactionId: string,
    kind: string,
    amountCents: int,
    currency: string,
    source: string,
    riskScore: int,
    flagged: bool,
    timestamp: int,
    verified: bool,
    blockchainTxHash: Option<string>,
    blockNumber: Option<int>)

  /** How the connector answered `initialize()` or `connectWallet()`: its
      boolean result and what `getStatus()` then reports, or an exception. */
  datatype ConnectorAnswer = Answered(ok: bool, status: ConnectionStatus) | ConnectorThrew

  /** How the connector answered `logTransaction(...)`. */
  datatype LogAnswer =
    | LogSucceeded(transactionHash: string, blockNumber: int)
    | LogFailed(error: Value)
    | LogThrew(message: string)

  /** The calls the service made on the connector. */
  datatype ConnectorCall =
    | InitializeCall
    | ConnectWalletCall
    | LogTransactionCall(transactionId: string, riskScore: int, flagged: bool)

  /** The "blockchainConnectionState" entry of `localStorage`: absent (or
      empty), present but not JSON, or the parsed document. */
  datatype Saved = Missing | Unparsable | Document(doc: Value)

  /** The part of the service's state that is saved and restored. */
  datatype Connection = Connection(initialized: bool, status: Value)

  /** How a service method settles: a value, or an `Error` with its message. */
  datatype Outcome<T> = Succeeded(value: T) | Failed(message: string)

  const WalletMessage := "Wallet not connected. Please connect wallet first."
  const LogFailedMessage := "Failed to log transaction to blockchain"

  /** The document `saveConnectionState` writes. */
  function SavedDocument(c: Connection): Value {
    Obj(map["initialized" := Bool(c.initialized), "connectionStatus" := c.status])
  }

  /** `restoreConnectionState` from `current`: a parsed document supplies
      `initialized || false` and `connectionStatus || current`; a missing
      entry, a parse error, or a null document (whose property read throws
      and is caught) leaves `current`. */
  function Restored(saved: Saved, current: Connection): Connection {
    match saved
    case Document(doc) =>
      if Nullish(doc) then current
      else Connection(Truthy(Or(Get(doc, "initialized"), Bool(false))),
                      Or(Get(doc, "connectionStatus"), current.status))
    case _ => current
  }

  /** Restoring what was saved gives back the saved state, whatever the
      current state is. */
  lemma RestoreAfterSave(c: Connection, current: Connection)
    requires Truthy(c.status)
    ensures Restored(Document(SavedDocument(c)), current) == c
  {
    assert Get(SavedDocument(c), "initialized") == Bool(c.initialized);
    assert Get(SavedDocument(c), "connectionStatus") == c.status;
  }

  /** Missing fields fall back to `false` and the current status. */
  lemma RestoreFallbacks(fields: map<string, Value>, current: Connection)
    requires "initialized" !in fields && "connectionStatus" !in fields
    ensures Restored(Document(Obj(fields)), current) == Connection(false, current.status)
  {
  }

  /** Restoring never leaves a falsy status behind when the current one is
      truthy, so `connectionStatus.hasWallet` can always be read. */
  lemma RestoreKeepsStatusTruthy(saved: Saved, current: Connection)
    requires Truthy(current.status)
    ensures Truthy(Restored(saved, current).status)
  {
  }

  /** `transactionHistory.findIndex(tx => tx.transactionId === id)`: the
      first index holding `id`, or -1. */
  function IndexOf(txs: seq<Transaction>, id: string): (k: int)
    ensures -1 <= k < |txs|
    ensures k >= 0 ==> txs[k].transactionId == id
    ensures k >= 0 ==> forall j :: 0 <= j < k ==> txs[j].transactionId != id
    ensures k == -1 <==> forall j :: 0 <= j < |txs| ==> txs[j].transactionId != id
  {
    if txs == [] then -1
    else if txs[0].transactionId == id then 0
    else
      var k := IndexOf(txs[1..], id);
      if k == -1 then -1 else k + 1
  }

  /** The search loop of `findIndex`. */
  method FindIndex(txs: seq<Transaction>, id: string) returns (k: int)
    ensures k == IndexOf(txs, id)
  {
    var i := 0;
    while i < |txs|
      invariant 0 <= i <= |txs|
      invariant forall j :: 0 <= j < i ==> txs[j].transactionId != id
    {
      if txs[i].transactionId == id {
        return i;
      }
      i := i + 1;
    }
    return -1;
  }

  const TransactionTypes := ["Payment", "Fund Transfer", "Withdrawal", "Deposit", "Currency Exchange"]
  const TransactionSources := ["Mobile App", "Web Portal", "API Integration", "ATM", "Bank Branch"]
  const MaxAge := 3600000

  /** The `Math.random()` draws one mock transaction takes, already scaled
      and floored as the source does. */
  datatype MockDraw = MockDraw(risk: int, idSuffix: int, typeIndex: int, amountCents: int, sourceIndex: int, age: int)

  /** Each draw lies in the range `Math.floor(Math.random() * n)` yields. */
  predicate DrawInRange(d: MockDraw) {
    && 0 <= d.risk < 100
    && 0 <= d.idSuffix < 1000
    && 0 <= d.typeIndex < |TransactionTypes|
    && 0 <= d.amountCents < 10000
    && 0 <= d.sourceIndex < |TransactionSources|
    && 0 <= d.age < MaxAge
  }

  /** The id of a mock transaction: "TX-", the time, "-", the suffix. */
  function MockId(now: int, suffix: int): (id: string)
    ensures |id| > 3 && id[..3] == "TX-"
  {
    "TX-" + IntToString(now) + "-" + IntToString(suffix)
  }

  /** One mock transaction made at time `now`. */
  function MockTransaction(d: MockDraw, now: int): (t: Transaction)
    requires DrawInRange(d)
    ensures 0 <= t.riskScore <= 99
    ensures t.flagged <==> t.riskScore > 75
    ensures !t.verified && t.blockchainTxHash.None? && t.blockNumber.None?
    ensures t.kind in TransactionTypes && t.source in TransactionSources && t.currency == "USD"
    ensures now - MaxAge < t.timestamp <= now
    ensures 0 <= t.amountCents < 10000
  {
    Transaction(MockId(now, d.idSuffix),
                TransactionTypes[d.typeIndex], d.amountCents, "USD",
                TransactionSources[d.sourceIndex], d.risk, d.risk > 75,
                now - d.age, false, None, None)
  }

  /** The records made from `draws`, one per draw, in order. */
  function MockTransactions(draws: seq<MockDraw>, now: int): (txs: seq<Transaction>)
    requires forall i :: 0 <= i < |draws| ==> DrawInRange(draws[i])
    ensures |txs| == |draws|
  {
    if draws == [] then []
    else MockTransactions(draws[..|draws| - 1], now) + [MockTransaction(draws[|draws| - 1], now)]
  }

  /** The i-th record is made from the i-th draw. */
  lemma {:induction false} MockTransactionsAt(draws: seq<MockDraw>, now: int, i: int)
    requires forall j :: 0 <= j < |draws| ==> DrawInRange(draws[j])
    requires 0 <= i < |draws|
    ensures MockTransactions(draws, now)[i] == MockTransaction(draws[i], now)
  {
    var init := draws[..|draws| - 1];
    if i < |draws| - 1 {
      MockTransactionsAt(init, now, i);
      assert init[i] == draws[i];
    }
  }

  /** Every generated record is unverified, scored 0 to 99, and flagged
      exactly when its score is above 75. */
  lemma MockTransactionsClassified(draws: seq<MockDraw>, now: int)
    requires forall j :: 0 <= j < |draws| ==> DrawInRange(draws[j])
    ensures forall t :: t in MockTransactions(draws, now) ==>
      0 <= t.riskScore <= 99 && (t.flagged <==> t.riskScore > 75) && !t.verified && t.blockNumber.None?
  {
    var txs := MockTransactions(draws, now);
    forall t | t in txs
      ensures 0 <= t.riskScore <= 99 && (t.flagged <==> t.riskScore > 75) && !t.verified && t.blockNumber.None?
    {
      var i :| 0 <= i < |txs| && txs[i] == t;
      MockTransactionsAt(draws, now, i);
    }
  }

  /** The loop of `generateMockTransactions(count)`: one record per draw,
      none for a count of zero or less. */
  method BuildMockTransactions(count: int, draws: seq<MockDraw>, now: int) returns (txs: seq<Transaction>)
    requires count <= |draws|
    requires forall i :: 0 <= i < |draws| ==> DrawInRange(draws[i])
    ensures |txs| == if count > 0 then count else 0
    ensures txs == MockTransactions(draws[..|txs|], now)
  {
    var n := if count > 0 then count else 0;
    txs := [];
    var i := 0;
    while i < n
      invariant 0 <= i <= n
      invariant txs == MockTransactions(draws[..i], now)
    {
      assert draws[..i + 1][..i] == draws[..i];
      txs := txs + [MockTransaction(draws[i], now)];
      i := i + 1;
    }
  }

  /** The service object. */
  class BlockchainService {
    var initialized: bool
    /** The status object, as restored or as the connector reported it. */
    var connectionStatus: Value
    var transactionHistory: seq<Transaction>
    /** `initializationPromise !== null`: an initialization is under way. */
    var initializing: bool
    /** The "blockchainConnectionState" entry of `localStorage`. */
    var saved: Saved
    /** Every call made on the connector, in order. */
    var connectorCalls: seq<ConnectorCall>

    /** Between calls no initialization is under way, and the status is an
        object whose properties can be read. */
    ghost predicate Valid()
      reads this
    {
      Truthy(connectionStatus) && !initializing
    }

    /** `connectionStatus.hasWallet` */
    predicate HasWallet()
      reads this
    {
      Truthy(Get(connectionStatus, "hasWallet"))
    }

    /** The constructor: the defaults, then `restoreConnectionState()`. */
    constructor (stored: Saved)
      ensures Valid()
      ensures Connection(initialized, connectionStatus) == Restored(stored, Connection(false, StatusValue(Disconnected)))
      ensures transactionHistory == [] && saved == stored && connectorCalls == []
    {
      initialized := false;
      connectionStatus := StatusValue(Disconnected);
      transactionHistory := [];
      initializing := false;
      saved := stored;
      connectorCalls := [];
      new;
      RestoreConnectionState();
    }

    /** `restoreConnectionState()` */
    method RestoreConnectionState()
      requires Truthy(connectionStatus)
      modifies this
      ensures Truthy(connectionStatus)
      ensures Connection(initialized, connectionStatus) == Restored(saved, old(Connection(initialized, connectionStatus)))
      ensures saved == old(saved) && initializing == old(initializing)
      ensures transactionHistory == old(transactionHistory) && connectorCalls == old(connectorCalls)
    {
      RestoreKeepsStatusTruthy(saved, Connection(initialized, connectionStatus));
      var c := Restored(saved, Connection(initialized, connectionStatus));
      initialized := c.initialized;
      connectionStatus := c.status;
    }

    /** `saveConnectionState()` */
    method SaveConnectionState()
      modifies this
      ensures saved == Document(SavedDocument(Connection(initialized, connectionStatus)))
      ensures initialized == old(initialized) && connectionStatus == old(connectionStatus)
      ensures initializing == old(initializing)
      ensures transactionHistory == old(transactionHistory) && connectorCalls == old(connectorCalls)
    {
      saved := Document(SavedDocument(Connection(initialized, connectionStatus)));
    }

    /** `_doInitialization()`: asks the connector, adopts and saves its
        status on success, and ends with no initialization under way
        whatever happened. */
    method DoInitialization(answer: ConnectorAnswer) returns (ok: bool)
      requires Truthy(connectionStatus)
      modifies this
      ensures Valid()
      ensures connectorCalls == old(connectorCalls) + [InitializeCall]
      ensures transactionHistory == old(transactionHistory)
      ensures ok <==> answer.Answered? && answer.ok
      ensures answer.Answered? ==> initialized == answer.ok
      ensures answer.ConnectorThrew? ==> initialized == old(initialized)
      ensures ok ==> (connectionStatus == StatusValue(answer.status)
        && saved == Document(SavedDocument(Connection(true, StatusValue(answer.status)))))
      ensures !ok ==> connectionStatus == old(connectionStatus) && saved == old(saved)
    {
      connectorCalls := connectorCalls + [InitializeCall];
      match answer {
        case ConnectorThrew =>
          ok := false;
        case Answered(result, status) =>
          initialized := result;
          if result {
            connectionStatus := StatusValue(status);
            SaveConnectionState();
            ok := true;
          } else {
            ok := false;
          }
      }
      initializing := false;
    }

    /** `initialize()`: an initialized service answers true at once and
        leaves the connector alone; otherwise it runs `_doInitialization`. */
    method Initialize(answer: ConnectorAnswer) returns (ok: bool)
      requires Valid()
      modifies this
      ensures Valid()
      ensures transactionHistory == old(transactionHistory)
      ensures old(initialized) ==> (ok && initialized && connectorCalls == old(connectorCalls)
        && connectionStatus == old(connectionStatus) && saved == old(saved))
      ensures !old(initialized) ==> (connectorCalls == old(connectorCalls) + [InitializeCall]
        && (ok <==> answer.Answered? && answer.ok)
        && (initialized <==> ok))
      ensures !old(initialized) && ok ==> (connectionStatus == StatusValue(answer.status)
        && saved == Document(SavedDocument(Connection(true, connectionStatus))))
      ensures !ok ==> connectionStatus == old(connectionStatus) && saved == old(saved)
    {
      if initialized {
        return true;
      }
      initializing := true;
      ok := DoInitialization(answer);
    }

    /** `connectWallet(provider)`: initializes first when needed (its result
        is ignored), then asks the connector; a connected wallet's status is
        adopted and saved. */
    method ConnectWallet(initAnswer: ConnectorAnswer, walletAnswer: ConnectorAnswer) returns (connected: bool)
      requires Valid()
      modifies this
      ensures Valid()
      ensures transactionHistory == old(transactionHistory)
      ensures connectorCalls == old(connectorCalls) + (if old(initialized) then [] else [InitializeCall]) + [ConnectWalletCall]
      ensures old(initialized) ==> initialized
      ensures !old(initialized) ==> (initialized <==> initAnswer.Answered? && initAnswer.ok)
      ensures connected <==> walletAnswer.Answered? && walletAnswer.ok
      ensures connected ==> (connectionStatus == StatusValue(walletAnswer.status)
        && saved == Document(SavedDocument(Connection(initialized, connectionStatus))))
      ensures !connected && old(initialized) ==> connectionStatus == old(connectionStatus) && saved == old(saved)
      ensures !connected && !old(initialized) && initialized ==> (connectionStatus == StatusValue(initAnswer.status)
        && saved == Document(SavedDocument(Connection(true, StatusValue(initAnswer.status)))))
      ensures !connected && !old(initialized) && !initialized ==>
        connectionStatus == old(connectionStatus) && saved == old(saved)
      ensures connected && walletAnswer.status.hasWallet ==> HasWallet()
    {
      if !initialized {
        var _ := Initialize(initAnswer);
      }
      connectorCalls := connectorCalls + [ConnectWalletCall];
      match walletAnswer {
        case ConnectorThrew =>
          connected := false;
        case Answered(result, status) =>
          if result {
            connectionStatus := StatusValue(status);
            SaveConnectionState();
          }
          connected := result;
      }
    }

    /** `logTransaction(tx)`: refused without a wallet; otherwise the
        connector is asked and, on success, one verified record carrying its
        hash and block number is appended. */
    method LogTransaction(tx: Transaction, answer: LogAnswer, now: int) returns (r: Outcome<Transaction>)
      requires Valid()
      modifies this
      ensures Valid()
      ensures initialized == old(initialized) && connectionStatus == old(connectionStatus) && saved == old(saved)
      ensures !old(HasWallet()) ==> (r == Failed(WalletMessage)
        && transactionHistory == old(transactionHistory) && connectorCalls == old(connectorCalls))
      ensures old(HasWallet()) ==>
        connectorCalls == old(connectorCalls) + [LogTransactionCall(tx.transactionId, tx.riskScore, tx.flagged)]
      ensures old(HasWallet()) && answer.LogSucceeded? ==>
        r == Succeeded(tx.(blockchainTxHash := Some(answer.transactionHash), blockNumber := Some(answer.blockNumber),
                           timestamp := now, verified := true))
        && transactionHistory == old(transactionHistory) + [r.value]
      ensures old(HasWallet()) && answer.LogFailed? ==>
        r == Failed(ToStr(Or(answer.error, Str(LogFailedMessage)))) && transactionHistory == old(transactionHistory)
      ensures old(HasWallet()) && answer.LogThrew? ==>
        r == Failed(answer.message) && transactionHistory == old(transactionHistory)
    {
      if !HasWallet() {
        return Failed(WalletMessage);
      }
      connectorCalls := connectorCalls + [LogTransactionCall(tx.transactionId, tx.riskScore, tx.flagged)];
      match answer {
        case LogSucceeded(hash, block) =>
          var newTx := tx.(blockchainTxHash := Some(hash), blockNumber := Some(block), timestamp := now, verified := true);
          transactionHistory := transactionHistory + [newTx];
          r := Succeeded(newTx);
        case LogFailed(error) =>
          r := Failed(ToStr(Or(error, Str(LogFailedMessage))));
        case LogThrew(message) =>
          r := Failed(message);
      }
    }

    /** `updateTransactionRisk(id, score, flagged)`: refused without a
        wallet; otherwise the first record with that id gets the new score
        and flag, and the answer says whether there was one. */
    method UpdateTransactionRisk(id: string, newRiskScore: int, newFlagged: bool) returns (r: Outcome<bool>)
      requires Valid()
      modifies this
      ensures Valid()
      ensures initialized == old(initialized) && connectionStatus == old(connectionStatus) && saved == old(saved)
      ensures connectorCalls == old(connectorCalls)
      ensures !old(HasWallet()) ==> r == Failed(WalletMessage) && transactionHistory == old(transactionHistory)
      ensures old(HasWallet()) ==>
        var k := IndexOf(old(transactionHistory), id);
        && (k == -1 ==> r == Succeeded(false) && transactionHistory == old(transactionHistory))
        && (k >= 0 ==> (r == Succeeded(true)
              && transactionHistory == old(transactionHistory)[k := old(transactionHistory)[k].(riskScore := newRiskScore, flagged := newFlagged)]))
    {
      if !HasWallet() {
        return Failed(WalletMessage);
      }
      var k := FindIndex(transactionHistory, id);
      if k >= 0 {
        transactionHistory := transactionHistory[k := transactionHistory[k].(riskScore := newRiskScore, flagged := newFlagged)];
        return Succeeded(true);
      }
      r := Succeeded(false);
    }

    /** `getTransactions()` */
    function GetTransactions(): (r: seq<Transaction>)
      reads this
      ensures r == transactionHistory
    {
      transactionHistory
    }

    /** `generateMockTransactions(count)`: the history is replaced by
        `count` fresh mock records. */
    method GenerateMockTransactions(count: int, draws: seq<MockDraw>, now: int) returns (txs: seq<Transaction>)
      requires count <= |draws|
      requires forall i :: 0 <= i < |draws| ==> DrawInRange(draws[i])
      modifies this
      ensures transactionHistory == txs
      ensures |txs| == if count > 0 then count else 0
      ensures txs == MockTransactions(draws[..|txs|], now)
      ensures initialized == old(initialized) && connectionStatus == old(connectionStatus)
      ensures saved == old(saved) && initializing == old(initializing) && connectorCalls == old(connectorCalls)
    {
      txs := BuildMockTransactions(count, draws, now);
      transactionHistory := txs;
    }
  }

  /** After an update the record that was found carries the new score and
      flag, every other field and every other record is as before, and the
      history keeps its length. */
  lemma UpdateChangesOnlyFirstMatch(txs: seq<Transaction>, id: string, score: int, flagged: bool)
    requires IndexOf(txs, id) >= 0
    ensures var k := IndexOf(txs, id);
      var after := txs[k := txs[k].(riskScore := score, flagged := flagged)];
      && |after| == |txs|
      && after[k].transactionId == id && after[k].riskScore == score && after[k].flagged == flagged
      && (forall j :: 0 <= j < |txs| && j != k ==> after[j] == txs[j])
      && IndexOf(after, id) == k
  {
  }
}
