/**
 * The transaction correlation store: an insertion-ordered map from
 * transaction id to its Transaction aggregate, fed by requests, responses and
 * webhooks, with the orphan listing and the derived views built on it.
 *
 * The wall clock is the `now` argument of each mutator; the random local ids
 * are drawn from a serial counter (`req_`, `res_` or `wh_` followed by digits).
 */
module Transactions {
  import opened Wrappers
  import opened JsValue
  import opened Text
  import opened UcpTypes

  // ---------------------------------------------------------------------------
  // Message construction and the correlation rules
  // ---------------------------------------------------------------------------

  /** Status of a response and of the request it completes. */
  function ResponseStatus(errors: Option<seq<ErrorEntry>>): (s: Status)
    ensures s == Failed <==> errors.Some? && |errors.value| > 0
    ensures s != Pending
  {
    if errors.Some? && |errors.value| > 0 then Failed else Completed
  }

  /** A new request: pending, with no parent, no orphan flag and no duration yet. */
  function NewRequest(id: string, tid: string, messageId: string, action: UcpAction, payload: Value, now: int): CorrelatedMessage {
    CorrelatedMessage(id, tid, messageId, RequestMessage, action, payload, None, None, now, None, Pending, None)
  }

  /** A new response naming its parent by local id and carrying the errors as received. */
  function NewResponse(id: string, tid: string, messageId: string, action: UcpAction, payload: Value,
                       parentId: string, errors: Option<seq<ErrorEntry>>, now: int): CorrelatedMessage {
    CorrelatedMessage(id, tid, messageId, ResponseMessage, action, payload, Some(parentId), None, now, None,
                      ResponseStatus(errors), errors)
  }

  /** A new webhook: always completed, with an explicit orphan flag. */
  function NewWebhook(id: string, tid: string, messageId: string, action: UcpAction, payload: Value,
                      isOrphan: bool, now: int): CorrelatedMessage {
    CorrelatedMessage(id, tid, messageId, WebhookMessage, action, payload, None, Some(isOrphan), now, None, Completed, None)
  }

  /** The transaction stored under `tid`, or the empty pending one a request or webhook creates for it. */
  function OrCreate(txns: map<string, Transaction>, tid: string, now: int): Transaction {
    if tid in txns then txns[tid] else Transaction(tid, Pending, [], None, now, now)
  }

  /** `messages.find(m => m.id === id)`: the position of the first message with that local id. */
  function FindById(msgs: seq<CorrelatedMessage>, id: string): (r: Option<nat>)
    ensures r.Some? ==> r.value < |msgs| && msgs[r.value].id == id
    ensures r.Some? ==> forall j :: 0 <= j < r.value ==> msgs[j].id != id
    ensures r.None? ==> forall j :: 0 <= j < |msgs| ==> msgs[j].id != id
  {
    if msgs == [] then None
    else if msgs[0].id == id then Some(0)
    else
      match FindById(msgs[1..], id)
      case None => None
      case Some(i) => Some(i + 1)
  }

  /** The transaction status after a response: only checkout completion and cancellation move it. */
  function StatusAfterResponse(action: UcpAction, errors: Option<seq<ErrorEntry>>, current: Status): (s: Status)
    ensures action == CompleteCheckout && errors.None? ==> s == Completed
    ensures action == CancelCheckout ==> s == Failed
    ensures action != CompleteCheckout && action != CancelCheckout ==> s == current
    ensures action == CompleteCheckout && errors.Some? ==> s == current
  {
    if action == CompleteCheckout && errors.None? then Completed
    else if action == CancelCheckout then Failed
    else current
  }

  /** The parent request once its response has arrived at time `now`. */
  function Completes(parent: CorrelatedMessage, errors: Option<seq<ErrorEntry>>, now: int): CorrelatedMessage {
    parent.(status := ResponseStatus(errors), duration := Some(now - parent.timestamp))
  }

  /**
   * The transaction after a response to `parentId`: the first message with
   * that local id is completed or failed and timed, the response is appended
   * whether or not a parent was found, and the transaction status follows the
   * action.
   */
  function Respond(t: Transaction, id: string, tid: string, messageId: string, action: UcpAction, payload: Value,
                   parentId: string, errors: Option<seq<ErrorEntry>>, now: int): (r: Transaction)
    ensures r.id == t.id && r.serverUrl == t.serverUrl && r.createdAt == t.createdAt && r.updatedAt == now
    ensures |r.messages| == |t.messages| + 1
    ensures r.messages[|t.messages|] == NewResponse(id, tid, messageId, action, payload, parentId, errors, now)
    ensures r.messages[|t.messages|].status == Failed <==> errors.Some? && |errors.value| > 0
    ensures forall i :: 0 <= i < |t.messages| && t.messages[i].id != parentId ==> r.messages[i] == t.messages[i]
    ensures forall i :: 0 <= i < |t.messages| && FindById(t.messages, parentId) != Some(i) ==> r.messages[i] == t.messages[i]
    ensures forall i :: 0 <= i < |t.messages| && FindById(t.messages, parentId) == Some(i) ==>
              && r.messages[i].status == r.messages[|t.messages|].status
              && r.messages[i].duration == Some(now - t.messages[i].timestamp)
              && r.messages[i] == t.messages[i].(status := r.messages[i].status, duration := r.messages[i].duration)
    ensures r.status == StatusAfterResponse(action, errors, t.status)
  {
    var response := NewResponse(id, tid, messageId, action, payload, parentId, errors, now);
    var status := StatusAfterResponse(action, errors, t.status);
    match FindById(t.messages, parentId)
    case Some(p) =>
      t.(messages := t.messages[p := Completes(t.messages[p], errors, now)] + [response], updatedAt := now, status := status)
    case None =>
      t.(messages := t.messages + [response], updatedAt := now, status := status)
  }

  /** `Respond` as `addResponse` performs it: complete the parent if one is found, push the response, then set the time and status. */
  lemma RespondUnfold(t: Transaction, id: string, tid: string, messageId: string, action: UcpAction, payload: Value,
                      parentId: string, errors: Option<seq<ErrorEntry>>, now: int)
    ensures var updated := if FindById(t.messages, parentId).Some?
                           then t.messages[FindById(t.messages, parentId).value := Completes(t.messages[FindById(t.messages, parentId).value], errors, now)]
                           else t.messages;
            Respond(t, id, tid, messageId, action, payload, parentId, errors, now)
            == t.(messages := updated + [NewResponse(id, tid, messageId, action, payload, parentId, errors, now)],
                  updatedAt := now, status := StatusAfterResponse(action, errors, t.status))
  {
  }

  // ---------------------------------------------------------------------------
  // Store invariant
  // ---------------------------------------------------------------------------

  /** Message `m` at position `i` of transaction `k`: it points back to `k`, and only the webhook that created `k` is an orphan. */
  predicate Belongs(k: string, i: int, m: CorrelatedMessage) {
    m.transactionId == k && (m.Orphan() ==> i == 0 && m.kind == WebhookMessage)
  }

  /** Transaction `t` as stored under key `k`. */
  predicate WellFormed(k: string, t: Transaction) {
    t.id == k && forall i :: 0 <= i < |t.messages| ==> Belongs(k, i, t.messages[i])
  }

  predicate NoDuplicates(s: seq<string>) {
    forall i, j :: 0 <= i < j < |s| ==> s[i] != s[j]
  }

  /** The store invariant: `order` lists each key once, and every transaction is well formed under its key. */
  ghost predicate StoreInv(txns: map<string, Transaction>, order: seq<string>) {
    && NoDuplicates(order)
    && (forall k :: k in txns <==> k in order)
    && (forall k :: k in txns ==> WellFormed(k, txns[k]))
  }

  /** A response to a well-formed transaction leaves it well formed: the response is no orphan and points back to it. */
  lemma RespondWellFormed(t: Transaction, id: string, tid: string, messageId: string, action: UcpAction, payload: Value,
                          parentId: string, errors: Option<seq<ErrorEntry>>, now: int)
    requires WellFormed(tid, t)
    ensures WellFormed(tid, Respond(t, id, tid, messageId, action, payload, parentId, errors, now))
  {
    var r := Respond(t, id, tid, messageId, action, payload, parentId, errors, now);
    forall i | 0 <= i < |r.messages| ensures Belongs(tid, i, r.messages[i]) {
      if i < |t.messages| {
        assert Belongs(tid, i, t.messages[i]);
      }
    }
  }

  /** Transaction `tid` after `m` is pushed onto it at time `now`, creating it first when it is unknown. */
  function Appended(txns: map<string, Transaction>, tid: string, m: CorrelatedMessage, now: int): Transaction {
    var t := OrCreate(txns, tid, now);
    t.(messages := t.messages + [m], updatedAt := now)
  }

  /** The insertion order after a write to `tid`: a new key goes last. */
  function OrderAfter(txns: map<string, Transaction>, order: seq<string>, tid: string): seq<string> {
    if tid in txns then order else order + [tid]
  }

  // ---------------------------------------------------------------------------
  // Orphans
  // ---------------------------------------------------------------------------

  /** The orphan messages of one transaction, in message order. */
  function OrphansIn(msgs: seq<CorrelatedMessage>): seq<CorrelatedMessage> {
    if msgs == [] then []
    else
      var last := msgs[|msgs| - 1];
      OrphansIn(msgs[..|msgs| - 1]) + (if last.Orphan() then [last] else [])
  }

  /** Every orphan message, transaction by transaction in insertion order, then in message order. */
  function CollectOrphans(txns: map<string, Transaction>, order: seq<string>): seq<CorrelatedMessage> {
    if order == [] then []
    else
      var k := order[|order| - 1];
      CollectOrphans(txns, order[..|order| - 1]) + (if k in txns then OrphansIn(txns[k].messages) else [])
  }

  lemma OrphansInAppend(msgs: seq<CorrelatedMessage>, m: CorrelatedMessage)
    ensures OrphansIn(msgs + [m]) == OrphansIn(msgs) + (if m.Orphan() then [m] else [])
  {
    assert (msgs + [m])[..|msgs|] == msgs;
  }

  /** The orphans of the first `j + 1` messages: those of the first `j`, then message `j` if it is an orphan. */
  lemma OrphansInStep(msgs: seq<CorrelatedMessage>, j: nat)
    requires j < |msgs|
    ensures OrphansIn(msgs[..j + 1]) == OrphansIn(msgs[..j]) + (if msgs[j].Orphan() then [msgs[j]] else [])
  {
    assert msgs[..j + 1][..j] == msgs[..j];
  }

  /** The orphan listing of the first `i + 1` keys: that of the first `i`, then the orphans of key `i`. */
  lemma CollectOrphansStep(txns: map<string, Transaction>, order: seq<string>, i: nat)
    requires i < |order| && order[i] in txns
    ensures CollectOrphans(txns, order[..i + 1]) == CollectOrphans(txns, order[..i]) + OrphansIn(txns[order[i]].messages)
  {
    assert order[..i + 1][..i] == order[..i];
  }

  /** An orphan listing of one transaction holds exactly its messages flagged as orphans. */
  lemma {:induction false} OrphansInMembership(msgs: seq<CorrelatedMessage>, m: CorrelatedMessage)
    ensures m in OrphansIn(msgs) <==> m in msgs && m.Orphan()
  {
    if msgs != [] {
      var pre := msgs[..|msgs| - 1];
      OrphansInMembership(pre, m);
      assert msgs == pre + [msgs[|msgs| - 1]];
    }
  }

  /** Transaction `k` exists and holds the orphan message `m`. */
  predicate HoldsOrphan(txns: map<string, Transaction>, k: string, m: CorrelatedMessage) {
    k in txns && m in txns[k].messages && m.Orphan()
  }

  /** `getOrphans` lists exactly the orphan messages of the listed transactions. */
  lemma {:induction false} CollectOrphansMembership(txns: map<string, Transaction>, order: seq<string>, m: CorrelatedMessage)
    ensures m in CollectOrphans(txns, order) <==> exists k :: k in order && HoldsOrphan(txns, k, m)
  {
    if order != [] {
      var pre, last := order[..|order| - 1], order[|order| - 1];
      CollectOrphansMembership(txns, pre, m);
      if last in txns {
        OrphansInMembership(txns[last].messages, m);
      }
      assert order == pre + [last];
      if m in CollectOrphans(txns, order) {
        if m in CollectOrphans(txns, pre) {
          var k :| k in pre && HoldsOrphan(txns, k, m);
          assert k in order;
        } else {
          assert HoldsOrphan(txns, last, m);
        }
      }
    }
  }

  /** A transaction whose only possible orphan is its first message has at most one. */
  lemma {:induction false} OrphansInAtMostOne(msgs: seq<CorrelatedMessage>)
    requires forall i :: 0 <= i < |msgs| && msgs[i].Orphan() ==> i == 0
    ensures |OrphansIn(msgs)| <= 1
  {
    if |msgs| > 1 {
      var pre := msgs[..|msgs| - 1];
      assert forall i :: 0 <= i < |pre| ==> pre[i] == msgs[i];
      OrphansInAtMostOne(pre);
    } else if |msgs| == 1 {
      assert msgs[..0] == [];
    }
  }

  /** With the store invariant, there are never more orphans than transactions. */
  lemma {:induction false} OrphanCountBound(txns: map<string, Transaction>, order: seq<string>)
    requires forall k :: k in txns ==> WellFormed(k, txns[k])
    ensures |CollectOrphans(txns, order)| <= |order|
  {
    if order != [] {
      var pre, last := order[..|order| - 1], order[|order| - 1];
      OrphanCountBound(txns, pre);
      if last in txns {
        var msgs := txns[last].messages;
        assert forall i :: 0 <= i < |msgs| && msgs[i].Orphan() ==> i == 0 by {
          forall i | 0 <= i < |msgs| && msgs[i].Orphan() ensures i == 0 {
            assert Belongs(last, i, msgs[i]);
          }
        }
        OrphansInAtMostOne(msgs);
      }
    }
  }

  /** Key `k` lists the same orphans in both maps. */
  predicate SameOrphansAt(t1: map<string, Transaction>, t2: map<string, Transaction>, k: string) {
    (k in t1 <==> k in t2) && (k in t1 ==> OrphansIn(t1[k].messages) == OrphansIn(t2[k].messages))
  }

  /** Key `k` has as many orphans in both maps. */
  predicate SameOrphanCountAt(t1: map<string, Transaction>, t2: map<string, Transaction>, k: string) {
    (k in t1 <==> k in t2) && (k in t1 ==> |OrphansIn(t1[k].messages)| == |OrphansIn(t2[k].messages)|)
  }

  lemma {:induction false} CollectOrphansFrame(t1: map<string, Transaction>, t2: map<string, Transaction>, order: seq<string>)
    requires forall i :: 0 <= i < |order| ==> SameOrphansAt(t1, t2, order[i])
    ensures CollectOrphans(t1, order) == CollectOrphans(t2, order)
  {
    if order != [] {
      var pre := order[..|order| - 1];
      assert forall i :: 0 <= i < |pre| ==> pre[i] == order[i];
      CollectOrphansFrame(t1, t2, pre);
      assert SameOrphansAt(t1, t2, order[|order| - 1]);
    }
  }

  lemma {:induction false} CollectOrphansCountFrame(t1: map<string, Transaction>, t2: map<string, Transaction>, order: seq<string>)
    requires forall i :: 0 <= i < |order| ==> SameOrphanCountAt(t1, t2, order[i])
    ensures |CollectOrphans(t1, order)| == |CollectOrphans(t2, order)|
  {
    if order != [] {
      var pre := order[..|order| - 1];
      assert forall i :: 0 <= i < |pre| ==> pre[i] == order[i];
      CollectOrphansCountFrame(t1, t2, pre);
      assert SameOrphanCountAt(t1, t2, order[|order| - 1]);
    }
  }

  /** Rewriting one message without changing its orphan flag keeps the number of orphans. */
  lemma {:induction false} OrphansInReplace(msgs: seq<CorrelatedMessage>, p: nat, m: CorrelatedMessage)
    requires p < |msgs| && msgs[p].Orphan() == m.Orphan()
    ensures |OrphansIn(msgs[p := m])| == |OrphansIn(msgs)|
  {
    var n := |msgs|;
    var upd := msgs[p := m];
    assert upd == upd[..n - 1] + [upd[n - 1]];
    if p < n - 1 {
      assert upd[..n - 1] == msgs[..n - 1][p := m];
      OrphansInReplace(msgs[..n - 1], p, m);
    } else {
      assert upd[..n - 1] == msgs[..n - 1];
    }
  }

  /** A response changes no orphan flag, so the number of orphans stays the same. */
  lemma RespondKeepsOrphanCount(t: Transaction, id: string, tid: string, messageId: string, action: UcpAction, payload: Value,
                                parentId: string, errors: Option<seq<ErrorEntry>>, now: int)
    ensures |OrphansIn(Respond(t, id, tid, messageId, action, payload, parentId, errors, now).messages)| == |OrphansIn(t.messages)|
  {
    var msgs := t.messages;
    var response := NewResponse(id, tid, messageId, action, payload, parentId, errors, now);
    match FindById(msgs, parentId)
    case Some(p) =>
      OrphansInReplace(msgs, p, Completes(msgs[p], errors, now));
      OrphansInAppend(msgs[p := Completes(msgs[p], errors, now)], response);
    case None =>
      OrphansInAppend(msgs, response);
  }

  /** Writing a well-formed transaction under its key keeps the store invariant. */
  lemma PutKeepsInv(txns: map<string, Transaction>, order: seq<string>, tid: string, t: Transaction)
    requires StoreInv(txns, order) && WellFormed(tid, t)
    ensures StoreInv(txns[tid := t], OrderAfter(txns, order, tid))
  {
    if tid !in txns {
      var order' := order + [tid];
      forall i, j | 0 <= i < j < |order'| ensures order'[i] != order'[j] {
        if j == |order| {
          assert order[i] in txns;
        }
      }
    }
  }

  /**
   * Pushing a message that names its transaction keeps the store invariant;
   * the orphan listing grows by the message exactly when it is an orphan
   * that creates its transaction, and is otherwise unchanged.
   */
  lemma {:induction false} AppendMessage(txns: map<string, Transaction>, order: seq<string>, tid: string, m: CorrelatedMessage, now: int)
    requires StoreInv(txns, order)
    requires m.transactionId == tid && (m.Orphan() ==> tid !in txns && m.kind == WebhookMessage)
    ensures StoreInv(txns[tid := Appended(txns, tid, m, now)], OrderAfter(txns, order, tid))
    ensures CollectOrphans(txns[tid := Appended(txns, tid, m, now)], OrderAfter(txns, order, tid))
            == CollectOrphans(txns, order) + (if tid !in txns && m.Orphan() then [m] else [])
  {
    var t := OrCreate(txns, tid, now);
    var t' := Appended(txns, tid, m, now);
    var txns' := txns[tid := t'];
    assert WellFormed(tid, t') by {
      assert forall i :: 0 <= i < |t.messages| ==> t'.messages[i] == t.messages[i];
      assert Belongs(tid, |t.messages|, m);
    }
    PutKeepsInv(txns, order, tid, t');
    OrphansInAppend(t.messages, m);
    assert forall i :: 0 <= i < |order| && order[i] != tid ==> SameOrphansAt(txns', txns, order[i]);
    if tid in txns {
      assert forall i :: 0 <= i < |order| ==> SameOrphansAt(txns', txns, order[i]);
      CollectOrphansFrame(txns', txns, order);
    } else {
      assert forall i :: 0 <= i < |order| ==> order[i] != tid;
      CollectOrphansFrame(txns', txns, order);
      var order' := order + [tid];
      assert order'[..|order'| - 1] == order;
      assert OrphansIn([]) == [];
    }
  }

  /** A response to a known transaction keeps the store invariant and the number of orphans. */
  lemma RespondToStored(txns: map<string, Transaction>, order: seq<string>, tid: string, id: string, messageId: string,
                        action: UcpAction, payload: Value, parentId: string, errors: Option<seq<ErrorEntry>>, now: int)
    requires StoreInv(txns, order) && tid in txns
    ensures StoreInv(txns[tid := Respond(txns[tid], id, tid, messageId, action, payload, parentId, errors, now)], order)
    ensures |CollectOrphans(txns[tid := Respond(txns[tid], id, tid, messageId, action, payload, parentId, errors, now)], order)|
            == |CollectOrphans(txns, order)|
  {
    var t' := Respond(txns[tid], id, tid, messageId, action, payload, parentId, errors, now);
    RespondWellFormed(txns[tid], id, tid, messageId, action, payload, parentId, errors, now);
    PutKeepsInv(txns, order, tid, t');
    RespondKeepsOrphanCount(txns[tid], id, tid, messageId, action, payload, parentId, errors, now);
    CollectOrphansCountFrame(txns[tid := t'], txns, order);
  }

  // ---------------------------------------------------------------------------
  // Derived views
  // ---------------------------------------------------------------------------

  /** `selectedTransaction`: an empty selection id selects nothing, as in JavaScript. */
  function SelectedTransaction(txns: map<string, Transaction>, selectedId: Option<string>): (r: Option<Transaction>)
    ensures r.Some? <==> selectedId.Some? && selectedId.value != "" && selectedId.value in txns
    ensures r.Some? ==> r.value == txns[selectedId.value]
  {
    if selectedId.None? || selectedId.value == "" then None
    else if selectedId.value in txns then Some(txns[selectedId.value])
    else None
  }

  /** `selectedMessage`: the first message of the selected transaction with the selected local id. */
  function SelectedMessage(txn: Option<Transaction>, messageId: Option<string>): (r: Option<CorrelatedMessage>)
    ensures r.Some? ==> txn.Some? && r.value in txn.value.messages && messageId == Some(r.value.id)
    ensures r.Some? ==> exists i :: 0 <= i < |txn.value.messages| && txn.value.messages[i] == r.value
                                    && forall k :: 0 <= k < i ==> txn.value.messages[k].id != r.value.id
    ensures messageId.None? || messageId == Some("") ==> r.None?
    ensures r.None? && txn.Some? && messageId.Some? && messageId.value != "" ==>
              forall m :: m in txn.value.messages ==> m.id != messageId.value
  {
    if txn.None? || messageId.None? || messageId.value == "" then None
    else
      match FindById(txn.value.messages, messageId.value)
      case Some(i) => Some(txn.value.messages[i])
      case None => None
  }

  /** `messages.filter(m => m.action === action)`. */
  function WithAction(msgs: seq<CorrelatedMessage>, action: UcpAction): (r: seq<CorrelatedMessage>)
    ensures |r| <= |msgs|
  {
    if msgs == [] then []
    else
      var pre, last := msgs[..|msgs| - 1], msgs[|msgs| - 1];
      assert msgs == pre + [last];
      WithAction(pre, action) + (if last.action == action then [last] else [])
  }

  /** The filter keeps exactly the messages with that action. */
  lemma {:induction false} WithActionMembership(msgs: seq<CorrelatedMessage>, action: UcpAction)
    ensures forall m :: m in WithAction(msgs, action) <==> m in msgs && m.action == action
  {
    if msgs != [] {
      var pre := msgs[..|msgs| - 1];
      assert msgs == pre + [msgs[|msgs| - 1]];
      WithActionMembership(pre, action);
    }
  }

  /** Filtering a timeline grown by one message filters the timeline, then keeps or drops that message. */
  lemma WithActionSnoc(msgs: seq<CorrelatedMessage>, m: CorrelatedMessage, action: UcpAction)
    ensures WithAction(msgs + [m], action) == WithAction(msgs, action) + (if m.action == action then [m] else [])
  {
    assert (msgs + [m])[..|msgs|] == msgs;
  }

  /** Filtering distributes over concatenation: the kept messages stay in timeline order, repeats included. */
  lemma {:induction false} WithActionConcat(a: seq<CorrelatedMessage>, b: seq<CorrelatedMessage>, action: UcpAction)
    ensures WithAction(a + b, action) == WithAction(a, action) + WithAction(b, action)
    decreases |b|
  {
    if b == [] {
      assert a + b == a;
    } else {
      var pre, last := b[..|b| - 1], b[|b| - 1];
      var tail := if last.action == action then [last] else [];
      calc {
        WithAction(a + b, action);
        { assert a + b == (a + pre) + [last]; }
        WithAction((a + pre) + [last], action);
        { WithActionSnoc(a + pre, last, action); }
        WithAction(a + pre, action) + tail;
        { WithActionConcat(a, pre, action); }
        WithAction(a, action) + WithAction(pre, action) + tail;
        { assert b == pre + [last]; WithActionSnoc(pre, last, action); }
        WithAction(a, action) + WithAction(b, action);
      }
    }
  }

  /** `filteredMessages`: the selected transaction's messages, narrowed to one action when a lifecycle filter is set. */
  function FilteredMessages(txn: Option<Transaction>, filter: Option<UcpAction>): (r: seq<CorrelatedMessage>)
    ensures txn.None? ==> r == []
    ensures txn.Some? && filter.None? ==> r == txn.value.messages
    ensures txn.Some? && filter.Some? ==> forall m :: m in r <==> m in txn.value.messages && m.action == filter.value
  {
    if txn.None? then []
    else if filter.None? then txn.value.messages
    else
      WithActionMembership(txn.value.messages, filter.value);
      WithAction(txn.value.messages, filter.value)
  }

  /** With a filter set, a message appended to the selected transaction joins the end of the filtered timeline exactly when it has that action. */
  lemma FilteredMessagesAppend(t: Transaction, m: CorrelatedMessage, action: UcpAction)
    ensures FilteredMessages(Some(t.(messages := t.messages + [m])), Some(action))
            == FilteredMessages(Some(t), Some(action)) + (if m.action == action then [m] else [])
  {
    WithActionSnoc(t.messages, m, action);
  }

  /** Transactions newest first: each one is at least as recent as the next. */
  predicate NewestFirst(ts: seq<Transaction>) {
    forall i :: 0 <= i < |ts| - 1 ==> ts[i].createdAt >= ts[i + 1].createdAt
  }

  /** A list sorted newest first has every earlier transaction at least as recent as every later one. */
  lemma {:induction false} NewestFirstPairs(ts: seq<Transaction>, i: nat, j: nat)
    requires NewestFirst(ts) && i <= j < |ts|
    ensures ts[i].createdAt >= ts[j].createdAt
    decreases j - i
  {
    if i < j {
      NewestFirstPairs(ts, i + 1, j);
    }
  }

  /** Dropping the newest transaction keeps a list sorted. */
  lemma NewestFirstTail(ts: seq<Transaction>)
    requires NewestFirst(ts) && ts != []
    ensures NewestFirst(ts[1..])
  {
    forall i | 0 <= i < |ts| - 2 ensures ts[1..][i].createdAt >= ts[1..][i + 1].createdAt {
      assert ts[1..][i] == ts[i + 1] && ts[1..][i + 1] == ts[i + 2];
    }
  }

  /** A transaction at least as recent as the head of a sorted list can go before it. */
  lemma NewestFirstCons(x: Transaction, ts: seq<Transaction>)
    requires NewestFirst(ts) && (ts != [] ==> x.createdAt >= ts[0].createdAt)
    ensures NewestFirst([x] + ts)
  {
    forall i | 0 <= i < |ts| ensures ([x] + ts)[i].createdAt >= ([x] + ts)[i + 1].createdAt {
      if i > 0 {
        assert ([x] + ts)[i] == ts[i - 1] && ([x] + ts)[i + 1] == ts[i];
      }
    }
  }

  /** In a list sorted newest first, every transaction is at least as recent as every later one. */
  lemma NewestFirstAllPairs(ts: seq<Transaction>)
    requires NewestFirst(ts)
    ensures forall i, j :: 0 <= i <= j < |ts| ==> ts[i].createdAt >= ts[j].createdAt
  {
    forall i, j | 0 <= i <= j < |ts| ensures ts[i].createdAt >= ts[j].createdAt {
      NewestFirstPairs(ts, i, j);
    }
  }

  /** Insert `t` before the first transaction not newer than it. */
  function InsertByDate(t: Transaction, sorted: seq<Transaction>): (r: seq<Transaction>)
    requires NewestFirst(sorted)
    ensures NewestFirst(r)
    ensures multiset(r) == multiset(sorted) + multiset{t}
    ensures r[0] == t || (sorted != [] && r[0] == sorted[0])
  {
    if sorted == [] then [t]
    else if sorted[0].createdAt <= t.createdAt then
      NewestFirstCons(t, sorted);
      [t] + sorted
    else
      NewestFirstTail(sorted);
      var rest := InsertByDate(t, sorted[1..]);
      assert sorted == [sorted[0]] + sorted[1..];
      assert sorted[1..] != [] ==> sorted[0].createdAt >= sorted[1..][0].createdAt;
      NewestFirstCons(sorted[0], rest);
      [sorted[0]] + rest
  }

  /** The sort of `transactionList`: newest first, a permutation of its input. */
  function SortNewestFirst(ts: seq<Transaction>): (r: seq<Transaction>)
    ensures NewestFirst(r)
    ensures multiset(r) == multiset(ts)
  {
    if ts == [] then []
    else
      assert ts == [ts[0]] + ts[1..];
      InsertByDate(ts[0], SortNewestFirst(ts[1..]))
  }

  /** Two lists that are permutations of each other have the same length and the same elements. */
  lemma SameElements(a: seq<Transaction>, b: seq<Transaction>)
    requires multiset(a) == multiset(b)
    ensures |a| == |b|
    ensures forall t :: t in a <==> t in b
  {
    assert |a| == |multiset(a)| && |b| == |multiset(b)|;
    forall t ensures t in a <==> t in b {
      assert t in a <==> t in multiset(a);
      assert t in b <==> t in multiset(b);
    }
  }

  /** `transactionList`: every stored transaction (map order), sorted newest first. */
  function TransactionList(txns: map<string, Transaction>, order: seq<string>): (r: seq<Transaction>)
    requires forall i :: 0 <= i < |order| ==> order[i] in txns
    ensures NewestFirst(r)
    ensures forall i, j :: 0 <= i <= j < |r| ==> r[i].createdAt >= r[j].createdAt
    ensures |r| == |order|
    ensures forall t :: t in r <==> exists i :: 0 <= i < |order| && txns[order[i]] == t
  {
    var values := seq(|order|, i requires 0 <= i < |order| => txns[order[i]]);
    var r := SortNewestFirst(values);
    SameElements(r, values);
    forall t ensures t in r <==> exists i :: 0 <= i < |order| && txns[order[i]] == t {
      if t in values {
        var i :| 0 <= i < |values| && values[i] == t;
        assert txns[order[i]] == t;
      }
      if exists i :: 0 <= i < |order| && txns[order[i]] == t {
        var i :| 0 <= i < |order| && txns[order[i]] == t;
        assert values[i] == t;
      }
    }
    NewestFirstAllPairs(r);
    r
  }

  /** The inner walk of `getOrphans`: pushes every message of one transaction flagged as an orphan. */
  method OrphansOf(msgs: seq<CorrelatedMessage>) returns (orphans: seq<CorrelatedMessage>)
    ensures orphans == OrphansIn(msgs)
  {
    orphans := [];
    var j := 0;
    while j < |msgs|
      invariant 0 <= j <= |msgs|
      invariant orphans == OrphansIn(msgs[..j])
    {
      OrphansInStep(msgs, j);
      if msgs[j].Orphan() {
        orphans := orphans + [msgs[j]];
      }
      j := j + 1;
    }
    assert msgs[..j] == msgs;
  }

  /** The inner walk of `orphanCount`: counts the messages of one transaction flagged as orphans. */
  method CountOrphans(msgs: seq<CorrelatedMessage>) returns (count: nat)
    ensures count == |OrphansIn(msgs)|
  {
    count := 0;
    var j := 0;
    while j < |msgs|
      invariant 0 <= j <= |msgs|
      invariant count == |OrphansIn(msgs[..j])|
    {
      OrphansInStep(msgs, j);
      if msgs[j].Orphan() {
        count := count + 1;
      }
      j := j + 1;
    }
    assert msgs[..j] == msgs;
  }

  // ---------------------------------------------------------------------------
  // The store
  // ---------------------------------------------------------------------------

  class TransactionStore {
    /** The store's `Map<string, Transaction>`. */
    var transactions: map<string, Transaction>
    /** The keys of `transactions` in insertion order: the iteration order of a JavaScript `Map`. */
    var order: seq<string>
    /** Stands for the clock and random parts of generated local ids. */
    var serial: nat

    ghost predicate Valid()
      reads this
    {
      StoreInv(transactions, order)
    }

    constructor ()
      ensures Valid()
      ensures transactions == map[] && order == [] && serial == 0
    {
      transactions := map[];
      order := [];
      serial := 0;
    }

    /** A local id with the given prefix; every call draws a new serial. */
    method NextId(prefix: string) returns (id: string)
      modifies this`serial
      ensures id == prefix + Digits(old(serial)) && serial == old(serial) + 1
    {
      id := prefix + Digits(serial);
      serial := serial + 1;
    }

    /** `addTransaction`: creates an empty pending transaction unless the id is already known. */
    method AddTransaction(id: string, serverUrl: Option<string>, now: int)
      requires Valid()
      modifies this
      ensures Valid() && serial == old(serial)
      ensures id in old(transactions) ==> transactions == old(transactions) && order == old(order)
      ensures id !in old(transactions) ==>
                && transactions == old(transactions)[id := Transaction(id, Pending, [], serverUrl, now, now)]
                && order == old(order) + [id]
      ensures CollectOrphans(transactions, order) == CollectOrphans(old(transactions), old(order))
    {
      if id !in transactions {
        var t := Transaction(id, Pending, [], serverUrl, now, now);
        PutKeepsInv(transactions, order, id, t);
        assert forall i :: 0 <= i < |order| ==> SameOrphansAt(transactions[id := t], transactions, order[i]);
        CollectOrphansFrame(transactions[id := t], transactions, order);
        assert OrphansIn([]) == [];
        assert (order + [id])[..|order|] == order;
        transactions := transactions[id := t];
        order := order + [id];
      }
    }

    /** `addRequest`: appends a pending request to the transaction, creating the transaction first if needed. */
    method AddRequest(tid: string, messageId: string, action: UcpAction, payload: Value, now: int) returns (id: string)
      requires Valid()
      modifies this
      ensures Valid()
      ensures id == "req_" + Digits(old(serial)) && serial == old(serial) + 1
      ensures transactions == old(transactions)[tid := Appended(old(transactions), tid, NewRequest(id, tid, messageId, action, payload, now), now)]
      ensures order == OrderAfter(old(transactions), old(order), tid)
      ensures CollectOrphans(transactions, order) == CollectOrphans(old(transactions), old(order))
    {
      id := NextId("req_");
      var message := NewRequest(id, tid, messageId, action, payload, now);
      assert !message.Orphan();
      AppendMessage(transactions, order, tid, message, now);
      transactions, order := transactions[tid := Appended(transactions, tid, message, now)], OrderAfter(transactions, order, tid);
    }

    /**
     * `addResponse`: for a known transaction, completes or fails the parent
     * request, appends the response and advances the transaction status.
     * For an unknown transaction nothing is stored and `missing` reports the
     * warning `addResponse` logs with `console.warn`.
     */
    method AddResponse(tid: string, messageId: string, action: UcpAction, payload: Value,
                       parentId: string, errors: Option<seq<ErrorEntry>>, now: int) returns (id: string, missing: bool)
      requires Valid()
      modifies this
      ensures Valid()
      ensures id == "res_" + Digits(old(serial)) && serial == old(serial) + 1
      ensures missing <==> tid !in old(transactions)
      ensures missing ==> transactions == old(transactions) && order == old(order)
      ensures !missing ==>
                && order == old(order)
                && transactions == old(transactions)[tid := Respond(old(transactions)[tid], id, tid, messageId, action, payload, parentId, errors, now)]
      ensures |CollectOrphans(transactions, order)| == |CollectOrphans(old(transactions), old(order))|
    {
      id := NextId("res_");
      missing := tid !in transactions;
      if missing {
        return;
      }
      var t := transactions[tid];
      var msgs := t.messages;
      match FindById(t.messages, parentId) {
        case Some(p) =>
          msgs := msgs[p := Completes(msgs[p], errors, now)];
        case None =>
      }
      msgs := msgs + [NewResponse(id, tid, messageId, action, payload, parentId, errors, now)];
      var t' := t.(messages := msgs, updatedAt := now, status := StatusAfterResponse(action, errors, t.status));
      RespondUnfold(t, id, tid, messageId, action, payload, parentId, errors, now);
      RespondToStored(transactions, order, tid, id, messageId, action, payload, parentId, errors, now);
      transactions := transactions[tid := t'];
    }

    /**
     * `addWebhook`: appends a completed webhook; when the transaction was
     * unknown it is created and the webhook is flagged as an orphan.
     */
    method AddWebhook(tid: string, messageId: string, action: UcpAction, payload: Value, now: int) returns (id: string)
      requires Valid()
      modifies this
      ensures Valid()
      ensures id == "wh_" + Digits(old(serial)) && serial == old(serial) + 1
      ensures transactions == old(transactions)[tid := Appended(old(transactions), tid,
                NewWebhook(id, tid, messageId, action, payload, tid !in old(transactions), now), now)]
      ensures order == OrderAfter(old(transactions), old(order), tid)
      ensures CollectOrphans(transactions, order) ==
                CollectOrphans(old(transactions), old(order))
                + if tid in old(transactions) then [] else [NewWebhook(id, tid, messageId, action, payload, true, now)]
    {
      id := NextId("wh_");
      var message := NewWebhook(id, tid, messageId, action, payload, tid !in transactions, now);
      AppendMessage(transactions, order, tid, message, now);
      transactions, order := transactions[tid := Appended(transactions, tid, message, now)], OrderAfter(transactions, order, tid);
    }

    /** `getTransaction`. */
    function GetTransaction(id: string): (r: Option<Transaction>)
      reads this
      requires Valid()
      ensures r.Some? <==> id in order
      ensures r.Some? ==> r.value.id == id && r.value == transactions[id]
    {
      if id in transactions then Some(transactions[id]) else None
    }

    /** `getOrphans`: the nested walk over transactions in insertion order, then over their messages. */
    method GetOrphans() returns (orphans: seq<CorrelatedMessage>)
      requires Valid()
      ensures orphans == CollectOrphans(transactions, order)
    {
      orphans := [];
      var i := 0;
      while i < |order|
        invariant 0 <= i <= |order|
        invariant orphans == CollectOrphans(transactions, order[..i])
      {
        var found := OrphansOf(transactions[order[i]].messages);
        orphans := orphans + found;
        CollectOrphansStep(transactions, order, i);
        i := i + 1;
      }
      assert order[..i] == order;
    }

    /** The derived `orphanCount`: counts orphan messages in a nested walk. */
    method OrphanCount() returns (count: nat)
      requires Valid()
      ensures count == |CollectOrphans(transactions, order)|
      ensures count <= |transactions|
    {
      count := 0;
      var i := 0;
      while i < |order|
        invariant 0 <= i <= |order|
        invariant count == |CollectOrphans(transactions, order[..i])|
      {
        var n := CountOrphans(transactions[order[i]].messages);
        count := count + n;
        CollectOrphansStep(transactions, order, i);
        i := i + 1;
      }
      assert order[..i] == order;
      OrphanCountBound(transactions, order);
      KeysCount();
    }

    /** With no duplicate keys, the insertion order lists exactly as many keys as the map holds. */
    lemma KeysCount()
      requires Valid()
      ensures |order| == |transactions|
    {
      assert transactions.Keys == set k | k in order;
      DistinctCard(order);
    }

    /** `clear`: drops every transaction. */
    method Clear()
      requires Valid()
      modifies this
      ensures Valid()
      ensures transactions == map[] && order == [] && serial == old(serial)
    {
      transactions := map[];
      order := [];
    }

    /** `updateStatus`: sets the status of a known transaction; an unknown id changes nothing. */
    method UpdateStatus(id: string, status: Status, now: int)
      requires Valid()
      modifies this
      ensures Valid() && order == old(order) && serial == old(serial)
      ensures id in old(transactions) ==> transactions == old(transactions)[id := old(transactions)[id].(status := status, updatedAt := now)]
      ensures id !in old(transactions) ==> transactions == old(transactions)
    {
      if id in transactions {
        var t := transactions[id];
        transactions := transactions[id := t.(status := status, updatedAt := now)];
      }
    }
  }

  /** A duplicate-free sequence has as many elements as the set of its elements. */
  lemma {:induction false} DistinctCard(s: seq<string>)
    requires NoDuplicates(s)
    ensures |set k | k in s| == |s|
  {
    if s != [] {
      var pre, last := s[..|s| - 1], s[|s| - 1];
      assert NoDuplicates(pre);
      DistinctCard(pre);
      assert s == pre + [last];
      assert last !in pre;
      assert (set k | k in s) == (set k | k in pre) + {last};
    }
  }
}
