/**
 * The message-correlation types of the debugger: the closed set of protocol
 * actions, the correlated message and the transaction aggregate.
 * Timestamps are integers in milliseconds of an abstract clock.
 */
module UcpTypes {
  import opened Wrappers
  import opened JsValue

  /** The closed enumeration of protocol operations (`UCPAction`). */
  datatype UcpAction =
    | Discover
    | CreateCheckout
    | GetCheckout
    | UpdateCheckout
    | CompleteCheckout
    | CancelCheckout
    | CreateCart
    | AddToCart
    | GetCart
    | GetProducts
    | GetProduct
    | GetCategories
    | GetCategoryProducts
    | SearchProducts
    | GetOrder
    | Webhook

  /** Status of a message or of a whole transaction. */
  datatype Status = Pending | Completed | Failed

  /** The three kinds of observed message. */
  datatype MessageType = RequestMessage | ResponseMessage | WebhookMessage

  datatype EntryType = Error | Warning | Info

  datatype Severity = Recoverable | RequiresBuyerInput | Fatal

  /** A protocol-level error or warning entry attached by a response (`Message`). */
  datatype ErrorEntry = ErrorEntry(
    kind: EntryType,
    code: string,
    path: Option<string>,
    content: string,
    severity: Option<Severity>)

  /**
   * One observed event. `id` is generated locally, `messageId` comes from the
   * remote side; `parentId` is set on responses, `isOrphan` on webhooks and
   * `duration` on a request once its response arrives.
   */
  datatype CorrelatedMessage = CorrelatedMessage(
    id: string,
    transactionId: string,
    messageId: string,
    kind: MessageType,
    action: UcpAction,
    payload: Value,
    parentId: Option<string>,
    isOrphan: Option<bool>,
    timestamp: int,
    duration: Option<int>,
    status: Status,
    errors: Option<seq<ErrorEntry>>)
  {
    /** `message.isOrphan` is truthy. */
    predicate Orphan() {
      isOrphan == Some(true)
    }
  }

  /** The unit of correlation: every message of one protocol exchange. */
  datatype Transaction = Transaction(
    id: string,
    status: Status,
    messages: seq<CorrelatedMessage>,
    serverUrl: Option<string>,
    createdAt: int,
    updatedAt: int)
}
