/**
 * The store client as the writer sees it. What the store answers is not
 * modelled: the answer to the n-th bulk write call is an arbitrary function of
 * n and of the request, fixed when the client is opened.
 */
module StoreClient {
  import opened Types

  /** The answer the store gives to its n-th bulk write call with a given request. */
  type Store = (nat, WritesPerTable) -> CallResult

  class DynamoDbClient {
    const batchResponse: Store
    /** Every bulk write request sent so far, in order. */
    var batchCalls: seq<WritesPerTable>

    constructor (store: Store)
      ensures batchResponse == store && batchCalls == []
    {
      batchResponse := store;
      batchCalls := [];
    }

    method BatchWriteItem(request: WritesPerTable) returns (result: CallResult)
      modifies this`batchCalls
      ensures batchCalls == old(batchCalls) + [request]
      ensures result == batchResponse(|old(batchCalls)|, request)
    {
      result := batchResponse(|batchCalls|, request);
      batchCalls := batchCalls + [request];
    }
  }
}
