/**
 * Values exchanged between the DynamoDB connector and the store: attribute
 * maps, write requests, scan requests and pages, and the exceptions a store
 * call can raise.
 */
module Types {

  datatype Option<+T> = None | Some(value: T)

  datatype Result<+R, +E> = Success(value: R) | Failure(error: E)

  /** The scalar kinds of a DynamoDB attribute value. */
  datatype AttributeValue =
    | S(str: string)
    | N(num: string)
    | B(bytes: seq<bv8>)
    | BOOL(flag: bool)
    | NUL

  /** An item, or the key of an item: attribute name to value. */
  type AttributeMap = map<string, AttributeValue>

  datatype PutRequest = PutRequest(item: AttributeMap)

  datatype DeleteRequest = DeleteRequest(key: AttributeMap)

  /** The store's write request: either part may be absent (null). */
  datatype WriteRequest = WriteRequest(putRequest: Option<PutRequest>, deleteRequest: Option<DeleteRequest>)

  /** A write request together with the name of the table it goes to. */
  datatype TableWrite = TableWrite(table: string, request: WriteRequest)

  /** The body of a bulk write call, and of its unprocessed-items answer. */
  type WritesPerTable = map<string, seq<WriteRequest>>

  /** The exceptions a store call can raise, as far as retrying cares. */
  datatype Throwable =
    | IOException(message: string)
    | DynamoDbException(statusCode: int)
    | OtherException(className: string)

  datatype BatchWriteItemResponse = BatchWriteItemResponse(unprocessedItems: WritesPerTable)

  /** What one bulk write call does: answer, possibly partially, or throw. */
  datatype CallResult = Returned(response: BatchWriteItemResponse) | Threw(exception: Throwable)
}
