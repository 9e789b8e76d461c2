/** The exceptions that the persistence layer raises, catches or lets through. */
module Exceptions {

  datatype Error =
    | ImproperlyConfigured   // a document class without the configuration it needs
    | ValueError             // a malformed id, an empty dict, no class for a collection name
    | KeyError               // a dict lookup of a missing key
    | TypeError              // a call with the wrong kind of argument
    | AttributeError         // a method called on a value that does not have it
    | ValidationError        // pydantic refusing the fields of a new document
    | RuntimeError           // a collection that could not be created
    | UnexpectedResponse     // any error answer of the vector store
    | WriteError             // the document store refusing one insert
    | BulkWriteError         // the document store refusing a batch insert
    | InvalidOperation       // the document store driver refusing an empty batch
    | OperationFailure       // the document store refusing a query
}
