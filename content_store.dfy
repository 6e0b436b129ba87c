/**
 * The content store the intake routes write to (the CMS client's `create`).
 * The store is the sequence of documents created so far; a document is the
 * object handed to `create`, field by field.
 */
module ContentStore {
  import opened Json

  type Document = map<string, Json>

  class Client {
    /** The documents created, in order of creation. */
    var documents: seq<Document>
    /** How many times `create` has been called, whether or not it succeeded. */
    var createCalls: nat

    constructor ()
      ensures documents == [] && createCalls == 0
    {
      documents := [];
      createCalls := 0;
    }

    /**
     * `client.create(doc)`: a single-document create that either stores the
     * document or fails (`fails`, decided by the remote store) and stores nothing.
     */
    method Create(doc: Document, fails: bool) returns (created: bool)
      modifies this
      ensures created == !fails
      ensures createCalls == old(createCalls) + 1
      ensures documents == if created then old(documents) + [doc] else old(documents)
    {
      createCalls := createCalls + 1;
      created := !fails;
      if created {
        documents := documents + [doc];
      }
    }
  }
}
