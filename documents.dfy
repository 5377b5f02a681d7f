/**
 * The document store shared by all services: one container of documents
 * addressed by id and partition key, with system data under the partition
 * "system" and user data under the user's id. Ids are `"{type}-{key}"`.
 */
module Documents {
  import opened Wrappers

  /** The partition key of seeded, system-owned documents. */
  const SystemPartition := "system"

  /** A document id of the form `"{documentType}-{key}"`. */
  function DocumentId(documentType: string, key: string): (r: string)
    ensures |r| == |documentType| + 1 + |key|
    ensures r[..|documentType|] == documentType && r[|documentType|] == '-'
    ensures r[|documentType| + 1..] == key
  {
    documentType + "-" + key
  }

  /** For a fixed document type, different keys give different ids. */
  lemma DocumentIdInjective(documentType: string, a: string, b: string)
    requires DocumentId(documentType, a) == DocumentId(documentType, b)
    ensures a == b
  {
    assert a == DocumentId(documentType, a)[|documentType| + 1..];
  }

  /** One container of documents of type `T`, addressed by (id, partition key). */
  class Container<T> {
    var docs: map<(string, string), T>

    constructor(initial: map<(string, string), T>)
      ensures docs == initial
    {
      docs := initial;
    }

    /** `GetAsync`: the document, or null when there is none. */
    function Get(id: string, partitionKey: string): (r: Option<T>)
      reads this
      ensures r.Some? <==> (id, partitionKey) in docs
      ensures r.Some? ==> r.value == docs[(id, partitionKey)]
    {
      if (id, partitionKey) in docs then Some(docs[(id, partitionKey)]) else None
    }

    /** `UpsertAsync`: insert or replace. */
    method Upsert(id: string, partitionKey: string, doc: T)
      modifies this
      ensures docs == old(docs)[(id, partitionKey) := doc]
      ensures Get(id, partitionKey) == Some(doc)
    {
      docs := docs[(id, partitionKey) := doc];
    }

    /** `DeleteAsync`: removing a missing document is not an error. */
    method Delete(id: string, partitionKey: string)
      modifies this
      ensures docs == old(docs) - {(id, partitionKey)}
      ensures Get(id, partitionKey) == None
    {
      docs := docs - {(id, partitionKey)};
    }
  }
}
