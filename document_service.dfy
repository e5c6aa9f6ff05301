/** DocumentService (app/data_layer/services/document_service.py). */
module DocumentService {
  import opened Wrappers
  import opened Models
  import opened Store
  import Seqs

  /** `insert_document`: one record is added with a fresh id, and the same document
      is returned carrying that id. */
  method InsertDocument(db: Db, document: DocumentRecord) returns (r: DocumentRecord)
    requires db.Valid()
    modifies db
    ensures db.Valid()
    ensures r == document.(id := Some(old(db.nextId)))
    ensures db.documents == old(db.documents) + [r]
    ensures db.nextId == old(db.nextId) + 1
    ensures db.conversations == old(db.conversations) && db.memories == old(db.memories)
  {
    r := document.(id := Some(db.nextId));
    db.documents := db.documents + [r];
    db.nextId := db.nextId + 1;
  }

  /** The documents of one user, in stored order. */
  function OfUser(ds: seq<DocumentRecord>, userId: string): (r: seq<DocumentRecord>)
    ensures forall d :: d in r <==> d in ds && d.userId == userId
  {
    Seqs.Filter(ds, (d: DocumentRecord) => d.userId == userId)
  }

  /** `get_user_documents`: a read, the collection is left as it was. */
  method GetUserDocuments(db: Db, userId: string) returns (r: seq<DocumentRecord>)
    ensures r == OfUser(db.documents, userId)
  {
    r := OfUser(db.documents, userId);
  }
}
