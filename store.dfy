/**
 * The document database as the core uses it: conversation documents addressed
 * by collection path and document id, read one at a time with `getDoc` and
 * written with `batch.set` followed by `batch.commit`.
 */
module Store {
  import opened Types

  /** A document reference: the collection path and the document id. */
  datatype DocRef = DocRef(collection: string, id: string)

  /** The conversation documents of the database. */
  type Db = map<DocRef, Conversation>

  /** The database as a request finds it: reachable with its contents, or failing every call. */
  datatype Connection = Online(docs: Db) | Offline(error: Thrown)

  /** The collection a user's conversations live in: `conversations/{uid}/userConversations`. */
  function ConversationsPath(uid: string): string {
    "conversations/" + uid + "/userConversations"
  }

  /** The text a template literal gives for `user?.uid`: the id, or "undefined" when signed out. */
  function UidText(uid: Option<string>): string {
    uid.GetOr("undefined")
  }

  /** The reference of conversation `id` in the collection of user `uid`. */
  function ConversationRef(uid: string, id: string): (r: DocRef)
    ensures r.id == id
  {
    DocRef(ConversationsPath(uid), id)
  }

  /** `getDoc(ref)`: `None` when the snapshot does not exist; throws when the database is unreachable. */
  function GetDoc(conn: Connection, ref: DocRef): (r: Attempt<Option<Conversation>>)
    ensures conn.Offline? ==> r == Raised(conn.error)
    ensures conn.Online? ==> r.Returned? && (r.value.Some? <==> ref in conn.docs)
    ensures conn.Online? && ref in conn.docs ==> r.value.value == conn.docs[ref]
  {
    match conn
    case Offline(e) => Raised(e)
    case Online(docs) => Returned(if ref in docs then Some(docs[ref]) else None)
  }

  /** One `batch.set(ref, doc)` staged in a write batch. */
  datatype Write = Write(ref: DocRef, doc: Conversation)

  /** The database after the writes take effect in order (a later write to a ref replaces an earlier one). */
  function ApplyWrites(db: Db, ws: seq<Write>): (r: Db)
    ensures r.Keys == db.Keys + set w | w in ws :: w.ref
    decreases ws
  {
    if ws == [] then db else ApplyWrites(db[ws[0].ref := ws[0].doc], ws[1..])
  }

  /** A document no write touches keeps whatever it had, including being absent. */
  lemma {:induction false} ApplyWritesUntouched(db: Db, ws: seq<Write>, r: DocRef)
    requires forall j | 0 <= j < |ws| :: ws[j].ref != r
    ensures r in ApplyWrites(db, ws) <==> r in db
    ensures r in db ==> ApplyWrites(db, ws)[r] == db[r]
    decreases ws
  {
    if ws != [] {
      ApplyWritesUntouched(db[ws[0].ref := ws[0].doc], ws[1..], r);
    }
  }

  /** A document ends up holding the last write addressed to it. */
  lemma {:induction false} ApplyWritesLast(db: Db, ws: seq<Write>, i: nat)
    requires i < |ws|
    requires forall j | i < j < |ws| :: ws[j].ref != ws[i].ref
    ensures ws[i].ref in ApplyWrites(db, ws) && ApplyWrites(db, ws)[ws[i].ref] == ws[i].doc
    decreases ws
  {
    var db' := db[ws[0].ref := ws[0].doc];
    if i == 0 {
      ApplyWritesUntouched(db', ws[1..], ws[0].ref);
    } else {
      ApplyWritesLast(db', ws[1..], i - 1);
    }
  }

  /** Writing `a` and then `b` is writing `a + b`. */
  lemma {:induction false} ApplyWritesAppend(db: Db, a: seq<Write>, b: seq<Write>)
    ensures ApplyWrites(db, a + b) == ApplyWrites(ApplyWrites(db, a), b)
    decreases a
  {
    if a == [] {
      assert a + b == b;
    } else {
      assert (a + b)[0] == a[0] && (a + b)[1..] == a[1..] + b;
      ApplyWritesAppend(db[a[0].ref := a[0].doc], a[1..], b);
    }
  }

  /** All writes of a list of batches, batch after batch. */
  function Flatten(bs: seq<seq<Write>>): (ws: seq<Write>)
    ensures |bs| == 0 ==> ws == []
  {
    if bs == [] then [] else bs[0] + Flatten(bs[1..])
  }

  /** The database after committing the batches in order. */
  function ApplyBatches(db: Db, bs: seq<seq<Write>>): Db
    decreases bs
  {
    if bs == [] then db else ApplyBatches(ApplyWrites(db, bs[0]), bs[1..])
  }

  /** Committing batches one after another writes exactly their writes, in order. */
  lemma {:induction false} ApplyBatchesFlatten(db: Db, bs: seq<seq<Write>>)
    ensures ApplyBatches(db, bs) == ApplyWrites(db, Flatten(bs))
    decreases bs
  {
    if bs != [] {
      ApplyBatchesFlatten(ApplyWrites(db, bs[0]), bs[1..]);
      ApplyWritesAppend(db, bs[0], Flatten(bs[1..]));
    }
  }

  /** Committing one more batch. */
  lemma {:induction false} ApplyBatchesSnoc(db: Db, bs: seq<seq<Write>>, b: seq<Write>)
    ensures ApplyBatches(db, bs + [b]) == ApplyWrites(ApplyBatches(db, bs), b)
    decreases bs
  {
    if bs != [] {
      assert (bs + [b])[1..] == bs[1..] + [b];
      ApplyBatchesSnoc(ApplyWrites(db, bs[0]), bs[1..], b);
    }
  }
}
