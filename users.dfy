/**
 * The `users` collection: the dashboard's `getUserQuery` (src/app/dashboard/page.tsx)
 * looks the signed-in user's record up, and `updateUserHasUploaded`
 * (src/lib/queries.ts) sets the record's `has_uploaded` flag. Both see the
 * collection's documents in the order the database lists them (by document id).
 */
module Users {
  import opened Types

  /** A document of the `users` collection: its document id and its data. */
  datatype UserDoc = UserDoc(docId: string, data: User)

  const UserNotFoundMessage: string := "User not found"

  /** The position of the first document whose `id` field is `id`, if any. */
  function FirstWithId(docs: seq<UserDoc>, id: string): (r: Option<nat>)
    ensures r.Some? ==> r.value < |docs| && docs[r.value].data.id == id
    ensures r.Some? ==> forall k | 0 <= k < r.value :: docs[k].data.id != id
    ensures r.None? <==> forall k | 0 <= k < |docs| :: docs[k].data.id != id
  {
    if docs == [] then None
    else if docs[0].data.id == id then Some(0)
    else match FirstWithId(docs[1..], id)
      case None => None
      case Some(k) => Some(k + 1)
  }

  /** `getUserQuery`: the signed-in user's record, or 'User not found'. */
  function GetUser(uid: Option<string>, docs: seq<UserDoc>): (r: Attempt<User>)
    ensures r.Returned? <==> uid.Some? && exists k | 0 <= k < |docs| :: docs[k].data.id == uid.value
    ensures r.Raised? ==> r.error == Thrown(Some(UserNotFoundMessage))
    ensures r.Returned? ==> r.value.id == uid.value
    // the whole record of the first document carrying the uid, as `find` returns it
    ensures r.Returned? ==>
      FirstWithId(docs, uid.value).Some? && r.value == docs[FirstWithId(docs, uid.value).value].data
  {
    if uid.None? then Raised(Thrown(Some(UserNotFoundMessage)))
    else match FirstWithId(docs, uid.value)
      case None => Raised(Thrown(Some(UserNotFoundMessage)))
      case Some(k) => Returned(docs[k].data)
  }

  /** Whether `docs[k]` is the first document whose `id` field is `id`. */
  predicate IsFirstMatch(docs: seq<UserDoc>, id: string, k: nat)
    requires k < |docs|
  {
    docs[k].data.id == id && forall j | 0 <= j < k :: docs[j].data.id != id
  }

  /** The collection after `updateUserHasUploaded(id)`. */
  function MarkUploaded(docs: seq<UserDoc>, id: string): (r: seq<UserDoc>)
    ensures |r| == |docs|
    // only the first matching record changes, and only its flag, which becomes true
    ensures forall k | 0 <= k < |docs| ::
      r[k] == if IsFirstMatch(docs, id, k) then docs[k].(data := docs[k].data.(hasUploaded := true)) else docs[k]
  {
    match FirstWithId(docs, id)
    case None => docs
    case Some(k) => docs[k := docs[k].(data := docs[k].data.(hasUploaded := true))]
  }

  /** Which record a lookup finds depends on the records' `id`s alone. */
  lemma {:induction false} SameIdsSameLookup(a: seq<UserDoc>, b: seq<UserDoc>, id: string)
    requires |a| == |b| && forall j | 0 <= j < |a| :: a[j].data.id == b[j].data.id
    ensures FirstWithId(a, id) == FirstWithId(b, id)
  {
    if a != [] {
      SameIdsSameLookup(a[1..], b[1..], id);
    }
  }

  /** The update keeps every record's `id`, so it never changes which record a lookup finds. */
  lemma MarkUploadedKeepsLookups(docs: seq<UserDoc>, id: string, other: string)
    ensures FirstWithId(MarkUploaded(docs, id), other) == FirstWithId(docs, other)
  {
    var r := MarkUploaded(docs, id);
    forall j | 0 <= j < |docs| ensures r[j].data.id == docs[j].data.id { }
    SameIdsSameLookup(r, docs, other);
  }

  /** After the update the dashboard finds the user with the flag set. */
  lemma UploadedThenFound(docs: seq<UserDoc>, id: string)
    requires exists k | 0 <= k < |docs| :: docs[k].data.id == id
    ensures GetUser(Some(id), MarkUploaded(docs, id)).Returned?
    ensures GetUser(Some(id), MarkUploaded(docs, id)).value == GetUser(Some(id), docs).value.(hasUploaded := true)
  {
    var k := FirstWithId(docs, id).value;
    MarkUploadedKeepsLookups(docs, id, id);
    assert IsFirstMatch(docs, id, k);
  }

  /** Every other user is found exactly as before the update. */
  lemma OthersUnaffected(docs: seq<UserDoc>, id: string, other: string)
    requires other != id
    ensures GetUser(Some(other), MarkUploaded(docs, id)) == GetUser(Some(other), docs)
  {
    MarkUploadedKeepsLookups(docs, id, other);
    match FirstWithId(docs, other)
    case None =>
    case Some(m) =>
      assert !IsFirstMatch(docs, id, m);
  }

  /** The `users` collection as the database holds it. */
  class UserCollection {
    var docs: seq<UserDoc>

    constructor (docs: seq<UserDoc>)
      ensures this.docs == docs
    {
      this.docs := docs;
    }

    /** `updateUserHasUploaded(userId)`: query by `id`, update the first hit, or leave everything as it is. */
    method UpdateUserHasUploaded(userId: string)
      modifies this
      ensures docs == MarkUploaded(old(docs), userId)
      ensures (forall k | 0 <= k < |docs| :: old(docs)[k].data.id != userId) ==> docs == old(docs)
    {
      var hit := FirstWithId(docs, userId);
      if hit.Some? {
        var userDoc := docs[hit.value];
        docs := docs[hit.value := userDoc.(data := userDoc.data.(hasUploaded := true))];
      }
    }
  }
}
