/**
 The `Document` collection in MongoDB, keyed by `_id` and holding each
 document's `data`, and the server's `findOrCreateDocument` over it.
 */
module Documents {
  import opened Wire

  /** The collection: document id to stored `data`. */
  type Store = map<string, Json>

  /** A document as returned by the model layer. */
  datatype Document = Document(id: string, data: Json)

  /** `defaultValue`: the data a newly created document starts with. */
  const DefaultValue: Json := JStr("")

  /** `findOrCreateDocument(id)`: nothing for a null id; otherwise the stored
      document, created with the default data when the id is new. Returns the
      document and the collection afterwards. */
  function FindOrCreate(store: Store, id: DocId): (res: (Option<Document>, Store))
    ensures res.0.Some? <==> id.Id?
    ensures id.Null? ==> res.1 == store
    ensures res.0.Some? ==> res.0.value.id == id.key && id.key in res.1 && res.1[id.key] == res.0.value.data
    ensures id.Id? && id.key in store ==> res.0.value.data == store[id.key] && res.1 == store
    ensures id.Id? && id.key !in store ==> res.0.value.data == DefaultValue
    ensures res.1.Keys == store.Keys + (if id.Id? then {id.key} else {})
  {
    match id
    case Null => (None, store)
    case Id(key) =>
      if key in store then (Some(Document(key, store[key])), store)
      else (Some(Document(key, DefaultValue)), store[key := DefaultValue])
  }

  /** `Document.findByIdAndUpdate(id, { data })`: replaces the data of an
      existing document; an unknown id matches nothing (no upsert). */
  function Update(store: Store, key: string, data: Json): (r: Store)
    ensures r.Keys == store.Keys
    ensures key in store ==> r[key] == data
    ensures forall k :: k in store && k != key ==> r[k] == store[k]
  {
    if key in store then store[key := data] else store
  }

  /** A lookup changes no stored document and creates at most the one it
      was asked for. */
  lemma FindOrCreateKeepsOthers(store: Store, id: DocId)
    ensures var after := FindOrCreate(store, id).1;
            && (forall k :: k in store ==> after[k] == store[k])
            && |after| == |store| + (if id.Id? && id.key !in store then 1 else 0)
  {
  }

  /** A second lookup of the same id returns the same document and creates nothing. */
  lemma FindOrCreateIdempotent(store: Store, id: DocId)
    ensures var (doc, after) := FindOrCreate(store, id);
            FindOrCreate(after, id) == (doc, after)
  {
  }

  /** Saves are last-write-wins: a later update hides an earlier one. */
  lemma UpdateLastWriteWins(store: Store, key: string, first: Json, second: Json)
    ensures Update(Update(store, key, first), key, second) == Update(store, key, second)
  {
  }

  /** What was saved for a document is what the next joiner loads. */
  lemma SaveThenLoad(store: Store, key: string, data: Json)
    requires key in store
    ensures FindOrCreate(Update(store, key, data), Id(key)).0 == Some(Document(key, data))
  {
  }
}
