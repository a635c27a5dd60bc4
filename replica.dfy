/** The replica store: collection name to document id to document, and the
    effect on it of the three data envelopes `added`, `changed` and
    `removed`. */
module Replica {
  import opened Values
  import opened Protocol

  type Docs = map<string, Doc>
  type Store = map<string, Docs>

  /** The reserved key under which a document carries its own id. */
  const IdKey := "_id"

  /** `collections[name]`, or the empty collection `added` creates. */
  function DocsOf(store: Store, name: string): Docs {
    if name in store then store[name] else map[]
  }

  predicate HasDoc(store: Store, name: string, id: string) {
    name in store && id in store[name]
  }

  /** The document `added` leaves behind: the prior document (or a new empty
      one) with `_id` set to the id and then every supplied field written. */
  function AddDoc(docs: Docs, id: string, fields: map<string, Value>): (d: Doc)
    ensures forall k | k in fields :: k in d && d[k] == fields[k]
    ensures IdKey in d && (IdKey !in fields ==> d[IdKey] == Str(id))
    ensures forall k | k !in fields && k != IdKey ::
      (k in d <==> id in docs && k in docs[id]) && (k in d ==> d[k] == docs[id][k])
  {
    (if id in docs then docs[id] else map[])[IdKey := Str(id)] + fields
  }

  function AddStore(store: Store, name: string, id: string, fields: map<string, Value>): (r: Store)
    ensures r.Keys == store.Keys + {name}
    ensures r[name].Keys == DocsOf(store, name).Keys + {id}
    ensures r[name][id] == AddDoc(DocsOf(store, name), id, fields)
    ensures forall d | d in r[name] && d != id :: r[name][d] == store[name][d]
    ensures forall n | n in store && n != name :: r[n] == store[n]
  {
    var docs := DocsOf(store, name);
    store[name := docs[id := AddDoc(docs, id, fields)]]
  }

  /** A document after `changed`: the fields written first, then the cleared
      names deleted, so a name both written and cleared ends up absent. */
  function ChangeDoc(doc: Doc, fields: map<string, Value>, cleared: seq<string>): (d: Doc)
    ensures forall k :: k in d <==> (k in doc || k in fields) && k !in cleared
    ensures forall k | k in d :: d[k] == if k in fields then fields[k] else doc[k]
  {
    (doc + fields) - SetOf(cleared)
  }

  /** The `oldFields` argument of a change notification: each written field's
      prior value, `None` where it did not exist. */
  function OldFields(doc: Doc, fields: map<string, Value>): map<string, Option<Value>> {
    map k | k in fields :: if k in doc then Some(doc[k]) else None
  }

  /** `changed` is a no-op for an unknown collection or document. */
  function ChangeStore(store: Store, name: string, id: string, fields: map<string, Value>, cleared: seq<string>): (r: Store)
    ensures !HasDoc(store, name, id) ==> r == store
    ensures r.Keys == store.Keys && forall n | n in store :: r[n].Keys == store[n].Keys
    ensures HasDoc(store, name, id) ==> r[name][id] == ChangeDoc(store[name][id], fields, cleared)
    ensures forall n, d | n in store && d in store[n] && (n != name || d != id) :: r[n][d] == store[n][d]
  {
    if HasDoc(store, name, id) then
      store[name := store[name][id := ChangeDoc(store[name][id], fields, cleared)]]
    else store
  }

  /** `removed` on an existing collection: the document is gone, everything
      else is as it was. */
  function RemoveStore(store: Store, name: string, id: string): (r: Store)
    requires name in store
    ensures r.Keys == store.Keys && r[name].Keys == store[name].Keys - {id}
    ensures forall n | n in store && n != name :: r[n] == store[n]
    ensures forall d | d in r[name] :: r[name][d] == store[name][d]
  {
    store[name := store[name] - {id}]
  }

  datatype Change = Change(fields: map<string, Value>, cleared: seq<string>)

  /** A run of `changed` envelopes for one document. */
  function ApplyChanges(store: Store, name: string, id: string, changes: seq<Change>): Store
    decreases |changes|
  {
    if changes == [] then store
    else
      var c := changes[|changes| - 1];
      ChangeStore(ApplyChanges(store, name, id, changes[..|changes| - 1]), name, id, c.fields, c.cleared)
  }

  /** `changed` never creates or deletes a document or a collection, and
      touches no other document. */
  lemma {:induction false} ChangesKeepDocument(store: Store, name: string, id: string, changes: seq<Change>)
    requires HasDoc(store, name, id)
    ensures var r := ApplyChanges(store, name, id, changes);
      && HasDoc(r, name, id) && r.Keys == store.Keys
      && (forall n | n in store :: r[n].Keys == store[n].Keys)
      && (forall n, d | n in store && d in store[n] && (n != name || d != id) :: r[n][d] == store[n][d])
    decreases |changes|
  {
    if changes != [] {
      ChangesKeepDocument(store, name, id, changes[..|changes| - 1]);
    }
  }

  /** `added`, any number of `changed`, then `removed` for one document: every
      `changed` finds the document (so each notifies), and afterwards the
      document is absent while every other document is as before. */
  lemma AddChangeRemove(store: Store, name: string, id: string, fields: map<string, Value>, changes: seq<Change>)
    ensures var s0 := AddStore(store, name, id, fields);
      forall i | 0 <= i <= |changes| :: HasDoc(ApplyChanges(s0, name, id, changes[..i]), name, id)
    ensures var s0 := AddStore(store, name, id, fields);
      var s1 := ApplyChanges(s0, name, id, changes);
      && name in s1
      && var r := RemoveStore(s1, name, id);
      && name in r && id !in r[name]
      && forall n, d | n in store && d in store[n] && (n != name || d != id) ::
           n in r && d in r[n] && r[n][d] == store[n][d]
  {
    var s0 := AddStore(store, name, id, fields);
    forall i | 0 <= i <= |changes|
      ensures HasDoc(ApplyChanges(s0, name, id, changes[..i]), name, id)
    {
      ChangesKeepDocument(s0, name, id, changes[..i]);
    }
    ChangesKeepDocument(s0, name, id, changes);
  }
}
