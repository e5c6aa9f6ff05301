/** The Mongo database behind the three services, as in-memory collections.
    Each collection lists its records in insertion (natural) order, which is the
    order `find` and `find_one` see them in. */
module Store {
  import opened Wrappers
  import opened Models

  class Db {
    var conversations: seq<Conversation>
    var memories: seq<Memory>
    var documents: seq<DocumentRecord>
    /** The next ObjectId the database will hand out. */
    var nextId: ObjectId

    /** Every stored record has an id, ids were handed out before, and no id repeats
        within a collection. */
    ghost predicate Valid()
      reads this
    {
      && (forall i :: 0 <= i < |conversations| ==> conversations[i].id.Some? && conversations[i].id.value < nextId)
      && (forall i, j :: 0 <= i < j < |conversations| ==> conversations[i].id != conversations[j].id)
      && (forall i :: 0 <= i < |memories| ==> memories[i].id.Some? && memories[i].id.value < nextId)
      && (forall i, j :: 0 <= i < j < |memories| ==> memories[i].id != memories[j].id)
      && (forall i :: 0 <= i < |documents| ==> documents[i].id.Some? && documents[i].id.value < nextId)
      && (forall i, j :: 0 <= i < j < |documents| ==> documents[i].id != documents[j].id)
    }

    constructor ()
      ensures Valid()
      ensures conversations == [] && memories == [] && documents == [] && nextId == 0
    {
      conversations := [];
      memories := [];
      documents := [];
      nextId := 0;
    }
  }

  /** `find_one({"_id": id})` on the conversations: the position of the first match. */
  function FindConversation(cs: seq<Conversation>, id: ObjectId, from: nat := 0): (r: Option<nat>)
    requires from <= |cs|
    ensures r.Some? ==> from <= r.value < |cs| && cs[r.value].id == Some(id)
                        && forall j :: from <= j < r.value ==> cs[j].id != Some(id)
    ensures r.None? ==> forall j :: from <= j < |cs| ==> cs[j].id != Some(id)
    decreases |cs| - from
  {
    if from == |cs| then None
    else if cs[from].id == Some(id) then Some(from)
    else FindConversation(cs, id, from + 1)
  }

  /** `find_one({"_id": id})` on the memories. */
  function FindMemory(ms: seq<Memory>, id: ObjectId, from: nat := 0): (r: Option<nat>)
    requires from <= |ms|
    ensures r.Some? ==> from <= r.value < |ms| && ms[r.value].id == Some(id)
                        && forall j :: from <= j < r.value ==> ms[j].id != Some(id)
    ensures r.None? ==> forall j :: from <= j < |ms| ==> ms[j].id != Some(id)
    decreases |ms| - from
  {
    if from == |ms| then None
    else if ms[from].id == Some(id) then Some(from)
    else FindMemory(ms, id, from + 1)
  }

  /** In a collection whose ids do not repeat, looking up a stored memory's id finds
      that very memory. */
  lemma FindMemoryItself(ms: seq<Memory>, i: nat)
    requires forall a, b :: 0 <= a < b < |ms| ==> ms[a].id != ms[b].id
    requires i < |ms| && ms[i].id.Some?
    ensures FindMemory(ms, ms[i].id.value) == Some(i)
  {
  }

  /** `find_one({"conversation_id": c})` on the memories. */
  function FindMemoryOf(ms: seq<Memory>, conversationId: string, from: nat := 0): (r: Option<nat>)
    requires from <= |ms|
    ensures r.Some? ==> from <= r.value < |ms| && ms[r.value].conversationId == conversationId
                        && forall j :: from <= j < r.value ==> ms[j].conversationId != conversationId
    ensures r.None? ==> forall j :: from <= j < |ms| ==> ms[j].conversationId != conversationId
    decreases |ms| - from
  {
    if from == |ms| then None
    else if ms[from].conversationId == conversationId then Some(from)
    else FindMemoryOf(ms, conversationId, from + 1)
  }
}
