/**
 * The `conversations` table behind ConversationDao, as the declared queries see it:
 * rows keyed by `peer_jid`, selections over them, and the writes that replace or
 * delete rows.
 */
module ConversationDao {
  import opened Wrappers
  import opened DataModel

  /** The table: each row is stored under its own peer JID. */
  type Table = map<string, Conversation>

  ghost predicate KeyedByPeer(t: Table)
  {
    forall p :: p in t ==> t[p].peerJid == p
  }

  /** The rows of the table. */
  function Rows(t: Table): set<Conversation>
  {
    t.Values
  }

  /** `SELECT * FROM conversations WHERE peer_jid = :peerJid`. */
  function GetConversationEntity(t: Table, peerJid: string): (r: Option<Conversation>)
    requires KeyedByPeer(t)
    ensures r.Some? ==> r.value in Rows(t) && r.value.peerJid == peerJid
    ensures forall c :: c in Rows(t) && c.peerJid == peerJid ==> r == Some(c)
  {
    if peerJid in t then Some(t[peerJid]) else None
  }

  /** `SELECT * FROM conversations`. Rows come in no particular order. */
  function GetConversationEntitiesStream(t: Table): (r: set<Conversation>)
    ensures forall p :: p in t ==> t[p] in r
    ensures forall c :: c in r ==> exists p :: p in t && t[p] == c
  {
    Rows(t)
  }

  /** `SELECT * FROM conversations WHERE status == :status`. */
  function GetConversationEntitiesStreamWithStatus(t: Table, status: ConversationStatus): (r: set<Conversation>)
    ensures forall c :: c in r <==> c in Rows(t) && c.status == status
  {
    set c | c in t.Values && c.status == status
  }

  /** `SELECT EXISTS (... WHERE peer_jid = :peerJid AND status != :startedStatus)`. */
  function IsConversationExists(t: Table, peerJid: string, startedStatus: ConversationStatus): (b: bool)
    requires KeyedByPeer(t)
    ensures b <==> exists c :: c in Rows(t) && c.peerJid == peerJid && c.status != startedStatus
  {
    if peerJid in t then
      assert t[peerJid] in Rows(t);
      t[peerJid].status != startedStatus
    else
      false
  }

  /** `upsert(entity)`: insert, or replace the row with the same peer JID. */
  function Upserted(t: Table, entity: Conversation): Table
  {
    t[entity.peerJid := entity]
  }

  /** `upsert(entities)`: each entity in turn. */
  function UpsertedAll(t: Table, entities: seq<Conversation>): Table
    decreases |entities|
  {
    if entities == [] then t else UpsertedAll(Upserted(t, entities[0]), entities[1..])
  }

  /** `DELETE FROM conversations WHERE peer_jid = :peerJid`. */
  function Deleted(t: Table, peerJid: string): Table
  {
    t - {peerJid}
  }

  /** The last of `entities` with the given peer JID, if any. */
  function LastWithPeer(entities: seq<Conversation>, peerJid: string): Option<Conversation>
    decreases |entities|
  {
    if entities == [] then None
    else if entities[|entities| - 1].peerJid == peerJid then Some(entities[|entities| - 1])
    else LastWithPeer(entities[..|entities| - 1], peerJid)
  }

  // ---------------------------------------------------------------------------
  // Properties
  // ---------------------------------------------------------------------------

  /**
   * After `upsert(e)` the table is still keyed by peer, looking up `e.peerJid` gives `e`,
   * and every other row is as before.
   */
  lemma UpsertThenLookup(t: Table, e: Conversation, p: string)
    requires KeyedByPeer(t)
    ensures KeyedByPeer(Upserted(t, e))
    ensures GetConversationEntity(Upserted(t, e), e.peerJid) == Some(e)
    ensures p != e.peerJid ==> GetConversationEntity(Upserted(t, e), p) == GetConversationEntity(t, p)
    ensures |Upserted(t, e)| == if e.peerJid in t then |t| else |t| + 1
  {
  }

  lemma UpsertedAllAppend(t: Table, entities: seq<Conversation>, e: Conversation)
    ensures UpsertedAll(t, entities + [e]) == Upserted(UpsertedAll(t, entities), e)
    decreases |entities|
  {
    if entities == [] {
      assert entities + [e] == [e];
    } else {
      assert (entities + [e])[1..] == entities[1..] + [e];
      UpsertedAllAppend(Upserted(t, entities[0]), entities[1..], e);
    }
  }

  lemma {:induction false} UpsertedAllKeyed(t: Table, entities: seq<Conversation>)
    requires KeyedByPeer(t)
    ensures KeyedByPeer(UpsertedAll(t, entities))
    decreases |entities|
  {
    if entities != [] {
      UpsertThenLookup(t, entities[0], entities[0].peerJid);
      UpsertedAllKeyed(Upserted(t, entities[0]), entities[1..]);
    }
  }

  /**
   * After `upsert(entities)` a lookup gives the last of the entities with that peer JID,
   * and the row as it was when none of them has it.
   */
  lemma {:induction false} UpsertAllLookup(t: Table, entities: seq<Conversation>, p: string)
    requires KeyedByPeer(t)
    ensures KeyedByPeer(UpsertedAll(t, entities))
    ensures GetConversationEntity(UpsertedAll(t, entities), p) ==
      match LastWithPeer(entities, p)
      case Some(e) => Some(e)
      case None => GetConversationEntity(t, p)
    decreases |entities|
  {
    UpsertedAllKeyed(t, entities);
    if entities != [] {
      var init := entities[..|entities| - 1];
      var e := entities[|entities| - 1];
      assert entities == init + [e];
      UpsertedAllAppend(t, init, e);
      UpsertedAllKeyed(t, init);
      UpsertAllLookup(t, init, p);
      UpsertThenLookup(UpsertedAll(t, init), e, p);
    }
  }

  /** `deleteConversation(p)` removes the row of `p` and leaves every other row as it was. */
  lemma DeleteRemovesOnlyThatRow(t: Table, p: string, q: string)
    requires KeyedByPeer(t)
    ensures KeyedByPeer(Deleted(t, p))
    ensures GetConversationEntity(Deleted(t, p), p).None?
    ensures q != p ==> GetConversationEntity(Deleted(t, p), q) == GetConversationEntity(t, q)
    ensures forall c :: c in Rows(Deleted(t, p)) <==> c in Rows(t) && c.peerJid != p
  {
    var d := Deleted(t, p);
    forall c | c in Rows(t) && c.peerJid != p ensures c in Rows(d) {
      var k :| k in t && t[k] == c;
      assert k in d && d[k] == c;
    }
  }

  /** The filtered stream is the part of the full stream with that status. */
  lemma FilteredStreamIsPartOfFullStream(t: Table, status: ConversationStatus)
    ensures GetConversationEntitiesStreamWithStatus(t, status) <= GetConversationEntitiesStream(t)
    ensures forall c :: c in GetConversationEntitiesStream(t) && c.status == status ==>
      c in GetConversationEntitiesStreamWithStatus(t, status)
  {
  }

  /** `isConversationExists(p, Started)` holds exactly when `p` has a row that is not Started. */
  lemma ExistsMatchesLookup(t: Table, p: string, startedStatus: ConversationStatus)
    requires KeyedByPeer(t)
    ensures IsConversationExists(t, p, startedStatus) <==>
      GetConversationEntity(t, p).Some? && GetConversationEntity(t, p).value.status != startedStatus
  {
  }

  // ---------------------------------------------------------------------------
  // The table
  // ---------------------------------------------------------------------------

  /** The stored table; the writes of ConversationDao change it in place. */
  class ConversationTable {
    var rows: Table

    ghost predicate Valid()
      reads this
    {
      KeyedByPeer(rows)
    }

    constructor ()
      ensures Valid() && rows == map[]
    {
      rows := map[];
    }

    method Upsert(conversationEntity: Conversation)
      requires Valid()
      modifies this
      ensures Valid()
      ensures rows == Upserted(old(rows), conversationEntity)
      ensures GetConversationEntity(rows, conversationEntity.peerJid) == Some(conversationEntity)
    {
      rows := rows[conversationEntity.peerJid := conversationEntity];
      UpsertThenLookup(old(rows), conversationEntity, conversationEntity.peerJid);
    }

    method UpsertAll(conversationEntities: seq<Conversation>)
      requires Valid()
      modifies this
      ensures Valid()
      ensures rows == UpsertedAll(old(rows), conversationEntities)
    {
      rows := UpsertedAll(rows, conversationEntities);
      UpsertedAllKeyed(old(rows), conversationEntities);
    }

    method DeleteConversation(peerJid: string)
      requires Valid()
      modifies this
      ensures Valid()
      ensures rows == Deleted(old(rows), peerJid)
      ensures GetConversationEntity(rows, peerJid).None?
    {
      rows := rows - {peerJid};
      DeleteRemovesOnlyThatRow(old(rows), peerJid, peerJid);
    }
  }
}
