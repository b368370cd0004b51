/** The vector index the service writes chunk records to and searches.
    The index is a remote service: what it answers to a search, and whether
    it rejects a write, are fields the environment sets. Every batch the
    service upserts and every search it sends is recorded in a ghost log. */
module Store {
  import opened Wrappers

  /** A metadata value: a string, an integer, or some other JSON value
      known only by its Python type name. */
  datatype MetaValue = MetaStr(s: string) | MetaInt(i: int) | MetaOther(typeName: string)

  type Metadata = map<string, MetaValue>

  /** An embedding vector; its components are copied, never inspected. */
  datatype Embedding = Embedding(components: seq<real>)

  /** A stored record: id, vector and metadata. */
  datatype Record = Record(id: string, vector: Embedding, metadata: Metadata)

  /** One hit of a search; `metadata` is None for a record stored without any. */
  datatype Match = Match(id: string, score: real, metadata: Option<Metadata>)

  /** A search as sent to the index. */
  datatype Search = Search(vector: Embedding, topK: int, filter: string)

  predicate DistinctIds(batch: seq<Record>) {
    forall j, k :: 0 <= j < k < |batch| ==> batch[j].id != batch[k].id
  }

  /** The records after an upsert of `batch`: each record is inserted or
      overwrites the one with its id, later entries winning. */
  function Upserted(m: map<string, Record>, batch: seq<Record>): map<string, Record>
  {
    if |batch| == 0 then m
    else
      var last := batch[|batch| - 1];
      Upserted(m, batch[..|batch| - 1])[last.id := last]
  }

  /** An upsert overrides the old records with the batch's own map. */
  lemma {:induction false} UpsertedOverrides(m: map<string, Record>, batch: seq<Record>)
    ensures Upserted(m, batch) == m + Upserted(map[], batch)
  {
    if |batch| > 0 {
      UpsertedOverrides(m, batch[..|batch| - 1]);
    }
  }

  /** Upserting the same batch twice leaves the same records as once. */
  lemma UpsertIdempotent(m: map<string, Record>, batch: seq<Record>)
    ensures Upserted(Upserted(m, batch), batch) == Upserted(m, batch)
  {
    var b := Upserted(map[], batch);
    UpsertedOverrides(m, batch);
    UpsertedOverrides(m + b, batch);
    assert (m + b) + b == m + b;
  }

  /** With distinct ids, every record of the batch is stored under its id. */
  lemma {:induction false} UpsertedHolds(m: map<string, Record>, batch: seq<Record>, k: nat)
    requires DistinctIds(batch)
    requires k < |batch|
    ensures batch[k].id in Upserted(m, batch) && Upserted(m, batch)[batch[k].id] == batch[k]
  {
    if k < |batch| - 1 {
      UpsertedHolds(m, batch[..|batch| - 1], k);
    }
  }

  /** Ids outside the batch keep their old record, or stay absent. */
  lemma {:induction false} UpsertedKeeps(m: map<string, Record>, batch: seq<Record>, id: string)
    requires forall k :: 0 <= k < |batch| ==> batch[k].id != id
    ensures id in Upserted(m, batch) <==> id in m
    ensures id in m ==> Upserted(m, batch)[id] == m[id]
  {
    if |batch| > 0 {
      UpsertedKeeps(m, batch[..|batch| - 1], id);
    }
  }

  class VectorStore {
    /** The index's content, by record id. */
    var records: map<string, Record>
    /** Set by the environment: the error the next upsert raises, if any. */
    var writeFault: Option<string>
    /** Set by the environment: the index's reply to a search. */
    var reply: Result<seq<Match>>
    /** Every batch upserted, in call order. */
    ghost var upserts: seq<seq<Record>>
    /** Every search sent, in call order. */
    ghost var searches: seq<Search>

    /** A client of a persistent index, which already holds the records of
        earlier uploads; the call logs start empty. */
    constructor (records: map<string, Record>, writeFault: Option<string>, reply: Result<seq<Match>>)
      ensures this.records == records
      ensures this.writeFault == writeFault && this.reply == reply
      ensures upserts == [] && searches == []
    {
      this.records := records;
      this.writeFault := writeFault;
      this.reply := reply;
      upserts := [];
      searches := [];
    }

    /** `index.upsert(vectors=batch)`: one call, one log entry; a rejected
        batch raises its error and writes nothing. */
    method Upsert(batch: seq<Record>) returns (fault: Option<string>)
      modifies this`records, this`upserts
      ensures upserts == old(upserts) + [batch]
      ensures fault == writeFault
      ensures records == if fault.None? then Upserted(old(records), batch) else old(records)
    {
      upserts := upserts + [batch];
      fault := writeFault;
      if fault.None? {
        records := Upserted(records, batch);
      }
    }

    /** `index.query(vector=…, top_k=…, filter=…)`: logs the search and
        returns the index's reply. */
    method Query(vector: Embedding, topK: int, filter: string) returns (r: Result<seq<Match>>)
      modifies this`searches
      ensures searches == old(searches) + [Search(vector, topK, filter)]
      ensures r == reply
    {
      searches := searches + [Search(vector, topK, filter)];
      r := reply;
    }
  }
}
