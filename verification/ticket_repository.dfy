/** The ticket table and the three repository operations the saga uses on it.
    The quota updates are single `UPDATE … SET quota = quota ∓ q WHERE id = …`
    statements: they check no bound and touch nothing when the id is absent. */
module TicketRepository {
  import opened Wrappers
  import opened Records

  type Tickets = map<Uuid, Ticket>

  datatype RepoError = RecordNotFound

  /** Loads a ticket row (under a row lock in the source, which the model
      takes for granted by making each service call one atomic step). */
  function FindByIdForUpdate(ts: Tickets, id: Uuid): (r: Result<Ticket, RepoError>)
    ensures r.Failure? <==> id !in ts
    ensures r.Success? ==> r.value == ts[id]
  {
    if id in ts then Success(ts[id]) else Failure(RecordNotFound)
  }

  /** Only the quota of the named row moves; every other field and row stays. */
  ghost predicate OnlyQuotaOf(ts: Tickets, ts': Tickets, id: Uuid)
  {
    && ts'.Keys == ts.Keys
    && (forall k :: k in ts && k != id ==> ts'[k] == ts[k])
    && (id in ts ==> ts'[id] == ts[id].(quota := ts'[id].quota))
  }

  function ReduceQuota(ts: Tickets, id: Uuid, q: int): (r: Tickets)
    ensures OnlyQuotaOf(ts, r, id)
    ensures id in ts ==> r[id].quota == ts[id].quota - q
  {
    if id in ts then ts[id := ts[id].(quota := ts[id].quota - q)] else ts
  }

  function IncreaseQuota(ts: Tickets, id: Uuid, q: int): (r: Tickets)
    ensures OnlyQuotaOf(ts, r, id)
    ensures id in ts ==> r[id].quota == ts[id].quota + q
  {
    if id in ts then ts[id := ts[id].(quota := ts[id].quota + q)] else ts
  }

  /** Giving back what was taken restores the table exactly. */
  lemma ReduceThenIncrease(ts: Tickets, id: Uuid, q: int)
    ensures IncreaseQuota(ReduceQuota(ts, id, q), id, q) == ts
  {
    if id in ts {
      var r := IncreaseQuota(ReduceQuota(ts, id, q), id, q);
      assert r[id] == ts[id];
      assert forall k :: k in ts ==> r[k] == ts[k];
    }
  }

  /** The repository itself keeps no floor: reducing a quota of 1 by 2 stores -1.
      Non-negativity rests entirely on the caller's quota check. */
  lemma ReduceQuotaHasNoFloor()
    ensures var ts := map[1 := Ticket(1, 7, "Regular", 100, 1)];
            ReduceQuota(ts, 1, 2)[1].quota == -1
  {
  }
}
