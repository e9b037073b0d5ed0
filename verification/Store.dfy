/** The database and the cache as objects whose operations change them in place. */
module Store {
  import opened Domain
  import opened Books
  import opened History
  import opened Handlers

  datatype Tables = Tables(books: Books, tickets: map<string, Ticket>)

  /** The tables, and the copy an open transaction would roll back to. */
  class PrismaService {
    var wallets: map<int, Wallet>
    var ledger: seq<Row>
    var tickets: map<string, Ticket>
    var saved: Option<Tables>

    function Contents(): Tables
      reads this
    {
      Tables(Books(wallets, ledger), tickets)
    }

    method Begin()
      requires saved.None?
      modifies this`saved
      ensures saved == Some(old(Contents()))
    {
      saved := Some(Contents());
    }

    method Commit()
      modifies this`saved
      ensures saved.None?
    {
      saved := None;
    }

    method Rollback()
      requires saved.Some?
      modifies this
      ensures Contents() == old(saved).value && saved.None?
    {
      wallets, ledger, tickets := saved.value.books.wallets, saved.value.books.ledger, saved.value.tickets;
      saved := None;
    }

    method FindWallet(id: int) returns (row: Option<Wallet>)
      ensures row == Find(wallets, id)
    {
      row := if id in wallets then Some(wallets[id]) else None;
    }

    /** wallet.update under a version guard; false is the record-not-found exception. */
    method UpdateWallet(id: int, version: int, delta: int) returns (ok: bool)
      modifies this`wallets
      ensures ok <==> Guarded(old(wallets), id, version, delta).Some?
      ensures wallets == if ok then Guarded(old(wallets), id, version, delta).value else old(wallets)
    {
      ok := id in wallets && wallets[id].version == version;
      if ok {
        var row := wallets[id];
        wallets := wallets[id := row.(balance := row.balance + delta, version := version + 1)];
      }
    }

    /** wallet.create; false is a violation of the unique key on (userId, currency). */
    method CreateWallet(id: int, userId: int, currency: string, at: int) returns (ok: bool)
      requires id !in wallets
      modifies this`wallets
      ensures ok <==> Vacant(old(wallets), userId, currency)
      ensures wallets == if ok then old(wallets)[id := NewWallet(userId, currency, at)] else old(wallets)
    {
      ok := Vacant(wallets, userId, currency);
      if ok { wallets := wallets[id := Wallet(userId, currency, 0, 0, at, false)]; }
    }

    method FindTicket(txId: string) returns (row: Option<Ticket>)
      ensures row == TicketOf(tickets, txId)
    {
      row := if txId in tickets then Some(tickets[txId]) else None;
    }

    /** walletRequest.create; false is a violation of the unique key on txId. */
    method CreateTicket(txId: string, row: Ticket) returns (ok: bool)
      modifies this`tickets
      ensures ok <==> txId !in old(tickets)
      ensures tickets == if ok then old(tickets)[txId := row] else old(tickets)
    {
      ok := txId !in tickets;
      if ok { tickets := tickets[txId := row]; }
    }

    /** walletRequest.update; false is the record-not-found exception. */
    method UpdateTicket(txId: string, status: Status) returns (ok: bool)
      modifies this`tickets
      ensures ok <==> txId in old(tickets)
      ensures tickets == MarkTicket(old(tickets), txId, status)
    {
      ok := txId in tickets;
      if ok { tickets := tickets[txId := tickets[txId].(status := status)]; }
    }

    /** transaction.create and createMany; false is a violation of the unique key on reference, which a
        ledger that had it keeps. */
    method InsertRows(rows: seq<Row>) returns (ok: bool)
      modifies this`ledger
      ensures ok <==> Insertable(old(ledger), rows)
      ensures ledger == if ok then old(ledger) + rows else old(ledger)
      ensures DistinctReferences(old(ledger)) ==>
                DistinctReferences(ledger) && (ok <==> DistinctReferences(old(ledger) + rows))
    {
      if DistinctReferences(ledger) { InsertableIff(ledger, rows); }
      ok := Insertable(ledger, rows);
      if ok { ledger := ledger + rows; }
    }
  }

  class RedisService {
    var requests: map<string, Status>
    var lists: map<int, seq<Listed>>

    method GetRequest(txId: string) returns (entry: Option<Status>)
      ensures entry == if txId in requests then Some(requests[txId]) else None
    {
      entry := if txId in requests then Some(requests[txId]) else None;
    }

    method SetRequest(txId: string, status: Status)
      modifies this`requests
      ensures requests == old(requests)[txId := status]
    {
      requests := requests[txId := status];
    }

    method DelRequest(txId: string)
      modifies this`requests
      ensures requests == old(requests) - {txId}
    {
      requests := requests - {txId};
    }

    method GetList(userId: int) returns (entry: Option<seq<Listed>>)
      ensures entry == if userId in lists then Some(lists[userId]) else None
    {
      entry := if userId in lists then Some(lists[userId]) else None;
    }

    method SetList(userId: int, list: seq<Listed>)
      modifies this`lists
      ensures lists == old(lists)[userId := list]
    {
      lists := lists[userId := list];
    }

    method DelList(userId: int)
      modifies this`lists
      ensures lists == old(lists) - {userId}
    {
      lists := lists - {userId};
    }
  }
}
