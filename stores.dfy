/** In-memory stand-ins for the two repositories the use cases talk to
    (backend/src/domain/ports/product-repository.port.ts and transaction-repository.port.ts,
    plus the findById of transaction.repository.ts), and the journal on which every store
    write and every gateway request is recorded in the order it happens. */
module Stores {
  import opened Nullable
  import opened NumberText
  import opened Domain

  /** One observable effect of the backend on the outside world. */
  datatype Effect =
    | ProductSaved(product: Product)
    | TransactionCreated(transaction: Transaction)
    | TransactionSaved(transaction: Transaction)
    | TransactionUpdated(id: string, patch: TransactionPatch)
    | MerchantFetched(url: string)
    | ChargePosted(request: ChargeRequest)

  /** The record of effects, oldest first, shared by the stores and the gateway of one backend. */
  class Journal {
    ghost var events: seq<Effect>

    constructor ()
      ensures events == []
    {
      events := [];
    }
  }

  /** The product stored under `id`, if there is one and it is active. */
  function ActiveById(rows: map<string, Product>, id: string): (r: Option<Product>)
    ensures r.Some? <==> id in rows && rows[id].active
    ensures r.Some? ==> r.value == rows[id]
  {
    if id in rows && rows[id].active then Some(rows[id]) else None
  }

  /** Products keyed by id. */
  class ProductStore {
    var rows: map<string, Product>
    const journal: Journal

    ghost predicate Valid()
      reads this
    {
      forall k | k in rows :: rows[k].id == k
    }

    constructor (initial: map<string, Product>, journal: Journal)
      requires forall k | k in initial :: initial[k].id == k
      ensures Valid() && rows == initial && this.journal == journal
    {
      rows := initial;
      this.journal := journal;
    }

    /** findActive: the active products. */
    function FindActive(): (r: set<Product>)
      reads this
      ensures forall p :: p in r <==> p in rows.Values && p.active
    {
      set k | k in rows && rows[k].active :: rows[k]
    }

    /** findActiveById: the product with this id, if there is one and it is active. */
    function FindActiveById(id: string): (r: Option<Product>)
      reads this
      ensures r.Some? <==> id in rows && rows[id].active
      ensures r.Some? ==> r.value == rows[id]
    {
      ActiveById(rows, id)
    }

    /** save: replaces (or inserts) the whole row with the product's id. */
    method Save(product: Product) returns (saved: Product)
      requires Valid()
      modifies this, journal
      ensures Valid() && saved == product
      ensures rows == old(rows)[product.id := product]
      ensures journal.events == old(journal.events) + [ProductSaved(product)]
    {
      rows := rows[product.id := product];
      journal.events := journal.events + [ProductSaved(product)];
      saved := product;
    }
  }

  /** The id the transaction store hands out n-th (the database's generated key). */
  function TxId(n: nat): string {
    "tx-" + NatToDecimal(n)
  }

  /** n when `id` has the shape of TxId(n). */
  function IdNumber(id: string): Option<nat> {
    if |id| > 3 && id[..3] == "tx-" && AllDigits(id[3..]) then Some(ParseDigits(id[3..])) else None
  }

  lemma {:induction false} IdNumberOfTxId(n: nat)
    ensures IdNumber(TxId(n)) == Some(n)
  {
    var id := TxId(n);
    assert id[..3] == "tx-";
    assert id[3..] == NatToDecimal(n);
    ParseOfNatToDecimal(n);
  }

  /** Transactions keyed by id. `issued` counts the generated ids; no id still to be generated is
      a key yet, so the next one is fresh. */
  class TransactionStore {
    var rows: map<string, Transaction>
    var issued: nat
    const journal: Journal

    ghost predicate Valid()
      reads this
    {
      && (forall k | k in rows :: rows[k].id == k)
      && (forall n: nat | n >= issued :: TxId(n) !in rows)
    }

    constructor (journal: Journal)
      ensures Valid() && rows == map[] && issued == 0 && this.journal == journal
    {
      rows := map[];
      issued := 0;
      this.journal := journal;
    }

    /** The id the next create will use. */
    function NextId(): string
      reads this
    {
      TxId(issued)
    }

    lemma NextIdIsFresh()
      requires Valid()
      ensures NextId() !in rows
    {
    }

    /** findById: the row with this id, if any. */
    function FindById(id: string): (r: Option<Transaction>)
      reads this
      ensures r.Some? <==> id in rows
      ensures r.Some? ==> r.value == rows[id]
    {
      if id in rows then Some(rows[id]) else None
    }

    /** create: inserts a new row under a fresh id; the nullable columns start out null. */
    method Create(draft: TransactionDraft) returns (t: Transaction)
      requires Valid()
      modifies this, journal
      ensures Valid()
      ensures t == Transaction(old(NextId()), draft.productId, None, None, draft.amount, draft.status, None, draft.quantity)
      ensures t.id !in old(rows) && rows == old(rows)[t.id := t]
      ensures issued == old(issued) + 1
      ensures journal.events == old(journal.events) + [TransactionCreated(t)]
    {
      NextIdIsFresh();
      t := Transaction(TxId(issued), draft.productId, None, None, draft.amount, draft.status, None, draft.quantity);
      rows := rows[t.id := t];
      issued := issued + 1;
      forall n: nat | n >= issued
        ensures TxId(n) != t.id
      {
        IdNumberOfTxId(n);
        IdNumberOfTxId(issued - 1);
      }
      journal.events := journal.events + [TransactionCreated(t)];
    }

    /** save: replaces (or inserts) the whole row with the transaction's id. */
    method Save(transaction: Transaction) returns (saved: Transaction)
      requires Valid()
      modifies this, journal
      ensures Valid() && saved == transaction
      ensures rows == old(rows)[transaction.id := transaction]
      ensures issued >= old(issued)
      ensures journal.events == old(journal.events) + [TransactionSaved(transaction)]
    {
      var n := IdNumber(transaction.id);
      if n.Some? && n.value >= issued {
        issued := n.value + 1;
      }
      rows := rows[transaction.id := transaction];
      forall m: nat | m >= issued
        ensures TxId(m) != transaction.id
      {
        IdNumberOfTxId(m);
      }
      journal.events := journal.events + [TransactionSaved(transaction)];
      saved := transaction;
    }

    /** update: writes the patch's fields onto the row with this id; with no such row nothing changes. */
    method Update(id: string, patch: TransactionPatch)
      requires Valid()
      modifies this, journal
      ensures Valid() && issued == old(issued)
      ensures rows == if id in old(rows) then old(rows)[id := Patched(old(rows)[id], patch)] else old(rows)
      ensures journal.events == old(journal.events) + [TransactionUpdated(id, patch)]
    {
      if id in rows {
        rows := rows[id := Patched(rows[id], patch)];
      }
      journal.events := journal.events + [TransactionUpdated(id, patch)];
    }
  }
}
