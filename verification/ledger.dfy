/**
 * The hash-chained ledger as the routes read it: an ordered sequence of blocks,
 * each carrying one transaction. Hashes and chain verification are not part of
 * this model; only the fields the routes inspect are kept.
 */
module Ledger {
  import opened Common

  const CREATE_ITEM: string := "CREATE_ITEM"
  const STOCK_IN: string := "STOCK_IN"
  const STOCK_OUT: string := "STOCK_OUT"
  const MOVE: string := "MOVE"
  const ADMIN_EDIT_ITEM: string := "ADMIN_EDIT_ITEM"

  /** A transaction record; a field the JSON does not carry is `None`. */
  datatype Transaction = Transaction(
    txType: string,
    userName: string,
    itemSku: string,
    quantity: int,
    location: Option<string>,
    fromLocation: Option<string>,
    toLocation: Option<string>,
    category: Option<string>,
    newCategory: Option<string>)

  /** A block; `timestamp` is milliseconds since the Unix epoch. */
  datatype Block = Block(index: nat, timestamp: int, transaction: Transaction)

  const MS_PER_HOUR: int := 3_600_000

  /** `new Date(t).getUTCHours()`: the hour of day, counted in UTC, of instant `t`. */
  function UtcHour(t: int): (h: nat)
    ensures h < 24
  {
    (t / MS_PER_HOUR) % 24
  }

  /** A stock movement (`STOCK_IN`, `STOCK_OUT` or `MOVE`) naming `name` as a location. */
  predicate MovesThrough(tx: Transaction, name: string) {
    tx.txType in {STOCK_IN, STOCK_OUT, MOVE} &&
    (tx.location == Some(name) || tx.fromLocation == Some(name) || tx.toLocation == Some(name))
  }

  /** An item creation or edit (`CREATE_ITEM`, `ADMIN_EDIT_ITEM`) naming `name` as its category. */
  predicate FilesUnder(tx: Transaction, name: string) {
    tx.txType in {CREATE_ITEM, ADMIN_EDIT_ITEM} &&
    (tx.category == Some(name) || tx.newCategory == Some(name))
  }

  /** The location history query: some block of the ledger moved stock through `name`. */
  predicate LocationReferenced(ledger: seq<Block>, name: string) {
    exists i :: 0 <= i < |ledger| && MovesThrough(ledger[i].transaction, name)
  }

  /** The category history query: some block of the ledger created or edited an item in `name`. */
  predicate CategoryReferenced(ledger: seq<Block>, name: string) {
    exists i :: 0 <= i < |ledger| && FilesUnder(ledger[i].transaction, name)
  }

  /** Only stock movements count as location history: appending any other block changes nothing. */
  lemma LocationHistoryIgnoresOtherTypes(ledger: seq<Block>, b: Block, name: string)
    requires b.transaction.txType !in {STOCK_IN, STOCK_OUT, MOVE}
    ensures LocationReferenced(ledger + [b], name) == LocationReferenced(ledger, name)
  {
    if LocationReferenced(ledger + [b], name) {
      var i :| 0 <= i < |ledger + [b]| && MovesThrough((ledger + [b])[i].transaction, name);
      assert i < |ledger| && ledger[i] == (ledger + [b])[i];
    }
    if LocationReferenced(ledger, name) {
      var i :| 0 <= i < |ledger| && MovesThrough(ledger[i].transaction, name);
      assert (ledger + [b])[i] == ledger[i];
    }
  }

  /** Only item creations and edits count as category history: stock movements change nothing. */
  lemma CategoryHistoryIgnoresOtherTypes(ledger: seq<Block>, b: Block, name: string)
    requires b.transaction.txType !in {CREATE_ITEM, ADMIN_EDIT_ITEM}
    ensures CategoryReferenced(ledger + [b], name) == CategoryReferenced(ledger, name)
  {
    if CategoryReferenced(ledger + [b], name) {
      var i :| 0 <= i < |ledger + [b]| && FilesUnder((ledger + [b])[i].transaction, name);
      assert i < |ledger| && ledger[i] == (ledger + [b])[i];
    }
    if CategoryReferenced(ledger, name) {
      var i :| 0 <= i < |ledger| && FilesUnder(ledger[i].transaction, name);
      assert (ledger + [b])[i] == ledger[i];
    }
  }
}
