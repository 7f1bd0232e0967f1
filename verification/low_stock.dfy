/**
 * The low-stock predictor: from the stock-out velocity of the last thirty days
 * and the current inventory, the products that will run out within a week,
 * most urgent first.
 */
module LowStock {
  import opened Common
  import opened Ledger
  import Sorting
  import opened Seqs

  /** Length of the velocity window, in days. */
  const WINDOW_DAYS: int := 30
  /** A product is reported when it runs out within this many days. */
  const PREDICTION_THRESHOLD_DAYS: int := 7

  /** A product of the current inventory: its name and its quantity at each location. */
  datatype Product = Product(productName: string, locations: seq<int>)

  /** The current inventory: SKU and product, in the insertion order of the inventory map. */
  type Inventory = seq<(string, Product)>

  /** The inventory is a map: no SKU appears twice. */
  predicate DistinctSkus(inventory: Inventory) {
    forall i, j :: 0 <= i < j < |inventory| ==> inventory[i].0 != inventory[j].0
  }

  datatype Prediction = Prediction(id: string, name: string, stock: int, daysToEmpty: int)

  function Sum(s: seq<int>): int {
    if s == [] then 0 else Sum(s[..|s| - 1]) + s[|s| - 1]
  }

  /** Block `b` is a stock-out of `sku` recorded strictly after `cutoff`. */
  predicate CountsAsOutflow(b: Block, cutoff: int, sku: string) {
    b.transaction.txType == STOCK_OUT && b.timestamp > cutoff && b.transaction.itemSku == sku
  }

  /** Total quantity taken out of `sku` by the stock-outs of `chain` newer than `cutoff`. */
  function RecentOutflow(chain: seq<Block>, cutoff: int, sku: string): int {
    if chain == [] then 0
    else (if CountsAsOutflow(chain[0], cutoff, sku) then chain[0].transaction.quantity else 0)
         + RecentOutflow(chain[1..], cutoff, sku)
  }

  /** A block adds its quantity to the outflow of `sku` exactly when it is a recent stock-out of `sku`. */
  lemma {:induction false} RecentOutflowAppend(chain: seq<Block>, b: Block, cutoff: int, sku: string)
    ensures RecentOutflow(chain + [b], cutoff, sku) ==
            RecentOutflow(chain, cutoff, sku) + (if CountsAsOutflow(b, cutoff, sku) then b.transaction.quantity else 0)
  {
    if chain != [] {
      RecentOutflowAppend(chain[1..], b, cutoff, sku);
      assert (chain + [b])[1..] == chain[1..] + [b];
    }
  }

  /** `Math.floor(stock / (outflow / 30))`, computed exactly on integers. */
  function DaysToEmpty(stock: int, outflow: int): (d: int)
    requires outflow > 0
    ensures d * outflow <= WINDOW_DAYS * stock < (d + 1) * outflow
  {
    (WINDOW_DAYS * stock) / outflow
  }

  /** What the predictor pushes for one inventory entry, given that SKU's outflow. */
  function PredictionFor(sku: string, product: Product, outflow: int): Option<Prediction> {
    if outflow > 0 && DaysToEmpty(Sum(product.locations), outflow) <= PREDICTION_THRESHOLD_DAYS
    then Some(Prediction(sku, product.productName, Sum(product.locations),
                         DaysToEmpty(Sum(product.locations), outflow)))
    else None
  }

  function Emitted(o: Option<Prediction>): seq<Prediction> {
    match o
    case Some(p) => [p]
    case None => []
  }

  /** What the predictor pushes for inventory entry `e`. */
  function PushedFor(chain: seq<Block>, cutoff: int): ((string, Product)) -> seq<Prediction> {
    (e: (string, Product)) => Emitted(PredictionFor(e.0, e.1, RecentOutflow(chain, cutoff, e.0)))
  }

  /** The predictions pushed while walking the inventory, in inventory order. */
  function Candidates(inventory: Inventory, chain: seq<Block>, cutoff: int): seq<Prediction> {
    FlatMap(inventory, PushedFor(chain, cutoff))
  }

  /**
   * Predictions are pushed in inventory order: those of an earlier stretch of
   * the inventory come before those of a later one.
   */
  lemma CandidatesConcat(first: Inventory, second: Inventory, chain: seq<Block>, cutoff: int)
    ensures Candidates(first + second, chain, cutoff) ==
            Candidates(first, chain, cutoff) + Candidates(second, chain, cutoff)
  {
    FlatMapConcat(first, second, PushedFor(chain, cutoff));
  }

  /** The sort key: ascending days to empty. */
  predicate DaysLe(a: Prediction, b: Prediction) {
    a.daysToEmpty <= b.daysToEmpty
  }

  function SortByDays(s: seq<Prediction>): seq<Prediction> {
    Sorting.InsertionSort(s, DaysLe)
  }

  /** The answer of the low-stock route for this chain, inventory and cutoff. */
  function Predictions(chain: seq<Block>, inventory: Inventory, cutoff: int): seq<Prediction> {
    if |chain| <= 1 then [] else SortByDays(Candidates(inventory, chain, cutoff))
  }

  /**
   * The `/low-stock-predictions` handler: tally the recent stock-outs per SKU,
   * push a prediction for every product due within the threshold, then sort.
   * `cutoff` is "now minus thirty days".
   */
  method LowStockPredictions(chain: seq<Block>, inventory: Inventory, cutoff: int)
    returns (predictions: seq<Prediction>)
    ensures |chain| <= 1 ==> predictions == []
    ensures predictions == Predictions(chain, inventory, cutoff)
  {
    if |chain| <= 1 {
      return [];
    }
    var velocity: map<string, int> := map[];
    var i := 0;
    while i < |chain|
      invariant 0 <= i <= |chain|
      invariant forall sku :: sku in velocity ==> velocity[sku] == RecentOutflow(chain[..i], cutoff, sku)
      invariant forall sku :: sku !in velocity ==> RecentOutflow(chain[..i], cutoff, sku) == 0
    {
      var tx := chain[i].transaction;
      if tx.txType == STOCK_OUT && chain[i].timestamp > cutoff {
        var current := if tx.itemSku in velocity then velocity[tx.itemSku] else 0;
        velocity := velocity[tx.itemSku := current + tx.quantity];
      }
      assert chain[..i + 1] == chain[..i] + [chain[i]];
      forall sku ensures RecentOutflow(chain[..i + 1], cutoff, sku) ==
          RecentOutflow(chain[..i], cutoff, sku) + (if CountsAsOutflow(chain[i], cutoff, sku) then chain[i].transaction.quantity else 0)
      {
        RecentOutflowAppend(chain[..i], chain[i], cutoff, sku);
      }
      i := i + 1;
    }
    assert chain[..i] == chain;

    var pending: seq<Prediction> := [];
    var j := 0;
    while j < |inventory|
      invariant 0 <= j <= |inventory|
      invariant pending == Candidates(inventory[..j], chain, cutoff)
    {
      var (sku, product) := inventory[j];
      var totalStock := 0;
      var k := 0;
      while k < |product.locations|
        invariant 0 <= k <= |product.locations|
        invariant totalStock == Sum(product.locations[..k])
      {
        assert product.locations[..k + 1][..k] == product.locations[..k];
        totalStock := totalStock + product.locations[k];
        k := k + 1;
      }
      assert product.locations[..k] == product.locations;
      var totalStockOut := if sku in velocity then velocity[sku] else 0;
      if totalStockOut > 0 {
        var daysToEmpty := (WINDOW_DAYS * totalStock) / totalStockOut;
        if daysToEmpty <= PREDICTION_THRESHOLD_DAYS {
          pending := pending + [Prediction(sku, product.productName, totalStock, daysToEmpty)];
        }
      }
      CandidatesConcat(inventory[..j], [inventory[j]], chain, cutoff);
      FlatMapSingle(inventory[j], PushedFor(chain, cutoff));
      assert inventory[..j + 1] == inventory[..j] + [inventory[j]];
      j := j + 1;
    }
    assert inventory[..j] == inventory;
    predictions := SortByDays(pending);
  }

  lemma DaysLeIsPreorder()
    ensures Sorting.TotalPreorder(DaysLe)
  {
  }

  /** The route's answer is sorted by ascending days to empty. */
  lemma PredictionsSorted(chain: seq<Block>, inventory: Inventory, cutoff: int)
    ensures Sorting.SortedBy(Predictions(chain, inventory, cutoff), DaysLe)
  {
    if |chain| > 1 {
      DaysLeIsPreorder();
      Sorting.SortSorts(Candidates(inventory, chain, cutoff), DaysLe);
    }
  }

  /**
   * The answer is a permutation of the pushed predictions, and predictions with
   * equal days to empty keep the inventory order they were pushed in.
   */
  lemma PredictionsPermuteStably(chain: seq<Block>, inventory: Inventory, cutoff: int, c: Prediction)
    requires |chain| > 1
    ensures multiset(Predictions(chain, inventory, cutoff)) == multiset(Candidates(inventory, chain, cutoff))
    ensures Sorting.Ties(Predictions(chain, inventory, cutoff), c, DaysLe) ==
            Sorting.Ties(Candidates(inventory, chain, cutoff), c, DaysLe)
  {
    DaysLeIsPreorder();
    Sorting.SortPermutes(Candidates(inventory, chain, cutoff), DaysLe);
    Sorting.SortStable(Candidates(inventory, chain, cutoff), c, DaysLe);
  }

  /** Every pushed prediction comes from an inventory entry whose SKU is due within the threshold. */
  lemma {:induction false} CandidateSound(inventory: Inventory, chain: seq<Block>, cutoff: int, p: Prediction)
    requires p in Candidates(inventory, chain, cutoff)
    ensures exists i :: (0 <= i < |inventory| && inventory[i].0 == p.id &&
      PredictionFor(p.id, inventory[i].1, RecentOutflow(chain, cutoff, p.id)) == Some(p))
  {
    var e := inventory[0];
    if p in Emitted(PredictionFor(e.0, e.1, RecentOutflow(chain, cutoff, e.0))) {
      assert inventory[0].0 == p.id;
    } else {
      CandidateSound(inventory[1..], chain, cutoff, p);
      var i :| 0 <= i < |inventory[1..]| && inventory[1..][i].0 == p.id &&
        PredictionFor(p.id, inventory[1..][i].1, RecentOutflow(chain, cutoff, p.id)) == Some(p);
      assert inventory[i + 1] == inventory[1..][i];
    }
  }

  /**
   * Each prediction names an inventory product with positive recent outflow;
   * its stock is the sum of the product's location quantities, its days to empty
   * are `floor(30 * stock / outflow)`, and they do not exceed the threshold.
   */
  lemma PredictionSound(chain: seq<Block>, inventory: Inventory, cutoff: int, p: Prediction)
    requires p in Predictions(chain, inventory, cutoff)
    ensures exists i :: (0 <= i < |inventory| && inventory[i].0 == p.id &&
      p.name == inventory[i].1.productName && p.stock == Sum(inventory[i].1.locations))
    ensures RecentOutflow(chain, cutoff, p.id) > 0
    ensures p.daysToEmpty == DaysToEmpty(p.stock, RecentOutflow(chain, cutoff, p.id))
    ensures p.daysToEmpty <= PREDICTION_THRESHOLD_DAYS
  {
    DaysLeIsPreorder();
    Sorting.SortPermutes(Candidates(inventory, chain, cutoff), DaysLe);
    assert p in multiset(Predictions(chain, inventory, cutoff));
    CandidateSound(inventory, chain, cutoff, p);
  }

  /** A SKU without recent outflow is never predicted, whatever its stock. */
  lemma NoOutflowNoPrediction(chain: seq<Block>, inventory: Inventory, cutoff: int, sku: string)
    requires RecentOutflow(chain, cutoff, sku) <= 0
    ensures forall p :: p in Predictions(chain, inventory, cutoff) ==> p.id != sku
  {
    forall p | p in Predictions(chain, inventory, cutoff) ensures p.id != sku {
      PredictionSound(chain, inventory, cutoff, p);
    }
  }

  /** With distinct SKUs, a SKU absent from `inventory` is never pushed. */
  lemma {:induction false} CandidatesOnlyFromInventory(inventory: Inventory, chain: seq<Block>, cutoff: int, q: Prediction)
    requires forall i :: 0 <= i < |inventory| ==> inventory[i].0 != q.id
    ensures multiset(Candidates(inventory, chain, cutoff))[q] == 0
  {
    if q in Candidates(inventory, chain, cutoff) {
      CandidateSound(inventory, chain, cutoff, q);
    }
  }

  lemma {:induction false} CandidateOnce(inventory: Inventory, chain: seq<Block>, cutoff: int, i: nat, q: Prediction)
    requires DistinctSkus(inventory) && i < |inventory|
    requires PredictionFor(inventory[i].0, inventory[i].1, RecentOutflow(chain, cutoff, inventory[i].0)) == Some(q)
    ensures multiset(Candidates(inventory, chain, cutoff))[q] == 1
  {
    var rest := inventory[1..];
    if i == 0 {
      forall k | 0 <= k < |rest| ensures rest[k].0 != q.id {
        assert rest[k] == inventory[k + 1];
      }
      CandidatesOnlyFromInventory(rest, chain, cutoff, q);
    } else {
      assert rest[i - 1] == inventory[i];
      CandidateOnce(rest, chain, cutoff, i - 1, q);
      assert inventory[0].0 != q.id;
    }
  }

  /**
   * Every inventory product with positive recent outflow and at most seven days
   * to empty is reported exactly once, and every report about its SKU is that one.
   */
  lemma PredictedExactlyOnce(chain: seq<Block>, inventory: Inventory, cutoff: int, i: nat)
    requires |chain| > 1 && DistinctSkus(inventory) && i < |inventory|
    requires RecentOutflow(chain, cutoff, inventory[i].0) > 0
    requires DaysToEmpty(Sum(inventory[i].1.locations), RecentOutflow(chain, cutoff, inventory[i].0)) <= PREDICTION_THRESHOLD_DAYS
    ensures var out := RecentOutflow(chain, cutoff, inventory[i].0);
      var q := Prediction(inventory[i].0, inventory[i].1.productName, Sum(inventory[i].1.locations),
                          DaysToEmpty(Sum(inventory[i].1.locations), out));
      multiset(Predictions(chain, inventory, cutoff))[q] == 1 &&
      forall p :: p in Predictions(chain, inventory, cutoff) && p.id == inventory[i].0 ==> p == q
  {
    var out := RecentOutflow(chain, cutoff, inventory[i].0);
    var q := Prediction(inventory[i].0, inventory[i].1.productName, Sum(inventory[i].1.locations),
                        DaysToEmpty(Sum(inventory[i].1.locations), out));
    DaysLeIsPreorder();
    Sorting.SortPermutes(Candidates(inventory, chain, cutoff), DaysLe);
    CandidateOnce(inventory, chain, cutoff, i, q);
    forall p | p in Predictions(chain, inventory, cutoff) && p.id == inventory[i].0 ensures p == q {
      assert p in multiset(Predictions(chain, inventory, cutoff));
      CandidateSound(inventory, chain, cutoff, p);
    }
  }
}
