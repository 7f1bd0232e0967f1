/**
 * The anomaly scanner: three fixed business rules applied to every block after
 * the genesis block; flagged blocks are reported with their reasons, newest first.
 */
module Anomalies {
  import opened Common
  import opened Ledger
  import Decimal
  import opened Seqs

  /** Why a block is flagged, in the order the rules are evaluated. */
  datatype Reason =
    | UnusualTime(hour: nat)   // rule 1: outside 06:00-22:59 UTC
    | AdminMove                // rule 2: a MOVE performed by an Admin
    | SkippedWarehouse         // rule 3: a MOVE straight from Supplier to Retailer

  datatype Flag = Flag(block: Block, reasons: seq<Reason>)

  // The texts are split after their first word so that their leading letters are visible to proofs.
  const TIME_PREFIX := "Transaction " + "occurred at an unusual time ("
  const TIME_SUFFIX := ":00 UTC)."
  const ADMIN_MOVE_TEXT := "MOVE " + "operation performed by an Admin, not a Manager."
  const SKIPPED_WAREHOUSE_TEXT := "Logistics " + "anomaly: Skipped Warehouse (Supplier -> Retailer)."

  /** The human-readable text of a reason. */
  function Message(r: Reason): string {
    match r
    case UnusualTime(h) => TIME_PREFIX + Decimal.NatToString(h) + TIME_SUFFIX
    case AdminMove => ADMIN_MOVE_TEXT
    case SkippedWarehouse => SKIPPED_WAREHOUSE_TEXT
  }

  /** Distinct reasons have distinct texts, so the returned strings determine the reasons. */
  lemma MessageInjective(r1: Reason, r2: Reason)
    requires Message(r1) == Message(r2)
    ensures r1 == r2
  {
    LeadingChar(r1);
    LeadingChar(r2);
    if r1.UnusualTime? && r2.UnusualTime? {
      var m := Message(r1);
      var d1 := Decimal.NatToString(r1.hour);
      var d2 := Decimal.NatToString(r2.hour);
      assert m == TIME_PREFIX + d1 + TIME_SUFFIX;
      assert m == TIME_PREFIX + d2 + TIME_SUFFIX;
      assert |d1| == |d2|;
      assert d1 == m[|TIME_PREFIX|..|TIME_PREFIX| + |d1|];
      assert d2 == m[|TIME_PREFIX|..|TIME_PREFIX| + |d2|];
      Decimal.NatToStringInjective(r1.hour, r2.hour);
    }
  }

  /** Each rule's text opens with its own letter. */
  lemma LeadingChar(r: Reason)
    ensures r.UnusualTime? <==> Message(r)[0] == 'T'
    ensures r.AdminMove? <==> Message(r)[0] == 'M'
    ensures r.SkippedWarehouse? <==> Message(r)[0] == 'L'
  {
    if r.UnusualTime? {
      assert Message(r) == TIME_PREFIX + (Decimal.NatToString(r.hour) + TIME_SUFFIX);
    }
  }

  /** Position of a reason's rule in the rule list. */
  function Rank(r: Reason): nat {
    match r
    case UnusualTime(_) => 0
    case AdminMove => 1
    case SkippedWarehouse => 2
  }

  predicate UnusualHour(hour: nat) {
    hour < 6 || hour > 22
  }

  /** The role map gives the transaction's author the role `Admin`; unknown users have no role. */
  predicate ByAdmin(tx: Transaction, roles: map<string, string>) {
    tx.userName in roles && roles[tx.userName] == "Admin"
  }

  predicate SupplierToRetailer(tx: Transaction) {
    tx.fromLocation == Some("Supplier") && tx.toLocation == Some("Retailer")
  }

  /** The reasons the three rules give for block `b`. */
  function Reasons(b: Block, roles: map<string, string>): seq<Reason> {
    var hour := UtcHour(b.timestamp);
    var tx := b.transaction;
    (if UnusualHour(hour) then [UnusualTime(hour)] else [])
    + (if tx.txType == MOVE && ByAdmin(tx, roles) then [AdminMove] else [])
    + (if tx.txType == MOVE && SupplierToRetailer(tx) then [SkippedWarehouse] else [])
  }

  /** What the scan pushes for one block: nothing for the genesis block or a block no rule fires on. */
  function FlagFor(b: Block, roles: map<string, string>): seq<Flag> {
    if b.index != 0 && Reasons(b, roles) != [] then [Flag(b, Reasons(b, roles))] else []
  }

  /** The flags pushed while walking the chain, oldest first. */
  function Flagged(chain: seq<Block>, roles: map<string, string>): seq<Flag> {
    FlatMap(chain, b => FlagFor(b, roles))
  }

  /** The answer of the anomaly route: the flags, newest first. */
  function Scan(chain: seq<Block>, roles: map<string, string>): seq<Flag> {
    Reversed(Flagged(chain, roles))
  }

  lemma FlaggedSingle(b: Block, roles: map<string, string>)
    ensures Flagged([b], roles) == FlagFor(b, roles)
  {
    FlatMapSingle(b, x => FlagFor(x, roles));
  }

  lemma FlaggedConcat(a: seq<Block>, b: seq<Block>, roles: map<string, string>)
    ensures Flagged(a + b, roles) == Flagged(a, roles) + Flagged(b, roles)
  {
    FlatMapConcat(a, b, x => FlagFor(x, roles));
  }

  /**
   * The `/anomalies` handler once the caller passed the Admin/Auditor check:
   * run the rules on every block except the genesis block, keep the blocks with
   * a reason, and reverse the list.
   */
  method ScanAnomalies(chain: seq<Block>, roles: map<string, string>) returns (anomalies: seq<Flag>)
    ensures anomalies == Scan(chain, roles)
  {
    var found: seq<Flag> := [];
    var i := 0;
    while i < |chain|
      invariant 0 <= i <= |chain|
      invariant found == Flagged(chain[..i], roles)
    {
      var block := chain[i];
      FlaggedConcat(chain[..i], [block], roles);
      assert chain[..i + 1] == chain[..i] + [block];
      FlaggedSingle(block, roles);
      if block.index != 0 {
        var hour := UtcHour(block.timestamp);
        var tx := block.transaction;
        var reasons: seq<Reason> := [];
        if hour < 6 || hour > 22 {
          reasons := reasons + [UnusualTime(hour)];
        }
        if tx.txType == MOVE && tx.userName in roles && roles[tx.userName] == "Admin" {
          reasons := reasons + [AdminMove];
        }
        if tx.txType == MOVE && tx.fromLocation == Some("Supplier") && tx.toLocation == Some("Retailer") {
          reasons := reasons + [SkippedWarehouse];
        }
        assert reasons == Reasons(block, roles);
        if |reasons| > 0 {
          found := found + [Flag(block, reasons)];
        }
      }
      i := i + 1;
    }
    assert chain[..i] == chain;
    anomalies := Reversed(found);
  }

  /** Newest first: the flags of a later stretch of the chain come before those of an earlier one. */
  lemma NewestFirst(older: seq<Block>, newer: seq<Block>, roles: map<string, string>)
    ensures Scan(older + newer, roles) == Scan(newer, roles) + Scan(older, roles)
  {
    FlaggedConcat(older, newer, roles);
    ReversedConcat(Flagged(older, roles), Flagged(newer, roles));
  }

  lemma {:induction false} FlaggedSound(chain: seq<Block>, roles: map<string, string>, f: Flag)
    requires f in Flagged(chain, roles)
    ensures f.block in chain && f.block.index != 0 && f.reasons == Reasons(f.block, roles) != []
  {
    if f !in FlagFor(chain[0], roles) {
      FlaggedSound(chain[1..], roles, f);
    }
  }

  lemma {:induction false} FlaggedComplete(chain: seq<Block>, roles: map<string, string>, i: nat)
    requires i < |chain| && chain[i].index != 0 && Reasons(chain[i], roles) != []
    ensures Flag(chain[i], Reasons(chain[i], roles)) in Flagged(chain, roles)
  {
    if i > 0 {
      FlaggedComplete(chain[1..], roles, i - 1);
      assert chain[1..][i - 1] == chain[i];
    }
  }

  /**
   * A block is reported iff it is not the genesis block and some rule fires on
   * it; a report carries exactly the block's reasons, between one and three.
   */
  lemma ScanReportsExactlyFlaggedBlocks(chain: seq<Block>, roles: map<string, string>)
    ensures forall f :: f in Scan(chain, roles) ==>
      f.block in chain && f.block.index != 0 && f.reasons == Reasons(f.block, roles) && 1 <= |f.reasons| <= 3
    ensures forall i :: 0 <= i < |chain| && chain[i].index != 0 && Reasons(chain[i], roles) != [] ==>
      Flag(chain[i], Reasons(chain[i], roles)) in Scan(chain, roles)
  {
    ReversedMembers(Flagged(chain, roles));
    forall f | f in Scan(chain, roles)
      ensures f.block in chain && f.block.index != 0 && f.reasons == Reasons(f.block, roles) && 1 <= |f.reasons| <= 3
    {
      assert f in multiset(Flagged(chain, roles));
      FlaggedSound(chain, roles, f);
      ReasonsInRuleOrder(f.block, roles);
    }
    forall i | 0 <= i < |chain| && chain[i].index != 0 && Reasons(chain[i], roles) != []
      ensures Flag(chain[i], Reasons(chain[i], roles)) in Scan(chain, roles)
    {
      FlaggedComplete(chain, roles, i);
      assert Flag(chain[i], Reasons(chain[i], roles)) in multiset(Flagged(chain, roles));
    }
  }

  /** The reasons come in rule order, each rule at most once, so there are at most three. */
  lemma ReasonsInRuleOrder(b: Block, roles: map<string, string>)
    ensures |Reasons(b, roles)| <= 3
    ensures forall i, j :: 0 <= i < j < |Reasons(b, roles)| ==> Rank(Reasons(b, roles)[i]) < Rank(Reasons(b, roles)[j])
  {
  }

  /** The time rule fires iff the UTC hour is before 6 or after 22; hour 22 itself is not unusual. */
  lemma TimeRule(b: Block, roles: map<string, string>)
    ensures UnusualTime(UtcHour(b.timestamp)) in Reasons(b, roles) <==>
            UtcHour(b.timestamp) < 6 || UtcHour(b.timestamp) > 22
    ensures forall h :: UnusualTime(h) in Reasons(b, roles) ==> h == UtcHour(b.timestamp)
  {
  }

  /** A block that is not a MOVE can only carry the time reason. */
  lemma NonMoveOnlyTime(b: Block, roles: map<string, string>)
    requires b.transaction.txType != MOVE
    ensures Reasons(b, roles) == [] || Reasons(b, roles) == [UnusualTime(UtcHour(b.timestamp))]
  {
  }

  /** A MOVE from Supplier to Retailer by an Admin at 23:00 UTC gets all three reasons, in rule order. */
  lemma AllThreeRules(b: Block, roles: map<string, string>)
    requires UtcHour(b.timestamp) == 23
    requires b.transaction.txType == MOVE && roles == map[b.transaction.userName := "Admin"]
    requires b.transaction.fromLocation == Some("Supplier") && b.transaction.toLocation == Some("Retailer")
    ensures Reasons(b, roles) == [UnusualTime(23), AdminMove, SkippedWarehouse]
  {
  }
}
