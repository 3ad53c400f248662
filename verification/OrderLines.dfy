/**
 What order lines must be like. An order may name a product twice only with one quantity:
 then nothing is oversold and the read model is right in every run; otherwise some run
 breaks the read model.
 */
module OrderLines {
  import opened Products
  import opened Inventory
  import opened Shops

  /** Commands run one by one, with orders of any lines. */
  function RunAny(shop: Shop, cmds: seq<Command>): Shop {
    if cmds == [] then shop
    else
      var before := RunAny(shop, cmds[..|cmds| - 1]);
      if Issuable(before, cmds[|cmds| - 1]) then Execute(before, cmds[|cmds| - 1]).0 else before
  }

  /** Every order placed in the run has these lines. */
  ghost predicate OnlyPlaces(cmds: seq<Command>, lines: seq<OrderLine>) {
    forall i :: 0 <= i < |cmds| && cmds[i].PlaceOrder? ==> cmds[i].lines == lines
  }

  /** At the end of the run stock is held right and the read model agrees. */
  ghost predicate EndsRight(cmds: seq<Command>) {
    NoOversell(RunAny(EMPTY, cmds)) && ViewAgrees(RunAny(EMPTY, cmds))
  }

  lemma {:induction false} ConsistentRuns(cmds: seq<Command>, lines: seq<OrderLine>)
    requires Consistent(lines) && OnlyPlaces(cmds, lines)
    ensures RunAny(EMPTY, cmds) == Run(EMPTY, cmds)
  {
    hide Execute, Issuable, Consistent;
    if cmds != [] {
      ConsistentRuns(cmds[..|cmds| - 1], lines);
    }
  }

  /** A product stocked for an order's larger quantity. */
  function Stocked(lines: seq<OrderLine>, product: ProductId, larger: nat, held: map<OrderId, nat>,
      log: seq<Record>): Shop {
    Shop(map[product := ProductState(0, larger, held)], map[0 := Order(Placed, lines)], map[],
         [Record(product, Listed("", larger, 0))] + log)
  }

  /** Reserve the larger quantity, release the smaller. */
  function Mismatch(lines: seq<OrderLine>, product: ProductId, larger: nat, smaller: nat): seq<Command> {
    [ListProduct(product, "", larger, 0), PlaceOrder(0, lines)]
    + [Stock(product, Reserve(0, larger)), Stock(product, Release(0, smaller))]
  }

  lemma StockedReached(lines: seq<OrderLine>, product: ProductId, larger: nat)
    requires lines != []
    ensures RunAny(EMPTY, [ListProduct(product, "", larger, 0), PlaceOrder(0, lines)])
            == Stocked(lines, product, larger, map[], [])
  {
    var cmds := [ListProduct(product, "", larger, 0), PlaceOrder(0, lines)];
    assert cmds[..1][..0] == [];
    assert RunAny(EMPTY, cmds[..1]) == Execute(EMPTY, cmds[0]).0;
  }

  lemma ReserveLarger(lines: seq<OrderLine>, product: ProductId, larger: nat)
    requires larger > 0
    ensures Execute(Stocked(lines, product, larger, map[], []), Stock(product, Reserve(0, larger))).0
         == Stocked(lines, product, larger, map[0 := larger], [Record(product, Reserved(0, larger))])
  {
  }

  lemma ReleaseSmaller(lines: seq<OrderLine>, product: ProductId, larger: nat, smaller: nat)
    ensures var held := Stocked(lines, product, larger, map[0 := larger], [Record(product, Reserved(0, larger))]);
            Execute(held, Stock(product, Release(0, smaller))).0 ==
              Stocked(lines, product, larger, map[],
                      [Record(product, Reserved(0, larger)), Record(product, Released(0, smaller))])
  {
    assert map[0 := larger] - {0} == map[];
  }

  /** The view has kept the difference, of which the aggregate knows nothing. */
  lemma MismatchView(product: ProductId, larger: nat, smaller: nat)
    requires larger > smaller
    ensures View([Record(product, Listed("", larger, 0))]
                 + [Record(product, Reserved(0, larger)), Record(product, Released(0, smaller))])
         == map[product := StockLevel("", larger, larger - smaller)]
  {
    var listed, reserved := Record(product, Listed("", larger, 0)), Record(product, Reserved(0, larger));
    var released := Record(product, Released(0, smaller));
    assert [listed] + [reserved, released] == [] + [listed] + [reserved] + [released];
    ViewAppend([], listed);
    ViewAppend([] + [listed], reserved);
    ViewAppend([] + [listed] + [reserved], released);
  }

  lemma {:induction false} MismatchRuns(lines: seq<OrderLine>, product: ProductId, larger: nat, smaller: nat)
    requires OrderLine(product, larger) in lines && OrderLine(product, smaller) in lines && larger > smaller
    ensures RunAny(EMPTY, Mismatch(lines, product, larger, smaller))
         == Stocked(lines, product, larger, map[],
                    [Record(product, Reserved(0, larger)), Record(product, Released(0, smaller))])
  {
    hide Execute;
    var cmds := Mismatch(lines, product, larger, smaller);
    StockedReached(lines, product, larger);
    ReserveLarger(lines, product, larger);
    ReleaseSmaller(lines, product, larger, smaller);
    assert cmds[..3][..2] == [ListProduct(product, "", larger, 0), PlaceOrder(0, lines)];
    assert RunAny(EMPTY, cmds[..3]) == Execute(RunAny(EMPTY, cmds[..3][..2]), cmds[2]).0;
    assert cmds == cmds[..3] + [cmds[3]];
  }

  lemma {:induction false} InconsistentBreaks(lines: seq<OrderLine>) returns (cmds: seq<Command>)
    requires !Consistent(lines)
    ensures OnlyPlaces(cmds, lines) && !EndsRight(cmds)
  {
    hide RunAny, View;
    var i, j :| 0 <= i < j < |lines| && lines[i].product == lines[j].product && lines[i].quantity != lines[j].quantity;
    var first := lines[i].quantity > lines[j].quantity;
    var product, larger, smaller := lines[i].product, if first then lines[i].quantity else lines[j].quantity,
                                    if first then lines[j].quantity else lines[i].quantity;
    cmds := Mismatch(lines, product, larger, smaller);
    assert lines[i] in lines && lines[j] in lines;
    MismatchRuns(lines, product, larger, smaller);
    MismatchView(product, larger, smaller);
    assert product in RunAny(EMPTY, cmds).products && Total(map[]) == 0;
  }

  /** Lines are consistent if and only if every run that places only such orders ends right. */
  lemma {:induction false} ConsistentExactlyWhen(lines: seq<OrderLine>)
    ensures Consistent(lines) <==> forall cmds :: OnlyPlaces(cmds, lines) ==> EndsRight(cmds)
  {
    if Consistent(lines) {
      forall cmds | OnlyPlaces(cmds, lines) ensures EndsRight(cmds) {
        ConsistentRuns(cmds, lines);
        EveryRunIsSound(cmds);
      }
    } else {
      var cmds := InconsistentBreaks(lines);
      assert OnlyPlaces(cmds, lines) && !EndsRight(cmds);
    }
  }

  lemma EmptyView()
    ensures View([]) == map[]
  {
  }

  /** An order that names product 1 with quantities 0 and 5, and how it comes to be. */
  function Mismatched(): Shop {
    Shop(map[1 := ProductState(10, 5, map[])], map[7 := Order(Placed, [OrderLine(1, 0), OrderLine(1, 5)])], map[],
         [Record(1, Listed("", 5, 10))])
  }

  lemma MismatchedReached()
    ensures RunAny(EMPTY, [ListProduct(1, "", 5, 10), PlaceOrder(7, [OrderLine(1, 0), OrderLine(1, 5)])])
            == Mismatched()
  {
    var cmds := [ListProduct(1, "", 5, 10), PlaceOrder(7, [OrderLine(1, 0), OrderLine(1, 5)])];
    assert cmds[..1][..0] == [];
    assert RunAny(EMPTY, cmds[..1]) == Execute(EMPTY, cmds[0]).0;
  }

  /** Committing its first line drops the reservation without taking any stock, and the read model still counts it. */
  lemma MismatchLosesStock()
    ensures var reserved := Execute(Execute(Mismatched(), Stock(1, Reserve(7, 0))).0, Stock(1, Reserve(7, 5))).0;
            var first := Execute(reserved, Stock(1, CommitReservation(7, 0))).0;
            var shipped := Execute(first, Stock(1, CommitReservation(7, 5))).0;
            && reserved.products == map[1 := ProductState(10, 5, map[7 := 5])]
            && shipped.products == map[1 := ProductState(10, 5, map[])]
            && View(shipped.log) == map[1 := StockLevel("", 5, 5)]
  {
    hide View;
    var reserved := Execute(Execute(Mismatched(), Stock(1, Reserve(7, 0))).0, Stock(1, Reserve(7, 5))).0;
    assert View([]) == map[] by { EmptyView(); }
    ViewAppend([], Record(1, Listed("", 5, 10)));
    assert [] + [Record(1, Listed("", 5, 10))] == Mismatched().log;
    ViewAppend(Mismatched().log, Record(1, Reserved(7, 5)));
    var shipped := Execute(reserved, Stock(1, CommitReservation(7, 0))).0;
    ViewAppend(reserved.log, Record(1, Committed(7, 0)));
    assert shipped.products[1].reservations == map[];
  }
}
