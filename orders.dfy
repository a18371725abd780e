/** The admin order list: six fixed orders, the search box and status select that
    narrow the table, and the three counters. */
module Orders {
  import opened Text
  import opened Seqs

  datatype Order = Order(
    id: string, customer: string, email: string, items: nat, total: string,
    status: string, date: string, payment: string)

  const AllOrders: seq<Order> := [
    Order("#3210", "John Doe", "john@example.com", 3, "$299", "Delivered", "Oct 1, 2025", "Paid"),
    Order("#3209", "Jane Smith", "jane@example.com", 1, "$399", "Processing", "Oct 1, 2025", "Paid"),
    Order("#3208", "Bob Johnson", "bob@example.com", 2, "$149", "Pending", "Sep 30, 2025", "Pending"),
    Order("#3207", "Alice Brown", "alice@example.com", 1, "$79", "Delivered", "Sep 30, 2025", "Paid"),
    Order("#3206", "Charlie Wilson", "charlie@example.com", 4, "$449", "Shipped", "Sep 29, 2025", "Paid"),
    Order("#3205", "Diana Prince", "diana@example.com", 2, "$199", "Cancelled", "Sep 29, 2025", "Refunded")
  ]

  const AllStatus: string := "All Status"

  predicate MatchesSearch(o: Order, term: string)
  {
    MatchesTerm(o.id, term) || MatchesTerm(o.customer, term) || MatchesTerm(o.email, term)
  }

  predicate MatchesStatus(o: Order, status: string)
  {
    status == AllStatus || o.status == status
  }

  /** `filteredOrders` over a list of orders. */
  function Filtered(orders: seq<Order>, term: string, status: string): seq<Order>
  {
    Filter(orders, (o: Order) => MatchesSearch(o, term) && MatchesStatus(o, status))
  }

  /** The table shows exactly the orders that pass both tests, in the original order. */
  lemma FilteredSpec(orders: seq<Order>, term: string, status: string)
    ensures forall o :: o in Filtered(orders, term, status) <==>
              o in orders && MatchesSearch(o, term) && MatchesStatus(o, status)
    ensures IsSubsequence(Filtered(orders, term, status), orders)
  {
    var p := (o: Order) => MatchesSearch(o, term) && MatchesStatus(o, status);
    forall o | o in orders && p(o) ensures o in Filtered(orders, term, status) {
      FilterKeeps(orders, p, o);
    }
    FilterIsSubsequence(orders, p);
  }

  /** With an empty search and "All Status" every order is listed. */
  lemma NoFilterShowsAll(orders: seq<Order>)
    ensures Filtered(orders, "", AllStatus) == orders
  {
    forall o | o in orders ensures MatchesSearch(o, "") {
      EmptyTermMatches(o.id);
    }
    FilterAll(orders, (o: Order) => MatchesSearch(o, "") && MatchesStatus(o, AllStatus));
  }

  /** Any status other than "All Status" keeps only orders with exactly that status. */
  lemma StatusFilterExact(orders: seq<Order>, term: string, status: string)
    requires status != AllStatus
    ensures forall o :: o in Filtered(orders, term, status) ==> o.status == status
  {
  }

  /** The search ignores case. */
  lemma SearchIgnoresCase(o: Order, term: string)
    ensures MatchesSearch(o, term) <==> MatchesSearch(o, Lower(term))
  {
    MatchesTermIgnoresCase(o.id, term);
    MatchesTermIgnoresCase(o.customer, term);
    MatchesTermIgnoresCase(o.email, term);
  }

  function StatusCount(orders: seq<Order>, status: string): nat
  {
    Count(orders, (o: Order) => o.status == status)
  }

  /** The counters are taken over all orders, whatever the search and the select say. */
  lemma Counters()
    ensures StatusCount(AllOrders, "Pending") == 1
    ensures StatusCount(AllOrders, "Processing") == 1
    ensures StatusCount(AllOrders, "Delivered") == 2
  {
    var st := ListedStatuses();
    CountsOfStatuses(AllOrders, st);
  }

  lemma CountsOfStatuses(orders: seq<Order>, st: seq<string>)
    requires st == ["Delivered", "Processing", "Pending", "Delivered", "Shipped", "Cancelled"]
    requires |orders| == 6 && forall i :: 0 <= i < 6 ==> orders[i].status == st[i]
    ensures StatusCount(orders, "Pending") == 1
    ensures StatusCount(orders, "Processing") == 1
    ensures StatusCount(orders, "Delivered") == 2
  {
    CountOf(orders, "Pending", 2);
    CountOf(orders, "Processing", 1);
    OneBeforeThree(orders, "Delivered");
  }

  /** The listed orders' statuses. */
  lemma ListedStatuses() returns (st: seq<string>)
    ensures |AllOrders| == 6 && st == ["Delivered", "Processing", "Pending", "Delivered", "Shipped", "Cancelled"]
    ensures forall i :: 0 <= i < 6 ==> AllOrders[i].status == st[i]
  {
    st := ["Delivered", "Processing", "Pending", "Delivered", "Shipped", "Cancelled"];
  }

  /** Among six orders exactly the one at `i` has `status`. */
  lemma CountOf(s: seq<Order>, status: string, i: nat)
    requires |s| == 6 && i < 6 && s[i].status == status && status != ""
    requires forall j :: 0 <= j < 6 && j != i ==> |s[j].status| != |status| || (s[j].status != "" && s[j].status[0] != status[0])
    ensures StatusCount(s, status) == 1
  {
    FilterOfSix(s, (x: Order) => x.status == status);
  }

  /** Among six orders exactly the first and the fourth have `status`. */
  lemma OneBeforeThree(s: seq<Order>, status: string)
    requires |s| == 6 && s[0].status == status && s[3].status == status && status != ""
    requires forall j :: 0 <= j < 6 && j != 0 && j != 3 ==> |s[j].status| != |status| || (s[j].status != "" && s[j].status[0] != status[0])
    ensures StatusCount(s, status) == 2
  {
    FilterOfSix(s, (x: Order) => x.status == status);
  }

  /** The counter of a status is the number of listed orders under "All Status" with
      an empty search that have it. */
  lemma CounterMatchesUnfiltered(orders: seq<Order>, status: string)
    ensures StatusCount(orders, status) == Count(Filtered(orders, "", AllStatus), (o: Order) => o.status == status)
  {
    NoFilterShowsAll(orders);
  }

  lemma FilterOfSix(s: seq<Order>, p: Order -> bool)
    requires |s| == 6
    ensures |Filter(s, p)| == (if p(s[0]) then 1 else 0) + (if p(s[1]) then 1 else 0)
              + (if p(s[2]) then 1 else 0) + (if p(s[3]) then 1 else 0)
              + (if p(s[4]) then 1 else 0) + (if p(s[5]) then 1 else 0)
  {
    var t1 := s[1..];
    var t2 := t1[1..];
    var t3 := t2[1..];
    var t4 := t3[1..];
    var t5 := t4[1..];
    assert t5[1..] == [];
    assert t1[0] == s[1] && t2[0] == s[2] && t3[0] == s[3] && t4[0] == s[4] && t5[0] == s[5];
    assert |Filter(t5, p)| == (if p(s[5]) then 1 else 0);
    assert |Filter(t4, p)| == (if p(s[4]) then 1 else 0) + |Filter(t5, p)|;
    assert |Filter(t3, p)| == (if p(s[3]) then 1 else 0) + |Filter(t4, p)|;
    assert |Filter(t2, p)| == (if p(s[2]) then 1 else 0) + |Filter(t3, p)|;
    assert |Filter(t1, p)| == (if p(s[1]) then 1 else 0) + |Filter(t2, p)|;
  }
}
