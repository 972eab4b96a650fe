/**
 * The dashboard (src/components/Home.jsx): the sent/received/balance
 * figures folded over the account's payments, and the greeting chosen by
 * the hour of the day.
 */
module Home {
  import opened PaymentModel

  /** The `stats` state: amounts in minor units. */
  datatype Stats = Stats(totalSent: int, totalReceived: int, balance: int)

  /** The state before any payment is loaded. */
  const InitialStats: Stats := Stats(0, 0, 0)

  /** The sum of all amounts. */
  function AmountTotal(ps: seq<PaymentRecord>): int {
    if ps == [] then 0 else AmountTotal(ps[..|ps| - 1]) + ps[|ps| - 1].amount
  }

  /** The records of type transfer, in order. */
  function Transfers(ps: seq<PaymentRecord>): (r: seq<PaymentRecord>)
    ensures forall p :: p in r <==> p in ps && p.kind == Transfer
  {
    if ps == [] then []
    else Transfers(ps[..|ps| - 1]) + (if ps[|ps| - 1].kind == Transfer then [ps[|ps| - 1]] else [])
  }

  /** The records of any other type, in order. */
  function Others(ps: seq<PaymentRecord>): (r: seq<PaymentRecord>)
    ensures forall p :: p in r <==> p in ps && p.kind != Transfer
  {
    if ps == [] then []
    else Others(ps[..|ps| - 1]) + (if ps[|ps| - 1].kind != Transfer then [ps[|ps| - 1]] else [])
  }

  /** `sent` after the `forEach` has seen `ps`. */
  function SentTotal(ps: seq<PaymentRecord>): int {
    if ps == [] then 0
    else SentTotal(ps[..|ps| - 1]) + (if ps[|ps| - 1].kind == Transfer then ps[|ps| - 1].amount else 0)
  }

  /** `received` after the `forEach` has seen `ps`. */
  function ReceivedTotal(ps: seq<PaymentRecord>): int {
    if ps == [] then 0
    else ReceivedTotal(ps[..|ps| - 1]) + (if ps[|ps| - 1].kind != Transfer then ps[|ps| - 1].amount else 0)
  }

  /** The sum over a concatenation is the sum of the sums. */
  lemma {:induction false} AmountTotalAppend(a: seq<PaymentRecord>, b: seq<PaymentRecord>)
    ensures AmountTotal(a + b) == AmountTotal(a) + AmountTotal(b)
  {
    if b != [] {
      assert (a + b)[..|a + b| - 1] == a + b[..|b| - 1];
      AmountTotalAppend(a, b[..|b| - 1]);
    } else {
      assert a + b == a;
    }
  }

  /** The total sent is the sum of the amounts of the transfers. */
  lemma {:induction false} SentIsSumOfTransfers(ps: seq<PaymentRecord>)
    ensures SentTotal(ps) == AmountTotal(Transfers(ps))
  {
    if ps != [] {
      var init := ps[..|ps| - 1];
      var last := ps[|ps| - 1];
      SentIsSumOfTransfers(init);
      AmountTotalAppend(Transfers(init), if last.kind == Transfer then [last] else []);
      assert AmountTotal([last]) == last.amount by {
        assert [last][..0] == [];
      }
    }
  }

  /** The total received is the sum of the amounts of every record that is not a transfer. */
  lemma {:induction false} ReceivedIsSumOfOthers(ps: seq<PaymentRecord>)
    ensures ReceivedTotal(ps) == AmountTotal(Others(ps))
  {
    if ps != [] {
      var init := ps[..|ps| - 1];
      var last := ps[|ps| - 1];
      ReceivedIsSumOfOthers(init);
      AmountTotalAppend(Others(init), if last.kind != Transfer then [last] else []);
      assert AmountTotal([last]) == last.amount by {
        assert [last][..0] == [];
      }
    }
  }

  /** Every amount is counted once, as sent or as received. */
  lemma {:induction false} SentPlusReceived(ps: seq<PaymentRecord>)
    ensures SentTotal(ps) + ReceivedTotal(ps) == AmountTotal(ps)
  {
    if ps != [] {
      SentPlusReceived(ps[..|ps| - 1]);
    }
  }

  /** An account without payments shows the initial figures. */
  lemma EmptyHistoryShowsInitial()
    ensures Stats(SentTotal([]), ReceivedTotal([]), ReceivedTotal([]) - SentTotal([])) == InitialStats
  {
  }

  /**
   * The `forEach` over the fetched payments and the `setStats` after it: a
   * transfer adds to `sent`, anything else to `received`, and the balance is
   * received minus sent.
   */
  method ComputeStats(data: seq<PaymentRecord>) returns (stats: Stats)
    ensures stats.totalSent == AmountTotal(Transfers(data))
    ensures stats.totalReceived == AmountTotal(Others(data))
    ensures stats.balance == stats.totalReceived - stats.totalSent
    ensures stats.totalSent + stats.totalReceived == AmountTotal(data)
  {
    var sent := 0;
    var received := 0;
    for i := 0 to |data|
      invariant sent == SentTotal(data[..i])
      invariant received == ReceivedTotal(data[..i])
    {
      assert data[..i + 1][..i] == data[..i];
      if data[i].kind == Transfer {
        sent := sent + data[i].amount;
      } else {
        received := received + data[i].amount;
      }
    }
    assert data[..|data|] == data;
    SentIsSumOfTransfers(data);
    ReceivedIsSumOfOthers(data);
    SentPlusReceived(data);
    stats := Stats(sent, received, received - sent);
  }

  datatype Greeting = Morning | Afternoon | Evening

  /** The text shown for each greeting. */
  function GreetingText(g: Greeting): string {
    match g
    case Morning => "Good morning \U{2600}\U{FE0F}"
    case Afternoon => "Good afternoon \U{1F324}\U{FE0F}"
    case Evening => "Good evening \U{1F319}"
  }

  /** `greeting()` for `new Date().getHours()`: before noon, before six, or later. */
  function GreetingFor(hour: int): (g: Greeting)
    ensures g == Morning <==> hour < 12
    ensures g == Afternoon <==> 12 <= hour < 18
    ensures g == Evening <==> hour >= 18
  {
    if hour < 12 then Morning
    else if hour < 18 then Afternoon
    else Evening
  }

  /** The order of the greetings through the day. */
  function Rank(g: Greeting): nat {
    match g
    case Morning => 0
    case Afternoon => 1
    case Evening => 2
  }

  /** The greeting never goes back as the hour advances. */
  lemma {:induction false} GreetingMonotone(h1: int, h2: int)
    requires h1 <= h2
    ensures Rank(GreetingFor(h1)) <= Rank(GreetingFor(h2))
  {
  }

  /** The three greetings show three different texts. */
  lemma GreetingTextsDistinct(g: Greeting, h: Greeting)
    ensures GreetingText(g) == GreetingText(h) <==> g == h
  {
    if g != h {
      assert GreetingText(g)[5] != GreetingText(h)[5] || |GreetingText(g)| != |GreetingText(h)|;
    }
  }
}
