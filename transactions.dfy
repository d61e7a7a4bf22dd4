/** The transactions screen: the summary counts per status, the filter record
    and its handlers, and the text and colour shown for a status and a payment
    method. Amounts, currencies and dates are not modelled (they are floats and
    locale formatting). */
module Transactions {
  import Text

  datatype Transaction = Transaction(
    id: string,
    status: string,
    paymentMethod: string,
    userId: nat,
    email: string,
    description: string)

  datatype Stats = Stats(total: nat, successful: nat, failed: nat, refunded: nat, pending: nat)

  datatype Filter = Filter(status: string, paymentMethod: string, startDate: string, endDate: string)

  /** The `name` of each filter input. */
  datatype FilterField = Status | PaymentMethod | StartDate | EndDate

  const DefaultFilter: Filter := Filter("all", "all", "", "")

  function Get(f: Filter, field: FilterField): string
  {
    match field
    case Status => f.status
    case PaymentMethod => f.paymentMethod
    case StartDate => f.startDate
    case EndDate => f.endDate
  }

  // ----- status counts -----

  function Statuses(txs: seq<Transaction>): (r: seq<string>)
    ensures |r| == |txs| && forall i :: 0 <= i < |txs| ==> r[i] == txs[i].status
  {
    seq(|txs|, i requires 0 <= i < |txs| => txs[i].status)
  }

  /** `txs.filter(tx => tx.status === status).length`: how many times the
      status occurs. */
  function CountStatus(txs: seq<Transaction>, status: string): (n: nat)
    ensures n == multiset(Statuses(txs))[status]
  {
    if txs == [] then 0
    else
      assert Statuses(txs) == [txs[0].status] + Statuses(txs[1..]);
      (if txs[0].status == status then 1 else 0) + CountStatus(txs[1..], status)
  }

  predicate KnownStatus(s: string)
  {
    s == "successful" || s == "failed" || s == "refunded" || s == "pending"
  }

  /** `mockStats` (the chart series `daily` is left out): the number of
      transactions, and how often each of the four statuses occurs. */
  function ComputeStats(txs: seq<Transaction>): (st: Stats)
    ensures st.total == |txs|
    ensures st.successful == multiset(Statuses(txs))["successful"]
    ensures st.failed == multiset(Statuses(txs))["failed"]
    ensures st.refunded == multiset(Statuses(txs))["refunded"]
    ensures st.pending == multiset(Statuses(txs))["pending"]
  {
    Stats(|txs|,
          CountStatus(txs, "successful"),
          CountStatus(txs, "failed"),
          CountStatus(txs, "refunded"),
          CountStatus(txs, "pending"))
  }

  /** The four counts never exceed the total, and add up to it exactly when
      every transaction has one of the four statuses. */
  lemma {:induction false} StatsAddUp(txs: seq<Transaction>)
    ensures var st := ComputeStats(txs);
      && st.successful + st.failed + st.refunded + st.pending <= st.total
      && ((st.successful + st.failed + st.refunded + st.pending == st.total)
          <==> (forall i :: 0 <= i < |txs| ==> KnownStatus(txs[i].status)))
  {
    if txs != [] {
      StatsAddUp(txs[1..]);
      var rest := txs[1..];
      assert forall i :: 0 <= i < |rest| ==> rest[i] == txs[i + 1];
      if !KnownStatus(txs[0].status) {
        assert !(forall i :: 0 <= i < |txs| ==> KnownStatus(txs[i].status));
      }
      if forall i :: 0 <= i < |rest| ==> KnownStatus(rest[i].status) {
        if KnownStatus(txs[0].status) {
          forall i | 0 <= i < |txs| ensures KnownStatus(txs[i].status) {
            if i > 0 { assert txs[i] == rest[i - 1]; }
          }
        }
      } else {
        var k :| 0 <= k < |rest| && !KnownStatus(rest[k].status);
        assert txs[k + 1] == rest[k];
      }
    }
  }

  // ----- labels and colours -----

  /** The chip colour token of `getStatusColor`. */
  datatype Color = GreenAccent500 | RedAccent500 | BlueAccent300 | Grey500 | Grey100

  function StatusColor(status: string): (c: Color)
    ensures c == Grey100 <==> !KnownStatus(status)
    ensures status == "successful" ==> c == GreenAccent500
    ensures status == "failed" ==> c == RedAccent500
    ensures status == "pending" ==> c == BlueAccent300
    ensures status == "refunded" ==> c == Grey500
  {
    match status
    case "successful" => GreenAccent500
    case "failed" => RedAccent500
    case "pending" => BlueAccent300
    case "refunded" => Grey500
    case _ => Grey100
  }

  /** Different known statuses get different colours. */
  lemma StatusColorsDistinct(a: string, b: string)
    requires KnownStatus(a) && KnownStatus(b) && a != b
    ensures StatusColor(a) != StatusColor(b)
  {
  }

  /** The status chip's text. */
  function StatusLabel(status: string): (shown: string)
    ensures |shown| == |status|
    ensures status != [] ==> shown[0] == Text.UpperChar(status[0])
    ensures forall i :: 1 <= i < |status| ==> shown[i] == status[i]
  {
    Text.Capitalize(status)
  }

  function CapitalizeAll(pieces: seq<string>): (r: seq<string>)
    ensures |r| == |pieces| && forall k :: 0 <= k < |pieces| ==> r[k] == Text.Capitalize(pieces[k])
  {
    if pieces == [] then [] else [Text.Capitalize(pieces[0])] + CapitalizeAll(pieces[1..])
  }

  /** `method.split('_').map(capitalise).join(' ')`, character by character:
      same length as the method, each underscore becomes a space, and each
      word starts upper-case. */
  function PaymentMethodLabel(pm: string): (lbl: string)
    ensures |lbl| == |pm| && forall i :: 0 <= i < |pm| ==> lbl[i] == LabelChar(pm, i)
  {
    Text.JoinSplit(pm, '_');
    JoinCapitalized(Text.Split(pm, '_'));
    Text.Join(CapitalizeAll(Text.Split(pm, '_')), " ")
  }

  /** What the label holds at position `i` of the method name: a space for each
      underscore, the upper-case letter at the start of each word, and the
      method's own character elsewhere. */
  function LabelChar(pm: string, i: nat): char
    requires i < |pm|
  {
    if pm[i] == '_' then ' '
    else if i == 0 || pm[i - 1] == '_' then Text.UpperChar(pm[i])
    else pm[i]
  }

  lemma {:induction false} JoinCapitalized(pieces: seq<string>)
    requires |pieces| >= 1
    requires forall k, j :: 0 <= k < |pieces| && 0 <= j < |pieces[k]| ==> pieces[k][j] != '_'
    ensures var a := Text.Join(pieces, "_");
      var b := Text.Join(CapitalizeAll(pieces), " ");
      |b| == |a| && forall i :: 0 <= i < |a| ==> b[i] == LabelChar(a, i)
  {
    var a := Text.Join(pieces, "_");
    var b := Text.Join(CapitalizeAll(pieces), " ");
    var p0 := pieces[0];
    if |pieces| == 1 {
      assert a == p0 && b == Text.Capitalize(p0);
    } else {
      var rest := pieces[1..];
      JoinCapitalized(rest);
      var a' := Text.Join(rest, "_");
      var b' := Text.Join(CapitalizeAll(rest), " ");
      assert CapitalizeAll(pieces)[1..] == CapitalizeAll(rest);
      assert a == p0 + "_" + a';
      assert b == Text.Capitalize(p0) + " " + b';
      forall i | 0 <= i < |a| ensures b[i] == LabelChar(a, i) {
        if i < |p0| {
          assert a[i] == p0[i] && b[i] == Text.Capitalize(p0)[i];
          if i > 0 { assert a[i - 1] == p0[i - 1]; }
        } else if i == |p0| {
          assert a[i] == '_' && b[i] == ' ';
        } else {
          var j := i - |p0| - 1;
          assert a[i] == a'[j] && b[i] == b'[j];
          if j > 0 { assert a[i - 1] == a'[j - 1]; } else { assert a[i - 1] == '_'; }
        }
      }
    }
  }

  lemma CreditCardLabel()
    ensures PaymentMethodLabel("credit_card") == "Credit Card"
  {
    var lbl := PaymentMethodLabel("credit_card");
    assert |lbl| == 11;
    forall i | 0 <= i < 11 ensures lbl[i] == "Credit Card"[i] {
      assert lbl[i] == LabelChar("credit_card", i);
    }
  }

  // ----- the screen -----

  class TransactionsScreen {
    var transactions: seq<Transaction>
    var loading: bool
    var filter: Filter
    var stats: Stats

    constructor ()
      ensures transactions == [] && loading && filter == DefaultFilter && stats == Stats(0, 0, 0, 0, 0)
    {
      transactions := [];
      loading := true;
      filter := DefaultFilter;
      stats := Stats(0, 0, 0, 0, 0);
    }

    /** Loads the list (the screen's built-in sample data, passed in) and its
        counts; the filter is not consulted. */
    method FetchTransactions(data: seq<Transaction>)
      modifies this`transactions, this`stats, this`loading
      ensures transactions == data && stats == ComputeStats(data) && !loading
    {
      loading := true;
      transactions := data;
      stats := ComputeStats(data);
      loading := false;
    }

    /** A filter input changed: only that field of the filter takes the value. */
    method HandleFilterChange(field: FilterField, value: string)
      modifies this`filter
      ensures Get(filter, field) == value
      ensures forall other :: other != field ==> Get(filter, other) == Get(old(filter), other)
    {
      match field {
        case Status => filter := filter.(status := value);
        case PaymentMethod => filter := filter.(paymentMethod := value);
        case StartDate => filter := filter.(startDate := value);
        case EndDate => filter := filter.(endDate := value);
      }
    }

    method ResetFilters()
      modifies this`filter
      ensures filter == DefaultFilter
      ensures Get(filter, Status) == "all" && Get(filter, PaymentMethod) == "all"
      ensures Get(filter, StartDate) == "" && Get(filter, EndDate) == ""
    {
      filter := Filter("all", "all", "", "");
    }
  }
}
