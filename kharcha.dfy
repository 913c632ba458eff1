/** The ledger of one month in a shared household: the roster of roommates,
    the expenses they record, the per-person balances derived from those
    expenses, and the per-category totals of the monthly summary. */
module MonthlyKharcha {
  import opened MapSum

  datatype Option<T> = None | Some(value: T)

  /** One expense record as it is stored in the month's data. */
  datatype Expense = Expense(
    category: string,
    description: string,
    amount: real,
    paidBy: string,
    sharedBetween: seq<string>,
    date: string)

  /** Why an expense was refused; each is a ValueError caught by add_expense. */
  datatype AddError =
    | InvalidAmount   // float(amount) raised
    | MissingField    // "Please fill all required fields"
    | NoSharers       // "At least one person must share the expense"

  /** What add_expense did. `Recorded(false)` is the case where the expense
      was appended but the recomputation that follows raised (a KeyError or
      ZeroDivisionError, which the ValueError handler does not catch), so the
      stored balances were left as they were. */
  datatype AddOutcome = Rejected(reason: AddError) | Recorded(balanced: bool)

  // ---------------------------------------------------------------------
  // Names and rosters

  /** The keys a dictionary built from `names` has. */
  function NameSet(names: seq<string>): set<string>
  {
    set n | n in names
  }

  predicate NoDuplicates(s: seq<string>)
  {
    forall i, j :: 0 <= i < j < |s| ==> s[i] != s[j]
  }

  /** In a list without repetitions every name occurs at most once. */
  lemma {:induction false} CountInDistinct(s: seq<string>, x: string)
    requires NoDuplicates(s)
    ensures multiset(s)[x] == if x in s then 1 else 0
    decreases |s|
  {
    if s != [] {
      var last := s[|s| - 1];
      var init := s[..|s| - 1];
      assert s == init + [last];
      assert NoDuplicates(init);
      CountInDistinct(init, x);
      assert forall i :: 0 <= i < |init| ==> init[i] == s[i] && s[i] != s[|s| - 1];
      assert x in s <==> x in init || x == last;
    }
  }

  /** Where `x` first occurs in `s`. */
  function IndexOf(s: seq<string>, x: string): (i: nat)
    requires x in s
    ensures i < |s| && s[i] == x && x !in s[..i]
  {
    if s[0] == x then 0
    else
      assert s[1..][..IndexOf(s[1..], x)] == s[1..IndexOf(s[1..], x) + 1];
      1 + IndexOf(s[1..], x)
  }

  /** Python's list removal: the list with its first occurrence of `x` taken out. */
  function RemoveFirst(s: seq<string>, x: string): (r: seq<string>)
    requires x in s
    ensures |r| == |s| - 1
    ensures multiset(r) == multiset(s) - multiset{x}
  {
    var i := IndexOf(s, x);
    assert s == s[..i] + [x] + s[i + 1..];
    s[..i] + s[i + 1..]
  }

  /** Removing the name at its first position keeps every other element, in order. */
  lemma {:induction false} RemoveFirstAt(s: seq<string>, x: string)
    requires x in s
    ensures forall i :: 0 <= i < |RemoveFirst(s, x)| ==>
      RemoveFirst(s, x)[i] == s[if i < IndexOf(s, x) then i else i + 1]
  {
    var k := IndexOf(s, x);
    assert RemoveFirst(s, x) == s[..k] + s[k + 1..];
  }

  /** Removing a name from a list without repetitions removes it entirely and
      keeps the list free of repetitions. */
  lemma {:induction false} RemoveFirstDistinct(s: seq<string>, x: string)
    requires x in s && NoDuplicates(s)
    ensures x !in RemoveFirst(s, x)
    ensures NoDuplicates(RemoveFirst(s, x))
    ensures NameSet(RemoveFirst(s, x)) == NameSet(s) - {x}
  {
    var r := RemoveFirst(s, x);
    RemoveFirstAt(s, x);
    CountInDistinct(s, x);
    assert multiset(r)[x] == 0;
    forall n ensures n in r <==> n in s && n != x {
      assert n in r <==> multiset(r)[n] > 0;
      assert n in s <==> multiset(s)[n] > 0;
    }
  }

  // ---------------------------------------------------------------------
  // The sharer filter of add_expense

  /** The sharer filter of add_expense: the names whose "shared between"
      flag is set, in the order the flags come in. */
  function Sharers(flags: seq<(string, bool)>): (r: seq<string>)
    ensures |r| <= |flags|
    decreases |flags|
  {
    if flags == [] then []
    else
      var last := flags[|flags| - 1];
      Sharers(flags[..|flags| - 1]) + (if last.1 then [last.0] else [])
  }

  /** A name is a sharer exactly when one of its flags is set, and there is
      no sharer exactly when no flag is set. */
  lemma {:induction false} SharersMembers(flags: seq<(string, bool)>)
    ensures |Sharers(flags)| <= |flags|
    ensures forall n :: n in Sharers(flags) <==> exists i :: 0 <= i < |flags| && flags[i] == (n, true)
    ensures Sharers(flags) == [] <==> forall i :: 0 <= i < |flags| ==> !flags[i].1
    decreases |flags|
  {
    if flags != [] {
      var init := flags[..|flags| - 1];
      SharersMembers(init);
      assert forall i :: 0 <= i < |init| ==> init[i] == flags[i];
    }
  }

  /** The filter distributes over concatenation: it keeps the flags' order. */
  lemma {:induction false} SharersAppend(a: seq<(string, bool)>, b: seq<(string, bool)>)
    ensures Sharers(a + b) == Sharers(a) + Sharers(b)
    decreases |b|
  {
    if b == [] {
      assert a + b == a;
    } else {
      var init, last := b[..|b| - 1], b[|b| - 1];
      var tail := if last.1 then [last.0] else [];
      SharersAppend(a, init);
      assert (a + b)[..|a + b| - 1] == a + init;
      assert (a + b)[|a + b| - 1] == last;
      assert Sharers(a + b) == Sharers(a + init) + tail;
      assert Sharers(b) == Sharers(init) + tail;
    }
  }

  /** The flags of a dictionary have distinct names. */
  predicate DistinctNames(flags: seq<(string, bool)>)
  {
    forall i, j :: 0 <= i < j < |flags| ==> flags[i].0 != flags[j].0
  }

  /** Flags with distinct names give a sharer list without repetitions. */
  lemma {:induction false} SharersDistinct(flags: seq<(string, bool)>)
    requires DistinctNames(flags)
    ensures NoDuplicates(Sharers(flags))
    decreases |flags|
  {
    if flags != [] {
      var init := flags[..|flags| - 1];
      var last := flags[|flags| - 1];
      assert DistinctNames(init);
      SharersDistinct(init);
      SharersMembers(init);
      if last.1 {
        assert forall i :: 0 <= i < |init| ==> init[i] == flags[i] && flags[i].0 != last.0;
      }
    }
  }

  // ---------------------------------------------------------------------
  // Balances: the reference definition

  /** A zero balance for every roommate, as a fresh month starts. */
  function ZeroBalances(roster: seq<string>): map<string, real>
  {
    map n | n in roster :: 0.0
  }

  /** update_balances runs to the end over this expense: the split divides by
      a non-zero count and the payer and every sharer have a balance. */
  predicate Consistent(roster: seq<string>, e: Expense)
  {
    && |e.sharedBetween| > 0
    && e.paidBy in roster
    && forall p :: p in e.sharedBetween ==> p in roster
  }

  predicate AllConsistent(roster: seq<string>, es: seq<Expense>)
  {
    forall i :: 0 <= i < |es| ==> Consistent(roster, es[i])
  }

  /** The even split: what each listed sharer is charged for one expense. */
  function Share(e: Expense): (r: real)
    requires |e.sharedBetween| > 0
    ensures Scaled(|e.sharedBetween|, r) == e.amount
  {
    ScaledShares(|e.sharedBetween|, e.amount);
    e.amount / (|e.sharedBetween| as real)
  }

  /** `share` charged `c` times over. */
  function Scaled(c: nat, share: real): real
  {
    if c == 0 then 0.0 else Scaled(c - 1, share) + share
  }

  /** A split hands out the whole amount: k shares of amount/k make the amount. */
  lemma {:induction false} ScaledShares(k: nat, amount: real)
    requires k > 0
    ensures Scaled(k, amount / (k as real)) == amount
  {
    ScaledIsProduct(k, amount / (k as real));
  }

  lemma {:induction false} ScaledIsProduct(c: nat, s: real)
    ensures Scaled(c, s) == (c as real) * s
  {
    if c > 0 { ScaledIsProduct(c - 1, s); }
  }

  /** Everything `n` paid for. */
  function Paid(n: string, es: seq<Expense>): real
    decreases |es|
  {
    if es == [] then 0.0
    else
      var last := es[|es| - 1];
      Paid(n, es[..|es| - 1]) + (if last.paidBy == n then last.amount else 0.0)
  }

  /** Everything charged to `n`: its share of each expense, once for every
      time it is listed among the sharers. */
  function Owed(n: string, es: seq<Expense>): real
    requires forall i :: 0 <= i < |es| ==> |es[i].sharedBetween| > 0
    decreases |es|
  {
    if es == [] then 0.0
    else
      var last := es[|es| - 1];
      Owed(n, es[..|es| - 1]) + Scaled(multiset(last.sharedBetween)[n], Share(last))
  }

  /** The balance of every roommate: what it paid less what it owes. */
  function Balances(roster: seq<string>, es: seq<Expense>): map<string, real>
    requires AllConsistent(roster, es)
  {
    map n | n in roster :: Paid(n, es) - Owed(n, es)
  }

  // ---------------------------------------------------------------------
  // Balances: the step the loop of update_balances takes

  /** The inner loop of update_balances: debit each listed sharer, in list
      order, by the share. */
  function Debit(b: map<string, real>, people: seq<string>, share: real): (d: map<string, real>)
    requires forall p :: p in people ==> p in b
    ensures d.Keys == b.Keys
    decreases |people|
  {
    if people == [] then b
    else
      var init := people[..|people| - 1];
      var last := people[|people| - 1];
      assert forall p :: p in init ==> p in people;
      var d := Debit(b, init, share);
      d[last := d[last] - share]
  }

  /** Every name is debited its share once for each time it is listed. */
  lemma {:induction false} DebitAt(b: map<string, real>, people: seq<string>, share: real, n: string)
    requires forall p :: p in people ==> p in b
    requires n in b
    ensures Debit(b, people, share)[n] == b[n] - Scaled(multiset(people)[n], share)
    decreases |people|
  {
    if people != [] {
      var init := people[..|people| - 1];
      var last := people[|people| - 1];
      assert people == init + [last];
      assert forall p :: p in init ==> p in people;
      DebitAt(b, init, share, n);
      var d := Debit(b, init, share);
      assert Debit(b, people, share) == d[last := d[last] - share];
      if n == last {
        assert multiset(people)[n] == multiset(init)[n] + 1;
      } else {
        assert multiset(people)[n] == multiset(init)[n];
      }
    }
  }

  /** One expense: credit the payer with the amount, debit every sharer its share. */
  function Apply(b: map<string, real>, e: Expense): (r: map<string, real>)
    requires |e.sharedBetween| > 0 && e.paidBy in b
    requires forall p :: p in e.sharedBetween ==> p in b
    ensures r.Keys == b.Keys
  {
    Debit(b[e.paidBy := b[e.paidBy] + e.amount], e.sharedBetween, Share(e))
  }

  /** What one expense does to the balance of `n`: the payer gains the
      amount, and every listed sharer loses its share once per listing. */
  lemma {:induction false} ApplyAt(b: map<string, real>, e: Expense, n: string)
    requires |e.sharedBetween| > 0 && e.paidBy in b
    requires forall p :: p in e.sharedBetween ==> p in b
    requires n in b
    ensures Apply(b, e)[n] == b[n] + (if n == e.paidBy then e.amount else 0.0)
                                   - Scaled(multiset(e.sharedBetween)[n], Share(e))
  {
    DebitAt(b[e.paidBy := b[e.paidBy] + e.amount], e.sharedBetween, Share(e), n);
  }

  /** Split correctness for an expense whose sharers are distinct: a payer who
      also shares nets `amount - amount/k`, a payer who does not nets `amount`,
      every other sharer nets `-amount/k` and nobody else moves. */
  lemma {:induction false} ApplyNet(b: map<string, real>, e: Expense, n: string)
    requires |e.sharedBetween| > 0 && e.paidBy in b
    requires forall p :: p in e.sharedBetween ==> p in b
    requires NoDuplicates(e.sharedBetween) && n in b
    ensures n == e.paidBy && n in e.sharedBetween ==> Apply(b, e)[n] == b[n] + e.amount - Share(e)
    ensures n == e.paidBy && n !in e.sharedBetween ==> Apply(b, e)[n] == b[n] + e.amount
    ensures n != e.paidBy && n in e.sharedBetween ==> Apply(b, e)[n] == b[n] - Share(e)
    ensures n != e.paidBy && n !in e.sharedBetween ==> Apply(b, e)[n] == b[n]
  {
    CountInDistinct(e.sharedBetween, n);
    ApplyAt(b, e, n);
  }

  /** The reference balances of one more expense are the old ones with the
      step applied: the fold of update_balances computes the reference. */
  lemma {:induction false} BalancesStep(roster: seq<string>, es: seq<Expense>, e: Expense)
    requires AllConsistent(roster, es) && Consistent(roster, e)
    ensures AllConsistent(roster, es + [e])
    ensures Balances(roster, es + [e]) == Apply(Balances(roster, es), e)
  {
    var all := es + [e];
    assert all[..|all| - 1] == es && all[|all| - 1] == e;
    assert forall i :: 0 <= i < |es| ==> all[i] == es[i];
    assert AllConsistent(roster, all);
    var before := Balances(roster, es);
    var lhs, rhs := Balances(roster, all), Apply(before, e);
    assert lhs.Keys == rhs.Keys;
    forall n | n in lhs ensures lhs[n] == rhs[n] {
      PaidOwedStep(n, es, e);
      ApplyAt(before, e, n);
    }
  }

  lemma {:induction false} PaidOwedStep(n: string, es: seq<Expense>, e: Expense)
    requires forall i :: 0 <= i < |es| ==> |es[i].sharedBetween| > 0
    requires |e.sharedBetween| > 0
    ensures Paid(n, es + [e]) == Paid(n, es) + (if e.paidBy == n then e.amount else 0.0)
    ensures Owed(n, es + [e]) == Owed(n, es) + Scaled(multiset(e.sharedBetween)[n], Share(e))
  {
    var all := es + [e];
    assert all[..|all| - 1] == es && all[|all| - 1] == e;
  }

  /** The worked example of a three-way split: A pays 300 shared by A, B and
      C, so A is owed 200 and B and C owe 100 each. */
  lemma {:induction false} ThreeWaySplit()
    ensures Balances(["A", "B", "C"], [Expense("Food", "dinner", 300.0, "A", ["A", "B", "C"], "")])
         == map["A" := 200.0, "B" := -100.0, "C" := -100.0]
  {
    var e := Expense("Food", "dinner", 300.0, "A", ["A", "B", "C"], "");
    var roster, es := ["A", "B", "C"], [e];
    assert es[..0] == [];
    assert AllConsistent(roster, es);
    assert Share(e) == 100.0;
    assert Scaled(1, 100.0) == 100.0 by { assert Scaled(0, 100.0) == 0.0; }
    assert multiset(e.sharedBetween) == multiset{"A", "B", "C"};
    assert es[..|es| - 1] == [] && es[|es| - 1] == e;
    assert Paid("A", es) == 300.0;
    assert Owed("A", es) == Owed("A", []) + Scaled(multiset(e.sharedBetween)["A"], Share(e));
    assert Owed("A", es) == 100.0;
    assert Paid("B", es) == 0.0;
    assert Owed("B", es) == Owed("B", []) + Scaled(multiset(e.sharedBetween)["B"], Share(e));
    assert Owed("B", es) == 100.0;
    assert Paid("C", es) == 0.0;
    assert Owed("C", es) == Owed("C", []) + Scaled(multiset(e.sharedBetween)["C"], Share(e));
    assert Owed("C", es) == 100.0;
  }

  // ---------------------------------------------------------------------
  // The zero-sum law

  lemma {:induction false} TotalDebit(b: map<string, real>, people: seq<string>, share: real)
    requires forall p :: p in people ==> p in b
    ensures Total(Debit(b, people, share)) == Total(b) - Scaled(|people|, share)
    decreases |people|
  {
    if people != [] {
      var init := people[..|people| - 1];
      var last := people[|people| - 1];
      assert forall p :: p in init ==> p in people;
      TotalDebit(b, init, share);
      var d := Debit(b, init, share);
      TotalUpdate(d, last, d[last] - share);
    }
  }

  /** An expense moves money between balances and creates none. */
  lemma {:induction false} TotalApply(b: map<string, real>, e: Expense)
    requires |e.sharedBetween| > 0 && e.paidBy in b
    requires forall p :: p in e.sharedBetween ==> p in b
    ensures Total(Apply(b, e)) == Total(b)
  {
    var credited := b[e.paidBy := b[e.paidBy] + e.amount];
    TotalUpdate(b, e.paidBy, b[e.paidBy] + e.amount);
    TotalDebit(credited, e.sharedBetween, Share(e));
    ScaledShares(|e.sharedBetween|, e.amount);
  }

  /** When every payer and sharer is a roommate, the balances sum to exactly zero. */
  lemma {:induction false} ZeroSum(roster: seq<string>, es: seq<Expense>)
    requires AllConsistent(roster, es)
    ensures Total(Balances(roster, es)) == 0.0
    decreases |es|
  {
    if es == [] {
      TotalOfZeros(Balances(roster, es));
    } else {
      var init, last := es[..|es| - 1], es[|es| - 1];
      assert es == init + [last];
      assert forall i :: 0 <= i < |init| ==> init[i] == es[i];
      assert Consistent(roster, es[|es| - 1]);
      BalancesStep(roster, init, last);
      ZeroSum(roster, init);
      TotalApply(Balances(roster, init), last);
    }
  }

  // ---------------------------------------------------------------------
  // Category totals

  /** What was spent in category `c`. */
  function CategoryAmount(c: string, es: seq<Expense>): real
    decreases |es|
  {
    if es == [] then 0.0
    else
      var last := es[|es| - 1];
      CategoryAmount(c, es[..|es| - 1]) + (if last.category == c then last.amount else 0.0)
  }

  /** What was spent in all. */
  function SumAmounts(es: seq<Expense>): real
    decreases |es|
  {
    if es == [] then 0.0 else SumAmounts(es[..|es| - 1]) + es[|es| - 1].amount
  }

  /** `totals` holds the category sums of `es`, one key per category. */
  ghost predicate Tallied(totals: map<string, real>, categories: seq<string>, es: seq<Expense>)
  {
    && totals.Keys == NameSet(categories)
    && (forall c :: c in totals ==> totals[c] == CategoryAmount(c, es))
    && Total(totals) == SumAmounts(es)
  }

  /** Adding one expense's amount to its category keeps the tally. */
  lemma {:induction false} TallyStep(totals: map<string, real>, categories: seq<string>, es: seq<Expense>, e: Expense)
    requires Tallied(totals, categories, es) && e.category in totals
    ensures Tallied(totals[e.category := totals[e.category] + e.amount], categories, es + [e])
  {
    forall c | c in totals {
      CategoryStep(c, es, e);
    }
    TotalUpdate(totals, e.category, totals[e.category] + e.amount);
  }

  lemma {:induction false} CategoryStep(c: string, es: seq<Expense>, e: Expense)
    ensures CategoryAmount(c, es + [e]) == CategoryAmount(c, es) + (if e.category == c then e.amount else 0.0)
    ensures SumAmounts(es + [e]) == SumAmounts(es) + e.amount
  {
    var all := es + [e];
    assert all[..|all| - 1] == es && all[|all| - 1] == e;
  }

  // ---------------------------------------------------------------------
  // The recomputation loop of update_balances

  /** The inner loop of update_balances, debiting each sharer by the share.
      `ok` is false exactly when some sharer has no balance (a KeyError). */
  method DebitSharers(b: map<string, real>, people: seq<string>, share: real)
    returns (ok: bool, d: map<string, real>)
    ensures ok == forall p :: p in people ==> p in b
    ensures ok ==> d == Debit(b, people, share)
  {
    d := b;
    var j := 0;
    while j < |people|
      invariant 0 <= j <= |people|
      invariant forall p :: p in people[..j] ==> p in b
      invariant d == Debit(b, people[..j], share)
    {
      var p := people[j];
      if p !in d {
        return false, d;
      }
      assert people[..j + 1] == people[..j] + [p];
      d := d[p := d[p] - share];
      j := j + 1;
    }
    assert people[..j] == people;
    ok := true;
  }

  /** One pass of the loop body of update_balances: credit the payer, then
      debit every sharer. `ok` is false exactly when it would raise (an empty
      sharer list, or a payer or sharer without a balance). */
  method ApplyExpense(b: map<string, real>, e: Expense) returns (ok: bool, r: map<string, real>)
    ensures ok == (|e.sharedBetween| > 0 && e.paidBy in b && forall p :: p in e.sharedBetween ==> p in b)
    ensures ok ==> r == Apply(b, e)
  {
    if |e.sharedBetween| == 0 || e.paidBy !in b {
      return false, b;
    }
    var share := e.amount / (|e.sharedBetween| as real);
    var credited := b[e.paidBy := b[e.paidBy] + e.amount];
    ok, r := DebitSharers(credited, e.sharedBetween, share);
  }

  /** The loop of update_balances: rebuilds the balances from the roster and
      the expense list alone. `ok` is false exactly when the loop would raise. */
  method ComputeBalances(roster: seq<string>, es: seq<Expense>) returns (ok: bool, b: map<string, real>)
    ensures ok == AllConsistent(roster, es)
    ensures ok ==> b == Balances(roster, es) && Total(b) == 0.0
  {
    b := ZeroBalances(roster);
    assert b == Balances(roster, es[..0]);
    var i := 0;
    while i < |es|
      invariant 0 <= i <= |es|
      invariant AllConsistent(roster, es[..i])
      invariant b == Balances(roster, es[..i])
    {
      var next;
      ok, next := ApplyExpense(b, es[i]);
      if !ok {
        assert !Consistent(roster, es[i]);
        return false, b;
      }
      assert es[..i + 1] == es[..i] + [es[i]];
      BalancesStep(roster, es[..i], es[i]);
      b := next;
      i := i + 1;
    }
    assert es[..i] == es;
    ok := true;
    ZeroSum(roster, es);
  }

  /** An expense that add_expense admits, with a roommate as payer and only
      roommates among the ticked names, keeps a consistent history consistent, so the
      recomputation that follows it succeeds. */
  lemma {:induction false} AdmittedExpenseConsistent(roster: seq<string>, es: seq<Expense>, category: string,
                                  description: string, amount: real, paidBy: string,
                                  shareFlags: seq<(string, bool)>, date: string)
    requires AllConsistent(roster, es)
    requires paidBy in roster && Sharers(shareFlags) != []
    requires forall i :: 0 <= i < |shareFlags| && shareFlags[i].1 ==> shareFlags[i].0 in roster
    ensures AllConsistent(roster, es + [Expense(category, description, amount, paidBy, Sharers(shareFlags), date)])
  {
    var e := Expense(category, description, amount, paidBy, Sharers(shareFlags), date);
    SharersMembers(shareFlags);
    assert Consistent(roster, e);
    assert forall i :: 0 <= i < |es| ==> (es + [e])[i] == es[i];
    assert (es + [e])[|es|] == e;
  }

  // ---------------------------------------------------------------------
  // The ledger object

  class Ledger {
    var roommates: seq<string>
    var expenses: seq<Expense>
    var balances: map<string, real>
    const categories: seq<string>

    /** initialize_new_data: no expenses and a zero balance for each roommate. */
    constructor Init(roommates: seq<string>, categories: seq<string>)
      ensures this.roommates == roommates && this.categories == categories
      ensures expenses == [] && balances == ZeroBalances(roommates)
    {
      this.roommates := roommates;
      this.categories := categories;
      expenses := [];
      balances := ZeroBalances(roommates);
    }

    /** load_current_month: the month's data as it was saved. */
    constructor Load(roommates: seq<string>, categories: seq<string>,
                     expenses: seq<Expense>, balances: map<string, real>)
      ensures this.roommates == roommates && this.categories == categories
      ensures this.expenses == expenses && this.balances == balances
    {
      this.roommates := roommates;
      this.categories := categories;
      this.expenses := expenses;
      this.balances := balances;
    }

    /** update_balances: on success the stored balances are rebuilt from the
        roster and the expenses (whatever they were before) and sum to zero;
        when the loop raises they are left untouched. */
    method UpdateBalances() returns (ok: bool)
      modifies this`balances
      ensures ok == AllConsistent(roommates, expenses)
      ensures ok ==> balances == Balances(roommates, expenses) && Total(balances) == 0.0
      ensures !ok ==> balances == old(balances)
    {
      var b;
      ok, b := ComputeBalances(roommates, expenses);
      if ok {
        balances := b;
      }
    }

    /** add_expense. `amount` is the outcome of `float(amount)` and `date` the
        formatted current time. */
    method AddExpense(category: string, description: string, amount: Option<real>,
                      paidBy: string, shareFlags: seq<(string, bool)>, date: string)
      returns (outcome: AddOutcome)
      modifies this`expenses, this`balances
      ensures amount.None? ==> outcome == Rejected(InvalidAmount)
      ensures amount.Some? && (category == [] || description == [] || paidBy == [])
        ==> outcome == Rejected(MissingField)
      ensures amount.Some? && category != [] && description != [] && paidBy != [] && Sharers(shareFlags) == []
        ==> outcome == Rejected(NoSharers)
      ensures outcome.Rejected? <==>
        amount.None? || category == [] || description == [] || paidBy == [] || Sharers(shareFlags) == []
      ensures outcome.Rejected? ==> expenses == old(expenses) && balances == old(balances)
      ensures outcome.Recorded? ==>
        && expenses == old(expenses) + [Expense(category, description, amount.value, paidBy, Sharers(shareFlags), date)]
        && outcome.balanced == AllConsistent(roommates, expenses)
        && (outcome.balanced ==> balances == Balances(roommates, expenses))
        && (!outcome.balanced ==> balances == old(balances))
    {
      if amount.None? {
        return Rejected(InvalidAmount);
      }
      if category == [] || description == [] || paidBy == [] {
        return Rejected(MissingField);
      }
      var sharing := Sharers(shareFlags);
      if sharing == [] {
        return Rejected(NoSharers);
      }
      expenses := expenses + [Expense(category, description, amount.value, paidBy, sharing, date)];
      var ok := UpdateBalances();
      outcome := Recorded(ok);
    }

    /** The accumulation loop of calculate_summary. `ok` is false exactly when
        some expense's category is not a known category (a KeyError). */
    method CategoryTotals() returns (ok: bool, totals: map<string, real>)
      ensures ok == forall i :: 0 <= i < |expenses| ==> expenses[i].category in categories
      ensures ok ==> totals.Keys == NameSet(categories)
      ensures ok ==> forall c :: c in totals ==> totals[c] == CategoryAmount(c, expenses)
      ensures ok ==> Total(totals) == SumAmounts(expenses)
    {
      totals := map c | c in categories :: 0.0;
      TotalOfZeros(totals);
      assert Tallied(totals, categories, expenses[..0]);
      var i := 0;
      while i < |expenses|
        invariant 0 <= i <= |expenses|
        invariant forall k :: 0 <= k < i ==> expenses[k].category in categories
        invariant Tallied(totals, categories, expenses[..i])
      {
        var e := expenses[i];
        if e.category !in totals {
          return false, totals;
        }
        assert expenses[..i + 1] == expenses[..i] + [e];
        TallyStep(totals, categories, expenses[..i], e);
        totals := totals[e.category := totals[e.category] + e.amount];
        i := i + 1;
      }
      assert expenses[..i] == expenses;
      ok := true;
    }

    /** add_roommate: a non-empty name not yet on the roster is appended;
        anything else leaves the roster as it is. */
    method AddRoommate(name: string)
      modifies this`roommates
      ensures roommates == if name != [] && name !in old(roommates) then old(roommates) + [name] else old(roommates)
      ensures NoDuplicates(old(roommates)) ==> NoDuplicates(roommates)
    {
      if name != [] && name !in roommates {
        roommates := roommates + [name];
      }
    }

    /** remove_roommate: `selection` is the index chosen in the list box,
        which lists the roster in order. The first occurrence of the chosen
        name is removed; expenses and balances are not touched. */
    method RemoveRoommate(selection: Option<nat>)
      requires selection.Some? ==> selection.value < |roommates|
      modifies this`roommates
      ensures selection.None? ==> roommates == old(roommates)
      ensures selection.Some? ==> roommates == RemoveFirst(old(roommates), old(roommates)[selection.value])
    {
      if selection.Some? {
        var name := roommates[selection.value];
        roommates := RemoveFirst(roommates, name);
      }
    }
  }

  /** Recomputation ignores the stored balances, so doing it twice changes
      nothing: both runs have the same outcome and leave the reference balances. */
  method RecomputeIsIdempotent(l: Ledger) returns (first: bool, second: bool)
    modifies l
    ensures l.roommates == old(l.roommates) && l.expenses == old(l.expenses)
    ensures first == second
    ensures first == AllConsistent(l.roommates, l.expenses)
    ensures first ==> l.balances == Balances(l.roommates, l.expenses)
    ensures !first ==> l.balances == old(l.balances)
  {
    first := l.UpdateBalances();
    var after := l.balances;
    second := l.UpdateBalances();
    assert l.balances == after;
  }

  /** Once a roommate who appears in the history is removed from a roster
      that held the name once, recomputation raises until the name is added
      back. */
  lemma {:induction false} RemovedNameBreaksRecompute(roster: seq<string>, es: seq<Expense>, name: string, i: nat)
    requires NoDuplicates(roster) && name in roster
    requires i < |es| && (es[i].paidBy == name || name in es[i].sharedBetween)
    ensures !AllConsistent(RemoveFirst(roster, name), es)
  {
    RemoveFirstDistinct(roster, name);
  }
}
