/**
 Keyset paging over a wallet's ledger, and reconciliation.

 Entries are ordered by (created_at, id). created_at is the time at which the transaction began, so this is not the
 commit order. A cursor stands for such a pair; how it is written as text is treated in its own section.
 */
module LedgerPaging {
  import opened Results
  import opened MoneyValue
  import opened WalletAggregate
  import opened Tables
  import opened Machine
  import opened Invariants
  import opened SystemProofs
  import opened EngineTheorems

  /** A ledger row as stored: its timestamp, the RFC 3339 text of that timestamp, and its identifier. */
  datatype Stamped = Stamped(time: int, text: string, id: string, rank: nat, entry: Entry)

  datatype Cursor = Start | At(time: int, rank: nat)

  predicate Less(a: Stamped, b: Stamped) {
    a.time < b.time || (a.time == b.time && a.rank < b.rank)
  }

  predicate Beyond(c: Cursor, x: Stamped) {
    match c
    case Start => true
    case At(time, rank) => time < x.time || (time == x.time && rank < x.rank)
  }

  function CursorOf(x: Stamped): Cursor {
    At(x.time, x.rank)
  }

  // ---------------------------------------------------------------- ORDER BY

  function Place(l: seq<Stamped>, x: Stamped): seq<Stamped> {
    if l == [] then [x]
    else if Less(x, l[0]) then [x] + l
    else [l[0]] + Place(l[1..], x)
  }

  function Ordered(rows: seq<Stamped>): seq<Stamped> {
    if rows == [] then [] else Place(Ordered(rows[..|rows| - 1]), rows[|rows| - 1])
  }

  lemma {:induction false} PlacePermutes(l: seq<Stamped>, x: Stamped)
    ensures multiset(Place(l, x)) == multiset(l) + multiset{x}
  {
    if l != [] && !Less(x, l[0]) {
      PlacePermutes(l[1..], x);
      assert l == [l[0]] + l[1..];
    }
  }

  /** Ordering neither loses nor repeats a row. */
  lemma {:induction false} OrderedPermutes(rows: seq<Stamped>)
    ensures multiset(Ordered(rows)) == multiset(rows)
  {
    if rows != [] {
      var front, x := rows[..|rows| - 1], rows[|rows| - 1];
      OrderedPermutes(front);
      PlacePermutes(Ordered(front), x);
      assert rows == front + [x];
    }
  }

  ghost predicate Increasing(l: seq<Stamped>) {
    forall i, j :: 0 <= i < j < |l| ==> Less(l[i], l[j])
  }

  /** Identifiers are primary keys, so no two rows have the same place in the order. */
  ghost predicate DistinctRanks(rows: seq<Stamped>) {
    forall i, j :: 0 <= i < j < |rows| ==> rows[i].rank != rows[j].rank
  }

  lemma {:induction false} PlaceIncreasing(l: seq<Stamped>, x: Stamped)
    requires Increasing(l) && forall i :: 0 <= i < |l| ==> l[i].rank != x.rank
    ensures Increasing(Place(l, x))
  {
    if l != [] && !Less(x, l[0]) {
      PlaceIncreasing(l[1..], x);
      PlacePermutes(l[1..], x);
      var rest := Place(l[1..], x);
      forall j | 0 <= j < |rest|
        ensures Less(l[0], rest[j])
      {
        assert rest[j] in multiset(rest);
        assert rest[j] == x || rest[j] in l[1..];
      }
    }
  }

  lemma {:induction false} OrderedIncreasing(rows: seq<Stamped>)
    requires DistinctRanks(rows)
    ensures Increasing(Ordered(rows))
    ensures var l := Ordered(rows);
            forall i, j :: 0 <= i < j < |l| ==>
              l[i].time < l[j].time || (l[i].time == l[j].time && l[i].rank < l[j].rank)
  {
    if rows != [] {
      var front, x := rows[..|rows| - 1], rows[|rows| - 1];
      OrderedIncreasing(front);
      OrderedPermutes(front);
      var l := Ordered(front);
      forall i | 0 <= i < |l|
        ensures l[i].rank != x.rank
      {
        assert l[i] in multiset(l);
        assert l[i] in front;
      }
      PlaceIncreasing(l, x);
    }
  }

  // ---------------------------------------------------------------- pages

  /** The rows after a cursor, in order. */
  function After(l: seq<Stamped>, c: Cursor): seq<Stamped> {
    if l == [] then [] else if Beyond(c, l[0]) then l else After(l[1..], c)
  }

  datatype Page = Page(entries: seq<Stamped>, next: Option<Cursor>)

  function PageOf(l: seq<Stamped>, c: Cursor, limit: nat): Page
    requires limit > 0
  {
    var rest := After(l, c);
    if |rest| > limit then Page(rest[..limit], Some(CursorOf(rest[limit - 1]))) else Page(rest, None)
  }

  /** The cursor of a row leads to exactly the rows behind it. */
  lemma {:induction false} AfterRow(l: seq<Stamped>, k: nat)
    requires Increasing(l) && k < |l|
    ensures After(l, CursorOf(l[k])) == l[k + 1..]
  {
    if k == 0 {
      if |l| > 1 {
        assert Less(l[0], l[1]);
        assert l[1..][0] == l[1];
      }
    } else {
      assert Less(l[0], l[k]);
      assert l[1..][k - 1] == l[k];
      AfterRow(l[1..], k - 1);
    }
  }

  /** The walk over all pages from the cursor behind the first k rows gives the rest of the ledger. */
  lemma PageFrom(l: seq<Stamped>, k: nat, limit: nat)
    requires Increasing(l) && k <= |l| && limit > 0
    ensures var c := if k == 0 then Start else CursorOf(l[k - 1]);
            var page := PageOf(l, c, limit);
            && (|l| - k <= limit ==> page == Page(l[k..], None))
            && (|l| - k > limit ==> page == Page(l[k..k + limit], Some(CursorOf(l[k + limit - 1]))))
  {
    if k > 0 {
      AfterRow(l, k - 1);
    }
    var rest := l[k..];
    assert After(l, if k == 0 then Start else CursorOf(l[k - 1])) == rest;
    if |rest| > limit {
      assert rest[..limit] == l[k..k + limit] && rest[limit - 1] == l[k + limit - 1];
    }
  }

  /** All pages of a ledger, one after the other. */
  method WalkPages(l: seq<Stamped>, limit: nat) returns (all: seq<Stamped>)
    requires Increasing(l) && limit > 0
    ensures all == l
  {
    all := [];
    var cursor := Start;
    ghost var k: nat := 0;
    var more := true;
    while more
      invariant k <= |l| && all == l[..k]
      invariant more ==> cursor == if k == 0 then Start else CursorOf(l[k - 1])
      invariant !more ==> k == |l|
      decreases more, |l| - k
    {
      PageFrom(l, k, limit);
      var page := PageOf(l, cursor, limit);
      all := all + page.entries;
      k := k + |page.entries|;
      if page.next.None? || page.next.value == cursor {
        more := false;
      } else {
        cursor := page.next.value;
      }
    }
  }

  // ---------------------------------------------------------------- FindByWalletID

  /** The query: rows of the wallet after the cursor, ordered, at most n of them. */
  function Query(table: seq<Stamped>, wallet: string, c: Cursor, n: nat): seq<Stamped> {
    var rest := After(Ordered(OfWallet(table, wallet)), c);
    if |rest| > n then rest[..n] else rest
  }

  function OfWallet(table: seq<Stamped>, wallet: string): seq<Stamped> {
    if table == [] then []
    else
      var last := table[|table| - 1];
      OfWallet(table[..|table| - 1], wallet) + if last.entry.wallet == wallet then [last] else []
  }

  /** Every row can be turned into a ledger entry again. */
  ghost predicate Readable(rows: seq<Stamped>) {
    forall k :: 0 <= k < |rows| ==> NewLedgerEntry(rows[k].entry).Success?
  }

  /** The page that a query for one row more than the limit gives. */
  function Cut(rows: seq<Stamped>, n: nat): Page
    requires n > 0
  {
    if |rows| > n then Page(rows[..n], Some(CursorOf(rows[n - 1]))) else Page(rows, None)
  }

  /** Asking for one row more than the limit tells whether there is a next page. */
  lemma QueryIsPage(table: seq<Stamped>, wallet: string, c: Cursor, n: nat)
    requires n > 0
    ensures var rows := Query(table, wallet, c, n + 1);
            PageOf(Ordered(OfWallet(table, wallet)), c, n) == Cut(rows, n)
  {
    var rest := After(Ordered(OfWallet(table, wallet)), c);
    if |rest| > n {
      assert rest[..n + 1][..n] == rest[..n];
    }
  }

  /** The row loop: append entry after entry, and stop at the first that cannot be rehydrated. */
  method ScanEntries(rows: seq<Stamped>) returns (r: Result<seq<Stamped>, WalletError>)
    ensures Readable(rows) ==> r == Success(rows)
    ensures !Readable(rows) ==> r.Failure?
  {
    var entries: seq<Stamped> := [];
    for i := 0 to |rows|
      invariant entries == rows[..i]
      invariant forall k :: 0 <= k < i ==> NewLedgerEntry(rows[k].entry).Success?
    {
      var entry := NewLedgerEntry(rows[i].entry);
      if entry.Failure? { return Failure(entry.error); }
      entries := entries + [rows[i]];
    }
    assert rows[..|rows|] == rows;
    return Success(entries);
  }

  function PageLimit(limit: int): nat {
    if limit <= 0 then 50 else limit
  }

  method FindByWalletID(table: seq<Stamped>, wallet: string, cursor: Cursor, limit: int)
    returns (r: Result<Page, WalletError>)
    ensures var n := if limit <= 0 then 50 else limit;
            Readable(Query(table, wallet, cursor, n + 1)) ==> r == Success(Cut(Query(table, wallet, cursor, n + 1), n))
    ensures !Readable(Query(table, wallet, cursor, PageLimit(limit) + 1)) ==> r.Failure?
  {
    var n := limit;
    if n <= 0 { n := 50; }
    var rows := Query(table, wallet, cursor, n + 1);
    var scanned := ScanEntries(rows);
    if scanned.Failure? { return Failure(scanned.error); }
    var page := CutPage(scanned.value, n);
    return Success(page);
  }

  method CutPage(rows: seq<Stamped>, n: nat) returns (page: Page)
    requires n > 0
    ensures page == Cut(rows, n)
  {
    var entries := rows;
    var next: Option<Cursor> := None;
    if |entries| > n {
      entries := entries[..n];
      next := Some(CursorOf(entries[|entries| - 1]));
    }
    return Page(entries, next);
  }

  // ---------------------------------------------------------------- cursors as text

  function CursorText(x: Stamped): string {
    x.text + ":" + x.id
  }

  /** strings.SplitN(s, ":", 2): what is before the first colon, if there is one. */
  function BeforeColon(s: string): (r: Option<string>)
    ensures r.Some? ==> |r.value| < |s| && r.value == s[..|r.value|] && s[|r.value|] == ':'
    ensures r.Some? ==> forall i :: 0 <= i < |r.value| ==> s[i] != ':'
    ensures r.None? ==> ':' !in s
  {
    if s == [] then None
    else if s[0] == ':' then Some([])
    else
      var rest := BeforeColon(s[1..]);
      if rest.None? then None else Some([s[0]] + rest.value)
  }

  /**
   Decoding splits at the first colon and parses what is before it as a timestamp and what is behind it as an
   identifier. Timestamp parsing and the order of identifiers are parameters.
   */
  function Decode(cursor: string, parse: string -> Option<int>, rank: string -> nat): Option<Cursor> {
    match BeforeColon(cursor)
    case None => None
    case Some(head) =>
      match parse(head)
      case None => None
      case Some(time) => Some(At(time, rank(cursor[|head| + 1..])))
  }

  /** RFC 3339 (section 5.6) separates hours, minutes and seconds by colons, so an accepted text has one. */
  ghost predicate AcceptsTimestamps(parse: string -> Option<int>) {
    forall s :: parse(s).Some? ==> ':' in s
  }

  /** No cursor text can be decoded, in particular none that the repository writes: only first pages can be read. */
  lemma NoCursorDecodes(cursor: string, parse: string -> Option<int>, rank: string -> nat)
    requires AcceptsTimestamps(parse)
    ensures Decode(cursor, parse, rank) == None
  {
    var head := BeforeColon(cursor);
    if head.Some? {
      assert ':' !in head.value;
    }
  }

  // ---------------------------------------------------------------- reconciliation

  datatype Reconciliation = Reconciliation(
    stored: Money, calculated: Money, difference: Money, consistent: bool, checked: nat)

  /** The ledger table as stored: the entries of the store, each with a timestamp and an identifier. */
  ghost predicate Stamps(table: seq<Stamped>, ledger: seq<Entry>) {
    && |table| == |ledger|
    && (forall k :: 0 <= k < |table| ==> table[k].entry == ledger[k])
    && DistinctRanks(table)
  }

  lemma {:induction false} OfWalletIsEntries(table: seq<Stamped>, ledger: seq<Entry>, wallet: string)
    requires |table| == |ledger| && forall k :: 0 <= k < |table| ==> table[k].entry == ledger[k]
    ensures |OfWallet(table, wallet)| == |EntriesOf(ledger, wallet)|
  {
    if table != [] {
      OfWalletIsEntries(table[..|table| - 1], ledger[..|ledger| - 1], wallet);
    }
  }

  lemma {:induction false} OfWalletSound(table: seq<Stamped>, wallet: string, k: nat)
    requires k < |OfWallet(table, wallet)|
    ensures OfWallet(table, wallet)[k] in table && OfWallet(table, wallet)[k].entry.wallet == wallet
  {
    var front := table[..|table| - 1];
    if k < |OfWallet(front, wallet)| {
      OfWalletSound(front, wallet, k);
    }
  }

  /** Exactly the rows of the wallet are read. */
  lemma {:induction false} OfWalletComplete(table: seq<Stamped>, wallet: string, k: nat)
    requires k < |table| && table[k].entry.wallet == wallet
    ensures table[k] in OfWallet(table, wallet)
  {
    if k < |table| - 1 {
      OfWalletComplete(table[..|table| - 1], wallet, k);
    }
  }

  lemma {:induction false} OfWalletDistinct(table: seq<Stamped>, wallet: string)
    requires DistinctRanks(table)
    ensures DistinctRanks(OfWallet(table, wallet))
  {
    if table != [] {
      var front, last := table[..|table| - 1], table[|table| - 1];
      OfWalletDistinct(front, wallet);
      forall k | 0 <= k < |OfWallet(front, wallet)|
        ensures OfWallet(front, wallet)[k].rank != last.rank
      {
        OfWalletSound(front, wallet, k);
        assert OfWallet(front, wallet)[k] in front;
      }
    }
  }

  lemma LedgerReadable(st: Store, table: seq<Stamped>)
    requires RowsOk(st.rows) && EntriesOk(st) && BooksOk(st) && Stamps(table, st.ledger)
    ensures Readable(table)
  {
    forall k | 0 <= k < |table|
      ensures NewLedgerEntry(table[k].entry).Success?
    {
      EntryReadable(st, k);
    }
  }

  /** Every stored entry satisfies the checks that reading it back makes. */
  lemma EntryReadable(st: Store, k: nat)
    requires RowsOk(st.rows) && EntriesOk(st) && BooksOk(st) && k < |st.ledger|
    ensures NewLedgerEntry(st.ledger[k]).Success?
  {
    var e := st.ledger[k];
    EntryNamed(st, k);
    EntryExact(st, k);
  }

  lemma EntryNamed(st: Store, k: nat)
    requires RowsOk(st.rows) && EntriesOk(st) && k < |st.ledger|
    ensures st.ledger[k].wallet != ""
  {
    assert EntryOk(st.rows, st.ledger[k]);
    assert RowOk(st.rows, st.rows[st.ledger[k].tx]);
  }

  /** Whatever a query returns comes from the table, so it is readable if the table is. */
  lemma QueryReadable(table: seq<Stamped>, wallet: string, c: Cursor, n: nat)
    requires Readable(table)
    ensures Readable(Query(table, wallet, c, n))
  {
    var rows := OfWallet(table, wallet);
    var rest := After(Ordered(rows), c);
    OrderedPermutes(rows);
    forall k | 0 <= k < |rest|
      ensures NewLedgerEntry(rest[k].entry).Success?
    {
      AfterFrom(Ordered(rows), c, k);
      assert rest[k] in multiset(Ordered(rows));
      var i :| 0 <= i < |rows| && rows[i] == rest[k];
      OfWalletSound(table, wallet, i);
    }
  }

  lemma {:induction false} AfterFrom(l: seq<Stamped>, c: Cursor, k: nat)
    requires k < |After(l, c)|
    ensures After(l, c)[k] in l
  {
    if l != [] && !Beyond(c, l[0]) {
      AfterFrom(l[1..], c, k);
    }
  }

  /** The page behind the first k rows of the ordered ledger. */
  lemma LedgerPage(table: seq<Stamped>, wallet: string, l: seq<Stamped>, k: nat, limit: nat)
    requires l == Ordered(OfWallet(table, wallet)) && Increasing(l) && k <= |l| && limit > 0
    ensures var c := if k == 0 then Start else CursorOf(l[k - 1]);
            var page := Cut(Query(table, wallet, c, limit + 1), limit);
            && (|l| - k <= limit ==> page == Page(l[k..], None))
            && (|l| - k > limit ==> page == Page(l[k..k + limit], Some(CursorOf(l[k + limit - 1]))))
  {
    QueryIsPage(table, wallet, if k == 0 then Start else CursorOf(l[k - 1]), limit);
    PageFrom(l, k, limit);
  }

  lemma OrderedLedger(table: seq<Stamped>, wallet: string)
    requires DistinctRanks(table)
    ensures Increasing(Ordered(OfWallet(table, wallet)))
    ensures |Ordered(OfWallet(table, wallet))| == |OfWallet(table, wallet)|
  {
    OfWalletDistinct(table, wallet);
    OrderedIncreasing(OfWallet(table, wallet));
    OrderedPermutes(OfWallet(table, wallet));
    assert |multiset(Ordered(OfWallet(table, wallet)))| == |multiset(OfWallet(table, wallet))|;
  }

  function CursorAfter(l: seq<Stamped>, k: nat): Cursor
    requires k <= |l|
  {
    if k == 0 then Start else CursorOf(l[k - 1])
  }

  /** One page of Reconcile's walk, k rows into the ordered ledger l. */
  method ReadPage(table: seq<Stamped>, wallet: string, cursor: Cursor, ghost l: seq<Stamped>, ghost k: nat)
    returns (count: nat, next: Option<Cursor>)
    requires Readable(table) && l == Ordered(OfWallet(table, wallet)) && Increasing(l) && k <= |l|
    requires cursor == CursorAfter(l, k)
    ensures |l| - k <= 1000 ==> count == |l| - k && next.None?
    ensures |l| - k > 1000 ==> count == 1000 && next == Some(CursorAfter(l, k + 1000)) && next.value != cursor
  {
    QueryReadable(table, wallet, cursor, 1001);
    LedgerPage(table, wallet, l, k, 1000);
    var found := FindByWalletID(table, wallet, cursor, 1000);
    if k > 0 && |l| - k > 1000 {
      assert Less(l[k - 1], l[k + 999]);
    }
    return |found.value.entries|, found.value.next;
  }

  /** The loop of Reconcile: page through the ledger, counting entries. */
  method CountEntries(table: seq<Stamped>, wallet: string) returns (checked: nat)
    requires Readable(table) && DistinctRanks(table)
    ensures checked == |OfWallet(table, wallet)|
  {
    ghost var l := Ordered(OfWallet(table, wallet));
    OrderedLedger(table, wallet);
    checked := 0;
    var cursor := Start;
    var more := true;
    while more
      invariant checked <= |l|
      invariant more ==> cursor == CursorAfter(l, checked)
      invariant !more ==> checked == |l|
      decreases more, |l| - checked
    {
      var count, next := ReadPage(table, wallet, cursor, l, checked);
      checked := checked + count;
      if next.None? || next.value == cursor {
        more := false;
      } else {
        cursor := next.value;
      }
    }
  }

  /** The end of Reconcile: the stored balance against the sum over the ledger. */
  method CompareBalances(stored: Money, sum: int64, checked: nat) returns (r: Result<Reconciliation, WalletError>)
    ensures r.Success? ==>
              && r.value.stored == stored && r.value.calculated == Money(sum, stored.currency)
              && r.value.checked == checked
              && r.value.difference.amount as int == stored.amount as int - sum as int
              && r.value.difference.currency == stored.currency
              && (r.value.consistent <==> stored.amount == sum)
    ensures Presentable(stored) && stored.amount == sum ==>
              r == Success(Reconciliation(stored, stored, Money(0, stored.currency), true, checked))
  {
    var calculated := NewMoney(sum, stored.currency);
    if calculated.Failure? { return Failure(Arithmetic(calculated.error)); }
    var difference := Subtract(stored, calculated.value);
    if difference.Failure? { return Failure(Arithmetic(difference.error)); }
    return Success(Reconciliation(stored, calculated.value, difference.value, difference.value.amount == 0, checked));
  }

  ghost predicate Balanced(st: Store, wallet: string)
    requires wallet in st.wallets
  {
    && Presentable(st.wallets[wallet].balance)
    && st.wallets[wallet].balance.amount as int == SumOf(st.ledger, wallet, CREDIT) - SumOf(st.ledger, wallet, DEBIT)
  }

  /** Reconcile with cursors that denote their pair. */
  method Reconcile(st: Store, table: seq<Stamped>, wallet: string) returns (r: Result<Reconciliation, WalletError>)
    requires Readable(table) && DistinctRanks(table)
    ensures r.Success? ==>
              && wallet in st.wallets
              && r.value.stored == st.wallets[wallet].balance
              && r.value.calculated.amount as int == SumOf(st.ledger, wallet, CREDIT) - SumOf(st.ledger, wallet, DEBIT)
              && r.value.difference.amount as int == r.value.stored.amount as int - r.value.calculated.amount as int
              && r.value.stored.currency == r.value.calculated.currency == r.value.difference.currency
              && (r.value.consistent <==> r.value.stored == r.value.calculated)
              && r.value.checked == |OfWallet(table, wallet)|
    ensures wallet == "" ==> r == Failure(InvalidWalletID)
    ensures wallet != "" && wallet !in st.wallets ==> r == Failure(WalletNotFound)
    ensures wallet != "" && wallet in st.wallets && Balanced(st, wallet) ==> r.Success?
  {
    if wallet == "" { return Failure(InvalidWalletID); }
    if wallet !in st.wallets { return Failure(WalletNotFound); }
    var sum: int := SumOf(st.ledger, wallet, CREDIT) - SumOf(st.ledger, wallet, DEBIT);
    if !FitsInt64(sum) { return Failure(Arithmetic(Overflow)); }
    var checked := CountEntries(table, wallet);
    r := CompareBalances(st.wallets[wallet].balance, sum as int64, checked);
  }

  lemma {:induction false} ReachableBooks(labels: seq<Label>, table: seq<Stamped>, wallet: string)
    requires Stamps(table, Exec(INIT, labels).store.ledger)
    ensures Readable(table)
    ensures var st := Exec(INIT, labels).store;
            wallet in st.wallets ==> Balanced(st, wallet) && st.wallets[wallet].balance.currency == BRL
  {
    ReachableInv(labels);
    LedgerReadable(Exec(INIT, labels).store, table);
    if wallet in Exec(INIT, labels).store.wallets {
      ConservationOf(Exec(INIT, labels).store, wallet);
    }
  }

  /** In every reachable state, reconciliation checks every entry of the wallet and finds no difference. */
  method ReconcileReachable(ghost labels: seq<Label>, st: Store, table: seq<Stamped>, wallet: string)
    returns (r: Result<Reconciliation, WalletError>)
    requires st == Exec(INIT, labels).store && Stamps(table, st.ledger) && wallet in st.wallets && wallet != ""
    ensures r == Success(Reconciliation(st.wallets[wallet].balance, st.wallets[wallet].balance, Money(0, BRL), true,
                                        |EntriesOf(st.ledger, wallet)|))
  {
    ReachableBooks(labels, table, wallet);
    OfWalletIsEntries(table, st.ledger, wallet);
    r := Reconcile(st, table, wallet);
  }

  /** FindByWalletID as written: the cursor comes and goes as text, and no text is the start. */
  method FindByText(
    table: seq<Stamped>, wallet: string, cursor: string, limit: int, parse: string -> Option<int>, rank: string -> nat)
    returns (r: Result<(seq<Stamped>, string), WalletError>)
    ensures cursor != "" && Decode(cursor, parse, rank).None? ==> r == Failure(InvalidCursor)
    ensures var from, n := if cursor == "" then Some(Start) else Decode(cursor, parse, rank), PageLimit(limit);
            from.Some? && Readable(Query(table, wallet, from.value, n + 1)) ==>
              var page := Cut(Query(table, wallet, from.value, n + 1), n);
              r == Success((page.entries, if page.next.None? then "" else CursorText(page.entries[n - 1])))
  {
    var from := if cursor == "" then Some(Start) else Decode(cursor, parse, rank);
    if from.None? { return Failure(InvalidCursor); }
    var found := FindByWalletID(table, wallet, from.value, limit);
    if found.Failure? { return Failure(found.error); }
    var entries := found.value.entries;
    return Success((entries, if found.value.next.None? then "" else CursorText(entries[|entries| - 1])));
  }

  /**
   Reconcile's count with text cursors. It succeeds exactly for wallets whose ledger fits on one page; for any other
   wallet the second page is refused.
   */
  method CountEntriesAsWritten(table: seq<Stamped>, wallet: string, parse: string -> Option<int>, rank: string -> nat)
    returns (r: Result<nat, WalletError>)
    requires Readable(table) && DistinctRanks(table) && AcceptsTimestamps(parse)
    ensures r == if |OfWallet(table, wallet)| <= 1000 then Success(|OfWallet(table, wallet)|)
                 else Failure(InvalidCursor)
  {
    ghost var l := Ordered(OfWallet(table, wallet));
    OrderedLedger(table, wallet);
    QueryReadable(table, wallet, Start, 1001);
    LedgerPage(table, wallet, l, 0, 1000);
    var checked, cursor, more := 0, "", true;
    while more
      invariant more && cursor == "" ==> checked == 0
      invariant more && cursor != "" ==> |l| > 1000
      invariant !more ==> checked == |l| <= 1000
      decreases more, cursor == ""
    {
      NoCursorDecodes(cursor, parse, rank);
      var found := FindByText(table, wallet, cursor, 1000, parse, rank);
      if found.Failure? { return Failure(found.error); }
      checked := checked + |found.value.0|;
      if found.value.1 == "" || found.value.1 == cursor {
        more := false;
      } else {
        cursor := found.value.1;
      }
    }
    return Success(checked);
  }

  /** Reconcile as written, with text cursors. */
  method ReconcileByText(
    st: Store, table: seq<Stamped>, wallet: string, parse: string -> Option<int>, rank: string -> nat)
    returns (r: Result<Reconciliation, WalletError>)
    requires Readable(table) && DistinctRanks(table) && AcceptsTimestamps(parse)
    ensures wallet == "" ==> r == Failure(InvalidWalletID)
    ensures wallet != "" && wallet !in st.wallets ==> r == Failure(WalletNotFound)
    ensures wallet != "" && wallet in st.wallets && Balanced(st, wallet) ==>
              var stored, n := st.wallets[wallet].balance, |OfWallet(table, wallet)|;
              r == if n <= 1000 then Success(Reconciliation(stored, stored, Money(0, stored.currency), true, n))
                   else Failure(InvalidCursor)
  {
    if wallet == "" { return Failure(InvalidWalletID); }
    if wallet !in st.wallets { return Failure(WalletNotFound); }
    var sum: int := SumOf(st.ledger, wallet, CREDIT) - SumOf(st.ledger, wallet, DEBIT);
    if !FitsInt64(sum) { return Failure(Arithmetic(Overflow)); }
    var checked := CountEntriesAsWritten(table, wallet, parse, rank);
    if checked.Failure? { return Failure(checked.error); }
    r := CompareBalances(st.wallets[wallet].balance, sum as int64, checked.value);
  }

  /**
   In every reachable state, reconciliation as written reports a zero difference over all entries for exactly the
   wallets with at most 1000 entries, and fails for every other wallet.
   */
  method ReconcileAsWritten(
    ghost labels: seq<Label>, st: Store, table: seq<Stamped>, wallet: string,
    parse: string -> Option<int>, rank: string -> nat)
    returns (r: Result<Reconciliation, WalletError>)
    requires st == Exec(INIT, labels).store && Stamps(table, st.ledger) && AcceptsTimestamps(parse)
    ensures r == if wallet == "" then Failure(InvalidWalletID)
                 else if wallet !in st.wallets then Failure(WalletNotFound)
                 else if |EntriesOf(st.ledger, wallet)| > 1000 then Failure(InvalidCursor)
                 else
                   var stored := st.wallets[wallet].balance;
                   Success(Reconciliation(stored, stored, Money(0, BRL), true, |EntriesOf(st.ledger, wallet)|))
  {
    ReachableBooks(labels, table, wallet);
    OfWalletIsEntries(table, st.ledger, wallet);
    r := ReconcileByText(st, table, wallet, parse, rank);
  }
}
