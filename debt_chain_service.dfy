/** The debt service: the listing behind GET /api/debts, the dashboard
    summary, and the debt-chain finder, which is a stub. The documents the
    store returns are inputs: `debts` is the debts collection in its natural
    order and `users` the users collection that `populate` consults. */
module DebtChainService {
  import opened Wrappers
  import opened Records
  import opened Seqs

  // ---------------------------------------------------------------------
  // Listing
  // ---------------------------------------------------------------------

  /** One listed debt: the stored fields plus the names of both parties. */
  datatype DebtView = DebtView(
    id: string,
    amount: real,
    description: string,
    debtorId: UserId,
    debtorName: string,
    creditorId: UserId,
    creditorName: string,
    dueDate: Timestamp,
    isSettled: bool,
    createdAt: Timestamp,
    updatedAt: Timestamp)

  predicate Involves(d: StoredDebt, u: UserId)
  {
    d.debtorId == u || d.creditorId == u
  }

  /** The `isSettled` condition added to the query: none when `status` is
      falsy (absent or empty), otherwise whether it equals `'settled'`.
      Any other non-empty value therefore selects the unsettled debts. */
  function SettledCondition(status: Option<string>): Option<bool>
  {
    if status.None? || status.value == "" then None else Some(status.value == "settled")
  }

  predicate MatchesQuery(d: StoredDebt, u: UserId, isSettled: Option<bool>)
  {
    Involves(d, u) && (isSettled.None? || d.isSettled == isSettled.value)
  }

  function ListQuery(u: UserId, status: Option<string>): StoredDebt -> bool
  {
    d => MatchesQuery(d, u, SettledCondition(status))
  }

  predicate NewestFirst(s: seq<StoredDebt>)
  {
    forall i, j :: 0 <= i < j < |s| ==> s[i].createdAt >= s[j].createdAt
  }

  /** Places `x` before the first element no newer than `x`. */
  function InsertByCreated(x: StoredDebt, s: seq<StoredDebt>): (r: seq<StoredDebt>)
    ensures multiset(r) == multiset(s) + multiset{x}
  {
    if s == [] || x.createdAt >= s[0].createdAt then
      [x] + s
    else
      assert s == [s[0]] + s[1..];
      [s[0]] + InsertByCreated(x, s[1..])
  }

  lemma {:induction false} InsertKeepsNewestFirst(x: StoredDebt, s: seq<StoredDebt>)
    requires NewestFirst(s)
    ensures NewestFirst(InsertByCreated(x, s))
  {
    if s == [] || x.createdAt >= s[0].createdAt {
      assert forall k :: 0 <= k < |s| ==> s[0].createdAt >= s[k].createdAt;
    } else {
      var rest := InsertByCreated(x, s[1..]);
      InsertKeepsNewestFirst(x, s[1..]);
      forall k | 0 <= k < |rest|
        ensures s[0].createdAt >= rest[k].createdAt
      {
        assert rest[k] in multiset(rest);
        assert rest[k] == x || rest[k] in s[1..];
      }
    }
  }

  /** `.sort({ createdAt: -1 })`: newest first. Equal timestamps keep their
      order in the collection. */
  function SortByCreatedDesc(s: seq<StoredDebt>): (r: seq<StoredDebt>)
    ensures NewestFirst(r)
    ensures multiset(r) == multiset(s)
  {
    if s == [] then []
    else
      assert s == [s[0]] + s[1..];
      InsertKeepsNewestFirst(s[0], SortByCreatedDesc(s[1..]));
      InsertByCreated(s[0], SortByCreatedDesc(s[1..]))
  }

  /** The stored debt a listed record was projected from. */
  function Source(v: DebtView): StoredDebt
  {
    StoredDebt(v.id, v.debtorId, v.creditorId, v.amount, v.description, v.dueDate,
               v.isSettled, v.createdAt, v.updatedAt)
  }

  function Sources(vs: seq<DebtView>): seq<StoredDebt>
  {
    Map(Source, vs)
  }

  /** `v` is the projection of the populated debt `d`. */
  predicate Lists(v: DebtView, d: StoredDebt, users: Directory)
  {
    && Populated(d, users)
    && Source(v) == d
    && v.debtorName == users[d.debtorId].name
    && v.creditorName == users[d.creditorId].name
  }

  /** The projection of every populated debt, in order. */
  function Views(ds: seq<StoredDebt>, users: Directory): (r: seq<DebtView>)
    requires forall d :: d in ds ==> Populated(d, users)
    ensures |r| == |ds|
    ensures forall i :: 0 <= i < |ds| ==> Lists(r[i], ds[i], users)
  {
    if ds == [] then []
    else
      var d := ds[0];
      assert d in ds;
      assert Populated(d, users);
      [DebtView(d.id, d.amount, d.description,
                d.debtorId, users[d.debtorId].name,
                d.creditorId, users[d.creditorId].name,
                d.dueDate, d.isSettled, d.createdAt, d.updatedAt)]
      + Views(ds[1..], users)
  }

  /** `getAllDebts(userId, status)`. It fails when a selected debt names a
      party that is not in the users collection. Otherwise it lists each
      selected debt once, newest first, with both parties' names. */
  function GetAllDebts(u: UserId, status: Option<string>, debts: seq<StoredDebt>, users: Directory)
    : (r: Result<seq<DebtView>>)
    ensures r.Failure? <==>
      exists d :: d in debts && MatchesQuery(d, u, SettledCondition(status)) && !Populated(d, users)
    ensures r.Success? ==>
      forall i, j :: 0 <= i < j < |r.value| ==> r.value[i].createdAt >= r.value[j].createdAt
    ensures r.Success? ==> multiset(Sources(r.value)) == multiset(Filter(ListQuery(u, status), debts))
    ensures r.Success? ==> forall v :: v in r.value ==>
      && v.debtorId in users && v.debtorName == users[v.debtorId].name
      && v.creditorId in users && v.creditorName == users[v.creditorId].name
  {
    var selected := Filter(ListQuery(u, status), debts);
    if exists d :: d in selected && !Populated(d, users) then
      Failure(MissingParty)
    else
      SortedStillPopulated(selected, users);
      ViewsFacts(SortByCreatedDesc(selected), users);
      Success(Views(SortByCreatedDesc(selected), users))
  }

  lemma SortedStillPopulated(selected: seq<StoredDebt>, users: Directory)
    requires forall d :: d in selected ==> Populated(d, users)
    ensures forall d :: d in SortByCreatedDesc(selected) ==> Populated(d, users)
  {
    var sorted := SortByCreatedDesc(selected);
    assert forall d :: d in sorted ==> d in multiset(selected);
  }

  lemma ViewsFacts(sorted: seq<StoredDebt>, users: Directory)
    requires forall d :: d in sorted ==> Populated(d, users)
    ensures Sources(Views(sorted, users)) == sorted
    ensures NewestFirst(sorted) ==> forall i, j :: 0 <= i < j < |sorted| ==>
      Views(sorted, users)[i].createdAt >= Views(sorted, users)[j].createdAt
    ensures forall v :: v in Views(sorted, users) ==>
      && v.debtorId in users && v.debtorName == users[v.debtorId].name
      && v.creditorId in users && v.creditorName == users[v.creditorId].name
  {
    var vs := Views(sorted, users);
    assert Sources(vs) == sorted;
    assert forall i :: 0 <= i < |vs| ==> vs[i].createdAt == sorted[i].createdAt;
    forall v | v in vs
      ensures v.debtorId in users && v.debtorName == users[v.debtorId].name
      ensures v.creditorId in users && v.creditorName == users[v.creditorId].name
    {
      var i :| 0 <= i < |vs| && vs[i] == v;
      assert Lists(vs[i], sorted[i], users);
    }
  }

  /** A debt is listed exactly when it involves the user and agrees with the
      status: only settled debts for `'settled'`, only unsettled ones for any
      other non-empty status, and both kinds when the status is absent or empty. */
  lemma GetAllDebtsListed(u: UserId, status: Option<string>, debts: seq<StoredDebt>, users: Directory, d: StoredDebt)
    requires GetAllDebts(u, status, debts, users).Success?
    ensures d in Sources(GetAllDebts(u, status, debts, users).value) <==>
      && d in debts
      && (d.debtorId == u || d.creditorId == u)
      && (status == Some("settled") ==> d.isSettled)
      && (status.Some? && status.value != "" && status.value != "settled" ==> !d.isSettled)
  {
    var listed := Sources(GetAllDebts(u, status, debts, users).value);
    var selected := Filter(ListQuery(u, status), debts);
    assert multiset(listed) == multiset(selected);
    assert d in listed <==> d in multiset(listed);
    assert d in selected <==> d in multiset(selected);
    assert d in selected <==> d in debts && MatchesQuery(d, u, SettledCondition(status));
  }

  // ---------------------------------------------------------------------
  // Dashboard summary
  // ---------------------------------------------------------------------

  /** One entry of a summary list. */
  datatype SummaryItem = SummaryItem(
    id: string,
    description: string,
    amount: real,
    dueDate: Timestamp,
    debtorName: string,
    creditorName: string)

  datatype Summary = Summary(
    totalOwedToMe: real,
    totalOwed: real,
    netPosition: real,
    owedByOthers: seq<SummaryItem>,
    owedToOthers: seq<SummaryItem>)

  /** The summary query: unsettled debts in which the user takes part. */
  function SummaryQuery(u: UserId): StoredDebt -> bool
  {
    (d: StoredDebt) => !d.isSettled && Involves(d, u)
  }

  function CreditorIs(u: UserId): StoredDebt -> bool
  {
    (d: StoredDebt) => d.creditorId == u
  }

  function DebtorIs(u: UserId): StoredDebt -> bool
  {
    (d: StoredDebt) => d.debtorId == u
  }

  function Amount(d: StoredDebt): real
  {
    d.amount
  }

  function UnsettledCreditorIs(u: UserId): StoredDebt -> bool
  {
    (d: StoredDebt) => !d.isSettled && d.creditorId == u
  }

  function UnsettledDebtorIs(u: UserId): StoredDebt -> bool
  {
    (d: StoredDebt) => !d.isSettled && d.debtorId == u
  }

  /** The unsettled debts of the collection whose creditor is `u`, in collection order. */
  function OwedTo(u: UserId, debts: seq<StoredDebt>): seq<StoredDebt>
  {
    Filter(UnsettledCreditorIs(u), debts)
  }

  /** The unsettled debts of the collection whose debtor is `u`, in collection order. */
  function OwedBy(u: UserId, debts: seq<StoredDebt>): seq<StoredDebt>
  {
    Filter(UnsettledDebtorIs(u), debts)
  }

  predicate Describes(item: SummaryItem, d: StoredDebt, users: Directory)
  {
    && Populated(d, users)
    && item.id == d.id && item.description == d.description
    && item.amount == d.amount && item.dueDate == d.dueDate
    && item.debtorName == users[d.debtorId].name
    && item.creditorName == users[d.creditorId].name
  }

  /** `mapDebt` over a list. */
  function Items(ds: seq<StoredDebt>, users: Directory): (r: seq<SummaryItem>)
    requires forall d :: d in ds ==> Populated(d, users)
    ensures |r| == |ds|
    ensures forall i :: 0 <= i < |ds| ==> Describes(r[i], ds[i], users)
  {
    if ds == [] then []
    else
      var d := ds[0];
      assert d in ds;
      assert Populated(d, users);
      [SummaryItem(d.id, d.description, d.amount, d.dueDate,
                   users[d.debtorId].name, users[d.creditorId].name)]
      + Items(ds[1..], users)
  }

  lemma OwedToIsPartition(u: UserId, debts: seq<StoredDebt>)
    ensures Filter(CreditorIs(u), Filter(SummaryQuery(u), debts)) == OwedTo(u, debts)
  {
    FilterFusion(SummaryQuery(u), CreditorIs(u), UnsettledCreditorIs(u), debts);
  }

  lemma OwedByIsPartition(u: UserId, debts: seq<StoredDebt>)
    ensures Filter(DebtorIs(u), Filter(SummaryQuery(u), debts)) == OwedBy(u, debts)
  {
    FilterFusion(SummaryQuery(u), DebtorIs(u), UnsettledDebtorIs(u), debts);
  }

  /** `getDebtSummary(userId)`. It fails when an unsettled debt of the user
      names a party that is not in the users collection. Otherwise the totals
      are the sums of the user's unsettled credits and debts, and the two lists
      describe those debts in collection order: `owedByOthers` lists what the
      user is owed and `owedToOthers` what the user owes. */
  function GetDebtSummary(u: UserId, debts: seq<StoredDebt>, users: Directory): (r: Result<Summary>)
    ensures r.Failure? <==>
      exists d :: d in debts && !d.isSettled && Involves(d, u) && !Populated(d, users)
    ensures r.Success? ==>
      && r.value.totalOwedToMe == Sum(Amount, OwedTo(u, debts))
      && r.value.totalOwed == Sum(Amount, OwedBy(u, debts))
      && r.value.netPosition == r.value.totalOwedToMe - r.value.totalOwed
    ensures r.Success? ==>
      && |r.value.owedByOthers| == |OwedTo(u, debts)|
      && (forall i :: 0 <= i < |OwedTo(u, debts)| ==>
            Describes(r.value.owedByOthers[i], OwedTo(u, debts)[i], users))
      && |r.value.owedToOthers| == |OwedBy(u, debts)|
      && (forall i :: 0 <= i < |OwedBy(u, debts)| ==>
            Describes(r.value.owedToOthers[i], OwedBy(u, debts)[i], users))
  {
    var considered := Filter(SummaryQuery(u), debts);
    if exists d :: d in considered && !Populated(d, users) then
      Failure(MissingParty)
    else
      var owedToMe := Filter(CreditorIs(u), considered);
      var owedByMe := Filter(DebtorIs(u), considered);
      OwedToIsPartition(u, debts);
      OwedByIsPartition(u, debts);
      var totalOwedToMe := Sum(Amount, owedToMe);
      var totalOwed := Sum(Amount, owedByMe);
      Success(Summary(totalOwedToMe, totalOwed, totalOwedToMe - totalOwed,
                      Items(owedToMe, users), Items(owedByMe, users)))
  }

  /** What one debt adds to the user's net position. */
  function Signed(u: UserId, d: StoredDebt): real
  {
    (if !d.isSettled && d.creditorId == u then d.amount else 0.0)
    - (if !d.isSettled && d.debtorId == u then d.amount else 0.0)
  }

  function Balance(u: UserId): StoredDebt -> real
  {
    (d: StoredDebt) => Signed(u, d)
  }

  /** The net position is the user's signed balance over the whole collection:
      each unsettled credit counts positively, each unsettled debt negatively,
      and a debt the user owes to themself counts zero. */
  lemma NetPositionIsBalance(u: UserId, debts: seq<StoredDebt>, users: Directory)
    requires GetDebtSummary(u, debts, users).Success?
    ensures GetDebtSummary(u, debts, users).value.netPosition == Sum(Balance(u), debts)
  {
    var credit := (d: StoredDebt) => if !d.isSettled && d.creditorId == u then d.amount else 0.0;
    var debit := (d: StoredDebt) => if !d.isSettled && d.debtorId == u then d.amount else 0.0;
    SumFilter(UnsettledCreditorIs(u), Amount, credit, debts);
    SumFilter(UnsettledDebtorIs(u), Amount, debit, debts);
    SumDifference(credit, debit, Balance(u), debts);
  }

  /** Every debt the summary considers lands in at least one list, and in
      both exactly when the user is its debtor and its creditor. */
  lemma SummaryCoversConsidered(u: UserId, debts: seq<StoredDebt>, d: StoredDebt)
    requires d in debts && !d.isSettled && Involves(d, u)
    ensures d in OwedTo(u, debts) || d in OwedBy(u, debts)
    ensures (d in OwedTo(u, debts) && d in OwedBy(u, debts)) <==> d.debtorId == u == d.creditorId
  {
  }

  /** With no debts on a side, that side's total is zero. */
  lemma EmptySideTotalsZero(u: UserId, debts: seq<StoredDebt>, users: Directory)
    requires GetDebtSummary(u, debts, users).Success?
    ensures OwedTo(u, debts) == [] ==> GetDebtSummary(u, debts, users).value.totalOwedToMe == 0.0
    ensures OwedBy(u, debts) == [] ==> GetDebtSummary(u, debts, users).value.totalOwed == 0.0
  {
  }

  // ---------------------------------------------------------------------
  // Debt chains
  // ---------------------------------------------------------------------

  /** The shape of a reported chain; nothing produces one. */
  datatype DebtChain = DebtChain(
    chain: seq<UserId>,
    totalAmount: real,
    canSettle: bool,
    cashInjectionNeeded: real)

  /** `findDebtChains()`: a stub that reads nothing and reports no chain. */
  function FindDebtChains(): (r: seq<DebtChain>)
    ensures r == []
  {
    []
  }
}
