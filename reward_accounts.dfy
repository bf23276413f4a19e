/** The reward account management page: the four filters over the account
    list, the CSV export of what they keep, the low-balance warning, and the
    create and edit forms.
    `Number.parseFloat` followed by `Number.isFinite` is the parameter
    `parse`: `Some(n)` for a text that reads as the finite number `n`, `None`
    otherwise. */
module RewardAccounts {
  import opened Wrappers
  import opened Strings
  import opened Lists

  datatype AssignedCampaign = AssignedCampaign(campaignId: string, name: string, status: string)

  /** `RewardAccount`; the balance is the decimal text the service sends. */
  datatype Account = Account(id: int, accountId: string, accountName: string, balance: string,
                             currency: string, status: string, assignedCampaignsCount: int,
                             assignedCampaigns: seq<AssignedCampaign>, updatedAt: string)

  const LowBalanceThreshold: real := 100000.0

  /** `parseBalance`: the balance, or 0 when it does not read as a finite number. */
  function ParseBalance(parse: string -> Option<real>, balance: string): (r: real)
    ensures parse(balance).Some? ==> r == parse(balance).value
    ensures parse(balance).None? ==> r == 0.0
  {
    parse(balance).GetOr(0.0)
  }

  /** The warning triangle beside a balance. */
  predicate IsLow(parse: string -> Option<real>, acc: Account): (r: bool)
    ensures parse(acc.balance).None? ==> r
    ensures parse(acc.balance).Some? ==> (r <==> parse(acc.balance).value < LowBalanceThreshold)
  {
    ParseBalance(parse, acc.balance) < LowBalanceThreshold
  }

  /** An account whose balance cannot be read is shown as low. */
  lemma UnreadableIsLow(parse: string -> Option<real>, acc: Account)
    requires parse(acc.balance).None?
    ensures IsLow(parse, acc)
  {
  }

  // ---------------------------------------------------------------------------
  // Filters

  /** The four filter inputs: search text, status, assignment and minimum balance. */
  datatype Filters = Filters(searchQuery: string, statusFilter: string, assignedFilter: string,
                             minBalanceFilter: string)

  /** The filters the page starts with, which keep every account. */
  const NoFilters := Filters("", "all", "all", "")

  predicate MatchesSearch(acc: Account, query: string) {
    Contains(ToLower(acc.accountName), ToLower(query)) || Contains(ToLower(acc.accountId), ToLower(query))
  }

  predicate MatchesStatus(acc: Account, statusFilter: string) {
    statusFilter == "all" || acc.status == statusFilter
  }

  predicate MatchesAssigned(acc: Account, assignedFilter: string) {
    assignedFilter == "all"
    || (assignedFilter == "assigned" && acc.assignedCampaignsCount > 0)
    || (assignedFilter == "unassigned" && acc.assignedCampaignsCount == 0)
  }

  /** `min`: no minimum when the box is empty or its text is not a finite number. */
  function MinBalance(parse: string -> Option<real>, minBalanceFilter: string): Option<real> {
    if minBalanceFilter != "" then parse(minBalanceFilter) else None
  }

  predicate MatchesMinBalance(parse: string -> Option<real>, acc: Account, minBalanceFilter: string) {
    var min := MinBalance(parse, minBalanceFilter);
    min.None? || ParseBalance(parse, acc.balance) >= min.value
  }

  function Passes(parse: string -> Option<real>, filters: Filters): Account -> bool {
    acc =>
      MatchesSearch(acc, filters.searchQuery) && MatchesStatus(acc, filters.statusFilter)
      && MatchesAssigned(acc, filters.assignedFilter) && MatchesMinBalance(parse, acc, filters.minBalanceFilter)
  }

  /** `filteredAccounts` */
  function FilteredAccounts(parse: string -> Option<real>, accounts: seq<Account>, filters: Filters): (r: seq<Account>)
    ensures |r| <= |accounts|
  {
    Filter(accounts, Passes(parse, filters))
  }

  /** The filtered list keeps, in their order, exactly the accounts that pass
      all four filters. */
  lemma FilteredAccountsExact(parse: string -> Option<real>, accounts: seq<Account>, filters: Filters)
    ensures forall acc :: acc in FilteredAccounts(parse, accounts, filters) <==>
      acc in accounts
      && (Contains(ToLower(acc.accountName), ToLower(filters.searchQuery))
          || Contains(ToLower(acc.accountId), ToLower(filters.searchQuery)))
      && (filters.statusFilter == "all" || acc.status == filters.statusFilter)
      && (filters.assignedFilter == "all"
          || (filters.assignedFilter == "assigned" && acc.assignedCampaignsCount > 0)
          || (filters.assignedFilter == "unassigned" && acc.assignedCampaignsCount == 0))
      && MatchesMinBalance(parse, acc, filters.minBalanceFilter)
    ensures IsSubseq(FilteredAccounts(parse, accounts, filters), accounts)
  {
    FilterSound(accounts, Passes(parse, filters));
    FilterComplete(accounts, Passes(parse, filters));
    FilterIsSubseq(accounts, Passes(parse, filters));
  }

  /** The minimum balance filter: an empty or unreadable minimum lets every
      account through; otherwise the balance, read as 0 when unreadable, must reach it. */
  lemma MinBalanceRule(parse: string -> Option<real>, acc: Account, minBalanceFilter: string)
    ensures minBalanceFilter == "" ==> MatchesMinBalance(parse, acc, minBalanceFilter)
    ensures parse(minBalanceFilter).None? ==> MatchesMinBalance(parse, acc, minBalanceFilter)
    ensures minBalanceFilter != "" && parse(minBalanceFilter).Some? ==>
      (MatchesMinBalance(parse, acc, minBalanceFilter) <==>
        (if parse(acc.balance).Some? then parse(acc.balance).value else 0.0) >= parse(minBalanceFilter).value)
  {
  }

  /** The filters the page opens with keep every account. */
  lemma NoFiltersKeepAll(parse: string -> Option<real>, accounts: seq<Account>)
    ensures FilteredAccounts(parse, accounts, NoFilters) == accounts
  {
    forall acc: Account ensures Passes(parse, NoFilters)(acc) {
      ContainsEmpty(ToLower(acc.accountName));
    }
    KeepAll(accounts, Passes(parse, NoFilters));
  }

  lemma {:induction false} KeepAll<T>(s: seq<T>, p: T -> bool)
    requires forall x :: p(x)
    ensures Filter(s, p) == s
  {
    if s != [] {
      KeepAll(s[1..], p);
    }
  }

  /** "Assigned" and "unassigned" split the accounts with a count that is not negative. */
  lemma AssignedSplit(acc: Account)
    requires acc.assignedCampaignsCount >= 0
    ensures MatchesAssigned(acc, "assigned") != MatchesAssigned(acc, "unassigned")
  {
  }

  // ---------------------------------------------------------------------------
  // CSV export

  const CsvHeader: seq<string> := ["DB ID", "Account ID", "Account Name", "Balance", "Currency", "Status",
                                   "Assigned Campaigns", "Updated At"]

  function CampaignNames(cs: seq<AssignedCampaign>): (r: seq<string>)
    ensures |r| == |cs|
  {
    seq(|cs|, i requires 0 <= i < |cs| => cs[i].name)
  }

  /** The row of one account, its fields as they are, no quoting. */
  function CsvRow(acc: Account): (row: seq<string>)
    ensures |row| == |CsvHeader|
  {
    [IntToString(acc.id), acc.accountId, acc.accountName, acc.balance, acc.currency, acc.status,
     Join(CampaignNames(acc.assignedCampaigns), "; "), acc.updatedAt]
  }

  /** The header and one row per account that passes the filters. */
  function CsvRows(filtered: seq<Account>): (rows: seq<seq<string>>)
    ensures |rows| == |filtered| + 1 && rows[0] == CsvHeader
    ensures forall i :: 0 <= i < |filtered| ==> rows[i + 1] == CsvRow(filtered[i])
  {
    [CsvHeader] + seq(|filtered|, i requires 0 <= i < |filtered| => CsvRow(filtered[i]))
  }

  function JoinRows(rows: seq<seq<string>>): (lines: seq<string>)
    ensures |lines| == |rows|
  {
    seq(|rows|, i requires 0 <= i < |rows| => Join(rows[i], ","))
  }

  /** `handleExport`'s file text: fields joined by commas, rows by line breaks. */
  function CsvContent(filtered: seq<Account>): string {
    Join(JoinRows(CsvRows(filtered)), "\n")
  }

  /** The file opens with the header line, which is all of it when no account is listed. */
  lemma CsvHeaderFirst(filtered: seq<Account>)
    ensures StartsWith(CsvContent(filtered), Join(CsvHeader, ","))
    ensures filtered == [] ==> CsvContent(filtered) == Join(CsvHeader, ",")
  {
    var lines := JoinRows(CsvRows(filtered));
    assert lines[0] == Join(CsvHeader, ",");
    JoinFirst(lines, "\n");
  }

  /** A field the export can carry: without the separators, since it quotes nothing. */
  predicate PlainField(f: string) {
    ',' !in f && '\n' !in f
  }

  /** An account whose fields carry no comma and no line break. */
  predicate PlainAccount(acc: Account) {
    forall k :: 0 <= k < |CsvRow(acc)| ==> PlainField(CsvRow(acc)[k])
  }

  lemma {:induction false} JoinKeepsOut(parts: seq<string>, sep: string, c: char)
    requires c !in sep
    requires forall i :: 0 <= i < |parts| ==> c !in parts[i]
    ensures c !in Join(parts, sep)
  {
    if |parts| > 1 {
      JoinKeepsOut(parts[1..], sep, c);
    }
  }

  /** When no field holds a comma or a line break, splitting the file on line
      breaks and each line on commas gives back the header and the rows. */
  lemma CsvReadsBack(filtered: seq<Account>)
    requires forall i :: 0 <= i < |filtered| ==> PlainAccount(filtered[i])
    ensures var lines := Split(CsvContent(filtered), '\n');
      |lines| == |filtered| + 1
      && (forall i :: 0 <= i < |lines| ==> Split(lines[i], ',') == CsvRows(filtered)[i])
  {
    var rows := CsvRows(filtered);
    var lines := JoinRows(rows);
    forall i | 0 <= i < |rows|
      ensures forall k :: 0 <= k < |rows[i]| ==> PlainField(rows[i][k])
    {
      if i > 0 {
        assert rows[i] == CsvRow(filtered[i - 1]);
      }
    }
    forall i | 0 <= i < |lines| ensures '\n' !in lines[i] && Split(lines[i], ',') == rows[i] {
      JoinKeepsOut(rows[i], ",", '\n');
      SplitJoin(rows[i], ',');
    }
    SplitJoin(lines, '\n');
  }

  /** A field made of `a`, the separator and `b` joins to the same text as
      the two fields `a` and `b`. */
  lemma {:induction false} JoinSplitsField(pre: seq<string>, a: string, b: string, post: seq<string>, sep: string)
    ensures Join(pre + [a + sep + b] + post, sep) == Join(pre + [a, b] + post, sep)
  {
    if pre == [] {
      assert [a + sep + b] + post == [a + sep + b] + post;
      if post != [] {
        assert ([a + sep + b] + post)[1..] == post;
        assert ([a, b] + post)[1..] == [b] + post;
        assert ([b] + post)[1..] == post;
      }
    } else {
      JoinSplitsField(pre[1..], a, b, post, sep);
      assert (pre + [a + sep + b] + post)[1..] == pre[1..] + [a + sep + b] + post;
      assert (pre + [a, b] + post)[1..] == pre[1..] + [a, b] + post;
    }
  }

  /** Without quoting, a comma inside a field adds a column: an account named
      "Acme, Inc" exports a row that reads back with nine columns. */
  lemma CommaInNameShiftsColumns(acc: Account)
    requires acc.accountName == "Acme, Inc"
    requires PlainField(acc.accountId) && PlainField(acc.balance) && PlainField(acc.currency)
    requires PlainField(acc.status) && PlainField(acc.updatedAt)
    requires PlainField(Join(CampaignNames(acc.assignedCampaigns), "; "))
    ensures |Split(Join(CsvRow(acc), ","), ',')| == |CsvHeader| + 1
  {
    var row := CsvRow(acc);
    var split := row[..2] + ["Acme", " Inc"] + row[3..];
    assert ',' !in IntToString(acc.id);
    assert "Acme" + "," + " Inc" == "Acme, Inc";
    assert row == row[..2] + [row[2]] + row[3..];
    JoinSplitsField(row[..2], "Acme", " Inc", row[3..], ",");
    forall i | 0 <= i < |split| ensures ',' !in split[i] {
      if i < 2 {
        assert split[i] == row[i];
      } else if i > 3 {
        assert split[i] == row[i - 1];
      }
    }
    SplitJoin(split, ',');
  }

  // ---------------------------------------------------------------------------
  // Create and edit

  datatype CreateRequest = CreateRequest(accountId: string, accountName: string, balance: real,
                                         currency: string, status: string)
  /** An update of the account with database id `id`; it sends no balance
      (`undefined`) when the balance box is unreadable. */
  datatype UpdateRequest = UpdateRequest(id: int, accountId: string, accountName: string, balance: Option<real>,
                                         currency: string, status: string)

  /** The create/edit form and the account it is about. */
  class AccountForm {
    var formAccountId: string
    var formAccountName: string
    var formBalance: string
    var formCurrency: string
    var formStatus: string
    var selectedAccount: Option<Account>

    predicate IsReset()
      reads this
    {
      formAccountId == "" && formAccountName == "" && formBalance == ""
      && formCurrency == "ETB" && formStatus == "active"
    }

    constructor ()
      ensures IsReset() && selectedAccount.None?
    {
      formAccountId, formAccountName, formBalance := "", "", "";
      formCurrency, formStatus := "ETB", "active";
      selectedAccount := None;
    }

    /** `resetForm` */
    method ResetForm()
      modifies this
      ensures IsReset() && selectedAccount == old(selectedAccount)
    {
      formAccountId, formAccountName, formBalance := "", "", "";
      formCurrency, formStatus := "ETB", "active";
    }

    /** `openEditModal(account)`; `show` is `String` on a number. */
    method OpenEditModal(parse: string -> Option<real>, show: real -> string, account: Account)
      modifies this
      ensures selectedAccount == Some(account)
      ensures formAccountId == account.accountId && formAccountName == account.accountName
      ensures formBalance == show(ParseBalance(parse, account.balance))
      ensures formCurrency == account.currency && formStatus == account.status
    {
      selectedAccount := Some(account);
      formAccountId := account.accountId;
      formAccountName := account.accountName;
      formBalance := show(ParseBalance(parse, account.balance));
      formCurrency := account.currency;
      formStatus := account.status;
    }

    /** `handleCreate`: no request without an account id, a name and a
        readable balance; after a request the form is reset. */
    method HandleCreate(parse: string -> Option<real>) returns (request: Option<CreateRequest>)
      modifies this
      ensures request.Some? <==>
        old(formAccountId) != "" && old(formAccountName) != "" && parse(old(formBalance)).Some?
      ensures request.Some? ==>
        request.value == CreateRequest(old(formAccountId), old(formAccountName), parse(old(formBalance)).value,
                                       old(formCurrency), old(formStatus))
        && IsReset()
      ensures request.None? ==> unchanged(this)
      ensures selectedAccount == old(selectedAccount)
    {
      var balanceNum := parse(formBalance);
      if formAccountId == "" || formAccountName == "" || balanceNum.None? {
        return None;
      }
      request := Some(CreateRequest(formAccountId, formAccountName, balanceNum.value, formCurrency, formStatus));
      ResetForm();
    }

    /** `handleEdit`: nothing without a selected account; otherwise the form
        is sent as it is to the selected account (the id `useUpdateRewardAccount`
        was given), and the selection and form are cleared. */
    method HandleEdit(parse: string -> Option<real>) returns (request: Option<UpdateRequest>)
      modifies this
      ensures request.Some? <==> old(selectedAccount).Some?
      ensures request.Some? ==>
        request.value == UpdateRequest(old(selectedAccount).value.id, old(formAccountId), old(formAccountName),
                                       parse(old(formBalance)), old(formCurrency), old(formStatus))
        && IsReset() && selectedAccount.None?
      ensures request.None? ==> unchanged(this)
    {
      if selectedAccount.None? {
        return None;
      }
      request := Some(UpdateRequest(selectedAccount.value.id, formAccountId, formAccountName, parse(formBalance),
                                    formCurrency, formStatus));
      selectedAccount := None;
      ResetForm();
    }

    /** `handleDelete`: returns the database id sent to the delete call. */
    method HandleDelete() returns (deleted: Option<int>)
      modifies this
      ensures deleted == if old(selectedAccount).Some? then Some(old(selectedAccount).value.id) else None
      ensures selectedAccount.None?
      ensures formAccountId == old(formAccountId) && formAccountName == old(formAccountName)
      ensures formBalance == old(formBalance) && formCurrency == old(formCurrency) && formStatus == old(formStatus)
    {
      if selectedAccount.None? {
        return None;
      }
      deleted := Some(selectedAccount.value.id);
      selectedAccount := None;
    }
  }
}
