/**
 * The data layer of internal/db/person.go. Running a statement is the
 * driver's business; what the driver answered is a parameter (an outcome),
 * and what is modelled is what the layer does before and after: the id it
 * assigns, the query text and arguments it builds, and how it maps the
 * driver's answers to errors.
 */
module Db {

  import opened Wrappers
  import opened Model
  import opened NamedQuery

  /** Errors reported by the driver. `NoRows`: a single-row query found no row. */
  datatype DriverError = NoRows | Failed(message: string)

  /** Errors the data layer returns: its own `ErrNotFound`, or a driver error passed on. */
  datatype DbError = ErrNotFound | Driver(cause: DriverError)

  // ---------------------------------------------------------------- create

  /** The driver's answer to the INSERT ... RETURNING created_at, updated_at statement. */
  datatype InsertOutcome =
    | InsertFailed(e: DriverError)
    | InsertNoRow
    | InsertRow(createdAt: Time, updatedAt: Time)
    | InsertScanFailed(e: DriverError)

  /**
   * `CreatePerson`: overwrites the person's id with the fresh one, whatever
   * id it had, sends the person with that id, and on a returned row sets the
   * two timestamps the database assigned. `sent` is the row the INSERT binds.
   */
  method CreatePerson(person: Person, freshId: Uuid, outcome: InsertOutcome) returns (err: Option<DbError>, sent: PersonRecord)
    modifies person
    ensures sent == old(person.Snapshot()).(id := freshId)
    ensures person.Snapshot() == if outcome.InsertRow? then sent.(createdAt := outcome.createdAt, updatedAt := outcome.updatedAt) else sent
    ensures err == match outcome
                   case InsertFailed(e) => Some(Driver(e))
                   case InsertScanFailed(e) => Some(Driver(e))
                   case _ => None
  {
    person.id := freshId;
    sent := person.Snapshot();
    err := None;
    match outcome
    case InsertFailed(e) =>
      err := Some(Driver(e));
    case InsertNoRow =>
    case InsertRow(created, updated) =>
      person.createdAt, person.updatedAt := created, updated;
    case InsertScanFailed(e) =>
      err := Some(Driver(e));
  }

  // ---------------------------------------------------------------- get

  /** The driver's answer to SELECT * FROM persons WHERE id=$1. */
  datatype FetchOutcome = Fetched(row: PersonRecord) | FetchFailed(e: DriverError)

  /**
   * `GetPerson`: the row, or the driver's error. The check for `ErrNotFound`
   * never succeeds, because the driver never returns the layer's own error
   * value: a missing row comes back as the driver's `NoRows`, never as
   * `ErrNotFound`.
   */
  function GetPerson(outcome: FetchOutcome): (r: Result<PersonRecord, DbError>)
    ensures r.Success? <==> outcome.Fetched?
    ensures r.Success? ==> r.value == outcome.row
    ensures r.Failure? ==> r.error == Driver(outcome.e)
    ensures r != Failure(ErrNotFound)
  {
    match outcome
    case Fetched(row) => Success(row)
    case FetchFailed(e) => if Driver(e) == ErrNotFound then Failure(ErrNotFound) else Failure(Driver(e))
  }

  // ---------------------------------------------------------------- update

  /** The driver's answer to the UPDATE ... RETURNING updated_at statement. */
  datatype UpdateOutcome =
    | UpdateFailed(e: DriverError)
    | UpdateNoRow
    | UpdateRow(updatedAt: Time)
    | UpdateScanFailed(e: DriverError)

  /**
   * `UpdatePerson`: sends the person as it is and, on a returned row, sets
   * its update time. No returned row (no person with that id) is not an error.
   */
  method UpdatePerson(person: Person, outcome: UpdateOutcome) returns (err: Option<DbError>, sent: PersonRecord)
    modifies person
    ensures sent == old(person.Snapshot())
    ensures person.Snapshot() == if outcome.UpdateRow? then sent.(updatedAt := outcome.updatedAt) else sent
    ensures err == match outcome
                   case UpdateFailed(e) => Some(Driver(e))
                   case UpdateScanFailed(e) => Some(Driver(e))
                   case _ => None
  {
    sent := person.Snapshot();
    err := None;
    match outcome
    case UpdateFailed(e) =>
      err := Some(Driver(e));
    case UpdateNoRow =>
    case UpdateRow(updated) =>
      person.updatedAt := updated;
    case UpdateScanFailed(e) =>
      err := Some(Driver(e));
  }

  // ---------------------------------------------------------------- delete

  /**
   * The driver's answer to DELETE FROM persons WHERE id=$1. The error of
   * `RowsAffected` is discarded by the layer, so only the count it gave matters.
   */
  datatype ExecOutcome = ExecFailed(e: DriverError) | Executed(rowsAffected: int)

  /**
   * `DeletePerson`: an execution error is passed on; otherwise `ErrNotFound`
   * exactly when no row was affected, and success for any other count.
   */
  function DeletePerson(outcome: ExecOutcome): (err: Option<DbError>)
    ensures err.None? <==> outcome.Executed? && outcome.rowsAffected != 0
    ensures err == Some(ErrNotFound) <==> outcome.Executed? && outcome.rowsAffected == 0
    ensures outcome.ExecFailed? ==> err == Some(Driver(outcome.e))
  {
    match outcome
    case ExecFailed(e) => Some(Driver(e))
    case Executed(rows) => if rows == 0 then Some(ErrNotFound) else None
  }

  // ---------------------------------------------------------------- list

  /** A named argument: the filter values are strings, limit and offset integers. */
  datatype Arg = Text(text: string) | Int(n: int)

  /**
   * One optional condition of the list query: when `key` is in the filter,
   * `cond` followed by the placeholder `:key` is appended and `key` is bound
   * to the filter value, wrapped in `%` on both sides when `pattern` (an
   * ILIKE pattern).
   */
  datatype FilterClause = FilterClause(key: string, cond: string, pattern: bool)

  const SelectAll: string := "SELECT * FROM persons WHERE 1=1"
  const OrderByNewest: string := " ORDER BY created_at DESC"
  const Page: string := " LIMIT :limit OFFSET :offset"
  /** The fixed tail of the list query: newest first, then one page. */
  const OrderAndPage: string := OrderByNewest + Page

  /** The conditions, in the order they are tried. */
  const ListFilters: seq<FilterClause> := [
    FilterClause("name", " AND name ILIKE ", true),
    FilterClause("surname", " AND surname ILIKE ", true),
    FilterClause("gender", " AND gender = ", false),
    FilterClause("nationality", " AND nationality = ", false),
    FilterClause("age_min", " AND age >= ", false),
    FilterClause("age_max", " AND age <= ", false)
  ]

  const FilterKeys: set<string> := {"name", "surname", "gender", "nationality", "age_min", "age_max"}

  function ClauseText(c: FilterClause): string {
    c.cond + ":" + c.key
  }

  /** What one condition contributes to the query text. */
  function Clause(filter: map<string, string>, c: FilterClause): string {
    if c.key in filter then ClauseText(c) else ""
  }

  function ClauseArg(c: FilterClause, v: string): Arg {
    if c.pattern then Text("%" + v + "%") else Text(v)
  }

  /** The text of the conditions of `table` whose keys `filter` has, appended in table order. */
  function Clauses(filter: map<string, string>, table: seq<FilterClause>): string
    decreases |table|
  {
    if table == [] then ""
    else Clauses(filter, table[..|table| - 1]) + Clause(filter, table[|table| - 1])
  }

  /** The arguments bound by the conditions of `table` whose keys `filter` has, added in table order. */
  function ClauseArgs(filter: map<string, string>, table: seq<FilterClause>): map<string, Arg>
    decreases |table|
  {
    if table == [] then map[]
    else
      var before, c := ClauseArgs(filter, table[..|table| - 1]), table[|table| - 1];
      if c.key in filter then before[c.key := ClauseArg(c, filter[c.key])] else before
  }

  /** The list query for a filter: fixed head, the filter's conditions, fixed ordering and paging. */
  function ListSql(filter: map<string, string>): string {
    SelectAll + Clauses(filter, ListFilters) + OrderAndPage
  }

  /** The arguments of the list query: the filter's conditions' and always limit and offset. */
  function ListArgs(filter: map<string, string>, limit: int, offset: int): map<string, Arg> {
    ClauseArgs(filter, ListFilters)["limit" := Int(limit)]["offset" := Int(offset)]
  }

  /** The keys a table of conditions can bind. */
  function TableKeys(table: seq<FilterClause>): set<string> {
    set c | c in table :: c.key
  }

  ghost predicate UniqueKeys(table: seq<FilterClause>) {
    forall i, j :: 0 <= i < j < |table| ==> table[i].key != table[j].key
  }

  /**
   * A condition that starts with a blank and ends in the placeholder of its
   * well-formed key, with no other colon.
   */
  ghost predicate WellFormedClause(c: FilterClause) {
    IsName(c.key) && |c.cond| > 0 && c.cond[0] == ' ' && ':' !in c.cond
  }

  /** No two conditions of the list query bind the same key, and together they bind exactly `FilterKeys`. */
  lemma ListFiltersUnique()
    ensures UniqueKeys(ListFilters)
    ensures TableKeys(ListFilters) == FilterKeys
  {
    var keys := [ListFilters[0].key, ListFilters[1].key, ListFilters[2].key,
                 ListFilters[3].key, ListFilters[4].key, ListFilters[5].key];
    ListFiltersKeys();
    assert forall i :: 0 <= i < |ListFilters| ==> ListFilters[i].key == keys[i];
    assert TableKeys(ListFilters) == set i | 0 <= i < 6 :: keys[i] by {
      forall c | c in ListFilters ensures c.key in set i | 0 <= i < 6 :: keys[i] {
        var i :| 0 <= i < |ListFilters| && ListFilters[i] == c;
      }
    }
  }

  /** The keys of the list query's conditions, in order. */
  lemma ListFiltersKeys()
    ensures |ListFilters| == 6
    ensures ListFilters[0].key == "name" && ListFilters[1].key == "surname" && ListFilters[2].key == "gender"
    ensures ListFilters[3].key == "nationality" && ListFilters[4].key == "age_min" && ListFilters[5].key == "age_max"
  {
  }

  lemma ListFiltersWellFormed()
    ensures forall i :: 0 <= i < |ListFilters| ==> WellFormedClause(ListFilters[i])
  {
    NameClauseWellFormed();
    SurnameClauseWellFormed();
    GenderClauseWellFormed();
    NationalityClauseWellFormed();
    AgeMinClauseWellFormed();
    AgeMaxClauseWellFormed();
  }

  lemma NameClauseWellFormed()
    ensures WellFormedClause(ListFilters[0])
  {
  }

  lemma SurnameClauseWellFormed()
    ensures WellFormedClause(ListFilters[1])
  {
  }

  lemma GenderClauseWellFormed()
    ensures WellFormedClause(ListFilters[2])
  {
  }

  lemma NationalityClauseWellFormed()
    ensures WellFormedClause(ListFilters[3])
  {
  }

  lemma AgeMinClauseWellFormed()
    ensures WellFormedClause(ListFilters[4])
  {
  }

  lemma AgeMaxClauseWellFormed()
    ensures WellFormedClause(ListFilters[5])
  {
  }

  /** The last step of both folds. */
  lemma ClausesSnoc(filter: map<string, string>, table: seq<FilterClause>, k: nat)
    requires k < |table|
    ensures Clauses(filter, table[..k + 1]) == Clauses(filter, table[..k]) + Clause(filter, table[k])
    ensures ClauseArgs(filter, table[..k + 1]) ==
              var before := ClauseArgs(filter, table[..k]);
              if table[k].key in filter then before[table[k].key := ClauseArg(table[k], filter[table[k].key])] else before
  {
    assert table[..k + 1][..k] == table[..k];
    assert table[..k + 1][k] == table[k];
  }

  /**
   * The arguments of a table's conditions: one for each table key the filter
   * has and no other, each the filter's value (wrapped for a pattern).
   */
  lemma {:induction false} ClauseArgsMeaning(filter: map<string, string>, table: seq<FilterClause>)
    requires UniqueKeys(table)
    ensures ClauseArgs(filter, table).Keys == filter.Keys * TableKeys(table)
    ensures forall i :: 0 <= i < |table| && table[i].key in filter ==>
              ClauseArgs(filter, table)[table[i].key] == ClauseArg(table[i], filter[table[i].key])
    decreases |table|
  {
    if table != [] {
      var front, c := table[..|table| - 1], table[|table| - 1];
      ClauseArgsMeaning(filter, front);
      TableKeysSnoc(table);
      forall i | 0 <= i < |table| && table[i].key in filter
        ensures ClauseArgs(filter, table)[table[i].key] == ClauseArg(table[i], filter[table[i].key])
      {
        if i < |table| - 1 {
          assert table[i] == front[i];
          assert table[i].key != c.key;
        }
      }
    }
  }

  /** The placeholders of a well-formed condition's text are its key. */
  lemma ParamsOfClause(c: FilterClause)
    requires WellFormedClause(c)
    ensures Params(ClauseText(c)) == {c.key}
  {
    ParamsOfCondition(c.cond, c.key);
  }

  /** The keys of a nonempty table: those of all but its last condition, and the last one's. */
  lemma TableKeysSnoc(table: seq<FilterClause>)
    requires table != []
    ensures TableKeys(table) == TableKeys(table[..|table| - 1]) + {table[|table| - 1].key}
  {
    var front, c := table[..|table| - 1], table[|table| - 1];
    assert forall d :: d in table <==> d in front || d == c;
  }

  /** Text that is empty, or starts with a blank and ends in a name character: no parameter straddles its ends. */
  ghost predicate Sealed(q: string) {
    q == [] || (q[0] == ' ' && IsNameChar(q[|q| - 1]))
  }

  /** Appending a well-formed condition to sealed text adds its key and keeps the text sealed. */
  lemma ParamsAppendClause(before: string, c: FilterClause)
    requires Sealed(before) && WellFormedClause(c)
    ensures Params(before + ClauseText(c)) == Params(before) + {c.key}
    ensures Sealed(before + ClauseText(c))
  {
    var t := ClauseText(c);
    ParamsOfClause(c);
    assert t[|t| - 1] == c.key[|c.key| - 1];
    assert t[0] == c.cond[0];
    ParamsConcat(before, t);
    var q := before + t;
    assert q[|q| - 1] == t[|t| - 1];
    assert q[0] == if before == [] then t[0] else before[0];
  }

  /**
   * The placeholders of a table's conditions are exactly the table keys the
   * filter has; the text is empty or starts with a blank and ends in a name character.
   */
  lemma {:induction false} ClausesParams(filter: map<string, string>, table: seq<FilterClause>)
    requires forall i :: 0 <= i < |table| ==> WellFormedClause(table[i])
    ensures Params(Clauses(filter, table)) == filter.Keys * TableKeys(table)
    ensures Sealed(Clauses(filter, table))
    decreases |table|
  {
    if table != [] {
      var front, c := table[..|table| - 1], table[|table| - 1];
      assert forall i :: 0 <= i < |front| ==> front[i] == table[i];
      ClausesParams(filter, front);
      TableKeysSnoc(table);
      assert WellFormedClause(c);
      if c.key in filter {
        ParamsAppendClause(Clauses(filter, front), c);
      } else {
        assert Clauses(filter, table) == Clauses(filter, front) + "" == Clauses(filter, front);
        assert filter.Keys * TableKeys(table) == filter.Keys * TableKeys(front);
      }
    }
  }

  /** Two conditions in a row name their two keys. */
  lemma ParamsOfTwoConditions(cond1: string, key1: string, cond2: string, key2: string)
    requires ':' !in cond1 && IsName(key1)
    requires ':' !in cond2 && IsName(key2) && |cond2| > 0 && cond2[0] == ' '
    ensures Params(cond1 + ":" + key1 + (cond2 + ":" + key2)) == {key1, key2}
  {
    var first, second := cond1 + ":" + key1, cond2 + ":" + key2;
    ParamsOfCondition(cond1, key1);
    ParamsOfCondition(cond2, key2);
    assert first[|first| - 1] == key1[|key1| - 1];
    assert second[0] == ' ';
    ParamsConcat(first, second);
  }

  /** The head of the list query names no parameter. */
  lemma SelectAllParams()
    ensures Params(SelectAll) == {}
  {
    ParamsNoColon(SelectAll);
  }

  /** The ordering names no parameter. */
  lemma OrderByNewestParams()
    ensures Params(OrderByNewest) == {}
    ensures OrderByNewest[|OrderByNewest| - 1] == 'C'
  {
    ParamsNoColon(OrderByNewest);
  }

  /** The paging names limit and offset. */
  lemma PageParams()
    ensures Params(Page) == {"limit", "offset"}
    ensures Page[0] == ' '
  {
    assert IsName("limit") && IsName("offset");
    assert Page == " LIMIT " + ":" + "limit" + (" OFFSET " + ":" + "offset");
    ParamsOfTwoConditions(" LIMIT ", "limit", " OFFSET ", "offset");
  }

  /** The tail of the list query names limit and offset. */
  lemma OrderAndPageParams()
    ensures Params(OrderAndPage) == {"limit", "offset"}
  {
    OrderByNewestParams();
    PageParams();
    ParamsConcat(OrderByNewest, Page);
  }

  /**
   * Placeholders of a query made of a head naming none, conditions, and a
   * tail: a parameter never straddles the seams.
   */
  lemma ParamsOfQuery(head: string, conds: string, tail: string)
    requires head != [] && head[|head| - 1] != ':' && Params(head) == {}
    requires Sealed(conds)
    requires tail != [] && tail[0] == ' '
    ensures Params(head + conds + tail) == Params(conds) + Params(tail)
  {
    ParamsConcat(head, conds);
    var front := head + conds;
    assert front[|front| - 1] != ':' by {
      if conds != [] { assert front[|front| - 1] == conds[|conds| - 1]; }
    }
    ParamsConcat(front, tail);
  }

  /** The head of the list query ends in `1`, its tail starts with a blank. */
  lemma ListSqlEdges()
    ensures SelectAll != [] && SelectAll[|SelectAll| - 1] == '1'
    ensures OrderAndPage != [] && OrderAndPage[0] == ' '
  {
    var head := "SELECT * FROM persons WHERE 1=";
    assert SelectAll == head + "1";
    assert (head + "1")[|head|] == '1';
    assert OrderAndPage[0] == OrderByNewest[0] == ' ';
  }

  /** The fixed head and tail of the list query add limit and offset to the conditions' placeholders. */
  lemma ListSqlSeams(conds: string)
    requires Sealed(conds)
    ensures Params(SelectAll + conds + OrderAndPage) == Params(conds) + {"limit", "offset"}
  {
    SelectAllParams();
    ListSqlEdges();
    ParamsOfQuery(SelectAll, conds, OrderAndPage);
    var tail := Params(OrderAndPage);
    assert tail == {"limit", "offset"} by {
      OrderAndPageParams();
    }
  }

  /** The conditions of the list query name exactly the keys they bind. */
  lemma ListClausesParams(filter: map<string, string>)
    ensures Params(Clauses(filter, ListFilters)) == ClauseArgs(filter, ListFilters).Keys
    ensures Sealed(Clauses(filter, ListFilters))
  {
    ListFiltersUnique();
    ListFiltersWellFormed();
    ClausesParams(filter, ListFilters);
    ClauseArgsMeaning(filter, ListFilters);
  }

  /**
   * Every `:name` placeholder of the list query has an argument, and every
   * argument has a placeholder: sqlx can bind the query, whatever the filter.
   */
  lemma ListParamsMatchArgs(filter: map<string, string>, limit: int, offset: int)
    ensures Params(ListSql(filter)) == ListArgs(filter, limit, offset).Keys
  {
    var c := Clauses(filter, ListFilters);
    ListClausesParams(filter);
    ListSqlSeams(c);
  }

  /** The list query binds limit, offset and the six filter keys the filter has, and nothing else. */
  lemma ListArgsKeys(filter: map<string, string>, limit: int, offset: int)
    ensures ListArgs(filter, limit, offset).Keys == (filter.Keys * FilterKeys) + {"limit", "offset"}
    ensures ListArgs(filter, limit, offset)["limit"] == Int(limit)
    ensures ListArgs(filter, limit, offset)["offset"] == Int(offset)
  {
    ListFiltersUnique();
    ClauseArgsMeaning(filter, ListFilters);
  }

  /** The key of each condition of the list query is one of the six filter keys. */
  lemma ListFilterKey(i: nat)
    requires i < |ListFilters|
    ensures ListFilters[i].key in FilterKeys
    ensures ListFilters[i].key != "limit" && ListFilters[i].key != "offset"
  {
    ListFiltersKeys();
  }

  /** A key no condition of the table reads changes neither the conditions' text nor their arguments. */
  lemma {:induction false} ClausesIgnoreForeign(filter: map<string, string>, table: seq<FilterClause>, key: string)
    requires key !in TableKeys(table)
    ensures Clauses(filter - {key}, table) == Clauses(filter, table)
    ensures ClauseArgs(filter - {key}, table) == ClauseArgs(filter, table)
    decreases |table|
  {
    if table != [] {
      var front, c := table[..|table| - 1], table[|table| - 1];
      assert c in table;
      assert TableKeys(front) <= TableKeys(table) by {
        forall d | d in front ensures d in table {
          assert front == table[..|table| - 1];
        }
      }
      ClausesIgnoreForeign(filter, front, key);
    }
  }

  /**
   * Filter entries under any key other than the six (such as `surnamename`)
   * add no condition and no argument to the list query.
   */
  lemma ListIgnoresForeign(filter: map<string, string>, key: string, limit: int, offset: int)
    requires key !in FilterKeys
    ensures ListSql(filter - {key}) == ListSql(filter)
    ensures ListArgs(filter - {key}, limit, offset) == ListArgs(filter, limit, offset)
  {
    ListFiltersUnique();
    ClausesIgnoreForeign(filter, ListFilters, key);
  }

  /** The argument the conditions of the list query bind for the key of the `i`-th condition. */
  lemma ListClauseArgAt(filter: map<string, string>, i: nat)
    requires i < |ListFilters| && ListFilters[i].key in filter
    ensures var key := ListFilters[i].key;
      key in ClauseArgs(filter, ListFilters) && ClauseArgs(filter, ListFilters)[key] == ClauseArg(ListFilters[i], filter[key])
  {
    ListFiltersUnique();
    ClauseArgsMeaning(filter, ListFilters);
    ListFilterKey(i);
  }

  /** The argument the list query binds for the key of the `i`-th condition. */
  lemma ListArgAt(filter: map<string, string>, limit: int, offset: int, i: nat)
    requires i < |ListFilters| && ListFilters[i].key in filter
    ensures var key := ListFilters[i].key;
      key in ListArgs(filter, limit, offset) && ListArgs(filter, limit, offset)[key] == ClauseArg(ListFilters[i], filter[key])
  {
    ListClauseArgAt(filter, i);
    ListFilterKey(i);
  }

  /**
   * The argument of each filter key the filter has: name and surname wrapped
   * in `%` on both sides, the others passed through as given.
   */
  lemma ListArgsValues(filter: map<string, string>, limit: int, offset: int)
    ensures var args := ListArgs(filter, limit, offset);
      && ("name" in filter ==> "name" in args && args["name"] == Text("%" + filter["name"] + "%"))
      && ("surname" in filter ==> "surname" in args && args["surname"] == Text("%" + filter["surname"] + "%"))
      && ("gender" in filter ==> "gender" in args && args["gender"] == Text(filter["gender"]))
      && ("nationality" in filter ==> "nationality" in args && args["nationality"] == Text(filter["nationality"]))
      && ("age_min" in filter ==> "age_min" in args && args["age_min"] == Text(filter["age_min"]))
      && ("age_max" in filter ==> "age_max" in args && args["age_max"] == Text(filter["age_max"]))
  {
    if "name" in filter { ListArgAt(filter, limit, offset, 0); }
    if "surname" in filter { ListArgAt(filter, limit, offset, 1); }
    if "gender" in filter { ListArgAt(filter, limit, offset, 2); }
    if "nationality" in filter { ListArgAt(filter, limit, offset, 3); }
    if "age_min" in filter { ListArgAt(filter, limit, offset, 4); }
    if "age_max" in filter { ListArgAt(filter, limit, offset, 5); }
  }

  /**
   * One `if` of `ListPersons`: appending the `k`-th condition's text and
   * argument when the filter has its key extends the query and arguments of
   * the first `k` conditions to those of the first `k + 1`.
   */
  lemma ListStep(filter: map<string, string>, table: seq<FilterClause>, k: nat,
                  query: string, args: map<string, Arg>, query': string, args': map<string, Arg>)
    requires k < |table|
    requires query == SelectAll + Clauses(filter, table[..k]) && args == ClauseArgs(filter, table[..k])
    requires var c := table[k];
      if c.key in filter then query' == query + ClauseText(c) && args' == args[c.key := ClauseArg(c, filter[c.key])]
      else query' == query && args' == args
    ensures query' == SelectAll + Clauses(filter, table[..k + 1]) && args' == ClauseArgs(filter, table[..k + 1])
  {
    ClausesSnoc(filter, table, k);
  }

  /** `ListStep` for the condition at `k`, given its key, its text and whether it is a pattern. */
  lemma ListStepAt(filter: map<string, string>, k: nat, key: string, text: string, pattern: bool,
                    query: string, args: map<string, Arg>, query': string, args': map<string, Arg>)
    requires k < |ListFilters|
    requires ListFilters[k].key == key && ClauseText(ListFilters[k]) == text && ListFilters[k].pattern == pattern
    requires query == SelectAll + Clauses(filter, ListFilters[..k]) && args == ClauseArgs(filter, ListFilters[..k])
    requires if key in filter then
               query' == query + text &&
               args' == args[key := if pattern then Text("%" + filter[key] + "%") else Text(filter[key])]
             else query' == query && args' == args
    ensures query' == SelectAll + Clauses(filter, ListFilters[..k + 1]) && args' == ClauseArgs(filter, ListFilters[..k + 1])
  {
    ListStep(filter, ListFilters, k, query, args, query', args');
  }

  /** The first condition binds `name`. */
  lemma NameClause()
    ensures ListFilters[0].key == "name" && ClauseText(ListFilters[0]) == " AND name ILIKE :name" && ListFilters[0].pattern == true
  {
    assert ListFilters[0] == FilterClause("name", " AND name ILIKE ", true);
  }

  /** The `name` step of `ListPersons` as `ListStep` of the first condition. */
  lemma NameStep(filter: map<string, string>, query: string, args: map<string, Arg>, query': string, args': map<string, Arg>)
    requires query == SelectAll + Clauses(filter, ListFilters[..0]) && args == ClauseArgs(filter, ListFilters[..0])
    requires if "name" in filter then query' == query + " AND name ILIKE :name" && args' == args["name" := Text("%" + filter["name"] + "%")]
             else query' == query && args' == args
    ensures query' == SelectAll + Clauses(filter, ListFilters[..1]) && args' == ClauseArgs(filter, ListFilters[..1])
  {
    NameClause();
    ListStepAt(filter, 0, "name", " AND name ILIKE :name", true, query, args, query', args');
  }

  /** The second condition binds `surname`. */
  lemma SurnameClause()
    ensures ListFilters[1].key == "surname" && ClauseText(ListFilters[1]) == " AND surname ILIKE :surname" && ListFilters[1].pattern == true
  {
    assert ListFilters[1] == FilterClause("surname", " AND surname ILIKE ", true);
  }

  /** The `surname` step of `ListPersons` as `ListStep` of the second condition. */
  lemma SurnameStep(filter: map<string, string>, query: string, args: map<string, Arg>, query': string, args': map<string, Arg>)
    requires query == SelectAll + Clauses(filter, ListFilters[..1]) && args == ClauseArgs(filter, ListFilters[..1])
    requires if "surname" in filter then query' == query + " AND surname ILIKE :surname" && args' == args["surname" := Text("%" + filter["surname"] + "%")]
             else query' == query && args' == args
    ensures query' == SelectAll + Clauses(filter, ListFilters[..2]) && args' == ClauseArgs(filter, ListFilters[..2])
  {
    SurnameClause();
    ListStepAt(filter, 1, "surname", " AND surname ILIKE :surname", true, query, args, query', args');
  }

  /** The third condition binds `gender`. */
  lemma GenderClause()
    ensures ListFilters[2].key == "gender" && ClauseText(ListFilters[2]) == " AND gender = :gender" && ListFilters[2].pattern == false
  {
    assert ListFilters[2] == FilterClause("gender", " AND gender = ", false);
  }

  /** The `gender` step of `ListPersons` as `ListStep` of the third condition. */
  lemma GenderStep(filter: map<string, string>, query: string, args: map<string, Arg>, query': string, args': map<string, Arg>)
    requires query == SelectAll + Clauses(filter, ListFilters[..2]) && args == ClauseArgs(filter, ListFilters[..2])
    requires if "gender" in filter then query' == query + " AND gender = :gender" && args' == args["gender" := Text(filter["gender"])]
             else query' == query && args' == args
    ensures query' == SelectAll + Clauses(filter, ListFilters[..3]) && args' == ClauseArgs(filter, ListFilters[..3])
  {
    GenderClause();
    ListStepAt(filter, 2, "gender", " AND gender = :gender", false, query, args, query', args');
  }

  /** The fourth condition binds `nationality`. */
  lemma NationalityClause()
    ensures ListFilters[3].key == "nationality" && ClauseText(ListFilters[3]) == " AND nationality = :nationality" && ListFilters[3].pattern == false
  {
    assert ListFilters[3] == FilterClause("nationality", " AND nationality = ", false);
  }

  /** The `nationality` step of `ListPersons` as `ListStep` of the fourth condition. */
  lemma NationalityStep(filter: map<string, string>, query: string, args: map<string, Arg>, query': string, args': map<string, Arg>)
    requires query == SelectAll + Clauses(filter, ListFilters[..3]) && args == ClauseArgs(filter, ListFilters[..3])
    requires if "nationality" in filter then query' == query + " AND nationality = :nationality" && args' == args["nationality" := Text(filter["nationality"])]
             else query' == query && args' == args
    ensures query' == SelectAll + Clauses(filter, ListFilters[..4]) && args' == ClauseArgs(filter, ListFilters[..4])
  {
    NationalityClause();
    ListStepAt(filter, 3, "nationality", " AND nationality = :nationality", false, query, args, query', args');
  }

  /** The fifth condition binds `age_min`. */
  lemma AgeMinClause()
    ensures ListFilters[4].key == "age_min" && ClauseText(ListFilters[4]) == " AND age >= :age_min" && ListFilters[4].pattern == false
  {
    assert ListFilters[4] == FilterClause("age_min", " AND age >= ", false);
  }

  /** The `age_min` step of `ListPersons` as `ListStep` of the fifth condition. */
  lemma AgeMinStep(filter: map<string, string>, query: string, args: map<string, Arg>, query': string, args': map<string, Arg>)
    requires query == SelectAll + Clauses(filter, ListFilters[..4]) && args == ClauseArgs(filter, ListFilters[..4])
    requires if "age_min" in filter then query' == query + " AND age >= :age_min" && args' == args["age_min" := Text(filter["age_min"])]
             else query' == query && args' == args
    ensures query' == SelectAll + Clauses(filter, ListFilters[..5]) && args' == ClauseArgs(filter, ListFilters[..5])
  {
    AgeMinClause();
    ListStepAt(filter, 4, "age_min", " AND age >= :age_min", false, query, args, query', args');
  }

  /** The sixth condition binds `age_max`. */
  lemma AgeMaxClause()
    ensures ListFilters[5].key == "age_max" && ClauseText(ListFilters[5]) == " AND age <= :age_max" && ListFilters[5].pattern == false
  {
    assert ListFilters[5] == FilterClause("age_max", " AND age <= ", false);
  }

  /** The `age_max` step of `ListPersons` as `ListStep` of the sixth condition. */
  lemma AgeMaxStep(filter: map<string, string>, query: string, args: map<string, Arg>, query': string, args': map<string, Arg>)
    requires query == SelectAll + Clauses(filter, ListFilters[..5]) && args == ClauseArgs(filter, ListFilters[..5])
    requires if "age_max" in filter then query' == query + " AND age <= :age_max" && args' == args["age_max" := Text(filter["age_max"])]
             else query' == query && args' == args
    ensures query' == SelectAll + Clauses(filter, ListFilters[..6]) && args' == ClauseArgs(filter, ListFilters[..6])
  {
    AgeMaxClause();
    ListStepAt(filter, 5, "age_max", " AND age <= :age_max", false, query, args, query', args');
  }

  /** Once all six conditions are tried, the query lacks only ordering and paging. */
  lemma ListAfterFilters(filter: map<string, string>, query: string, args: map<string, Arg>)
    requires query == SelectAll + Clauses(filter, ListFilters[..6]) && args == ClauseArgs(filter, ListFilters[..6])
    ensures query + OrderAndPage == ListSql(filter)
    ensures forall limit: int, offset: int :: args["limit" := Int(limit)]["offset" := Int(offset)] == ListArgs(filter, limit, offset)
  {
    assert ListFilters[..6] == ListFilters;
  }

  /**
   * The query and arguments `ListPersons` builds before running them: the
   * text grown clause by clause, the argument map filled entry by entry.
   */
  method ListQuery(filter: map<string, string>, limit: int, offset: int) returns (query: string, args: map<string, Arg>)
    ensures query == ListSql(filter)
    ensures args == ListArgs(filter, limit, offset)
  {
    query := SelectAll;
    args := map[];
    assert ListFilters[..0] == [];
    ghost var q, a := query, args;
    if "name" in filter {
      query := query + " AND name ILIKE :name";
      args := args["name" := Text("%" + filter["name"] + "%")];
    }
    NameStep(filter, q, a, query, args);
    q, a := query, args;
    if "surname" in filter {
      query := query + " AND surname ILIKE :surname";
      args := args["surname" := Text("%" + filter["surname"] + "%")];
    }
    SurnameStep(filter, q, a, query, args);
    q, a := query, args;
    if "gender" in filter {
      query := query + " AND gender = :gender";
      args := args["gender" := Text(filter["gender"])];
    }
    GenderStep(filter, q, a, query, args);
    q, a := query, args;
    if "nationality" in filter {
      query := query + " AND nationality = :nationality";
      args := args["nationality" := Text(filter["nationality"])];
    }
    NationalityStep(filter, q, a, query, args);
    q, a := query, args;
    if "age_min" in filter {
      query := query + " AND age >= :age_min";
      args := args["age_min" := Text(filter["age_min"])];
    }
    AgeMinStep(filter, q, a, query, args);
    q, a := query, args;
    if "age_max" in filter {
      query := query + " AND age <= :age_max";
      args := args["age_max" := Text(filter["age_max"])];
    }
    AgeMaxStep(filter, q, a, query, args);
    ListAfterFilters(filter, query, args);
    query := query + OrderAndPage;
    args := args["limit" := Int(limit)];
    args := args["offset" := Int(offset)];
  }
}
