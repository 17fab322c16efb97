/** The query builders of services/advanced_search_service.py.  What is
    modelled is the SQL text and the parameter list each builder hands to the
    database; running the query is not.  The SQL is written with single
    spaces where the source has line breaks and indentation, and long texts
    are spelled as concatenations of short pieces. */
module AdvancedSearch {
  import opened Common
  import opened Text

  /** A value bound to a `?` placeholder. */
  datatype Param = IntParam(n: int) | TextParam(s: string)

  /** The `filters` dictionary.  An absent key and a falsy value behave
      alike in the source, so both are written as the falsy value: `[]`,
      `""`, `0`, `false`; `hasMultiplePersons` and `sortOrder` distinguish
      absence (`None`), and `limit` is numeric. */
  datatype Filters = Filters(
    persons: seq<int>,
    dateFrom: string,
    dateTo: string,
    durationMin: int,
    durationMax: int,
    tags: seq<string>,
    filenamePattern: string,
    hasMultiplePersons: Option<bool>,
    processedOnly: bool,
    sortBy: string,
    sortOrder: Option<string>,
    limit: Option<int>)

  /** The text and the parameters passed to `execute_query`. */
  datatype Query = Query(sql: string, params: seq<Param>)

  /** Every placeholder of the text has exactly one parameter. */
  predicate Bound(q: Query)
  {
    Count(q.sql, '?') == |q.params|
  }

  const Mark: string := "?"

  const DefaultLimit: int := 100

  /** The selection every advanced search starts from: the videos with
      their appearance count, their number of distinct persons and the
      names of those persons. */
  const AppearanceColumnHead: string := "SELECT DISTINCT " + "v.*, (SELECT "
  const AppearanceColumnBody: string := "COUNT(*) FROM " + "video_appearances " + "va WHERE "
  const AppearanceColumnTail: string := "va.video_id = " + "v.id) as " + "appearance_count, "
  const AppearanceColumn: string := AppearanceColumnHead + AppearanceColumnBody + AppearanceColumnTail

  const PersonsColumnHead: string := "(SELECT " + "COUNT(DISTINCT "
  const PersonsColumnBody: string := "person_id) FROM " + "video_appearances " + "va WHERE "
  const PersonsColumnTail: string := "va.video_id = " + "v.id) as " + "unique_persons, "
  const PersonsColumn: string := PersonsColumnHead + PersonsColumnBody + PersonsColumnTail

  const NamesColumnHead: string := "(SELECT " + "GROUP_CONCAT(p.name) "
  const NamesColumnBody: string := "FROM " + "video_appearances " + "va JOIN persons "
  const NamesColumnRest: string := "p ON " + "va.person_id = " + "p.id WHERE "
  const NamesColumnTail: string := "va.video_id = " + "v.id) as " + "persons_list "
  const NamesColumn: string := NamesColumnHead + NamesColumnBody + NamesColumnRest + NamesColumnTail

  const BaseQuery: string := AppearanceColumn + PersonsColumn + NamesColumn + "FROM videos v"

  const PersonsHead: string :=
    "v.id IN (SELECT " + "DISTINCT " + "video_id FROM " + "video_appearances "
    + "WHERE person_id " + "IN ("

  const TagsHead: string :=
    "v.id IN (SELECT " + "DISTINCT " + "video_id FROM " + "video_tags WHERE " + "tag IN ("

  const DistinctPersons: string :=
    "(SELECT " + "COUNT(DISTINCT " + "person_id) FROM " + "video_appearances "
    + "WHERE video_id = " + "v.id)"

  const DateFromHead: string := "DATE(v.uploaded_at) >= "
  const DateToHead: string := "DATE(v.uploaded_at) <= "
  const DurationMinHead: string := "v.duration >= "
  const DurationMaxHead: string := "v.duration <= "
  const FilenameHead: string := "v.original_filename LIKE "
  const ProcessedCondition: string := "v.processed = 1"

  /** The fixed texts `advanced_search` puts together: the selection, the
      head of each filter's condition, and the conditions without values. */
  datatype Texts = Texts(
    base: string,
    personsHead: string,
    dateFromHead: string,
    dateToHead: string,
    durationMinHead: string,
    durationMaxHead: string,
    tagsHead: string,
    filenameHead: string,
    multiple: string,
    single: string,
    processed: string)

  /** No fixed text holds a placeholder. */
  predicate Plain(t: Texts)
  {
    && '?' !in t.base && '?' !in t.personsHead && '?' !in t.dateFromHead && '?' !in t.dateToHead
    && '?' !in t.durationMinHead && '?' !in t.durationMaxHead && '?' !in t.tagsHead
    && '?' !in t.filenameHead && '?' !in t.multiple && '?' !in t.single && '?' !in t.processed
  }

  const Sql: Texts := Texts(
    BaseQuery, PersonsHead, DateFromHead, DateToHead, DurationMinHead, DurationMaxHead,
    TagsHead, FilenameHead, DistinctPersons + " > 1", DistinctPersons + " <= 1", ProcessedCondition)

  // Helper lemmas, one per fixed SQL text: each proves that the text holds no
  // `?` placeholder of its own.  `SqlPlain` combines them.

  lemma AppearanceColumnHeadPlain()
    ensures '?' !in AppearanceColumnHead
  {
  }

  lemma AppearanceColumnBodyPlain()
    ensures '?' !in AppearanceColumnBody
  {
  }

  lemma AppearanceColumnTailPlain()
    ensures '?' !in AppearanceColumnTail
  {
  }

  lemma AppearanceColumnPlain()
    ensures '?' !in AppearanceColumn
  {
    AppearanceColumnHeadPlain();
    AppearanceColumnBodyPlain();
    AppearanceColumnTailPlain();
  }

  lemma PersonsColumnHeadPlain()
    ensures '?' !in PersonsColumnHead
  {
  }

  lemma PersonsColumnBodyPlain()
    ensures '?' !in PersonsColumnBody
  {
  }

  lemma PersonsColumnTailPlain()
    ensures '?' !in PersonsColumnTail
  {
  }

  lemma PersonsColumnPlain()
    ensures '?' !in PersonsColumn
  {
    PersonsColumnHeadPlain();
    PersonsColumnBodyPlain();
    PersonsColumnTailPlain();
  }

  lemma NamesColumnHeadPlain()
    ensures '?' !in NamesColumnHead
  {
  }

  lemma NamesColumnBodyPlain()
    ensures '?' !in NamesColumnBody
  {
  }

  lemma NamesColumnRestPlain()
    ensures '?' !in NamesColumnRest
  {
  }

  lemma NamesColumnTailPlain()
    ensures '?' !in NamesColumnTail
  {
  }

  lemma NamesColumnPlain()
    ensures '?' !in NamesColumn
  {
    NamesColumnHeadPlain();
    NamesColumnBodyPlain();
    NamesColumnRestPlain();
    NamesColumnTailPlain();
  }

  lemma BasePlain()
    ensures '?' !in BaseQuery
  {
    AppearanceColumnPlain();
    PersonsColumnPlain();
    NamesColumnPlain();
  }

  lemma ListHeadsPlain()
    ensures '?' !in PersonsHead && '?' !in TagsHead
  {
  }

  lemma ComparisonHeadsPlain()
    ensures '?' !in DateFromHead && '?' !in DateToHead
    ensures '?' !in DurationMinHead && '?' !in DurationMaxHead && '?' !in FilenameHead
  {
  }

  lemma FixedConditionsPlain()
    ensures '?' !in DistinctPersons + " > 1" && '?' !in DistinctPersons + " <= 1" && '?' !in ProcessedCondition
  {
  }

  /** The texts of the query carry no placeholder of their own. */
  lemma SqlPlain()
    ensures Plain(Sql)
  {
    BasePlain();
    ListHeadsPlain();
    ComparisonHeadsPlain();
    FixedConditionsPlain();
  }

  /** The sum of the placeholder counts of several texts. */
  function CountAll(parts: seq<string>): nat
  {
    if parts == [] then 0 else CountAll(parts[..|parts| - 1]) + Count(parts[|parts| - 1], '?')
  }

  /** Joining texts with a separator free of placeholders adds none. */
  lemma {:induction false} CountJoin(parts: seq<string>, sep: string)
    requires '?' !in sep
    ensures Count(Join(parts, sep), '?') == CountAll(parts)
  {
    CountNone(sep, '?');
    if |parts| == 1 {
      assert CountAll(parts[..0]) == 0;
    } else if |parts| > 1 {
      var q := parts[..|parts| - 1];
      CountJoin(q, sep);
      CountConcat(Join(q, sep), sep, '?');
      CountConcat(Join(q, sep) + sep, parts[|parts| - 1], '?');
    }
  }

  /** `['?' for _ in xs]`. */
  function Marks(n: nat): (m: seq<string>)
    ensures |m| == n && forall i :: 0 <= i < n ==> m[i] == Mark
  {
    seq(n, i => Mark)
  }

  lemma {:induction false} CountMarks(n: nat)
    ensures CountAll(Marks(n)) == n
  {
    if n > 0 {
      assert Marks(n)[..n - 1] == Marks(n - 1);
      CountMarks(n - 1);
    }
  }

  /** `','.join(['?' for _ in xs])` for a list of `n` values. */
  function Placeholders(n: nat): string
  {
    Join(Marks(n), ",")
  }

  /** The list of placeholders holds one placeholder per value. */
  lemma PlaceholdersCount(n: nat)
    ensures Count(Placeholders(n), '?') == n
  {
    CountJoin(Marks(n), ",");
    CountMarks(n);
  }

  /** One entry of `where_conditions` and the parameters appended with it. */
  datatype Clause = Clause(condition: string, params: seq<Param>)

  predicate ClauseBound(c: Clause)
  {
    Count(c.condition, '?') == |c.params|
  }

  /** A membership test over a sub-query, with one placeholder per value. */
  function InClause(head: string, params: seq<Param>): Clause
  {
    Clause(head + Placeholders(|params|) + "))", params)
  }

  /** A comparison with a single placeholder. */
  function OneClause(head: string, p: Param): Clause
  {
    Clause(head + Mark, [p])
  }

  /** A condition without placeholders. */
  function FixedClause(condition: string): Clause
  {
    Clause(condition, [])
  }

  lemma InClauseBound(head: string, params: seq<Param>)
    requires '?' !in head
    ensures ClauseBound(InClause(head, params))
  {
    var ph := Placeholders(|params|);
    PlaceholdersCount(|params|);
    CountNone(head, '?');
    CountNone("))", '?');
    CountConcat(head, ph, '?');
    CountConcat(head + ph, "))", '?');
  }

  lemma OneClauseBound(head: string, p: Param)
    requires '?' !in head
    ensures ClauseBound(OneClause(head, p))
  {
    CountNone(head, '?');
    CountConcat(head, Mark, '?');
    assert Count(Mark, '?') == 1;
  }

  lemma FixedClauseBound(condition: string)
    requires '?' !in condition
    ensures ClauseBound(FixedClause(condition))
  {
    CountNone(condition, '?');
  }

  /** `[x]` when the filter applies, nothing otherwise. */
  function When<T>(applies: bool, x: T): seq<T>
  {
    if applies then [x] else []
  }

  function IntParams(xs: seq<int>): seq<Param>
  {
    seq(|xs|, i requires 0 <= i < |xs| => IntParam(xs[i]))
  }

  function TextParams(xs: seq<string>): seq<Param>
  {
    seq(|xs|, i requires 0 <= i < |xs| => TextParam(xs[i]))
  }

  /** The filename pattern with the shell wildcard turned into the SQL one. */
  function LikePattern(pattern: string): string
  {
    ReplaceChar(pattern, '*', '%')
  }

  /** The pattern keeps its length and every character but `*`, which
      becomes `%`. */
  lemma LikePatternSpec(pattern: string)
    ensures |LikePattern(pattern)| == |pattern| && '*' !in LikePattern(pattern)
    ensures forall i :: 0 <= i < |pattern| ==> LikePattern(pattern)[i] == if pattern[i] == '*' then '%' else pattern[i]
  {
  }

  /** A filter's clause and whether the filter is set. */
  datatype Candidate = Candidate(applies: bool, clause: Clause)

  /** The clauses `advanced_search` can add, in the order it tests the
      filters. */
  function Candidates(f: Filters, t: Texts): (cs: seq<Candidate>)
    ensures |cs| == 9
  {
    [Candidate(f.persons != [], InClause(t.personsHead, IntParams(f.persons))),
     Candidate(f.dateFrom != "", OneClause(t.dateFromHead, TextParam(f.dateFrom))),
     Candidate(f.dateTo != "", OneClause(t.dateToHead, TextParam(f.dateTo))),
     Candidate(f.durationMin != 0, OneClause(t.durationMinHead, IntParam(f.durationMin))),
     Candidate(f.durationMax != 0, OneClause(t.durationMaxHead, IntParam(f.durationMax))),
     Candidate(f.tags != [], InClause(t.tagsHead, TextParams(f.tags))),
     Candidate(f.filenamePattern != "", OneClause(t.filenameHead, TextParam(LikePattern(f.filenamePattern)))),
     Candidate(f.hasMultiplePersons.Some?, FixedClause(if f.hasMultiplePersons == Some(true) then t.multiple else t.single)),
     Candidate(f.processedOnly, FixedClause(t.processed))]
  }

  /** Every clause a filter can add binds its own placeholders. */
  lemma CandidatesBound(f: Filters, t: Texts)
    requires Plain(t)
    ensures forall i :: 0 <= i < |Candidates(f, t)| ==> ClauseBound(Candidates(f, t)[i].clause)
  {
    InClauseBound(t.personsHead, IntParams(f.persons));
    OneClauseBound(t.dateFromHead, TextParam(f.dateFrom));
    OneClauseBound(t.dateToHead, TextParam(f.dateTo));
    OneClauseBound(t.durationMinHead, IntParam(f.durationMin));
    OneClauseBound(t.durationMaxHead, IntParam(f.durationMax));
    InClauseBound(t.tagsHead, TextParams(f.tags));
    OneClauseBound(t.filenameHead, TextParam(LikePattern(f.filenamePattern)));
    FixedClauseBound(if f.hasMultiplePersons == Some(true) then t.multiple else t.single);
    FixedClauseBound(t.processed);
  }

  /** The condition a filter contributes: its own when it is set. */
  function Condition(c: Candidate): seq<string>
  {
    When(c.applies, c.clause.condition)
  }

  /** The parameters a filter contributes: its own when it is set. */
  function Values(c: Candidate): seq<Param>
  {
    if c.applies then c.clause.params else []
  }

  /** `where_conditions` once every filter has been checked. */
  function Conditions(f: Filters, t: Texts): seq<string>
  {
    var cs := Candidates(f, t);
    Condition(cs[0]) + Condition(cs[1]) + Condition(cs[2]) + Condition(cs[3]) + Condition(cs[4]) + Condition(cs[5]) + Condition(cs[6]) + Condition(cs[7]) + Condition(cs[8])
  }

  /** `params` once every filter has been checked. */
  function Params(f: Filters, t: Texts): seq<Param>
  {
    var cs := Candidates(f, t);
    Values(cs[0]) + Values(cs[1]) + Values(cs[2]) + Values(cs[3]) + Values(cs[4]) + Values(cs[5]) + Values(cs[6]) + Values(cs[7]) + Values(cs[8])
  }

  lemma {:induction false} CountAllAppend(a: seq<string>, b: seq<string>)
    ensures CountAll(a + b) == CountAll(a) + CountAll(b)
  {
    if b == [] {
      assert a + b == a;
    } else {
      var b' := b[..|b| - 1];
      CountAllAppend(a, b');
      assert (a + b)[..|a + b| - 1] == a + b';
    }
  }

  /** A set filter whose clause binds its own placeholders contributes as
      many placeholders as values. */
  lemma ConditionBound(c: Candidate)
    requires ClauseBound(c.clause)
    ensures CountAll(Condition(c)) == |Values(c)|
  {
    if c.applies {
      assert Condition(c)[..0] == [];
    }
  }

  /** The conditions of a search hold exactly one placeholder per parameter. */
  lemma FiltersBound(f: Filters, t: Texts)
    requires Plain(t)
    ensures CountAll(Conditions(f, t)) == |Params(f, t)|
  {
    var cs := Candidates(f, t);
    CandidatesBound(f, t);
    ConditionBound(cs[0]);
    var conditions := Condition(cs[0]);
    ConditionBound(cs[1]);
    CountAllAppend(conditions, Condition(cs[1]));
    conditions := conditions + Condition(cs[1]);
    ConditionBound(cs[2]);
    CountAllAppend(conditions, Condition(cs[2]));
    conditions := conditions + Condition(cs[2]);
    ConditionBound(cs[3]);
    CountAllAppend(conditions, Condition(cs[3]));
    conditions := conditions + Condition(cs[3]);
    ConditionBound(cs[4]);
    CountAllAppend(conditions, Condition(cs[4]));
    conditions := conditions + Condition(cs[4]);
    ConditionBound(cs[5]);
    CountAllAppend(conditions, Condition(cs[5]));
    conditions := conditions + Condition(cs[5]);
    ConditionBound(cs[6]);
    CountAllAppend(conditions, Condition(cs[6]));
    conditions := conditions + Condition(cs[6]);
    ConditionBound(cs[7]);
    CountAllAppend(conditions, Condition(cs[7]));
    conditions := conditions + Condition(cs[7]);
    ConditionBound(cs[8]);
    CountAllAppend(conditions, Condition(cs[8]));
    conditions := conditions + Condition(cs[8]);
  }

  /** The search is filtered, with `WHERE`, exactly when some filter is set. */
  lemma ConditionsEmpty(f: Filters, t: Texts)
    ensures Conditions(f, t) == [] <==>
      f.persons == [] && f.dateFrom == "" && f.dateTo == "" && f.durationMin == 0 && f.durationMax == 0
      && f.tags == [] && f.filenamePattern == "" && f.hasMultiplePersons.None? && !f.processedOnly
  {
    var cs := Candidates(f, t);
    assert |Conditions(f, t)| == |Condition(cs[0])| + |Condition(cs[1])| + |Condition(cs[2])| + |Condition(cs[3])|
      + |Condition(cs[4])| + |Condition(cs[5])| + |Condition(cs[6])| + |Condition(cs[7])| + |Condition(cs[8])|;
  }

  /** The query before ordering: the base selection, filtered when there
      are conditions. */
  function Select(base: string, conditions: seq<string>): string
  {
    if conditions == [] then base else base + " WHERE " + Join(conditions, " AND ")
  }

  /** `ORDER BY` as written: the requested direction is pasted into the
      text, whatever it holds. */
  function OrderByAsWritten(sortBy: string, sortOrder: Option<string>): string
  {
    var order := if sortOrder.Some? then sortOrder.value else "DESC";
    if sortBy == "date" then "v.uploaded_at " + order
    else if sortBy == "duration" then "v.duration " + order
    else if sortBy == "appearances" then "appearance_count " + order
    else "v.uploaded_at DESC"
  }

  /** The direction restricted to the two the filters document. */
  function SortDirection(sortOrder: Option<string>): string
  {
    if sortOrder == Some("ASC") then "ASC" else "DESC"
  }

  /** `ORDER BY` with the direction restricted to `ASC` or `DESC`. */
  function OrderBy(sortBy: string, sortOrder: Option<string>): string
  {
    OrderByAsWritten(sortBy, Some(SortDirection(sortOrder)))
  }

  /** On the documented directions the restriction changes nothing, and
      the default is the upload date, newest first. */
  lemma OrderByDefaults(sortBy: string, sortOrder: Option<string>)
    ensures sortOrder == None || sortOrder == Some("ASC") || sortOrder == Some("DESC") ==>
      OrderBy(sortBy, sortOrder) == OrderByAsWritten(sortBy, sortOrder)
    ensures sortBy != "date" && sortBy != "duration" && sortBy != "appearances" ==>
      OrderBy(sortBy, sortOrder) == "v.uploaded_at DESC"
    ensures sortOrder.None? ==>
      OrderBy(sortBy, sortOrder) == (if sortBy == "duration" then "v.duration DESC"
        else if sortBy == "appearances" then "appearance_count DESC" else "v.uploaded_at DESC")
  {
  }

  /** The ordering never carries a placeholder. */
  lemma OrderByPlain(sortBy: string, sortOrder: Option<string>)
    ensures '?' !in OrderBy(sortBy, sortOrder)
  {
  }

  /** `str(limit)`. */
  function IntText(n: int): (s: string)
    ensures '?' !in s
  {
    if n < 0 then "-" + NatToString(-n) else NatToString(n)
  }

  function LimitOf(f: Filters): int
  {
    if f.limit.Some? then f.limit.value else DefaultLimit
  }

  /** The complete text handed to the database. */
  function Assemble(base: string, conditions: seq<string>, orderBy: string, limit: int): string
  {
    Select(base, conditions) + " ORDER BY " + orderBy + " LIMIT " + IntText(limit)
  }

  /** The only placeholders of the assembled text are those of the
      conditions and any the ordering carries. */
  lemma AssembleCount(base: string, conditions: seq<string>, orderBy: string, limit: int)
    requires '?' !in base
    ensures Count(Assemble(base, conditions, orderBy, limit), '?') == CountAll(conditions) + Count(orderBy, '?')
  {
    CountNone(base, '?');
    CountNone(" ORDER BY ", '?');
    CountNone(" LIMIT ", '?');
    CountNone(IntText(limit), '?');
    if conditions != [] {
      CountNone(" WHERE ", '?');
      CountJoin(conditions, " AND ");
      CountConcat(base, " WHERE ", '?');
      CountConcat(base + " WHERE ", Join(conditions, " AND "), '?');
    } else {
      assert CountAll(conditions) == 0;
    }
    var s := Select(base, conditions);
    CountConcat(s, " ORDER BY ", '?');
    CountConcat(s + " ORDER BY ", orderBy, '?');
    CountConcat(s + " ORDER BY " + orderBy, " LIMIT ", '?');
    CountConcat(s + " ORDER BY " + orderBy + " LIMIT ", IntText(limit), '?');
  }

  /** One filter check of `advanced_search`: when the filter is set, its condition
      is appended to the conditions and its values to the parameters. */
  method AddClause(conditions: seq<string>, params: seq<Param>, c: Candidate)
    returns (conditions': seq<string>, params': seq<Param>)
    ensures conditions' == conditions + Condition(c)
    ensures params' == params + Values(c)
  {
    conditions', params' := conditions, params;
    if c.applies {
      conditions' := conditions' + [c.clause.condition];
      params' := params' + c.clause.params;
    }
  }

  /** The first half of `advanced_search`: each filter is checked in turn
      and the clause of each one that is set is collected. */
  method CollectConditions(f: Filters, t: Texts) returns (conditions: seq<string>, params: seq<Param>)
    ensures conditions == Conditions(f, t)
    ensures params == Params(f, t)
  {
    var cs := Candidates(f, t);
    conditions := [];
    params := [];
    conditions, params := AddClause(conditions, params, cs[0]);
    assert conditions == Condition(cs[0]) && params == Values(cs[0]);
    conditions, params := AddClause(conditions, params, cs[1]);
    conditions, params := AddClause(conditions, params, cs[2]);
    conditions, params := AddClause(conditions, params, cs[3]);
    conditions, params := AddClause(conditions, params, cs[4]);
    conditions, params := AddClause(conditions, params, cs[5]);
    conditions, params := AddClause(conditions, params, cs[6]);
    conditions, params := AddClause(conditions, params, cs[7]);
    conditions, params := AddClause(conditions, params, cs[8]);
  }

  /** `advanced_search`: the collected conditions joined into one query,
      ordered and limited, whose placeholders are bound one to one.  The
      fixed texts are those of `Sql`, which `SqlPlain` shows to qualify. */
  method Search(f: Filters, t: Texts) returns (q: Query)
    requires Plain(t)
    ensures q.params == Params(f, t)
    ensures q.sql == Assemble(t.base, Conditions(f, t), OrderBy(f.sortBy, f.sortOrder), LimitOf(f))
    ensures Bound(q)
  {
    var conditions, params := CollectConditions(f, t);
    var sql := t.base;
    if conditions != [] {
      sql := sql + " WHERE " + Join(conditions, " AND ");
    }
    var orderBy := OrderBy(f.sortBy, f.sortOrder);
    sql := sql + " ORDER BY " + orderBy;
    var limit := if f.limit.Some? then f.limit.value else DefaultLimit;
    sql := sql + " LIMIT " + IntText(limit);
    q := Query(sql, params);
    assert Bound(q) by {
      FiltersBound(f, t);
      AssembleCount(t.base, conditions, orderBy, limit);
      OrderByPlain(f.sortBy, f.sortOrder);
      CountNone(orderBy, '?');
    }
  }

  /** A `sort_order` of `?` pasted in as written puts one placeholder
      into the ordering. */
  lemma PastedPlaceholder()
    ensures Count(OrderByAsWritten("date", Some("?")), '?') == 1
  {
    assert OrderByAsWritten("date", Some("?")) == "v.uploaded_at " + Mark;
    CountNone("v.uploaded_at ", '?');
    CountConcat("v.uploaded_at ", Mark, '?');
    assert Count(Mark, '?') == 1;
  }

  /** With the direction pasted in as written, a `sort_order` holding a
      placeholder leaves the query with one more placeholder than it has
      parameters, and the database refuses the binding. */
  lemma SortOrderPlaceholder(f: Filters, t: Texts)
    requires Plain(t) && f.sortBy == "date" && f.sortOrder == Some("?")
    ensures Count(Assemble(t.base, Conditions(f, t), OrderByAsWritten(f.sortBy, f.sortOrder), LimitOf(f)), '?')
      == |Params(f, t)| + 1
  {
    FiltersBound(f, t);
    AssembleCount(t.base, Conditions(f, t), OrderByAsWritten("date", Some("?")), LimitOf(f));
    PastedPlaceholder();
  }

  const VideoColumns: string :=
    "SELECT DISTINCT " + "v.*, 'video' as " + "match_type, " + "v.original_filename "

  const VideoMatch: string :=
    VideoColumns + "as match_text " + "FROM videos v " + "WHERE " + "v.original_filename " + "LIKE "

  const PersonColumnsHead: string := " UNION SELECT " + "DISTINCT v.*, "
  const PersonColumnsBody: string := "'person' as " + "match_type, "
  const PersonColumnsTail: string := "p.name as " + "match_text FROM " + "videos v JOIN "
  const PersonColumns: string := PersonColumnsHead + PersonColumnsBody + PersonColumnsTail

  const PersonMatchHead: string := "video_appearances " + "va ON v.id = "
  const PersonMatchBody: string := "va.video_id JOIN " + "persons p ON "
  const PersonMatchTail: string := "va.person_id = " + "p.id WHERE " + "p.name LIKE "
  const PersonMatch: string := PersonColumns + PersonMatchHead + PersonMatchBody + PersonMatchTail

  const TagMatchHead: string := " UNION SELECT " + "DISTINCT v.*, " + "'tag' as "
  const TagMatchBody: string := "match_type, " + "vt.tag as " + "match_text FROM "
  const TagMatchRest: string := "videos v JOIN " + "video_tags vt ON " + "v.id = "
  const TagMatchTail: string := "vt.video_id " + "WHERE vt.tag " + "LIKE "
  const TagMatch: string := TagMatchHead + TagMatchBody + TagMatchRest + TagMatchTail

  const TextTail: string :=
    " ORDER BY " + "uploaded_at DESC " + "LIMIT 50"

  // Helper lemmas, one per fixed SQL text of the text search and the
  // suggestions: each proves that the text holds no `?` placeholder of its
  // own.  `TextSearchBound` and `SearchSuggestions` combine them.

  lemma VideoColumnsPlain()
    ensures '?' !in VideoColumns
  {
  }

  lemma VideoMatchPlain()
    ensures '?' !in VideoMatch
  {
    VideoColumnsPlain();
  }

  lemma TextTailPlain()
    ensures '?' !in TextTail
  {
  }

  lemma PersonColumnsHeadPlain()
    ensures '?' !in PersonColumnsHead
  {
  }

  lemma PersonColumnsBodyPlain()
    ensures '?' !in PersonColumnsBody
  {
  }

  lemma PersonColumnsTailPlain()
    ensures '?' !in PersonColumnsTail
  {
  }

  lemma PersonColumnsPlain()
    ensures '?' !in PersonColumns
  {
    PersonColumnsHeadPlain();
    PersonColumnsBodyPlain();
    PersonColumnsTailPlain();
  }

  lemma PersonMatchHeadPlain()
    ensures '?' !in PersonMatchHead
  {
  }

  lemma PersonMatchBodyPlain()
    ensures '?' !in PersonMatchBody
  {
  }

  lemma PersonMatchTailPlain()
    ensures '?' !in PersonMatchTail
  {
  }

  lemma PersonMatchPlain()
    ensures '?' !in PersonMatch
  {
    PersonColumnsPlain();
    PersonMatchHeadPlain();
    PersonMatchBodyPlain();
    PersonMatchTailPlain();
  }

  lemma TagMatchHeadPlain()
    ensures '?' !in TagMatchHead
  {
  }

  lemma TagMatchBodyPlain()
    ensures '?' !in TagMatchBody
  {
  }

  lemma TagMatchRestPlain()
    ensures '?' !in TagMatchRest
  {
  }

  lemma TagMatchTailPlain()
    ensures '?' !in TagMatchTail
  {
  }

  lemma TagMatchPlain()
    ensures '?' !in TagMatch
  {
    TagMatchHeadPlain();
    TagMatchBodyPlain();
    TagMatchRestPlain();
    TagMatchTailPlain();
  }

  /** `search_by_text`: one query matching file names, person names and
      tags, each against the same `%text%` pattern. */
  function TextSearch(text: string): Query
  {
    var term := TextParam("%" + text + "%");
    Query(VideoMatch + Mark + PersonMatch + Mark + TagMatch + Mark + TextTail, [term, term, term])
  }

  /** The three placeholders of the text search are bound, all to the
      pattern that holds the text anywhere. */
  lemma TextSearchBound(text: string)
    ensures Bound(TextSearch(text))
    ensures forall p :: p in TextSearch(text).params ==> p == TextParam("%" + text + "%")
  {
    VideoMatchPlain();
    TextTailPlain();
    PersonMatchPlain();
    TagMatchPlain();
    CountNone(VideoMatch, '?');
    CountNone(PersonMatch, '?');
    CountNone(TagMatch, '?');
    CountNone(TextTail, '?');
    assert Count(Mark, '?') == 1;
    var s1 := VideoMatch + Mark;
    var s2 := s1 + PersonMatch;
    var s3 := s2 + Mark;
    var s4 := s3 + TagMatch;
    var s5 := s4 + Mark;
    CountConcat(VideoMatch, Mark, '?');
    CountConcat(s1, PersonMatch, '?');
    CountConcat(s2, Mark, '?');
    CountConcat(s3, TagMatch, '?');
    CountConcat(s4, Mark, '?');
    CountConcat(s5, TextTail, '?');
  }

  const PersonSuggestion: string :=
    "SELECT DISTINCT " + "name FROM " + "persons WHERE " + "name LIKE "

  const TagSuggestion: string :=
    "SELECT DISTINCT " + "tag FROM " + "video_tags WHERE " + "tag LIKE "

  const FileSuggestion: string :=
    "SELECT DISTINCT " + "original_filename " + "FROM videos " + "WHERE "
    + "original_filename " + "LIKE "

  const PersonOrder: string := " ORDER BY name LIMIT "
  const TagOrder: string := " ORDER BY tag LIMIT "
  const FileOrder: string := " ORDER BY original_filename LIMIT "

  lemma PersonSuggestionPlain()
    ensures '?' !in PersonSuggestion
  {
  }

  lemma TagSuggestionPlain()
    ensures '?' !in TagSuggestion
  {
  }

  lemma FileSuggestionPlain()
    ensures '?' !in FileSuggestion
  {
  }

  lemma SuggestionOrdersPlain()
    ensures '?' !in PersonOrder && '?' !in TagOrder && '?' !in FileOrder
  {
  }

  /** A suggestion query: a prefix pattern and a row limit. */
  function Suggestion(head: string, order: string, partial: string, limit: int): (q: Query)
    requires '?' !in head && '?' !in order
    ensures Bound(q)
  {
    CountNone(head, '?');
    CountNone(order, '?');
    assert Count(Mark, '?') == 1;
    CountConcat(head, Mark, '?');
    CountConcat(head + Mark, order, '?');
    CountConcat(head + Mark + order, Mark, '?');
    Query(head + Mark + order + Mark, [TextParam(partial + "%"), IntParam(limit)])
  }

  /** `get_search_suggestions`: person names, tags and file names that start
      with the partial text, at most `limit` of each. */
  function SearchSuggestions(partial: string, limit: int): (qs: seq<Query>)
    ensures |qs| == 3
    ensures forall i :: 0 <= i < 3 ==> Bound(qs[i]) && qs[i].params == [TextParam(partial + "%"), IntParam(limit)]
  {
    PersonSuggestionPlain();
    TagSuggestionPlain();
    FileSuggestionPlain();
    SuggestionOrdersPlain();
    [Suggestion(PersonSuggestion, PersonOrder, partial, limit),
     Suggestion(TagSuggestion, TagOrder, partial, limit),
     Suggestion(FileSuggestion, FileOrder, partial, limit)]
  }

  /** The default of `get_search_suggestions`' `limit`. */
  const DefaultSuggestionLimit: int := 10

  /** The grouping of `search_by_date_pattern`, by pattern name. */
  function Period(patternType: string): Option<string>
  {
    if patternType == "weekly" then Some("strftime('%Y-%W', uploaded_at)")
    else if patternType == "monthly" then Some("strftime('%Y-%m', uploaded_at)")
    else if patternType == "daily" then Some("DATE(uploaded_at)")
    else None
  }

  const DefaultPattern: string := "weekly"

  /** `search_by_date_pattern`: `None` stands for the empty list returned
      without querying. */
  function DatePatternQuery(patternType: string): Option<Query>
  {
    match Period(patternType) {
      case None => None
      case Some(period) =>
        Some(Query("SELECT " + period + " as period, " + "COUNT(*) as video_count, "
                   + "GROUP_CONCAT(id) as video_ids " + "FROM videos GROUP BY " + period
                   + " ORDER BY period DESC", []))
    }
  }

  /** Only the three named patterns query the database, each grouping
      differently; any other name gets the empty list. */
  lemma DatePatternDispatch(patternType: string)
    ensures DatePatternQuery(patternType).Some? <==>
      patternType == "weekly" || patternType == "monthly" || patternType == "daily"
    ensures DatePatternQuery(patternType).Some? ==> DatePatternQuery(patternType).value.params == []
    ensures Period("weekly") != Period("monthly") && Period("monthly") != Period("daily")
      && Period("weekly") != Period("daily")
  {
  }
}
