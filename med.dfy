/** The medical store: per-patient collections of tasks and todos, kept under a
    one-way hash of the patient's id. Listing builds a query as a list of
    clauses; what the database then returns for it is outside the model and
    enters as a snapshot of (document id, data) pairs. */
module Med {
  import opened Common
  import opened Enums
  import Strings

  const DefaultOrderByField := "dateCreated"
  const OneFilterMessage := "Can only filter on one field."
  const PaginationMessage := "Can not perform query. Make sure you are not doing pagination within a list of lists of items."

  const ProjectTypesDoc := "projectTypes"
  const ConnectionMessage := "Something went wrong connecting to the db"

  /** `getProjectTypes`: the `projectTypes` field of the `projectTypes` document
      of the utilities collection, when that document exists and the field is
      truthy; anything else is reported as a connection failure. */
  function GetProjectTypes(utils: map<string, Document>): (r: Result<Value>)
    ensures r.Ok? <==> ProjectTypesDoc in utils && TruthyValue(Field(utils[ProjectTypesDoc], "projectTypes"))
    ensures r.Ok? ==> r.value == utils[ProjectTypesDoc]["projectTypes"]
    ensures r.Err? ==> r.error == Internal(ConnectionMessage)
  {
    if ProjectTypesDoc in utils && TruthyValue(Field(utils[ProjectTypesDoc], "projectTypes")) then
      Ok(utils[ProjectTypesDoc]["projectTypes"])
    else Err(Internal(ConnectionMessage))
  }

  datatype Collection = Tasks | Todos

  /** The word the not-found messages use for a document of the collection. */
  function Kind(c: Collection): string
  {
    match c
    case Tasks => "task"
    case Todos => "todo"
  }

  /** A sub-collection: the tasks or the todos of one (hashed) patient key. */
  datatype CollectionPath = CollectionPath(patientKey: string, collection: Collection)

  /** The pagination input: `next` and both cursors are optional. */
  datatype PageDetails = PageDetails(afterDocID: Option<string>, beforeDocID: Option<string>, perPage: int, next: Option<bool>)

  /** A filter as the client sends it; `operator` is the operator's member name. */
  datatype Filter = Filter(field: string, operator: string, value: string, filterType: FilterType, isArray: bool)

  /** One clause the code adds to a query. */
  datatype Clause =
    | Where(field: string, op: string, value: Value)
    | OrderBy(field: string)
    | OrderByDocumentId
    | StartAfter(cursorValue: Value, docId: string)
    | EndBefore(cursorValue: Value, docId: string)
    | Limit(count: int)

  datatype Query = Query(path: CollectionPath, clauses: seq<Clause>)

  function DocumentNotFound(c: Collection, docId: string, key: string): Error
  {
    UserInput("There does not exist a " + Kind(c) + " with id: " + docId + " for the patient with uid: " + key)
  }

  /** `#getParsedValue`: a String is taken as it is, a Boolean is true exactly for
      the text "true"; the numeric and date types are kept abstract. */
  function GetParsedValue(t: FilterType, text: string): (v: Value)
    ensures t == String ==> v == Str(text)
    ensures t == Boolean ==> v == Bool(text == "true")
    ensures t != String && t != Boolean ==> v.Parsed? && v.kind == FilterTypeName(t) && v.text == text
  {
    match t
    case String => Str(text)
    case Boolean => Bool(text == "true")
    case _ => Parsed(FilterTypeName(t), text)
  }

  /** Each piece parsed with the same type, in order. */
  function ParsePieces(t: FilterType, pieces: seq<string>): (vs: seq<Value>)
  {
    seq(|pieces|, i requires 0 <= i < |pieces| => GetParsedValue(t, pieces[i]))
  }

  /** The loop of lines 163-166: split the text on commas and parse every piece. */
  method ParseArrayValue(t: FilterType, text: string) returns (vs: seq<Value>)
    ensures |vs| == |Strings.Split(text, ',')|
    ensures forall i :: 0 <= i < |vs| ==> vs[i] == GetParsedValue(t, Strings.Split(text, ',')[i])
  {
    var pieces := Strings.Split(text, ',');
    vs := [];
    for i := 0 to |pieces|
      invariant |vs| == i
      invariant forall j :: 0 <= j < i ==> vs[j] == GetParsedValue(t, pieces[j])
    {
      vs := vs + [GetParsedValue(t, pieces[i])];
    }
  }

  /** The value a filter compares with. */
  function FilterValue(f: Filter): Value
  {
    if !f.isArray then GetParsedValue(f.filterType, f.value)
    else Arr(ParsePieces(f.filterType, Strings.Split(f.value, ',')))
  }

  /** Lines 157-167 of the listing: the filter's value, parsed whole or piece by piece. */
  method ParseFilterValue(f: Filter) returns (value: Value)
    ensures value == FilterValue(f)
    ensures f.isArray ==> value.Arr? && |value.items| == |Strings.Split(f.value, ',')|
  {
    if !f.isArray {
      value := GetParsedValue(f.filterType, f.value);
    } else {
      var items := ParseArrayValue(f.filterType, f.value);
      assert items == ParsePieces(f.filterType, Strings.Split(f.value, ','));
      value := Arr(items);
    }
  }

  /** The operators after which the code also orders by the filtered field. */
  predicate NeedsOrderBy(op: string)
  {
    op == OperatorString(Gt) || op == OperatorString(Gte) || op == OperatorString(Lt) ||
    op == OperatorString(Lte) || op == OperatorString(NotIn) || op == OperatorString(Neq)
  }

  /** The `type` shorthand filter. */
  function TypeClauses(projectType: Option<string>): seq<Clause>
  {
    if Truthy(projectType) then [Where("type", "==", Str(projectType.value))] else []
  }

  /** The clauses a filter adds, given the operator string its name looked up. */
  function FilterClauses(f: Filter, op: string): seq<Clause>
  {
    [Where(f.field, op, FilterValue(f))] + (if NeedsOrderBy(op) then [OrderBy(f.field)] else [])
  }

  /** The field pagination reads the cursor value from. */
  function PaginationField(filter: Option<Filter>): string
  {
    if filter.None? then DefaultOrderByField else filter.value.field
  }

  /** The value of `field` in the cursor document `docId`; a dotted field reads
      the property named by its second path segment of the value at its first.
      Reading a property of a missing document or of a missing or null parent
      value is a TypeError. */
  function CursorValue(docs: map<string, Document>, docId: string, field: string): Result<Value>
  {
    if docId !in docs then Err(TypeError)
    else if '.' !in field then Ok(Field(docs[docId], field))
    else
      var segments := Strings.Split(field, '.');
      Strings.SplitAtSeparator(field, '.');
      PropertyOf(Field(docs[docId], segments[0]), segments[1])
  }

  /** `next` is truthy. */
  predicate Forward(page: PageDetails)
  {
    page.next == Some(true)
  }

  /** The number of orderings in a list of clauses. */
  function Orderings(clauses: seq<Clause>): nat
  {
    if clauses == [] then 0
    else (if clauses[0].OrderBy? || clauses[0].OrderByDocumentId? then 1 else 0) + Orderings(clauses[1..])
  }

  /** Orderings add up over concatenation. */
  lemma {:induction false} OrderingsAppend(a: seq<Clause>, b: seq<Clause>)
    ensures Orderings(a + b) == Orderings(a) + Orderings(b)
  {
    if a != [] {
      assert (a + b)[0] == a[0];
      assert (a + b)[1..] == a[1..] + b;
      OrderingsAppend(a[1..], b);
    } else {
      assert a + b == b;
    }
  }

  /** The cursor holds two values: the field's value and the document id. */
  const CursorValueCount := 2

  /** The store accepts a cursor only with no more values than the query has
      orderings, and refuses `undefined` as a cursor value. */
  predicate CursorAccepted(v: Value, orderings: nat)
  {
    v != Undefined && CursorValueCount <= orderings
  }

  /** The cursor document the page names, if any. */
  function CursorDocId(page: PageDetails): Option<string>
  {
    if Forward(page) && Truthy(page.afterDocID) then page.afterDocID
    else if !Forward(page) && Truthy(page.beforeDocID) then page.beforeDocID
    else None
  }

  /** The cursor clause `#addPaginationToQuery` adds to a query with
      `orderings` orderings (the document id ordering included); a failure to
      read the cursor value and the store's refusal of the cursor both become
      the pagination error. */
  function CursorClauses(docs: map<string, Document>, page: PageDetails, field: string, orderings: nat): (r: Result<seq<Clause>>)
    ensures r.Err? ==> r.error == UserInput(PaginationMessage)
  {
    if Forward(page) && Truthy(page.afterDocID) then
      match CursorValue(docs, page.afterDocID.value, field)
      case Err(_) => Err(UserInput(PaginationMessage))
      case Ok(v) =>
        if CursorAccepted(v, orderings) then Ok([StartAfter(v, page.afterDocID.value)])
        else Err(UserInput(PaginationMessage))
    else if !Forward(page) && Truthy(page.beforeDocID) then
      match CursorValue(docs, page.beforeDocID.value, field)
      case Err(_) => Err(UserInput(PaginationMessage))
      case Ok(v) =>
        if CursorAccepted(v, orderings) then Ok([EndBefore(v, page.beforeDocID.value)])
        else Err(UserInput(PaginationMessage))
    else Ok([])
  }

  /** With a cursor document named, pagination succeeds exactly when the cursor
      value can be read, is not `undefined`, and the query has an ordering for
      each of the two cursor values; without one it adds nothing. */
  lemma CursorClausesRefusals(docs: map<string, Document>, page: PageDetails, field: string, orderings: nat)
    ensures CursorDocId(page).None? ==> CursorClauses(docs, page, field, orderings) == Ok([])
    ensures CursorDocId(page).Some? ==>
              (CursorClauses(docs, page, field, orderings).Ok? <==>
                 CursorValue(docs, CursorDocId(page).value, field).Ok? &&
                 CursorValue(docs, CursorDocId(page).value, field).value != Undefined &&
                 orderings >= 2)
  {
  }

  /** One snapshot document as `#getData` returns it: its id added as `id`, and
      `dateCreated` (and a truthy `deadline`) converted from a stored timestamp
      (the conversion keeps the timestamp here). */
  function RecordOf(docId: string, data: Document): Result<Document>
  {
    if !Field(data, "dateCreated").Timestamp? then Err(TypeError)
    else if TruthyValue(Field(data, "deadline")) && !Field(data, "deadline").Timestamp? then Err(TypeError)
    else Ok(data["id" := Str(docId)])
  }

  /** `#getData` after the query ran: every snapshot document mapped by `RecordOf`, in order. */
  function GetData(snapshot: seq<(string, Document)>): Result<seq<Document>>
  {
    if snapshot == [] then Ok([])
    else
      match RecordOf(snapshot[0].0, snapshot[0].1)
      case Err(e) => Err(e)
      case Ok(first) =>
        match GetData(snapshot[1..])
        case Err(e) => Err(e)
        case Ok(rest) => Ok([first] + rest)
  }

  /** Each returned record is the stored document with its document id added as
      `id`, one record per snapshot document, in order. */
  lemma {:induction false} GetDataStampsIds(snapshot: seq<(string, Document)>)
    requires GetData(snapshot).Ok?
    ensures |GetData(snapshot).value| == |snapshot|
    ensures forall i :: 0 <= i < |snapshot| ==>
      GetData(snapshot).value[i] == snapshot[i].1["id" := Str(snapshot[i].0)]
  {
    if snapshot != [] {
      GetDataStampsIds(snapshot[1..]);
      var rest := GetData(snapshot[1..]).value;
      var first := RecordOf(snapshot[0].0, snapshot[0].1).value;
      assert GetData(snapshot).value == [first] + rest;
      forall i | 0 < i < |snapshot|
        ensures GetData(snapshot).value[i] == snapshot[i].1["id" := Str(snapshot[i].0)]
      {
        assert snapshot[1..][i - 1] == snapshot[i];
      }
    }
  }

  /** `#getData` fails exactly when some snapshot document lacks a stored `dateCreated`
      timestamp or has a truthy `deadline` that is not one. */
  lemma {:induction false} GetDataFailsOnlyOnBadDates(snapshot: seq<(string, Document)>)
    ensures GetData(snapshot).Err? <==> exists i :: 0 <= i < |snapshot| && RecordOf(snapshot[i].0, snapshot[i].1).Err?
    ensures GetData(snapshot).Err? ==> GetData(snapshot).error == TypeError
  {
    if snapshot != [] {
      GetDataFailsOnlyOnBadDates(snapshot[1..]);
      if RecordOf(snapshot[0].0, snapshot[0].1).Ok? {
        if GetData(snapshot).Err? {
          var i :| 0 <= i < |snapshot[1..]| && RecordOf(snapshot[1..][i].0, snapshot[1..][i].1).Err?;
          assert snapshot[1..][i] == snapshot[i + 1];
        } else {
          forall i | 0 < i < |snapshot| ensures RecordOf(snapshot[i].0, snapshot[i].1).Ok? {
            assert snapshot[1..][i - 1] == snapshot[i];
          }
        }
      }
    }
  }

  /** The texts of a sequence of string values. */
  function TextsOf(vs: seq<Value>): seq<string>
    requires forall i :: 0 <= i < |vs| ==> vs[i].Str?
  {
    seq(|vs|, i requires 0 <= i < |vs| => vs[i].s)
  }

  /** A parsed array of String pieces joins back to the text the client sent. */
  lemma StringArrayRoundTrip(f: Filter)
    requires f.isArray && f.filterType == String
    ensures FilterValue(f).Arr?
    ensures |FilterValue(f).items| >= 1
    ensures forall i :: 0 <= i < |FilterValue(f).items| ==> FilterValue(f).items[i].Str?
    ensures Strings.Join(TextsOf(FilterValue(f).items), ',') == f.value
  {
    var pieces := Strings.Split(f.value, ',');
    var items := FilterValue(f).items;
    assert items == ParsePieces(String, pieces);
    assert forall i :: 0 <= i < |items| ==> items[i] == Str(pieces[i]);
    assert TextsOf(items) == pieces;
    Strings.JoinSplit(f.value, ',');
  }

  /** The operators that make the code order by the filtered field. */
  lemma NeedsOrderByOperators(op: Operator)
    ensures NeedsOrderBy(OperatorString(op)) <==>
              op == Lt || op == Lte || op == Gt || op == Gte || op == Neq || op == NotIn
  {
    match op
    case Lt =>
    case Lte =>
    case Gt =>
    case Gte =>
    case Neq =>
    case NotIn =>
    case Eq =>
    case ArrContains =>
    case In =>
  }

  /** A filter named by operator `op` compares its field with its parsed value
      using the operator's store string, and adds an extra ordering on the
      filtered field exactly for lt, lte, gt, gte, neq and not_in. */
  lemma ExtraOrderByExactly(f: Filter, op: Operator)
    requires f.operator == OperatorName(op)
    ensures LookupOperator(f.operator) == Some(OperatorString(op))
    ensures FilterClauses(f, OperatorString(op))[0] == Where(f.field, OperatorString(op), FilterValue(f))
    ensures OrderBy(f.field) in FilterClauses(f, OperatorString(op)) <==>
              op == Lt || op == Lte || op == Gt || op == Gte || op == Neq || op == NotIn
  {
    LookupOperatorByName(op);
    NeedsOrderByOperators(op);
    var clauses := FilterClauses(f, OperatorString(op));
    if NeedsOrderBy(OperatorString(op)) {
      assert clauses[1] == OrderBy(f.field);
    } else {
      assert clauses == [Where(f.field, OperatorString(op), FilterValue(f))];
    }
  }

  /** Pagination always orders by document id, starts after the cursor document
      only when going forward with `afterDocID`, ends before it only when going
      back with `beforeDocID`, and never does both. */
  lemma CursorClausesShape(docs: map<string, Document>, page: PageDetails, field: string, orderings: nat)
    requires CursorClauses(docs, page, field, orderings).Ok?
    ensures |CursorClauses(docs, page, field, orderings).value| <= 1
    ensures (exists c :: c in CursorClauses(docs, page, field, orderings).value && c.StartAfter?) <==>
              Forward(page) && Truthy(page.afterDocID)
    ensures (exists c :: c in CursorClauses(docs, page, field, orderings).value && c.EndBefore?) <==>
              !Forward(page) && Truthy(page.beforeDocID)
    ensures forall c :: c in CursorClauses(docs, page, field, orderings).value ==>
              (c.StartAfter? && c.docId == page.afterDocID.value && Ok(c.cursorValue) == CursorValue(docs, c.docId, field)) ||
              (c.EndBefore? && c.docId == page.beforeDocID.value && Ok(c.cursorValue) == CursorValue(docs, c.docId, field))
  {
    var r := CursorClauses(docs, page, field, orderings).value;
    if Forward(page) && Truthy(page.afterDocID) {
      assert r[0] in r;
    } else if !Forward(page) && Truthy(page.beforeDocID) {
      assert r[0] in r;
    }
  }

  /** A dotted field `first.rest` reads, of the value at `first`, the property
      named by the first segment of `rest`: the field of an object, the element
      or length of an array or a string, the seconds of a date; segments after
      the second are ignored. */
  lemma {:induction false} CursorValueDotted(docs: map<string, Document>, docId: string, first: string, rest: string)
    requires '.' !in first
    requires docId in docs
    ensures CursorValue(docs, docId, first + "." + rest) ==
              PropertyOf(Field(docs[docId], first), Strings.Split(rest, '.')[0])
    ensures Field(docs[docId], first).Obj? ==>
              CursorValue(docs, docId, first + "." + rest) ==
                Ok(Field(Field(docs[docId], first).fields, Strings.Split(rest, '.')[0]))
    ensures Field(docs[docId], first).Undefined? || Field(docs[docId], first).Null? ==>
              CursorValue(docs, docId, first + "." + rest) == Err(TypeError)
  {
    var field := first + "." + rest;
    Strings.SplitPrefix(first, rest, '.');
    assert '.' in field by { assert field[|first|] == '.'; }
  }

  /** Reading through an array: `first.i` for the decimal text of a position
      `i` is the array's element at `i`. */
  lemma {:induction false} CursorValueArrayElement(docs: map<string, Document>, docId: string, first: string, i: nat)
    requires '.' !in first && docId in docs
    requires Field(docs[docId], first).Arr? && i < |Field(docs[docId], first).items|
    ensures CursorValue(docs, docId, first + "." + IndexText(i)) == Ok(Field(docs[docId], first).items[i])
  {
    IndexTextRoundTrip(i);
    assert '.' !in IndexText(i) by {
      assert forall k :: 0 <= k < |IndexText(i)| ==> IsDigit(IndexText(i)[k]);
    }
    CursorValueDotted(docs, docId, first, IndexText(i));
    Strings.SplitJoin([IndexText(i)], '.');
    PropertyOfPositions(Field(docs[docId], first), i);
  }

  /** Reading through a string: `first.length` is the string's length. */
  lemma {:induction false} CursorValueStringLength(docs: map<string, Document>, docId: string, first: string)
    requires '.' !in first && docId in docs
    requires Field(docs[docId], first).Str?
    ensures CursorValue(docs, docId, first + ".length") == Ok(Num(|Field(docs[docId], first).s|))
  {
    assert first + "." + "length" == first + ".length";
    CursorValueDotted(docs, docId, first, "length");
    Strings.SplitJoin(["length"], '.');
  }

  /** `tags.0` on a non-empty array field is its first element, and `name.length`
      on a string field is its length. */
  lemma CursorValueExamples(docs: map<string, Document>, docId: string)
    requires docId in docs
    requires Field(docs[docId], "tags").Arr? && |Field(docs[docId], "tags").items| > 0
    requires Field(docs[docId], "name").Str?
    ensures CursorValue(docs, docId, "tags.0") == Ok(Field(docs[docId], "tags").items[0])
    ensures CursorValue(docs, docId, "name.length") == Ok(Num(|Field(docs[docId], "name").s|))
  {
    CursorValueArrayElement(docs, docId, "tags", 0);
    assert IndexText(0) == "0";
    assert "tags" + "." + "0" == "tags.0";
    CursorValueStringLength(docs, docId, "name");
    assert "name" + ".length" == "name.length";
  }

  /** The clauses listing adds before pagination: the `type` shorthand, then the
      filter (and its extra ordering) or else the default ordering; an operator
      name that is not in the table fails reading `[0][1]` of nothing. */
  function OrderedClauses(projectType: Option<string>, filter: Option<Filter>): Result<seq<Clause>>
  {
    if filter.None? then Ok(TypeClauses(projectType) + [OrderBy(DefaultOrderByField)])
    else
      match LookupOperator(filter.value.operator)
      case None => Err(TypeError)
      case Some(op) => Ok(TypeClauses(projectType) + FilterClauses(filter.value, op))
  }

  /** Lines 154-179 of the listing: build the filtering and ordering clauses one by one. */
  method BuildFilterClauses(projectType: Option<string>, filter: Option<Filter>) returns (r: Result<seq<Clause>>)
    ensures r == OrderedClauses(projectType, filter)
  {
    var query: seq<Clause> := [];
    if Truthy(projectType) {
      query := query + [Where("type", "==", Str(projectType.value))];
    }
    assert query == TypeClauses(projectType);
    if filter.None? {
      return Ok(query + [OrderBy(DefaultOrderByField)]);
    }
    var f := filter.value;
    var value := ParseFilterValue(f);
    var op := LookupOperator(f.operator);
    if op.None? {
      return Err(TypeError);
    }
    var opString := op.value;
    var added := [Where(f.field, opString, value)];
    if NeedsOrderBy(opString) {
      added := added + [OrderBy(f.field)];
    }
    assert added == FilterClauses(f, opString);
    query := query + added;
    r := Ok(query);
  }

  /** The clauses built before pagination hold one ordering (the default one or
      the filtered field's) exactly when there is no filter or its operator
      orders; an equality, `in` or `array-contains` filter leaves none. */
  lemma {:induction false} OrderedClausesOrderings(projectType: Option<string>, filter: Option<Filter>)
    requires OrderedClauses(projectType, filter).Ok?
    ensures filter.None? ==> Orderings(OrderedClauses(projectType, filter).value) == 1
    ensures filter.Some? ==>
              Orderings(OrderedClauses(projectType, filter).value) ==
                (if NeedsOrderBy(LookupOperator(filter.value.operator).value) then 1 else 0)
  {
    var types := TypeClauses(projectType);
    assert Orderings(types) == 0 by {
      if types != [] {
        assert types[1..] == [];
      }
    }
    if filter.None? {
      OrderingsAppend(types, [OrderBy(DefaultOrderByField)]);
      assert Orderings([OrderBy(DefaultOrderByField)]) == 1;
    } else {
      var op := LookupOperator(filter.value.operator).value;
      var added := FilterClauses(filter.value, op);
      OrderingsAppend(types, added);
      var comparison := [Where(filter.value.field, op, FilterValue(filter.value))];
      assert Orderings(comparison) == 0;
      if NeedsOrderBy(op) {
        OrderingsAppend(comparison, [OrderBy(filter.value.field)]);
        assert Orderings([OrderBy(filter.value.field)]) == 1;
      } else {
        assert added == comparison;
      }
    }
  }

  /** The clauses after pagination: ordered by document id, then the cursor
      clause for a query with one more ordering than `clauses`. */
  function PaginatedClauses(docs: map<string, Document>, clauses: seq<Clause>, page: PageDetails, field: string): Result<seq<Clause>>
  {
    match CursorClauses(docs, page, field, Orderings(clauses) + 1)
    case Err(e) => Err(e)
    case Ok(cursor) => Ok(clauses + [OrderByDocumentId] + cursor)
  }

  /** The listing query once its filtering clauses are built: paginated, then
      the page limit. */
  function PagedQuery(path: CollectionPath, docs: map<string, Document>, clauses: Result<seq<Clause>>,
                      page: PageDetails, field: string): Result<Query>
  {
    match clauses
    case Err(e) => Err(e)
    case Ok(cs) =>
      match PaginatedClauses(docs, cs, page, field)
      case Err(e) => Err(e)
      case Ok(paged) => Ok(Query(path, paged + [Limit(page.perPage)]))
  }

  /** A paged query keeps the clauses it was given in front, then orders by
      document id, and ends with the page limit. */
  lemma PagedQueryShape(path: CollectionPath, docs: map<string, Document>, cs: seq<Clause>, page: PageDetails, field: string)
    requires PagedQuery(path, docs, Ok(cs), page, field).Ok?
    ensures PagedQuery(path, docs, Ok(cs), page, field).value.path == path
    ensures |cs| < |PagedQuery(path, docs, Ok(cs), page, field).value.clauses|
    ensures PagedQuery(path, docs, Ok(cs), page, field).value.clauses[..|cs|] == cs
    ensures PagedQuery(path, docs, Ok(cs), page, field).value.clauses[|cs|] == OrderByDocumentId
    ensures OrderByDocumentId in PagedQuery(path, docs, Ok(cs), page, field).value.clauses
    ensures Last(PagedQuery(path, docs, Ok(cs), page, field).value.clauses) == Limit(page.perPage)
  {
    var cursor := CursorClauses(docs, page, field, Orderings(cs) + 1).value;
    var all := cs + [OrderByDocumentId] + cursor + [Limit(page.perPage)];
    assert PagedQuery(path, docs, Ok(cs), page, field).value.clauses == all;
    assert all[..|cs|] == cs;
    assert all[|cs|] == OrderByDocumentId;
  }

  /** Without a filter the clauses order by `dateCreated`; with one they
      compare the filtered field with the filter's parsed value. */
  lemma OrderedClausesContent(projectType: Option<string>, filter: Option<Filter>)
    requires OrderedClauses(projectType, filter).Ok?
    ensures filter.None? ==> OrderBy(DefaultOrderByField) in OrderedClauses(projectType, filter).value
    ensures filter.Some? ==> exists op :: Where(filter.value.field, op, FilterValue(filter.value)) in
                                          OrderedClauses(projectType, filter).value
  {
    var cs := OrderedClauses(projectType, filter).value;
    if filter.None? {
      assert cs[|TypeClauses(projectType)|] == OrderBy(DefaultOrderByField);
    } else {
      var op := LookupOperator(filter.value.operator).value;
      assert cs[|TypeClauses(projectType)|] == Where(filter.value.field, op, FilterValue(filter.value));
    }
  }

  /** The medical database. Patient documents and their sub-collections are
      stored under `hashId(patient id)`; a sub-collection can hold documents
      whether or not its patient document exists. */
  class MedStore {
    const hashId: string -> string
    var patients: map<string, Document>
    var collections: map<CollectionPath, map<string, Document>>

    constructor (hashId: string -> string)
      ensures this.hashId == hashId && patients == map[] && collections == map[]
    {
      this.hashId := hashId;
      patients := map[];
      collections := map[];
    }

    /** The documents of a sub-collection (none when it was never written). */
    function DocsAt(path: CollectionPath): map<string, Document>
      reads this
    {
      if path in collections then collections[path] else map[]
    }

    /** `#patientExists` on an already hashed key. */
    function PatientExists(key: string): (o: Outcome)
      reads this
      ensures o.Pass? <==> key in patients
      ensures o.Fail? ==> o.error == PatientNotFound(key)
    {
      if key in patients then Pass else Fail(PatientNotFound(key))
    }

    /** `doc(key).set({})`: (re)creates the patient document, keeping its sub-collections. */
    method SetPatientDocument(key: string)
      modifies this
      ensures patients == old(patients)[key := map[]] && collections == old(collections)
    {
      patients := patients[key := map[]];
    }

    /** `#addPaginationToQuery`: order by document id, then add the cursor clause. */
    method AddPaginationToQuery(path: CollectionPath, clauses: seq<Clause>, page: PageDetails, field: string)
      returns (r: Result<seq<Clause>>)
      ensures r == PaginatedClauses(DocsAt(path), clauses, page, field)
      ensures CursorClauses(DocsAt(path), page, field, Orderings(clauses) + 1).Err? ==> r == Err(UserInput(PaginationMessage))
      ensures CursorClauses(DocsAt(path), page, field, Orderings(clauses) + 1).Ok? ==>
                r == Ok(clauses + [OrderByDocumentId] + CursorClauses(DocsAt(path), page, field, Orderings(clauses) + 1).value)
    {
      var query := clauses + [OrderByDocumentId];
      OrderingsAppend(clauses, [OrderByDocumentId]);
      assert Orderings([OrderByDocumentId]) == 1;
      var orderings := Orderings(query);
      var docs := DocsAt(path);
      if Forward(page) && Truthy(page.afterDocID) {
        var prev := CursorValue(docs, page.afterDocID.value, field);
        if prev.Err? || !CursorAccepted(prev.value, orderings) {
          return Err(UserInput(PaginationMessage));
        }
        assert CursorClauses(docs, page, field, orderings) == Ok([StartAfter(prev.value, page.afterDocID.value)]);
        query := query + [StartAfter(prev.value, page.afterDocID.value)];
      } else if !Forward(page) && Truthy(page.beforeDocID) {
        var prev := CursorValue(docs, page.beforeDocID.value, field);
        if prev.Err? || !CursorAccepted(prev.value, orderings) {
          return Err(UserInput(PaginationMessage));
        }
        assert CursorClauses(docs, page, field, orderings) == Ok([EndBefore(prev.value, page.beforeDocID.value)]);
        query := query + [EndBefore(prev.value, page.beforeDocID.value)];
      } else {
        assert CursorClauses(docs, page, field, orderings) == Ok([]);
        assert query + [] == query;
      }
      r := Ok(query);
    }

    /** The query `getTasksOfPatient` / `getTodosOfPatient` runs, or the error it throws first. */
    ghost function ListQuery(c: Collection, patientId: string, page: PageDetails, projectType: Option<string>, filter: Option<Filter>): Result<Query>
      reads this
    {
      if filter.Some? && Truthy(projectType) then Err(UserInput(OneFilterMessage))
      else
        var key := hashId(patientId);
        if PatientExists(key).Fail? then Err(PatientNotFound(key))
        else
          var path := CollectionPath(key, c);
          PagedQuery(path, DocsAt(path), OrderedClauses(projectType, filter), page, PaginationField(filter))
    }

    /** `getTasksOfPatient` (c = Tasks) and `getTodosOfPatient` (c = Todos) up to
        running the query: the query they build, limit included. */
    method ListDocumentsOfPatient(c: Collection, patientId: string, page: PageDetails, projectType: Option<string>, filter: Option<Filter>)
      returns (r: Result<Query>)
      ensures r == ListQuery(c, patientId, page, projectType, filter)
    {
      if filter.Some? && Truthy(projectType) {
        return Err(UserInput(OneFilterMessage));
      }
      var key := hashId(patientId);
      var present := PatientExists(key);
      if present.Fail? {
        return Err(present.error);
      }
      var path := CollectionPath(key, c);
      var query := BuildFilterClauses(projectType, filter);
      if query.Err? {
        return Err(query.error);
      }
      var clauses := query.value;
      var field := PaginationField(filter);
      var paged := AddPaginationToQuery(path, clauses, page, field);
      assert ListQuery(c, patientId, page, projectType, filter) == PagedQuery(path, DocsAt(path), query, page, field);
      if paged.Err? {
        return Err(paged.error);
      }
      r := Ok(Query(path, paged.value + [Limit(page.perPage)]));
    }

    /** A type together with a filter is refused before the store is read. */
    lemma ListQueryOneFilter(c: Collection, patientId: string, page: PageDetails, projectType: Option<string>, filter: Option<Filter>,
                             other: MedStore)
      requires filter.Some? && Truthy(projectType)
      ensures ListQuery(c, patientId, page, projectType, filter) == Err(UserInput(OneFilterMessage))
      ensures other.ListQuery(c, patientId, page, projectType, filter) == ListQuery(c, patientId, page, projectType, filter)
    {
    }

    /** A listing query reads the hashed patient's sub-collection, which exists;
        it is ordered by document id and ends with the page limit; without a
        filter it orders by `dateCreated`, with one it compares the filtered
        field with the filter's parsed value. */
    lemma {:induction false} ListQueryShape(c: Collection, patientId: string, page: PageDetails, projectType: Option<string>,
                                            filter: Option<Filter>)
      requires ListQuery(c, patientId, page, projectType, filter).Ok?
      ensures hashId(patientId) in patients
      ensures ListQuery(c, patientId, page, projectType, filter).value.path == CollectionPath(hashId(patientId), c)
      ensures OrderByDocumentId in ListQuery(c, patientId, page, projectType, filter).value.clauses
      ensures Limit(page.perPage) == Last(ListQuery(c, patientId, page, projectType, filter).value.clauses)
      ensures filter.None? ==> OrderBy(DefaultOrderByField) in ListQuery(c, patientId, page, projectType, filter).value.clauses
      ensures filter.Some? ==> exists op :: Where(filter.value.field, op, FilterValue(filter.value)) in
                                             ListQuery(c, patientId, page, projectType, filter).value.clauses
    {
      var path := CollectionPath(hashId(patientId), c);
      var cs := OrderedClauses(projectType, filter).value;
      PagedQueryShape(path, DocsAt(path), cs, page, PaginationField(filter));
      OrderedClausesContent(projectType, filter);
      var clauses := ListQuery(c, patientId, page, projectType, filter).value.clauses;
      assert forall x :: x in cs ==> x in clauses by {
        assert clauses[..|cs|] == cs;
      }
    }

    /** A filter whose operator adds no ordering leaves the query ordered by
        document id alone, so the store refuses any two-value cursor: paging
        such a listing always fails with the pagination error. */
    lemma {:induction false} NonOrderingFilterCannotPage(c: Collection, patientId: string, page: PageDetails,
                                                         projectType: Option<string>, filter: Filter)
      requires !Truthy(projectType) && hashId(patientId) in patients
      requires LookupOperator(filter.operator).Some? && !NeedsOrderBy(LookupOperator(filter.operator).value)
      requires CursorDocId(page).Some?
      ensures ListQuery(c, patientId, page, projectType, Some(filter)) == Err(UserInput(PaginationMessage))
    {
      OrderedClausesOrderings(projectType, Some(filter));
      var path := CollectionPath(hashId(patientId), c);
      var cs := OrderedClauses(projectType, Some(filter)).value;
      CursorClausesRefusals(DocsAt(path), page, PaginationField(Some(filter)), Orderings(cs) + 1);
    }

    /** Without a filter, or with an ordering one, paging past an existing
        cursor document fails only when its cursor value is `undefined`. */
    lemma {:induction false} OrderedListingPagesUnlessUndefined(c: Collection, patientId: string, page: PageDetails,
                                                                projectType: Option<string>, filter: Option<Filter>)
      requires hashId(patientId) in patients && !(filter.Some? && Truthy(projectType))
      requires OrderedClauses(projectType, filter).Ok?
      requires filter.Some? ==> NeedsOrderBy(LookupOperator(filter.value.operator).value)
      requires CursorDocId(page).Some?
      requires CursorValue(DocsAt(CollectionPath(hashId(patientId), c)), CursorDocId(page).value, PaginationField(filter)).Ok?
      ensures ListQuery(c, patientId, page, projectType, filter).Ok? <==>
                CursorValue(DocsAt(CollectionPath(hashId(patientId), c)), CursorDocId(page).value, PaginationField(filter)).value != Undefined
    {
      OrderedClausesOrderings(projectType, filter);
      var path := CollectionPath(hashId(patientId), c);
      var cs := OrderedClauses(projectType, filter).value;
      CursorClausesRefusals(DocsAt(path), page, PaginationField(filter), Orderings(cs) + 1);
    }

    /** The query `getTasks` runs for one hashed patient key. */
    function TasksQuery(key: string, projectType: Option<string>, perPatient: int): Query
    {
      Query(CollectionPath(key, Tasks), TypeClauses(projectType) + [Limit(perPatient)])
    }

    /** What `getTasks` returns for the ids, given what the database returns for each query. */
    ghost function TasksOf(ids: seq<string>, projectType: Option<string>, perPatient: int,
                           run: Query -> seq<(string, Document)>): Result<seq<seq<Document>>>
      reads this
    {
      if ids == [] then Ok([])
      else
        var key := hashId(ids[0]);
        if PatientExists(key).Fail? then Err(PatientNotFound(key))
        else
          match GetData(run(TasksQuery(key, projectType, perPatient)))
          case Err(e) => Err(e)
          case Ok(records) => Prepend([records], TasksOf(ids[1..], projectType, perPatient, run))
    }

    /** `getTasks`: one list of records per patient id, in the order of the ids. */
    method GetTasks(ids: seq<string>, perPatient: int, projectType: Option<string>, run: Query -> seq<(string, Document)>)
      returns (r: Result<seq<seq<Document>>>)
      ensures r == TasksOf(ids, projectType, perPatient, run)
    {
      var lists: seq<seq<Document>> := [];
      assert ids[0..] == ids;
      assert Prepend(lists, TasksOf(ids, projectType, perPatient, run)) == TasksOf(ids, projectType, perPatient, run) by {
        var t := TasksOf(ids, projectType, perPatient, run);
        if t.Ok? { assert [] + t.value == t.value; }
      }
      for i := 0 to |ids|
        invariant TasksOf(ids, projectType, perPatient, run) == Prepend(lists, TasksOf(ids[i..], projectType, perPatient, run))
      {
        assert ids[i..][1..] == ids[i + 1..];
        assert ids[i..][0] == ids[i];
        var key := hashId(ids[i]);
        var present := PatientExists(key);
        if present.Fail? {
          return Err(present.error);
        }
        var records := GetData(run(TasksQuery(key, projectType, perPatient)));
        if records.Err? {
          return Err(records.error);
        }
        PrependTwice(lists, [records.value], TasksOf(ids[i + 1..], projectType, perPatient, run));
        lists := lists + [records.value];
      }
      assert ids[|ids|..] == [];
      assert lists + [] == lists;
      r := Ok(lists);
    }

    /** The tasks of one patient id can be listed: the patient exists and every
        task its query returns has a creation date. */
    ghost predicate TaskListOk(id: string, projectType: Option<string>, perPatient: int,
                               run: Query -> seq<(string, Document)>)
      reads this
    {
      hashId(id) in patients && GetData(run(TasksQuery(hashId(id), projectType, perPatient))).Ok?
    }

    /** On success there is one list per id, in the order of the ids, and the
        list at position `i` holds the records of patient `ids[i]`'s query. */
    lemma {:induction false} TasksOfInOrder(ids: seq<string>, projectType: Option<string>, perPatient: int,
                                            run: Query -> seq<(string, Document)>)
      requires TasksOf(ids, projectType, perPatient, run).Ok?
      ensures |TasksOf(ids, projectType, perPatient, run).value| == |ids|
      ensures forall i :: 0 <= i < |ids| ==>
                TaskListOk(ids[i], projectType, perPatient, run) &&
                TasksOf(ids, projectType, perPatient, run).value[i] ==
                  GetData(run(TasksQuery(hashId(ids[i]), projectType, perPatient))).value
      decreases |ids|
    {
      if ids != [] {
        var rest := TasksOf(ids[1..], projectType, perPatient, run);
        TasksOfInOrder(ids[1..], projectType, perPatient, run);
        forall i | 1 <= i < |ids|
          ensures TasksOf(ids, projectType, perPatient, run).value[i] == rest.value[i - 1]
        {
          assert ids[1..][i - 1] == ids[i];
        }
        forall i | 1 <= i < |ids|
          ensures TaskListOk(ids[i], projectType, perPatient, run)
        {
          assert ids[1..][i - 1] == ids[i];
        }
      }
    }

    /** When every id before position `k` can be listed and `ids[k]` cannot, the
        whole call fails with `ids[k]`'s error: a missing patient, or the error
        of reading its tasks. */
    lemma {:induction false} TasksOfFirstFailure(ids: seq<string>, k: nat, projectType: Option<string>, perPatient: int,
                                                 run: Query -> seq<(string, Document)>)
      requires k < |ids|
      requires forall i :: 0 <= i < k ==> TaskListOk(ids[i], projectType, perPatient, run)
      requires !TaskListOk(ids[k], projectType, perPatient, run)
      ensures hashId(ids[k]) !in patients ==>
                TasksOf(ids, projectType, perPatient, run) == Err(PatientNotFound(hashId(ids[k])))
      ensures hashId(ids[k]) in patients ==>
                TasksOf(ids, projectType, perPatient, run) ==
                  Err(GetData(run(TasksQuery(hashId(ids[k]), projectType, perPatient))).error)
      decreases k
    {
      if k > 0 {
        forall i | 0 <= i < k - 1
          ensures TaskListOk(ids[1..][i], projectType, perPatient, run)
        {
          assert ids[1..][i] == ids[i + 1];
        }
        assert ids[1..][k - 1] == ids[k];
        assert TaskListOk(ids[0], projectType, perPatient, run);
        TasksOfFirstFailure(ids[1..], k - 1, projectType, perPatient, run);
      }
    }

    /** `getTasks` succeeds exactly when every id can be listed. */
    lemma {:induction false} TasksOfOkExactly(ids: seq<string>, projectType: Option<string>, perPatient: int,
                                              run: Query -> seq<(string, Document)>)
      ensures TasksOf(ids, projectType, perPatient, run).Ok? <==>
                forall i :: 0 <= i < |ids| ==> TaskListOk(ids[i], projectType, perPatient, run)
      decreases |ids|
    {
      if ids != [] {
        TasksOfOkExactly(ids[1..], projectType, perPatient, run);
        assert (forall i :: 0 <= i < |ids| ==> TaskListOk(ids[i], projectType, perPatient, run)) <==>
               TaskListOk(ids[0], projectType, perPatient, run) &&
               (forall i :: 0 <= i < |ids[1..]| ==> TaskListOk(ids[1..][i], projectType, perPatient, run)) by {
          forall i | 1 <= i < |ids| ensures ids[1..][i - 1] == ids[i] { }
        }
      }
    }

    /** `getTaskOfPatient` (c = Tasks) and `getTodoOfPatient` (c = Todos). */
    function GetDocumentOfPatient(c: Collection, patientId: string, docId: string): (r: Result<Document>)
      reads this
      ensures r.Ok? <==> hashId(patientId) in patients && docId in DocsAt(CollectionPath(hashId(patientId), c))
                         && Field(DocsAt(CollectionPath(hashId(patientId), c))[docId], "dateCreated").Timestamp?
      ensures hashId(patientId) !in patients ==> r == Err(PatientNotFound(hashId(patientId)))
      ensures hashId(patientId) in patients && docId !in DocsAt(CollectionPath(hashId(patientId), c)) ==>
                r == Err(DocumentNotFound(c, docId, hashId(patientId)))
      ensures r.Ok? ==> ("id" in r.value && r.value["id"] == Str(docId) &&
                         forall k :: k != "id" ==> (k in r.value <==> k in DocsAt(CollectionPath(hashId(patientId), c))[docId]))
      ensures r.Ok? ==> forall k :: k != "id" && k in r.value ==> r.value[k] == DocsAt(CollectionPath(hashId(patientId), c))[docId][k]
    {
      var key := hashId(patientId);
      if PatientExists(key).Fail? then Err(PatientNotFound(key))
      else
        var docs := DocsAt(CollectionPath(key, c));
        if docId !in docs then Err(DocumentNotFound(c, docId, key))
        else if !Field(docs[docId], "dateCreated").Timestamp? then Err(TypeError)
        else Ok(docs[docId]["id" := Str(docId)])
    }

    /** `addTaskToPatient` / `addTodoToPatient`: stamps `dateCreated` with the
        current time and stores the document under the id the database picks. */
    method AddDocument(c: Collection, patientId: string, info: Document, newId: string, now: int)
      returns (r: Result<string>)
      requires newId !in DocsAt(CollectionPath(hashId(patientId), c))
      modifies this
      ensures patients == old(patients)
      ensures hashId(patientId) !in patients ==>
                r == Err(PatientNotFound(hashId(patientId))) && collections == old(collections)
      ensures hashId(patientId) in patients ==>
                r == Ok(newId) &&
                collections == old(collections)[CollectionPath(hashId(patientId), c) :=
                  old(DocsAt(CollectionPath(hashId(patientId), c)))[newId := info["dateCreated" := Timestamp(now)]]]
    {
      var key := hashId(patientId);
      var present := PatientExists(key);
      if present.Fail? {
        return Err(present.error);
      }
      var path := CollectionPath(key, c);
      collections := collections[path := DocsAt(path)[newId := info["dateCreated" := Timestamp(now)]]];
      r := Ok(newId);
    }

    /** `updateTaskOfPatient` / `updateTodoOfPatient`: merges the given fields
        into an existing document and leaves everything else alone. */
    method UpdateDocument(c: Collection, patientId: string, docId: string, info: Document)
      returns (r: Result<string>)
      modifies this
      ensures patients == old(patients)
      ensures hashId(patientId) !in patients ==>
                r == Err(PatientNotFound(hashId(patientId))) && collections == old(collections)
      ensures hashId(patientId) in patients && docId !in old(DocsAt(CollectionPath(hashId(patientId), c))) ==>
                r == Err(DocumentNotFound(c, docId, hashId(patientId))) && collections == old(collections)
      ensures hashId(patientId) in patients && docId in old(DocsAt(CollectionPath(hashId(patientId), c))) ==>
                r == Ok(docId) &&
                collections == old(collections)[CollectionPath(hashId(patientId), c) :=
                  old(DocsAt(CollectionPath(hashId(patientId), c)))[docId := old(DocsAt(CollectionPath(hashId(patientId), c)))[docId] + info]]
    {
      var key := hashId(patientId);
      var present := PatientExists(key);
      if present.Fail? {
        return Err(present.error);
      }
      var path := CollectionPath(key, c);
      var docs := DocsAt(path);
      if docId !in docs {
        return Err(DocumentNotFound(c, docId, key));
      }
      collections := collections[path := docs[docId := docs[docId] + info]];
      r := Ok(docId);
    }

    /** `deleteTaskOfPatient` / `deleteTodoOfPatient`: removes an existing document. */
    method DeleteDocument(c: Collection, patientId: string, docId: string)
      returns (r: Result<string>)
      modifies this
      ensures patients == old(patients)
      ensures hashId(patientId) !in patients ==>
                r == Err(PatientNotFound(hashId(patientId))) && collections == old(collections)
      ensures hashId(patientId) in patients && docId !in old(DocsAt(CollectionPath(hashId(patientId), c))) ==>
                r == Err(DocumentNotFound(c, docId, hashId(patientId))) && collections == old(collections)
      ensures hashId(patientId) in patients && docId in old(DocsAt(CollectionPath(hashId(patientId), c))) ==>
                r == Ok(docId) &&
                collections == old(collections)[CollectionPath(hashId(patientId), c) :=
                  old(DocsAt(CollectionPath(hashId(patientId), c))) - {docId}]
    {
      var key := hashId(patientId);
      var present := PatientExists(key);
      if present.Fail? {
        return Err(present.error);
      }
      var path := CollectionPath(key, c);
      var docs := DocsAt(path);
      if docId !in docs {
        return Err(DocumentNotFound(c, docId, key));
      }
      collections := collections[path := docs - {docId}];
      r := Ok(docId);
    }
  }

  /** The last element of a non-empty sequence. */
  function Last<T>(xs: seq<T>): T
    requires xs != []
  {
    xs[|xs| - 1]
  }

  /** Put already computed lists in front of a result. */
  function Prepend<T>(front: seq<T>, r: Result<seq<T>>): Result<seq<T>>
  {
    match r
    case Err(e) => Err(e)
    case Ok(rest) => Ok(front + rest)
  }

  lemma PrependTwice<T>(a: seq<T>, b: seq<T>, r: Result<seq<T>>)
    ensures Prepend(a, Prepend(b, r)) == Prepend(a + b, r)
  {
    if r.Ok? {
      assert a + (b + r.value) == (a + b) + r.value;
    }
  }
}
