/** The listing handler `transaction.getAll`: how the `where` record and the
    sort order passed to the store are built from the query string. */
module TransactionFilter {
  import opened Types
  import opened Text

  /** The query string of the listing route; every field may be absent. The
      route declares no schema for it, so any string can arrive. */
  datatype ListQuery = ListQuery(
    startDate: Option<string>,
    endDate: Option<string>,
    txType: Option<string>,
    categoryId: Option<string>)

  /** The start of the first day and the end of the last day, in Asia/Bangkok
      time. How a date string becomes such an instant is not modelled: it is a
      parameter. */
  datatype Calendar = Calendar(startOfDay: string -> Instant, endOfDay: string -> Instant)

  datatype DateBounds = DateBounds(gte: Instant, lte: Instant)

  datatype CategoryFilter = AnyCategory | CategoryIs(id: int) | CategoryIn(ids: seq<int>)

  /** The `where` record handed to the store. */
  datatype Where = Where(
    userId: int,
    date: Option<DateBounds>,
    category: CategoryFilter,
    txType: Option<TxType>)

  /** A sort key; every key of the listing is descending. */
  datatype SortField = ByDate | ById

  datatype ListArgs = ListArgs(where: Where, orderBy: seq<SortField>)

  /** The listing's sort order: newest first, then highest id first. */
  const ListOrder: seq<SortField> := [ByDate, ById]

  const MsgFetchFailed: string := "Failed to fetch transactions"

  // ---------------------------------------------------------------------------
  // The parts of the filter
  // ---------------------------------------------------------------------------

  /** The date range: only when both bounds are given and non-empty. */
  function DateGate(startDate: Option<string>, endDate: Option<string>, cal: Calendar): (r: Option<DateBounds>)
    ensures r.Some? <==> Truthy(startDate) && Truthy(endDate)
    ensures r.Some? ==> r.value.gte == cal.startOfDay(startDate.value) && r.value.lte == cal.endOfDay(endDate.value)
  {
    if Truthy(startDate) && Truthy(endDate) then
      Some(DateBounds(cal.startOfDay(startDate.value), cal.endOfDay(endDate.value)))
    else None
  }

  /** The values of `categoryId` that mean "every category". */
  predicate IsSentinel(s: string)
  {
    s == "" || s == "ALL" || s == "undefined"
  }

  /** The id a token stands for when it is kept: `Number(token.trim())` is a
      number greater than zero. */
  function TokenId(token: string): (r: Option<int>)
    ensures r.Some? <==> JsNumber(token).Some? && JsNumber(token).value > 0
    ensures r.Some? ==> r == JsNumber(token)
  {
    JsNumberTrim(token);
    var n := JsNumber(Trim(token));
    if n.Some? && n.value > 0 then n else None
  }

  /** The present readings of a list of tokens, in token order: each token is
      read, and only the readings that are present are kept. */
  function Kept(tokens: seq<string>, read: string -> Option<int>): (r: seq<int>)
    ensures |r| <= |tokens|
    decreases |tokens|
  {
    if tokens == [] then []
    else
      var head := read(tokens[0]);
      (if head.Some? then [head.value] else []) + Kept(tokens[1..], read)
  }

  /** The ids of a comma-separated list (controller/transactioncontroller.ts:108-111):
      each token is read as a number after trimming, and only the readings that
      are numbers greater than zero are kept, in token order. */
  function TokenIds(tokens: seq<string>): (r: seq<int>)
    ensures |r| <= |tokens|
    ensures forall i :: 0 <= i < |r| ==> r[i] > 0
  {
    KeptPositive(tokens, TokenId);
    Kept(tokens, TokenId)
  }

  /** The category filter parsed from `categoryId`. */
  function CategoryFilterOf(categoryId: Option<string>): (r: CategoryFilter)
    ensures categoryId.None? || IsSentinel(categoryId.value) ==> r == AnyCategory
    ensures r.CategoryIn? ==> ',' in categoryId.value && r.ids == TokenIds(Split(categoryId.value, ','))
    ensures r.CategoryIs? ==> ',' !in categoryId.value && TokenId(categoryId.value) == Some(r.id)
    ensures categoryId.Some? && !IsSentinel(categoryId.value) && ',' in categoryId.value
      ==> (r.CategoryIn? <==> |TokenIds(Split(categoryId.value, ','))| > 0)
    ensures categoryId.Some? && !IsSentinel(categoryId.value) && ',' !in categoryId.value
      ==> (r.CategoryIs? <==> TokenId(categoryId.value).Some?)
  {
    if categoryId.None? || IsSentinel(categoryId.value) then AnyCategory
    else
      var catStr := categoryId.value;
      if ',' in catStr then
        var ids := TokenIds(Split(catStr, ','));
        if |ids| > 0 then CategoryIn(ids) else AnyCategory
      else
        var id := JsNumber(catStr);
        if id.Some? && id.value > 0 then CategoryIs(id.value) else AnyCategory
  }

  /** The type filter: only an exact enum value; "ALL" and anything else leave
      the type open. */
  function TypeFilterOf(txType: Option<string>): (r: Option<TxType>)
    ensures r.Some? <==> txType == Some("INCOME") || txType == Some("EXPENSE")
    ensures r.Some? ==> txType == Some(TypeName(r.value))
  {
    if Truthy(txType) && txType.value != "ALL" then TypeFromName(txType.value) else None
  }

  /** The whole `where` record for a signed-in user. */
  function WhereFor(userId: int, query: ListQuery, cal: Calendar): (w: Where)
    ensures w.userId == userId
  {
    Where(userId, DateGate(query.startDate, query.endDate, cal),
          CategoryFilterOf(query.categoryId), TypeFilterOf(query.txType))
  }

  // ---------------------------------------------------------------------------
  // The handler
  // ---------------------------------------------------------------------------

  /** `getAll`: reject a missing user, build the filter field by field, ask the
      store, and turn a store failure into a plain error. */
  method GetAll(user: Option<Profile>, query: ListQuery, cal: Calendar, findMany: ListArgs -> Reply<seq<Tx>>)
    returns (r: Outcome<seq<Tx>>)
    ensures SignedInId(user).None? ==> r == Thrown(AuthenticationError(MsgPleaseSignIn))
    ensures SignedInId(user).Some? ==>
      var args := ListArgs(WhereFor(SignedInId(user).value, query, cal), ListOrder);
      r == (if findMany(args).Rows? then Done(findMany(args).rows) else Thrown(PlainError(MsgFetchFailed)))
  {
    var uid := SignedInId(user);
    if uid.None? {
      return Thrown(AuthenticationError(MsgPleaseSignIn));
    }
    var where := Where(uid.value, None, AnyCategory, None);

    if Truthy(query.startDate) && Truthy(query.endDate) {
      var start := cal.startOfDay(query.startDate.value);
      var end := cal.endOfDay(query.endDate.value);
      where := where.(date := Some(DateBounds(start, end)));
    }

    var categoryId := query.categoryId;
    if categoryId.Some? && !IsSentinel(categoryId.value) {
      var catStr := categoryId.value;
      if ',' in catStr {
        var ids := TokenIds(Split(catStr, ','));
        if |ids| > 0 {
          where := where.(category := CategoryIn(ids));
        }
      } else {
        var id := JsNumber(catStr);
        if id.Some? && id.value > 0 {
          where := where.(category := CategoryIs(id.value));
        }
      }
    }

    var txType := query.txType;
    if Truthy(txType) && txType.value != "ALL" {
      var t := TypeFromName(txType.value);
      if t.Some? {
        where := where.(txType := t);
      }
    }

    var reply := findMany(ListArgs(where, ListOrder));
    if reply.Rows? {
      r := Done(reply.rows);
    } else {
      r := Thrown(PlainError(MsgFetchFailed));
    }
  }

  // ---------------------------------------------------------------------------
  // What the filter selects
  // ---------------------------------------------------------------------------

  predicate CategoryMatches(f: CategoryFilter, categoryId: int)
  {
    match f
    case AnyCategory => true
    case CategoryIs(id) => categoryId == id
    case CategoryIn(ids) => categoryId in ids
  }

  /** The rows the store returns for a `where` record. */
  predicate Matches(w: Where, row: Tx)
  {
    && row.userId == w.userId
    && (w.date.Some? ==> w.date.value.gte <= row.date <= w.date.value.lte)
    && CategoryMatches(w.category, row.categoryId)
    && (w.txType.Some? ==> row.txType == w.txType.value)
  }

  /** Only the caller's own rows are listed, and with no filter in the query every
      one of them is. */
  lemma ListingIsOwnerScoped(userId: int, query: ListQuery, cal: Calendar, row: Tx)
    ensures Matches(WhereFor(userId, query, cal), row) ==> row.userId == userId
    ensures query == ListQuery(None, None, None, None) ==>
      (Matches(WhereFor(userId, query, cal), row) <==> row.userId == userId)
  {
  }

  /** Keeping readings commutes with concatenation: order and duplicates are
      preserved. */
  lemma {:induction false} KeptAppend(a: seq<string>, b: seq<string>, read: string -> Option<int>)
    ensures Kept(a + b, read) == Kept(a, read) + Kept(b, read)
    decreases |a|
  {
    if a == [] {
      assert a + b == b;
    } else {
      var h := if read(a[0]).Some? then [read(a[0]).value] else [];
      assert (a + b)[0] == a[0];
      assert (a + b)[1..] == a[1..] + b;
      KeptAppend(a[1..], b, read);
      assert h + (Kept(a[1..], read) + Kept(b, read)) == (h + Kept(a[1..], read)) + Kept(b, read);
    }
  }

  /** Every kept reading comes from some token, and the lemma names that token. */
  lemma {:induction false} KeptSound(tokens: seq<string>, read: string -> Option<int>, v: int) returns (i: nat)
    requires v in Kept(tokens, read)
    ensures i < |tokens| && read(tokens[i]) == Some(v)
    decreases |tokens|
  {
    var rest := tokens[1..];
    if read(tokens[0]) == Some(v) {
      i := 0;
    } else {
      assert v in Kept(rest, read);
      var k := KeptSound(rest, read, v);
      assert tokens[k + 1] == rest[k];
      i := k + 1;
    }
  }

  /** Every present reading of a token is kept. */
  lemma {:induction false} KeptComplete(tokens: seq<string>, read: string -> Option<int>, i: nat, v: int)
    requires i < |tokens| && read(tokens[i]) == Some(v)
    ensures v in Kept(tokens, read)
    decreases |tokens|
  {
    if i > 0 {
      assert tokens[1..][i - 1] == tokens[i];
      KeptComplete(tokens[1..], read, i - 1, v);
    }
  }

  /** A reading that is only ever a positive number keeps positive numbers only. */
  lemma KeptPositive(tokens: seq<string>, read: string -> Option<int>)
    requires forall t :: read(t).Some? ==> read(t).value > 0
    ensures forall i :: 0 <= i < |Kept(tokens, read)| ==> Kept(tokens, read)[i] > 0
  {
    var r := Kept(tokens, read);
    forall i | 0 <= i < |r|
      ensures r[i] > 0
    {
      var k := KeptSound(tokens, read, r[i]);
    }
  }

  /** The ids of a token list are the ids of its parts, in order. */
  lemma TokenIdsAppend(a: seq<string>, b: seq<string>)
    ensures TokenIds(a + b) == TokenIds(a) + TokenIds(b)
  {
    KeptAppend(a, b, TokenId);
  }

  /** An id is kept exactly when some token reads as that positive number. */
  lemma TokenIdsMembership(tokens: seq<string>, v: int)
    ensures v in TokenIds(tokens) <==> exists i :: 0 <= i < |tokens| && TokenId(tokens[i]) == Some(v)
  {
    if v in TokenIds(tokens) {
      var i := KeptSound(tokens, TokenId, v);
    }
    forall i | 0 <= i < |tokens| && TokenId(tokens[i]) == Some(v)
      ensures v in TokenIds(tokens)
    {
      KeptComplete(tokens, TokenId, i, v);
    }
  }

  /** A digit string is no sentinel and holds no comma. */
  lemma DigitsArePlain(s: string)
    requires |s| >= 1 && AllDigits(s)
    ensures !IsSentinel(s) && ',' !in s
  {
    assert IsDigit(s[0]);
    assert s != "ALL" && s != "undefined";
    forall i | 0 <= i < |s| ensures s[i] != ',' {
      assert IsDigit(s[i]);
    }
  }

  /** An empty token reads as 0 and is dropped. */
  lemma EmptyTokenDropped()
    ensures TokenId("") == None
  {
    assert TrimStart("") == "";
    assert Trim("") == "";
    assert JsNumber("") == Some(0);
  }

  /** A trailing comma adds one empty token, which is dropped. */
  lemma TrailingCommaIds(s: string, n: int)
    requires ',' !in s && TokenId(s) == Some(n)
    ensures TokenIds(Split(s + ",", ',')) == [n]
  {
    var t := s + [','] + [];
    assert s + "," == t;
    SplitAfterPrefix(s, ',', []);
    assert Split(t, ',') == [s] + Split([], ',');
    var toks := [s, ""];
    assert Split(t, ',') == toks;
    EmptyTokenDropped();
    assert TokenIds(toks[1..]) == [];
  }

  /** A comma-free token followed by a comma is a one-element list filter. */
  lemma TrailingCommaFilter(s: string, n: int)
    requires ',' !in s && TokenId(s) == Some(n)
    ensures CategoryFilterOf(Some(s + ",")) == CategoryIn([n])
  {
    var t := s + ",";
    assert t[|s|] == ',';
    assert ',' in t;
    assert !IsSentinel(t) by {
      assert ',' !in "ALL" && ',' !in "undefined";
    }
    TrailingCommaIds(s, n);
  }

  /** A comma-free, non-sentinel token is an equality filter on its id. */
  lemma SingleTokenFilter(s: string, n: int)
    requires ',' !in s && !IsSentinel(s) && TokenId(s) == Some(n)
    ensures CategoryFilterOf(Some(s)) == CategoryIs(n)
  {
  }

  /** A digit string, leading zeros included (`"05"`), filters by its decimal
      value when that value is positive. */
  lemma DigitsFilter(d: string)
    requires |d| >= 1 && AllDigits(d) && DigitsValue(d) > 0
    ensures CategoryFilterOf(Some(d)) == CategoryIs(DigitsValue(d))
  {
    assert TokenId(d) == Some(DigitsValue(d)) by {
      JsNumberDigits(d);
    }
    assert ',' !in d && !IsSentinel(d) by {
      assert IsDigit(d[0]);
    }
    SingleTokenFilter(d, DigitsValue(d));
  }

  /** `"5"` and `"5,"` select the same rows: the list form is a membership
      filter over the same parsed id. */
  lemma SingleAndListAgree(n: nat, categoryId: int)
    requires n > 0
    ensures CategoryFilterOf(Some(ShowNat(n))) == CategoryIs(n)
    ensures CategoryFilterOf(Some(ShowNat(n) + ",")) == CategoryIn([n])
    ensures CategoryMatches(CategoryIs(n), categoryId) == CategoryMatches(CategoryIn([n]), categoryId)
  {
    var s := ShowNat(n);
    JsNumberShowNat(n);
    DigitsArePlain(s);
    assert TokenId(s) == Some(n);
    SingleTokenFilter(s, n);
    TrailingCommaFilter(s, n);
  }

  /** The sentinels and an absent `categoryId` filter nothing out. */
  lemma SentinelsSelectEverything(categoryId: Option<string>, id: int)
    requires categoryId in {None, Some(""), Some("ALL"), Some("undefined")}
    ensures CategoryFilterOf(categoryId) == AnyCategory
    ensures CategoryMatches(CategoryFilterOf(categoryId), id)
  {
  }

  /** A list of tokens none of which is a positive number gives no filter at all. */
  lemma NoValidTokenNoFilter(s: string)
    requires !IsSentinel(s) && ',' in s
    requires forall i :: 0 <= i < |Split(s, ',')| ==> TokenId(Split(s, ',')[i]).None?
    ensures CategoryFilterOf(Some(s)) == AnyCategory
  {
    var toks := Split(s, ',');
    if |TokenIds(toks)| > 0 {
      var i := KeptSound(toks, TokenId, TokenIds(toks)[0]);
    }
  }

  // ---------------------------------------------------------------------------
  // The sort order
  // ---------------------------------------------------------------------------

  function Key(f: SortField, row: Tx): int
  {
    match f
    case ByDate => row.date
    case ById => row.id
  }

  /** `a` is listed before `b` under descending keys, compared in turn. */
  predicate Precedes(keys: seq<SortField>, a: Tx, b: Tx)
    decreases |keys|
  {
    keys != [] &&
    (Key(keys[0], a) > Key(keys[0], b) ||
     (Key(keys[0], a) == Key(keys[0], b) && Precedes(keys[1..], a, b)))
  }

  /** No row precedes a row that precedes it. */
  lemma {:induction false} PrecedesAsymmetric(keys: seq<SortField>, a: Tx, b: Tx)
    ensures !(Precedes(keys, a, b) && Precedes(keys, b, a))
    decreases |keys|
  {
    if keys != [] {
      PrecedesAsymmetric(keys[1..], a, b);
    }
  }

  lemma {:induction false} PrecedesTransitive(keys: seq<SortField>, a: Tx, b: Tx, c: Tx)
    requires Precedes(keys, a, b) && Precedes(keys, b, c)
    ensures Precedes(keys, a, c)
    decreases |keys|
  {
    if Key(keys[0], a) == Key(keys[0], b) == Key(keys[0], c) {
      PrecedesTransitive(keys[1..], a, b, c);
    }
  }

  /** Any keys that end in the id decide between two different rows. */
  lemma {:induction false} PrecedesTotal(keys: seq<SortField>, a: Tx, b: Tx)
    requires ById in keys && a.id != b.id
    ensures Precedes(keys, a, b) || Precedes(keys, b, a)
    decreases |keys|
  {
    if keys[0] != ById {
      PrecedesTotal(keys[1..], a, b);
    }
  }

  /** The listing's order is a strict total order on rows with distinct ids, so
      the store's answer is fully determined. */
  lemma ListOrderIsStrictTotal(a: Tx, b: Tx, c: Tx)
    ensures !Precedes(ListOrder, a, a)
    ensures a.id != b.id ==> (Precedes(ListOrder, a, b) <==> !Precedes(ListOrder, b, a))
    ensures Precedes(ListOrder, a, b) && Precedes(ListOrder, b, c) ==> Precedes(ListOrder, a, c)
  {
    PrecedesAsymmetric(ListOrder, a, a);
    PrecedesAsymmetric(ListOrder, a, b);
    if a.id != b.id {
      PrecedesTotal(ListOrder, a, b);
    }
    if Precedes(ListOrder, a, b) && Precedes(ListOrder, b, c) {
      PrecedesTransitive(ListOrder, a, b, c);
    }
  }
}
