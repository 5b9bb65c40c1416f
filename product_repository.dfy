/**
 * The product listing query of the product repository: the filtered,
 * paginated SELECT with its ordered argument list, and the response built
 * from the rows the database returns.
 *
 * A query is a sequence of fragments: fixed SQL text and `?` placeholders.
 * `Render` turns it into the SQL string the repository sends; `Bind` pairs
 * each placeholder with the argument the database substitutes for it.
 */
module ProductRepository {
  import opened Wrappers
  import opened ProductEntity

  datatype Fragment = Sql(text: string) | Placeholder

  type Query = seq<Fragment>

  /** A query argument: the Go values passed are strings and numbers. */
  datatype Arg = Text(s: string) | Number(n: int)

  /** An error reported by the database driver; its contents are not modelled. */
  type DbError(==)

  /** A fragment of a query once its placeholders are bound. */
  datatype Piece = Lit(text: string) | Val(arg: Arg)

  /** The filter-free listing: not-deleted products, with the window count of all matches. */
  const BaseSelect: string := "\n\t\t\tSELECT\n\t\t\t\tCOUNT(p.id) OVER() as total_data,\n\t\t\t\tp.id,\n\t\t\t\tp.name,\n\t\t\t\tp.brand,\n\t\t\t\tp.price,\n\t\t\t\tp.stock,\n\t\t\t\tp.category_id,\n\t\t\t\tp.shop_id,\n\t\t\t\tCOALESCE(p.description, '') as description,\n\t\t\t\tCOALESCE(p.image_url, '') as image_url\n\t\t\tFROM\n\t\t\t\tproduct p\n\t\t\tWHERE\n\t\t\t\tdeleted_at IS NULL\n\t\t"

  const NameSql: string := " AND p.name ILIKE "
  const CategorySql: string := " AND p.category_id = "
  const BrandSql: string := " AND p.brand ILIKE "
  const MinPriceSql: string := " AND p.price >= "
  const MaxPriceSql: string := " AND p.price <= "
  const LimitSql: string := " LIMIT "
  const OffsetSql: string := " OFFSET "

  const BaseQuery: Query := [Sql(BaseSelect)]
  const NameClause: Query := [Sql(NameSql), Placeholder]
  const CategoryClause: Query := [Sql(CategorySql), Placeholder]
  const BrandClause: Query := [Sql(BrandSql), Placeholder]
  const MinPriceClause: Query := [Sql(MinPriceSql), Placeholder]
  const MaxPriceClause: Query := [Sql(MaxPriceSql), Placeholder]
  const PaginationClause: Query := [Sql(LimitSql), Placeholder, Sql(OffsetSql), Placeholder]

  /** The SQL text of a query, each placeholder written `?`. */
  function Render(q: Query): string
  {
    if q == [] then "" else
      (match q[0] case Sql(t) => t case Placeholder => "?") + Render(q[1..])
  }

  lemma {:induction false} RenderConcat(a: Query, b: Query)
    ensures Render(a + b) == Render(a) + Render(b)
  {
    if a == [] {
      assert a + b == b;
    } else {
      assert (a + b)[0] == a[0] && (a + b)[1..] == a[1..] + b;
      RenderConcat(a[1..], b);
    }
  }

  /** The number of placeholders of a query. */
  function Placeholders(q: Query): nat
  {
    if q == [] then 0 else (if q[0].Placeholder? then 1 else 0) + Placeholders(q[1..])
  }

  lemma {:induction false} PlaceholdersConcat(a: Query, b: Query)
    ensures Placeholders(a + b) == Placeholders(a) + Placeholders(b)
  {
    if a == [] {
      assert a + b == b;
    } else {
      assert (a + b)[0] == a[0] && (a + b)[1..] == a[1..] + b;
      PlaceholdersConcat(a[1..], b);
    }
  }

  /** The query with its i-th placeholder replaced by the i-th argument. */
  function Bind(q: Query, args: seq<Arg>): (r: seq<Piece>)
    requires Placeholders(q) == |args|
    ensures |r| == |q|
  {
    if q == [] then [] else
      match q[0]
      case Sql(t) => [Lit(t)] + Bind(q[1..], args)
      case Placeholder => [Val(args[0])] + Bind(q[1..], args[1..])
  }

  lemma {:induction false} BindConcat(a: Query, b: Query, x: seq<Arg>, y: seq<Arg>)
    requires Placeholders(a) == |x| && Placeholders(b) == |y|
    ensures Placeholders(a + b) == |x + y|
    ensures Bind(a + b, x + y) == Bind(a, x) + Bind(b, y)
  {
    PlaceholdersConcat(a, b);
    if a == [] {
      assert a + b == b && x == [] && x + y == y && Bind(a, x) == [];
      assert Bind(a, x) + Bind(b, y) == Bind(b, y);
    } else {
      assert (a + b)[0] == a[0] && (a + b)[1..] == a[1..] + b;
      match a[0]
      case Sql(_) =>
        BindConcat(a[1..], b, x, y);
      case Placeholder =>
        assert (x + y)[0] == x[0] && (x + y)[1..] == x[1..] + y;
        BindConcat(a[1..], b, x[1..], y);
    }
  }

  /** One optional filter: whether it is present, the predicate it adds, and its argument. */
  datatype Criterion = Criterion(present: bool, clause: Query, arg: Arg)

  /**
   * The optional filters in the order they are applied. A string filter is
   * present when non-empty, a price bound when positive; the name and brand
   * arguments are wrapped for substring matching, the others passed as they are.
   */
  function Criteria(f: ListingFilter): (cs: seq<Criterion>)
    ensures |cs| == 5
  {
    [ Criterion(f.productName != "", NameClause, Text("%" + f.productName + "%")),
      Criterion(f.categoryId != "", CategoryClause, Text(f.categoryId)),
      Criterion(f.brand != "", BrandClause, Text("%" + f.brand + "%")),
      Criterion(f.minPrice > 0, MinPriceClause, Number(f.minPrice)),
      Criterion(f.maxPrice > 0, MaxPriceClause, Number(f.maxPrice)) ]
  }

  /** `part` when the filter it belongs to is present, nothing otherwise. */
  function When<T>(present: bool, part: seq<T>): seq<T>
  {
    if present then part else []
  }

  /** The predicates of the present criteria, in order. */
  function Clauses(cs: seq<Criterion>): Query
  {
    if cs == [] then [] else When(cs[0].present, cs[0].clause) + Clauses(cs[1..])
  }

  /** The arguments of the present criteria, in order. */
  function ClauseArgs(cs: seq<Criterion>): seq<Arg>
  {
    if cs == [] then [] else When(cs[0].present, [cs[0].arg]) + ClauseArgs(cs[1..])
  }

  /** Every clause of the criteria holds exactly one placeholder. */
  predicate SinglePlaceholders(cs: seq<Criterion>)
  {
    cs == [] || (Placeholders(cs[0].clause) == 1 && SinglePlaceholders(cs[1..]))
  }

  /** The number of present criteria. */
  function PresentCount(cs: seq<Criterion>): nat
  {
    if cs == [] then 0 else (if cs[0].present then 1 else 0) + PresentCount(cs[1..])
  }

  /** A present criterion's predicate with its own argument bound, or nothing when absent. */
  function Predicate(c: Criterion): seq<Piece>
    requires Placeholders(c.clause) == 1
  {
    When(c.present, Bind(c.clause, [c.arg]))
  }

  /** Each present criterion contributes one argument, and exactly as many placeholders. */
  lemma {:induction false} ClausesMatchArgs(cs: seq<Criterion>)
    requires SinglePlaceholders(cs)
    ensures |ClauseArgs(cs)| == PresentCount(cs)
    ensures Placeholders(Clauses(cs)) == |ClauseArgs(cs)|
  {
    if cs != [] {
      ClausesMatchArgs(cs[1..]);
      PlaceholdersConcat(When(cs[0].present, cs[0].clause), Clauses(cs[1..]));
    }
  }

  /** The predicates of the criteria, each bound to its own argument. */
  function Predicates(cs: seq<Criterion>): seq<Piece>
    requires SinglePlaceholders(cs)
  {
    if cs == [] then [] else Predicate(cs[0]) + Predicates(cs[1..])
  }

  /** Binding the assembled predicates to the assembled arguments binds each predicate to its own argument. */
  lemma {:induction false} BindClauses(cs: seq<Criterion>)
    requires SinglePlaceholders(cs)
    ensures Placeholders(Clauses(cs)) == |ClauseArgs(cs)|
    ensures Bind(Clauses(cs), ClauseArgs(cs)) == Predicates(cs)
  {
    ClausesMatchArgs(cs);
    if cs != [] {
      ClausesMatchArgs(cs[1..]);
      BindClauses(cs[1..]);
      var head := When(cs[0].present, cs[0].clause);
      var headArgs := When(cs[0].present, [cs[0].arg]);
      BindConcat(head, Clauses(cs[1..]), headArgs, ClauseArgs(cs[1..]));
      if !cs[0].present {
        assert Bind(head, headArgs) == [];
      }
    }
  }

  /** The 64-bit offset Go computes for a page: `(page-1)*paginate`, wrapping on overflow. */
  function Offset(page: Int64, paginate: Int64): (r: Int64)
    ensures MinInt64 <= (page - 1) * paginate <= MaxInt64 ==> r == (page - 1) * paginate
  {
    Wrap64(Wrap64(page - 1) * paginate)
  }

  /** The listing query for a filter: base, present predicates, then LIMIT and OFFSET. */
  function ListingQuery(f: ListingFilter): Query
  {
    BaseQuery + Clauses(Criteria(f)) + PaginationClause
  }

  /** The listing arguments: the present filters' arguments, then the limit and the offset. */
  function ListingArgs(f: ListingFilter, page: Int64, paginate: Int64): seq<Arg>
  {
    ClauseArgs(Criteria(f)) + [Number(paginate), Number(Offset(page, paginate))]
  }

  /** A filter predicate holds one placeholder, and binding it yields its text and its argument. */
  lemma OneParameter(sql: string, arg: Arg)
    ensures Placeholders([Sql(sql), Placeholder]) == 1
    ensures Bind([Sql(sql), Placeholder], [arg]) == [Lit(sql), Val(arg)]
  {
    var q := [Sql(sql), Placeholder];
    assert q[1..] == [Placeholder] && q[1..][1..] == [];
    assert Placeholders(q[1..][1..]) == 0;
    assert Placeholders(q[1..]) == 1;
  }

  /**
   * The present filters' predicates with their arguments bound, in the
   * order name, category, brand, minimum price, maximum price.
   */
  function FilterPredicates(f: ListingFilter): seq<Piece>
  {
    When(f.productName != "", [Lit(NameSql), Val(Text("%" + f.productName + "%"))])
    + When(f.categoryId != "", [Lit(CategorySql), Val(Text(f.categoryId))])
    + When(f.brand != "", [Lit(BrandSql), Val(Text("%" + f.brand + "%"))])
    + When(f.minPrice > 0, [Lit(MinPriceSql), Val(Number(f.minPrice))])
    + When(f.maxPrice > 0, [Lit(MaxPriceSql), Val(Number(f.maxPrice))])
  }

  /**
   * The filter predicates, each bound to its own argument, in the fixed
   * order name, category, brand, minimum price, maximum price; an absent
   * filter contributes nothing.
   */
  lemma ClauseBindings(f: ListingFilter)
    ensures SinglePlaceholders(Criteria(f))
    ensures Placeholders(Clauses(Criteria(f))) == |ClauseArgs(Criteria(f))|
    ensures Bind(Clauses(Criteria(f)), ClauseArgs(Criteria(f)))
         == FilterPredicates(f)
  {
    var cs := Criteria(f);
    OneParameter(NameSql, Text("%" + f.productName + "%"));
    OneParameter(CategorySql, Text(f.categoryId));
    OneParameter(BrandSql, Text("%" + f.brand + "%"));
    OneParameter(MinPriceSql, Number(f.minPrice));
    OneParameter(MaxPriceSql, Number(f.maxPrice));
    var c1, c2, c3, c4 := cs[1..], cs[2..], cs[3..], cs[4..];
    assert c4[1..] == [] && c4[0] == cs[4];
    assert c3[1..] == c4 && c3[0] == cs[3];
    assert c2[1..] == c3 && c2[0] == cs[2];
    assert c1[1..] == c2 && c1[0] == cs[1];
    assert SinglePlaceholders(c4);
    assert SinglePlaceholders(c3);
    assert SinglePlaceholders(c2);
    assert SinglePlaceholders(c1);
    assert SinglePlaceholders(cs);
    BindClauses(cs);
    var o0 := When(f.productName != "", [Lit(NameSql), Val(Text("%" + f.productName + "%"))]);
    var o1 := When(f.categoryId != "", [Lit(CategorySql), Val(Text(f.categoryId))]);
    var o2 := When(f.brand != "", [Lit(BrandSql), Val(Text("%" + f.brand + "%"))]);
    var o3 := When(f.minPrice > 0, [Lit(MinPriceSql), Val(Number(f.minPrice))]);
    var o4 := When(f.maxPrice > 0, [Lit(MaxPriceSql), Val(Number(f.maxPrice))]);
    assert Predicate(cs[0]) == o0 && Predicate(cs[1]) == o1 && Predicate(cs[2]) == o2;
    assert Predicate(cs[3]) == o3 && Predicate(cs[4]) == o4;
    assert Predicates(c4[1..]) == [];
    assert Predicates(c4) == o4;
    assert Predicates(c3) == o3 + o4;
    Associative(o2, o3, o4);
    assert Predicates(c2) == o2 + o3 + o4;
    Associative(o1, o2 + o3, o4);
    Associative(o1, o2, o3);
    assert Predicates(c1) == o1 + o2 + o3 + o4;
    Associative(o0, o1 + o2 + o3, o4);
    Associative(o0, o1 + o2, o3);
    Associative(o0, o1, o2);
    assert Predicates(cs) == o0 + o1 + o2 + o3 + o4 == FilterPredicates(f);
  }

  lemma Associative<T>(a: seq<T>, b: seq<T>, c: seq<T>)
    ensures a + (b + c) == a + b + c
  {
  }

  /** The base query has no placeholder; LIMIT and OFFSET have one each. */
  lemma FixedParts(limit: Arg, offset: Arg)
    ensures Placeholders(BaseQuery) == 0
    ensures Bind(BaseQuery, []) == [Lit(BaseSelect)]
    ensures Placeholders(PaginationClause) == 2
    ensures Bind(PaginationClause, [limit, offset]) == [Lit(LimitSql), Val(limit), Lit(OffsetSql), Val(offset)]
  {
    var q := PaginationClause;
    assert BaseQuery[1..] == [];
    assert q[1..][1..][1..][1..] == [];
    assert Placeholders(q[1..][1..][1..]) == 1;
    assert Placeholders(q[1..][1..]) == 1;
    assert Placeholders(q[1..]) == 2;
    var a := [limit, offset];
    assert a[1..] == [offset] && a[1..][1..] == [];
    assert Bind(q[1..][1..][1..], a[1..]) == [Val(offset)];
    assert Bind(q[1..][1..], a[1..]) == [Lit(OffsetSql), Val(offset)];
    assert Bind(q[1..], a) == [Val(limit), Lit(OffsetSql), Val(offset)];
  }

  /**
   * The placeholders of the listing query are exactly as many as its
   * arguments, one per present filter plus LIMIT and OFFSET.
   */
  lemma ListingPlaceholders(f: ListingFilter, page: Int64, paginate: Int64)
    ensures Placeholders(ListingQuery(f)) == |ListingArgs(f, page, paginate)|
    ensures |ListingArgs(f, page, paginate)| == PresentCount(Criteria(f)) + 2
  {
    ClauseBindings(f);
    ClausesMatchArgs(Criteria(f));
    FixedParts(Number(paginate), Number(Offset(page, paginate)));
    PlaceholdersConcat(BaseQuery, Clauses(Criteria(f)));
    PlaceholdersConcat(BaseQuery + Clauses(Criteria(f)), PaginationClause);
  }

  /**
   * What the database receives: the base query, then each present filter's
   * predicate bound to its own argument in the order name, category, brand,
   * minimum price, maximum price, and last LIMIT bound to the page size and
   * OFFSET to the offset of the page.
   */
  lemma ListingBinding(f: ListingFilter, page: Int64, paginate: Int64)
    ensures Placeholders(ListingQuery(f)) == |ListingArgs(f, page, paginate)|
    ensures Bind(ListingQuery(f), ListingArgs(f, page, paginate))
         == [Lit(BaseSelect)] + FilterPredicates(f)
          + [Lit(LimitSql), Val(Number(paginate)), Lit(OffsetSql), Val(Number(Offset(page, paginate)))]
  {
    var cs := Criteria(f);
    var tail := [Number(paginate), Number(Offset(page, paginate))];
    ClauseBindings(f);
    FixedParts(tail[0], tail[1]);
    assert [tail[0], tail[1]] == tail;
    BindConcat(BaseQuery, Clauses(cs), [], ClauseArgs(cs));
    assert [] + ClauseArgs(cs) == ClauseArgs(cs);
    BindConcat(BaseQuery + Clauses(cs), PaginationClause, ClauseArgs(cs), tail);
  }

  /** The assembled predicates and arguments, filter by filter in the fixed order. */
  lemma ClausesInOrder(f: ListingFilter)
    ensures Clauses(Criteria(f))
         == When(f.productName != "", NameClause)
          + When(f.categoryId != "", CategoryClause)
          + When(f.brand != "", BrandClause)
          + When(f.minPrice > 0, MinPriceClause)
          + When(f.maxPrice > 0, MaxPriceClause)
    ensures ClauseArgs(Criteria(f))
         == When(f.productName != "", [Text("%" + f.productName + "%")])
          + When(f.categoryId != "", [Text(f.categoryId)])
          + When(f.brand != "", [Text("%" + f.brand + "%")])
          + When(f.minPrice > 0, [Number(f.minPrice)])
          + When(f.maxPrice > 0, [Number(f.maxPrice)])
  {
    var cs := Criteria(f);
    var c1, c2, c3, c4 := cs[1..], cs[2..], cs[3..], cs[4..];
    assert c4[1..] == [] && c4[0] == cs[4];
    assert c3[1..] == c4 && c3[0] == cs[3];
    assert c2[1..] == c3 && c2[0] == cs[2];
    assert c1[1..] == c2 && c1[0] == cs[1];
    var q0 := When(f.productName != "", NameClause);
    var q1 := When(f.categoryId != "", CategoryClause);
    var q2 := When(f.brand != "", BrandClause);
    var q3 := When(f.minPrice > 0, MinPriceClause);
    var q4 := When(f.maxPrice > 0, MaxPriceClause);
    assert Clauses(c4[1..]) == [];
    assert Clauses(c4) == q4;
    assert Clauses(c3) == q3 + q4;
    Associative(q2, q3, q4);
    assert Clauses(c2) == q2 + q3 + q4;
    Associative(q1, q2 + q3, q4);
    Associative(q1, q2, q3);
    assert Clauses(c1) == q1 + q2 + q3 + q4;
    Associative(q0, q1 + q2 + q3, q4);
    Associative(q0, q1 + q2, q3);
    Associative(q0, q1, q2);
    assert Clauses(cs) == q0 + q1 + q2 + q3 + q4;
    var a0 := When(f.productName != "", [Text("%" + f.productName + "%")]);
    var a1 := When(f.categoryId != "", [Text(f.categoryId)]);
    var a2 := When(f.brand != "", [Text("%" + f.brand + "%")]);
    var a3 := When(f.minPrice > 0, [Number(f.minPrice)]);
    var a4 := When(f.maxPrice > 0, [Number(f.maxPrice)]);
    assert ClauseArgs(c4[1..]) == [];
    assert ClauseArgs(c4) == a4;
    assert ClauseArgs(c3) == a3 + a4;
    Associative(a2, a3, a4);
    assert ClauseArgs(c2) == a2 + a3 + a4;
    Associative(a1, a2 + a3, a4);
    Associative(a1, a2, a3);
    assert ClauseArgs(c1) == a1 + a2 + a3 + a4;
    Associative(a0, a1 + a2 + a3, a4);
    Associative(a0, a1 + a2, a3);
    Associative(a0, a1, a2);
    assert ClauseArgs(cs) == a0 + a1 + a2 + a3 + a4;
  }

  /**
   * The SQL text the present filters add, in the order name, category,
   * brand, minimum price, maximum price.
   */
  function FilterSql(f: ListingFilter): string
  {
    When(f.productName != "", " AND p.name ILIKE ?")
    + When(f.categoryId != "", " AND p.category_id = ?")
    + When(f.brand != "", " AND p.brand ILIKE ?")
    + When(f.minPrice > 0, " AND p.price >= ?")
    + When(f.maxPrice > 0, " AND p.price <= ?")
  }

  /**
   * The SQL text of the listing query is the base SELECT followed by the
   * predicate of each present filter, in order, and then ` LIMIT ? OFFSET ?`.
   */
  lemma ListingText(f: ListingFilter)
    ensures Render(ListingQuery(f)) == BaseSelect + FilterSql(f) + " LIMIT ? OFFSET ?"
  {
    var cs := Clauses(Criteria(f));
    FilterText(f);
    PaginationText();
    assert BaseQuery[1..] == [];
    assert Render(BaseQuery) == BaseSelect;
    RenderConcat(BaseQuery, cs);
    RenderConcat(BaseQuery + cs, PaginationClause);
  }

  /** The present predicates render, in order, as their ` AND … ?` texts. */
  lemma FilterText(f: ListingFilter)
    ensures Render(Clauses(Criteria(f))) == FilterSql(f)
  {
    ClausesInOrder(f);
    var q0 := When(f.productName != "", NameClause);
    var q1 := When(f.categoryId != "", CategoryClause);
    var q2 := When(f.brand != "", BrandClause);
    var q3 := When(f.minPrice > 0, MinPriceClause);
    var q4 := When(f.maxPrice > 0, MaxPriceClause);
    ClauseText(f.productName != "", NameSql, " AND p.name ILIKE ?");
    ClauseText(f.categoryId != "", CategorySql, " AND p.category_id = ?");
    ClauseText(f.brand != "", BrandSql, " AND p.brand ILIKE ?");
    ClauseText(f.minPrice > 0, MinPriceSql, " AND p.price >= ?");
    ClauseText(f.maxPrice > 0, MaxPriceSql, " AND p.price <= ?");
    RenderFive(q0, q1, q2, q3, q4);
  }

  /** Rendering five parts one after the other is rendering each in turn. */
  lemma RenderFive(q0: Query, q1: Query, q2: Query, q3: Query, q4: Query)
    ensures Render(q0 + q1 + q2 + q3 + q4) == Render(q0) + Render(q1) + Render(q2) + Render(q3) + Render(q4)
  {
    RenderConcat(q0, q1);
    RenderConcat(q0 + q1, q2);
    RenderConcat(q0 + q1 + q2, q3);
    RenderConcat(q0 + q1 + q2 + q3, q4);
  }

  /** A filter predicate renders as its SQL text followed by one `?`. */
  lemma ClauseText(present: bool, sql: string, text: string)
    requires text == sql + "?"
    ensures Render(When(present, [Sql(sql), Placeholder])) == When(present, text)
  {
    var q := [Sql(sql), Placeholder];
    assert q[1..] == [Placeholder] && q[1..][1..] == [];
    assert Render(q[1..]) == "?";
  }

  lemma PaginationText()
    ensures Render(PaginationClause) == " LIMIT ? OFFSET ?"
  {
    var q := PaginationClause;
    assert q[1..][1..][1..][1..] == [];
    assert Render(q[1..][1..][1..]) == "?";
    assert Render(q[1..][1..]) == OffsetSql + "?";
    assert Render(q[1..]) == "?" + OffsetSql + "?";
  }

  /**
   * The limit and the offset are always the last two arguments: the page
   * size, then `(page-1)*paginate`; with no filter present they are the only ones.
   */
  lemma PaginationArgsLast(f: ListingFilter, page: Int64, paginate: Int64)
    ensures var args := ListingArgs(f, page, paginate);
      |args| >= 2 && args[|args| - 2] == Number(paginate) && args[|args| - 1] == Number(Offset(page, paginate))
    ensures PresentCount(Criteria(f)) == 0 ==> ListingArgs(f, page, paginate) == [Number(paginate), Number(Offset(page, paginate))]
  {
    ListingPlaceholders(f, page, paginate);
  }

  /** With no filter present the query is the base query followed by LIMIT and OFFSET. */
  lemma NoFilters(f: ListingFilter, page: Int64, paginate: Int64)
    requires f.productName == "" && f.categoryId == "" && f.brand == "" && f.minPrice <= 0 && f.maxPrice <= 0
    ensures ListingQuery(f) == BaseQuery + PaginationClause
    ensures ListingArgs(f, page, paginate) == [Number(paginate), Number(Offset(page, paginate))]
  {
    ClausesInOrder(f);
  }

  /**
   * After defaulting, the limit is at least 1 and, as long as
   * `(page-1)*paginate` fits in a 64-bit integer, the offset is that product
   * and is not negative.
   */
  lemma DefaultedPagination(page: Int64, paginate: Int64)
    requires (DefaultedPage(page) - 1) * DefaultedPaginate(paginate) <= MaxInt64
    ensures DefaultedPaginate(paginate) >= 1
    ensures Offset(DefaultedPage(page), DefaultedPaginate(paginate))
         == (DefaultedPage(page) - 1) * DefaultedPaginate(paginate) >= 0
  {
    var pg, size := DefaultedPage(page), DefaultedPaginate(paginate);
    NonNegativeProduct(pg - 1, size);
    assert Offset(pg, size) == (pg - 1) * size;
  }

  /** A product of two non-negative integers is non-negative. */
  lemma NonNegativeProduct(a: int, b: int)
    requires a >= 0 && b >= 0
    ensures a * b >= 0
  {
  }

  /**
   * The offset wraps around: page 2^61 + 1 of size 4 is already defaulted,
   * yet its offset is the most negative 64-bit integer.
   */
  lemma OffsetCanWrap()
    ensures DefaultedPage(0x2000_0000_0000_0001) == 0x2000_0000_0000_0001
    ensures DefaultedPaginate(4) == 4
    ensures Offset(0x2000_0000_0000_0001, 4) == MinInt64
  {
    assert Wrap64(0x2000_0000_0000_0001 - 1) == 0x2000_0000_0000_0000;
    assert 0x2000_0000_0000_0000 * 4 == 0x8000_0000_0000_0000;
    assert Wrap64(0x8000_0000_0000_0000) == MinInt64;
  }

  /**
   * Builds the listing query and its arguments the way the repository
   * grows them: the base query, one predicate and one argument per present
   * filter, then LIMIT and OFFSET with the page size and the page offset.
   */
  method BuildQuery(req: GetProductsRequest) returns (query: Query, args: seq<Arg>)
    ensures query == ListingQuery(req.Filter())
    ensures args == ListingArgs(req.Filter(), req.page, req.paginate)
  {
    ghost var f := req.Filter();
    query := BaseQuery;
    args := [];
    if req.productName != "" {
      query := query + NameClause;
      args := args + [Text("%" + req.productName + "%")];
    }
    ghost var qs := When(f.productName != "", NameClause);
    ghost var xs := When(f.productName != "", [Text("%" + f.productName + "%")]);
    assert query == BaseQuery + qs && args == xs;
    if req.categoryId != "" {
      query := query + CategoryClause;
      args := args + [Text(req.categoryId)];
    }
    ghost var q, a := When(f.categoryId != "", CategoryClause), When(f.categoryId != "", [Text(f.categoryId)]);
    Associative(BaseQuery, qs, q);
    qs, xs := qs + q, xs + a;
    assert query == BaseQuery + qs && args == xs;
    if req.brand != "" {
      query := query + BrandClause;
      args := args + [Text("%" + req.brand + "%")];
    }
    q, a := When(f.brand != "", BrandClause), When(f.brand != "", [Text("%" + f.brand + "%")]);
    Associative(BaseQuery, qs, q);
    qs, xs := qs + q, xs + a;
    assert query == BaseQuery + qs && args == xs;
    if req.minPrice > 0 {
      query := query + MinPriceClause;
      args := args + [Number(req.minPrice)];
    }
    q, a := When(f.minPrice > 0, MinPriceClause), When(f.minPrice > 0, [Number(f.minPrice)]);
    Associative(BaseQuery, qs, q);
    qs, xs := qs + q, xs + a;
    assert query == BaseQuery + qs && args == xs;
    if req.maxPrice > 0 {
      query := query + MaxPriceClause;
      args := args + [Number(req.maxPrice)];
    }
    q, a := When(f.maxPrice > 0, MaxPriceClause), When(f.maxPrice > 0, [Number(f.maxPrice)]);
    Associative(BaseQuery, qs, q);
    qs, xs := qs + q, xs + a;
    assert query == BaseQuery + qs && args == xs;
    ClausesInOrder(f);
    assert qs == Clauses(Criteria(f)) && xs == ClauseArgs(Criteria(f));
    query := query + PaginationClause;
    args := args + [Number(req.paginate), Number(Offset(req.page, req.paginate))];
  }

  /** A result row: the window count of all matching products, then the product. */
  datatype Row = Row(totalData: Int64, item: ProductItem)

  /**
   * Builds the response from the rows: the products in row order, and the
   * total taken from the first row (0 when there is none).
   */
  method AssembleResponse(data: seq<Row>) returns (resp: GetProductsResponse)
    ensures |resp.items| == |data|
    ensures forall i :: 0 <= i < |data| ==> resp.items[i] == data[i].item
    ensures resp.meta.totalData == if |data| > 0 then data[0].totalData else 0
  {
    resp := GetProductsResponse([], Meta(0));
    if |data| > 0 {
      resp := resp.(meta := Meta(data[0].totalData));
    }
    for i := 0 to |data|
      invariant |resp.items| == i
      invariant forall k :: 0 <= k < i ==> resp.items[k] == data[k].item
      invariant resp.meta.totalData == if |data| > 0 then data[0].totalData else 0
    {
      resp := resp.(items := resp.items + [data[i].item]);
    }
  }

  /**
   * Lists products: sends the listing query with its arguments to the
   * database (`selectRows`) and either passes its error on or builds the
   * response from the rows it returns.
   */
  method GetProducts(req: GetProductsRequest, selectRows: (Query, seq<Arg>) -> Result<seq<Row>, DbError>)
    returns (r: Result<GetProductsResponse, DbError>)
    requires req.paginate >= 0
    ensures var sent := selectRows(ListingQuery(req.Filter()), ListingArgs(req.Filter(), req.page, req.paginate));
      match sent
      case Failure(e) => r == Failure(e)
      case Success(rows) =>
        && r.Success?
        && |r.value.items| == |rows|
        && (forall i :: 0 <= i < |rows| ==> r.value.items[i] == rows[i].item)
        && r.value.meta.totalData == if |rows| > 0 then rows[0].totalData else 0
  {
    var query, args := BuildQuery(req);
    var data := selectRows(query, args);
    if data.Failure? {
      return Failure(data.error);
    }
    var resp := AssembleResponse(data.value);
    r := Success(resp);
  }
}
