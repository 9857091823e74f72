/**
 * Tag search (src/tag.rs): the numeric category codes, the query builder and
 * its rule that an order never stands beside a Before/After cursor, and one
 * step of the paginated search that picks the next cursor from the ids of
 * the page just read.
 */
module Tag {
  import opened Wrappers
  import opened Decimal
  import opened Errors
  import opened Client

  datatype Category = General | Artist | Copyright | Character | Species | Invalid | Meta | Lore

  /** The discriminant of each category; 2 is not used. */
  function Code(c: Category): (n: u8)
    ensures n <= 8 && n != 2
  {
    match c
    case General => 0
    case Artist => 1
    case Copyright => 3
    case Character => 4
    case Species => 5
    case Invalid => 6
    case Meta => 7
    case Lore => 8
  }

  /** The category with a given discriminant, if any. */
  function CategoryOfCode(n: u8): (r: Option<Category>)
    ensures r.Some? <==> n <= 8 && n != 2
    ensures r.Some? ==> Code(r.value) == n
  {
    match n
    case 0 => Some(General)
    case 1 => Some(Artist)
    case 3 => Some(Copyright)
    case 4 => Some(Character)
    case 5 => Some(Species)
    case 6 => Some(Invalid)
    case 7 => Some(Meta)
    case 8 => Some(Lore)
    case _ => None
  }

  lemma CodeInjective(a: Category, b: Category)
    ensures Code(a) == Code(b) ==> a == b
  {
  }

  datatype ParseCategoryError = ParseInt(kind: IntErrorKind) | Unknown(num: u8)

  /** `Display` of the parse error. */
  function ParseCategoryErrorText(e: ParseCategoryError): (s: string)
    ensures e.ParseInt? ==> s == "category string is not a u8"
    ensures e.Unknown? ==> s == "unknown category " + Dec(e.num)
  {
    match e
    case ParseInt(_) => "category string is not a u8"
    case Unknown(n) => "unknown category " + Dec(n)
  }

  /** `Display`: the discriminant in decimal. */
  function CategoryText(c: Category): (s: string)
    ensures s == Dec(Code(c)) && |s| == 1
  {
    Dec(Code(c))
  }

  /**
   * `FromStr`: the text is read as a `u8`; a number that is a discriminant
   * gives its category, any other number is Unknown, and text that is not a
   * `u8` is a ParseInt error.
   */
  function ParseCategory(s: string): (r: Result<Category, ParseCategoryError>)
    ensures r.Ok? <==> ParseU8(s).Ok? && CategoryOfCode(ParseU8(s).value).Some?
    ensures r.Ok? ==> Code(r.value) == ParseU8(s).value
    ensures ParseU8(s).Err? ==> r == Err(ParseInt(ParseU8(s).error))
    ensures r.Err? && r.error.Unknown? ==> ParseU8(s) == Ok(r.error.num)
    ensures ParseU8(s).Ok? && CategoryOfCode(ParseU8(s).value).None? ==> r == Err(Unknown(ParseU8(s).value))
  {
    match ParseU8(s)
    case Err(k) => Err(ParseInt(k))
    case Ok(n) =>
      match CategoryOfCode(n)
      case Some(c) => Ok(c)
      case None => Err(Unknown(n))
  }

  /** Round trip: the text of every category parses back to it. */
  lemma CategoryRoundTrip(c: Category)
    ensures ParseCategory(CategoryText(c)) == Ok(c)
  {
    ParseDec(Code(c), U8Max);
    CodeInjective(c, CategoryOfCode(Code(c)).value);
  }

  /** "2" and any number from 9 to 255 are read as numbers but name no category. */
  lemma CategoryUnknown(n: u8)
    requires n == 2 || n > 8
    ensures ParseCategory(Dec(n)) == Err(Unknown(n))
  {
    ParseDec(n, U8Max);
  }

  /** A number above 255 is not a `u8`. */
  lemma CategoryTooLarge(n: nat)
    requires n > U8Max
    ensures ParseCategory(Dec(n)) == Err(ParseInt(PosOverflow))
  {
    FoldDec(n);
    ParseDigitsOfDigits(Dec(n), 0, U8Max);
  }

  datatype Order = IdAsc | IdDsc | Name | Date | Count | Similarity

  /** A tag as returned by the server; its timestamps are not modelled. */
  datatype Tag = Tag(id: u64, name: string, postCount: u64, relatedTags: string, category: Category, isLocked: bool)

  datatype Query = Query(
    perPage: Option<u16>,
    page: Option<Cursor>,
    id: Option<u64>,
    order: Option<Order>,
    fuzzyNameMatches: Option<string>,
    nameMatches: Option<string>,
    name: seq<string>,
    category: seq<Category>,
    hideEmpty: bool,
    hasWiki: bool,
    hasArtist: bool)

  /** `Query::new`: every field at its default. */
  function NewQuery(): (q: Query)
    ensures q.page.None? && q.order.None? && q.name == [] && q.category == []
    ensures Coherent(q)
  {
    Query(None, None, None, None, None, None, [], [], false, false, false)
  }

  /** A cursor that is not a page number. */
  predicate IsIdCursor(page: Option<Cursor>)
  {
    page.Some? && !page.value.Page?
  }

  /** The builder's rule: no order together with a Before or After cursor. */
  predicate Coherent(q: Query)
  {
    !(q.order.Some? && IsIdCursor(q.page))
  }

  /** `page`: sets the cursor; a Before/After cursor drops any order, other cursors keep it. */
  function WithPage(q: Query, page: Option<Cursor>): (r: Query)
    ensures r.page == page
    ensures IsIdCursor(page) ==> r.order.None?
    ensures !IsIdCursor(page) ==> r.order == q.order
    ensures r.(page := q.page, order := q.order) == q
    ensures Coherent(r)
  {
    var p := q.(page := page);
    if IsIdCursor(p.page) then p.(order := None) else p
  }

  /** `order`: sets the order; a real order drops a Before/After cursor, anything else keeps the cursor. */
  function WithOrder(q: Query, order: Option<Order>): (r: Query)
    ensures r.order == order
    ensures order.Some? && IsIdCursor(q.page) ==> r.page.None?
    ensures !(order.Some? && IsIdCursor(q.page)) ==> r.page == q.page
    ensures r.(page := q.page, order := q.order) == q
    ensures Coherent(r)
  {
    var o := q.(order := order);
    if o.order.Some? && IsIdCursor(o.page) then o.(page := None) else o
  }

  /** `name`: the name list becomes empty or the one name given. */
  function WithName(q: Query, name: Option<string>): (r: Query)
    ensures r.name == (if name.Some? then [name.value] else [])
    ensures r.(name := q.name) == q
  {
    q.(name := match name case Some(n) => [n] case None => [])
  }

  /** `names`: the name list is replaced by the names given. */
  function WithNames(q: Query, names: seq<string>): (r: Query)
    ensures r.name == names && r.(name := q.name) == q
  {
    q.(name := names)
  }

  /** `category`: the category list becomes empty or the one category given. */
  function WithCategory(q: Query, category: Option<Category>): (r: Query)
    ensures r.category == (if category.Some? then [category.value] else [])
    ensures r.(category := q.category) == q
  {
    q.(category := match category case Some(c) => [c] case None => [])
  }

  /** `categories`: the category list is replaced by the categories given. */
  function WithCategories(q: Query, categories: seq<Category>): (r: Query)
    ensures r.category == categories && r.(category := q.category) == q
  {
    q.(category := categories)
  }

  /** One call of a builder method, with its argument. */
  datatype Builder =
    | PerPage(perPage: Option<u16>)
    | SetPage(page: Option<Cursor>)
    | SetId(id: Option<u64>)
    | SetOrder(order: Option<Order>)
    | FuzzyNameMatches(fuzzy: Option<string>)
    | NameMatches(pattern: Option<string>)
    | SetName(oneName: Option<string>)
    | Names(names: seq<string>)
    | SetCategory(oneCategory: Option<Category>)
    | Categories(categories: seq<Category>)
    | HideEmpty(hideEmpty: bool)
    | HasWiki(hasWiki: bool)
    | HasArtist(hasArtist: bool)

  /** The query after one builder call; the builders not defined above overwrite their one field. */
  function Apply(q: Query, b: Builder): (r: Query)
    ensures !b.SetPage? && !b.SetOrder? ==> r.page == q.page && r.order == q.order
  {
    match b
    case PerPage(n) => q.(perPage := n)
    case SetPage(p) => WithPage(q, p)
    case SetId(i) => q.(id := i)
    case SetOrder(o) => WithOrder(q, o)
    case FuzzyNameMatches(f) => q.(fuzzyNameMatches := f)
    case NameMatches(m) => q.(nameMatches := m)
    case SetName(n) => WithName(q, n)
    case Names(ns) => WithNames(q, ns)
    case SetCategory(c) => WithCategory(q, c)
    case Categories(cs) => WithCategories(q, cs)
    case HideEmpty(h) => q.(hideEmpty := h)
    case HasWiki(w) => q.(hasWiki := w)
    case HasArtist(a) => q.(hasArtist := a)
  }

  /** `Query::new()` followed by the builder calls in order. */
  function Build(calls: seq<Builder>): Query
  {
    if calls == [] then NewQuery() else Apply(Build(calls[..|calls| - 1]), calls[|calls| - 1])
  }

  /** Every builder call keeps the rule, and the page and order builders restore it whatever came before. */
  lemma ApplyKeepsCoherent(q: Query, b: Builder)
    requires Coherent(q) || b.SetPage? || b.SetOrder?
    ensures Coherent(Apply(q, b))
  {
  }

  /** However a query is built, it never has an order together with a Before/After cursor. */
  lemma {:induction false} BuildCoherent(calls: seq<Builder>)
    ensures Coherent(Build(calls))
  {
    if calls != [] {
      BuildCoherent(calls[..|calls| - 1]);
      ApplyKeepsCoherent(Build(calls[..|calls| - 1]), calls[|calls| - 1]);
    }
  }

  /** The last of `name` and `names` wins, and so does the last of `category` and `categories`. */
  lemma LastListWins(q: Query, one: Option<string>, names: seq<string>, c: Option<Category>, cs: seq<Category>)
    ensures WithNames(WithName(q, one), names).name == names
    ensures WithName(WithNames(q, names), one).name == (if one.Some? then [one.value] else [])
    ensures WithCategories(WithCategory(q, c), cs).category == cs
    ensures WithCategory(WithCategories(q, cs), c).category == (if c.Some? then [c.value] else [])
  {
  }

  /** The chain of builder calls of the query-building example gives the query listed beside it: later list calls replace earlier ones. */
  lemma BuildExample()
    ensures
      var q := NewQuery().(perPage := Some(1));
      var q := WithPage(q, Some(Page(2))).(id := Some(3));
      var q := WithOrder(q, Some(Similarity)).(fuzzyNameMatches := Some("fuzzy"), nameMatches := Some("name_matches"));
      var q := WithNames(WithName(q, Some("name")), ["hello"]);
      var q := WithCategories(WithCategory(q, Some(Species)), [Lore, Meta]);
      q.(hideEmpty := true, hasWiki := true, hasArtist := true)
      == Query(Some(1), Some(Page(2)), Some(3), Some(Similarity), Some("fuzzy"), Some("name_matches"),
               ["hello"], [Lore, Meta], true, true, true)
  {
  }

  predicate HasId(tags: seq<Tag>, x: u64)
  {
    exists i :: 0 <= i < |tags| && tags[i].id == x
  }

  /** The smallest id of a non-empty page. */
  function MinId(tags: seq<Tag>): (m: u64)
    requires |tags| > 0
    ensures HasId(tags, m)
    ensures forall i :: 0 <= i < |tags| ==> m <= tags[i].id
  {
    if |tags| == 1 then tags[0].id
    else
      var rest := MinId(tags[1..]);
      assert forall i :: 1 <= i < |tags| ==> tags[i] == tags[1..][i - 1];
      if tags[0].id <= rest then tags[0].id else rest
  }

  /** The largest id of a non-empty page. */
  function MaxId(tags: seq<Tag>): (m: u64)
    requires |tags| > 0
    ensures HasId(tags, m)
    ensures forall i :: 0 <= i < |tags| ==> tags[i].id <= m
  {
    if |tags| == 1 then tags[0].id
    else
      var rest := MaxId(tags[1..]);
      assert forall i :: 1 <= i < |tags| ==> tags[i] == tags[1..][i - 1];
      if tags[0].id >= rest then tags[0].id else rest
  }

  /**
   * Where the next page starts after a non-empty page: a Before cursor moves
   * below the smallest id seen, an After cursor past the largest, a page
   * number to the next page; without a cursor the order chooses.
   */
  function NextCursor(q: Query, tags: seq<Tag>): (c: Cursor)
    requires |tags| > 0
    ensures c.Before? ==> HasId(tags, c.id) && forall i :: 0 <= i < |tags| ==> c.id <= tags[i].id
    ensures c.After? ==> HasId(tags, c.id) && forall i :: 0 <= i < |tags| ==> tags[i].id <= c.id
    ensures q.page.Some? && q.page.value.Before? ==> c.Before?
    ensures q.page.Some? && q.page.value.After? ==> c.After?
    ensures q.page.Some? && q.page.value.Page? ==> c == Page(WrappingAdd(q.page.value.n, 1))
    ensures q.page.None? && (q.order.None? || q.order == Some(IdDsc) || q.order == Some(Date)) ==> c.Before?
    ensures q.page.None? && q.order == Some(IdAsc) ==> c.After?
    ensures q.page.None? && q.order.Some? && q.order.value in {Name, Count, Similarity} ==> c == Page(2)
  {
    match q.page
    case Some(Before(_)) => Before(MinId(tags))
    case Some(After(_)) => After(MaxId(tags))
    case Some(Page(p)) => Page(WrappingAdd(p, 1))
    case None =>
      match q.order
      case None => Before(MinId(tags))
      case Some(IdDsc) => Before(MinId(tags))
      case Some(Date) => Before(MinId(tags))
      case Some(IdAsc) => After(MaxId(tags))
      case Some(_) => Page(2)
  }

  /** What `/tags.json` decodes to: the odd `{ tags: [] }` shape, or a list of tags. */
  datatype MaybeTags = EmptyTags | Items(tags: seq<Tag>)

  /** One step's products: the items to emit, and the query for the next step (None ends the stream after them). */
  datatype Step = Step(items: seq<Result<Tag, Error>>, next: Option<Query>)

  /**
   * `tag_search_page` with the response to the query given: no query or no
   * tags end the stream; an error is emitted alone and ends it after that;
   * otherwise every tag is emitted in order and the next query differs only
   * in its cursor.
   */
  function SearchPage(query: Option<Query>, fetched: Result<MaybeTags, Error>): (r: Option<Step>)
    ensures query.None? ==> r.None?
    ensures query.Some? && fetched.Err? ==> r == Some(Step([Err(fetched.error)], None))
    ensures query.Some? && fetched.Ok? && (fetched.value.EmptyTags? || fetched.value.tags == []) ==> r.None?
    ensures query.Some? && fetched.Ok? && fetched.value.Items? && fetched.value.tags != [] ==>
              r.Some? && |r.value.items| == |fetched.value.tags| &&
              (forall i :: 0 <= i < |r.value.items| ==> r.value.items[i] == Ok(fetched.value.tags[i])) &&
              r.value.next == Some(query.value.(page := Some(NextCursor(query.value, fetched.value.tags))))
  {
    match query
    case None => None
    case Some(q) =>
      match fetched
      case Err(e) => Some(Step([Err(e)], None))
      case Ok(EmptyTags) => None
      case Ok(Items(tags)) =>
        if tags == [] then None
        else Some(Step(Oks<Tag, Error>(tags), Some(q.(page := Some(NextCursor(q, tags))))))
  }


  /**
   * `tag_search`: the items of successive steps, one after the other, with
   * the responses to the successive queries given in order; the stream stops
   * when a step ends it or the responses run out.
   */
  function SearchStream(query: Option<Query>, responses: seq<Result<MaybeTags, Error>>): (r: seq<Result<Tag, Error>>)
    ensures query.None? || responses == [] ==> r == []
    decreases |responses|
  {
    if responses == [] then []
    else
      match SearchPage(query, responses[0])
      case None => []
      case Some(step) => step.items + SearchStream(step.next, responses[1..])
  }

  /** A stream holds at most one error, and only as its last item. */
  lemma {:induction false} StreamErrorIsLast(query: Option<Query>, responses: seq<Result<MaybeTags, Error>>)
    ensures var s := SearchStream(query, responses);
            forall i :: 0 <= i < |s| && s[i].Err? ==> i == |s| - 1
    decreases |responses|
  {
    if responses != [] {
      match SearchPage(query, responses[0])
      case None =>
      case Some(step) =>
        StreamErrorIsLast(step.next, responses[1..]);
        if step.next.None? {
          assert SearchStream(step.next, responses[1..]) == [];
          assert step.items + [] == step.items;
        } else {
          assert var u := SearchStream(step.next, responses[1..]); forall k :: 0 <= k < |u| && u[k].Err? ==> k == |u| - 1;
          var t := SearchStream(step.next, responses[1..]);
          var s := SearchStream(query, responses);
          assert s == step.items + t;
          assert forall i :: 0 <= i < |step.items| ==> step.items[i].Ok?;
          forall i | 0 <= i < |s| && s[i].Err?
            ensures i == |s| - 1
          {
            assert i >= |step.items|;
            var j := i - |step.items|;
            assert t[j] == s[i];
            assert 0 <= j < |t| && t[j].Err?;
            assert j == |t| - 1;
          }
        }
    }
  }

  /**
   * What the responses emit, independently of the queries that asked for
   * them: each non-empty page's tags in order, up to the first empty page,
   * and an error as the last item.
   */
  function PagesItems(responses: seq<Result<MaybeTags, Error>>): (r: seq<Result<Tag, Error>>)
    ensures responses == [] ==> r == []
    ensures responses != [] && responses[0].Err? ==> r == [Err(responses[0].error)]
    ensures responses != [] && responses[0].Ok? && (responses[0].value.EmptyTags? || responses[0].value.tags == []) ==> r == []
  {
    if responses == [] then []
    else
      match responses[0]
      case Err(e) => [Err(e)]
      case Ok(EmptyTags) => []
      case Ok(Items(tags)) => if tags == [] then [] else Oks<Tag, Error>(tags) + PagesItems(responses[1..])
  }

  /** The whole stream of a search is what its responses emit, whatever the query's cursor. */
  lemma {:induction false} StreamIsPagesItems(q: Query, responses: seq<Result<MaybeTags, Error>>)
    ensures SearchStream(Some(q), responses) == PagesItems(responses)
    decreases |responses|
  {
    if responses != [] {
      match responses[0]
      case Err(e) =>
      case Ok(EmptyTags) =>
      case Ok(Items(tags)) =>
        if tags != [] {
          var next := q.(page := Some(NextCursor(q, tags)));
          StreamIsPagesItems(next, responses[1..]);
          assert SearchPage(Some(q), responses[0]) == Some(Step(Oks<Tag, Error>(tags), Some(next)));
        }
    }
  }

  /** A failed request ends the stream with exactly its error. */
  lemma StreamStopsAtError(q: Query, e: Error, rest: seq<Result<MaybeTags, Error>>)
    ensures SearchStream(Some(q), [Err(e)] + rest) == [Err(e)]
  {
    var responses := [Err(e)] + rest;
    assert responses[0] == Err(e) && responses[1..] == rest;
    if rest != [] {
      assert SearchStream(None, rest) == [];
    }
  }

  /** Every tag of a page that does not end the stream is emitted, in the order the server returned them. */
  lemma {:induction false} StreamPagePrefix(q: Query, tags: seq<Tag>, rest: seq<Result<MaybeTags, Error>>)
    requires tags != []
    ensures var s := SearchStream(Some(q), [Ok(Items(tags))] + rest);
            |s| >= |tags| && forall i :: 0 <= i < |tags| ==> s[i] == Ok(tags[i])
  {
    var responses := [Ok(Items(tags))] + rest;
    assert responses[0] == Ok(Items(tags)) && responses[1..] == rest;
  }
}
