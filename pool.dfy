/**
 * Pool search (src/pool.rs): the query string built from a search, and the
 * stream that fetches the result pages one after another and hands out
 * their pools one at a time.
 *
 * `urlencoding::encode` is a parameter `enc`, and the response to each fetch
 * is an input of the poll that observes it.
 */
module Pool {
  import opened Wrappers
  import opened Decimal
  import opened Text
  import opened Errors

  datatype PoolCategory = Series | Collection

  /** A pool as returned by the server; its timestamps are not modelled. */
  datatype Pool = Pool(
    id: u64,
    name: string,
    creatorId: u64,
    description: string,
    isActive: bool,
    category: PoolCategory,
    isDeleted: bool,
    postIds: seq<u64>,
    creatorName: string,
    postCount: u64)

  datatype PoolSearchOrder = Name | CreatedAt | UpdatedAt | PostCount

  datatype PoolSearch = PoolSearch(
    nameMatches: Option<string>,
    id: Option<seq<u64>>,
    descriptionMatches: Option<string>,
    creatorName: Option<string>,
    creatorId: Option<u64>,
    isActive: Option<bool>,
    isDeleted: Option<bool>,
    category: Option<PoolCategory>,
    order: Option<PoolSearchOrder>)

  /** `PoolSearch::new`: no criterion set. */
  function NewSearch(): (s: PoolSearch)
    ensures SetCount(s) == 0
  {
    PoolSearch(None, None, None, None, None, None, None, None, None)
  }

  function WithNameMatches(s: PoolSearch, value: string): (r: PoolSearch)
    ensures r.nameMatches == Some(value) && r.(nameMatches := s.nameMatches) == s
  {
    s.(nameMatches := Some(value))
  }

  function WithId(s: PoolSearch, value: seq<u64>): (r: PoolSearch)
    ensures r.id == Some(value) && r.(id := s.id) == s
  {
    s.(id := Some(value))
  }

  function WithDescriptionMatches(s: PoolSearch, value: string): (r: PoolSearch)
    ensures r.descriptionMatches == Some(value) && r.(descriptionMatches := s.descriptionMatches) == s
  {
    s.(descriptionMatches := Some(value))
  }

  function WithCreatorName(s: PoolSearch, value: string): (r: PoolSearch)
    ensures r.creatorName == Some(value) && r.(creatorName := s.creatorName) == s
  {
    s.(creatorName := Some(value))
  }

  function WithCreatorId(s: PoolSearch, value: u64): (r: PoolSearch)
    ensures r.creatorId == Some(value) && r.(creatorId := s.creatorId) == s
  {
    s.(creatorId := Some(value))
  }

  function WithIsActive(s: PoolSearch, value: bool): (r: PoolSearch)
    ensures r.isActive == Some(value) && r.(isActive := s.isActive) == s
  {
    s.(isActive := Some(value))
  }

  function WithIsDeleted(s: PoolSearch, value: bool): (r: PoolSearch)
    ensures r.isDeleted == Some(value) && r.(isDeleted := s.isDeleted) == s
  {
    s.(isDeleted := Some(value))
  }

  function WithCategory(s: PoolSearch, value: PoolCategory): (r: PoolSearch)
    ensures r.category == Some(value) && r.(category := s.category) == s
  {
    s.(category := Some(value))
  }

  function WithOrder(s: PoolSearch, value: PoolSearchOrder): (r: PoolSearch)
    ensures r.order == Some(value) && r.(order := s.order) == s
  {
    s.(order := Some(value))
  }

  function BoolText(b: bool): string
  {
    if b then "true" else "false"
  }

  function CategoryText(c: PoolCategory): string
  {
    match c
    case Series => "series"
    case Collection => "collection"
  }

  function OrderText(o: PoolSearchOrder): string
  {
    match o
    case Name => "name"
    case CreatedAt => "created_at"
    case UpdatedAt => "updated_at"
    case PostCount => "post_count"
  }

  function IdsText(ids: seq<u64>): string
  {
    if ids == [] then ""
    else if |ids| == 1 then Dec(ids[0])
    else Dec(ids[0]) + "," + IdsText(ids[1..])
  }

  /** The value texts of the criteria that are not strings already; None when unset. */
  function IdValue(s: PoolSearch): Option<string>
  {
    match s.id case Some(ids) => Some(IdsText(ids)) case None => None
  }

  function CreatorIdValue(s: PoolSearch): Option<string>
  {
    match s.creatorId case Some(i) => Some(Dec(i)) case None => None
  }

  function IsActiveValue(s: PoolSearch): Option<string>
  {
    match s.isActive case Some(b) => Some(BoolText(b)) case None => None
  }

  function IsDeletedValue(s: PoolSearch): Option<string>
  {
    match s.isDeleted case Some(b) => Some(BoolText(b)) case None => None
  }

  function CategoryValue(s: PoolSearch): Option<string>
  {
    match s.category case Some(c) => Some(CategoryText(c)) case None => None
  }

  function OrderValue(s: PoolSearch): Option<string>
  {
    match s.order case Some(o) => Some(OrderText(o)) case None => None
  }

  function One<T>(o: Option<T>): nat
  {
    if o.Some? then 1 else 0
  }

  /** The number of criteria that are set. */
  function SetCount(s: PoolSearch): nat
  {
    One(s.nameMatches) + One(s.id) + One(s.descriptionMatches) + One(s.creatorName) + One(s.creatorId)
    + One(s.isActive) + One(s.isDeleted) + One(s.category) + One(s.order)
  }

  /** One `&key=value` parameter, with both halves encoded; nothing for an unset criterion. */
  function Segment(enc: string -> string, key: string, value: Option<string>): string
  {
    match value
    case Some(v) => "&" + enc(key) + "=" + enc(v)
    case None => ""
  }

  /** The query string a search adds after the page number: one parameter per criterion set, in this order. */
  function SearchParameters(s: PoolSearch, enc: string -> string): string
  {
    Segment(enc, "search[name_matches]", s.nameMatches)
    + Segment(enc, "search[id]", IdValue(s))
    + Segment(enc, "search[description_matches]", s.descriptionMatches)
    + Segment(enc, "search[creator_name]", s.creatorName)
    + Segment(enc, "search[creator_id]", CreatorIdValue(s))
    + Segment(enc, "search[is_active]", IsActiveValue(s))
    + Segment(enc, "search[is_deleted]", IsDeletedValue(s))
    + Segment(enc, "search[category]", CategoryValue(s))
    + Segment(enc, "search[order]", OrderValue(s))
  }

  /** Appending one parameter, if its criterion is set: '&', the encoded key, '=', the encoded value. */
  method PushParameter(params: string, enc: string -> string, key: string, value: Option<string>) returns (p: string)
    ensures p == params + Segment(enc, key, value)
  {
    p := params;
    if value.Some? {
      p := p + "&";
      p := p + enc(key);
      p := p + "=";
      p := p + enc(value.value);
    }
  }

  /** `to_search_parameters`: the parameters pushed one criterion at a time. */
  method ToSearchParameters(s: PoolSearch, enc: string -> string) returns (params: string)
    ensures params == SearchParameters(s, enc)
  {
    params := "";
    params := PushParameter(params, enc, "search[name_matches]", s.nameMatches);
    assert params == Segment(enc, "search[name_matches]", s.nameMatches);
    params := PushParameter(params, enc, "search[id]", IdValue(s));
    params := PushParameter(params, enc, "search[description_matches]", s.descriptionMatches);
    params := PushParameter(params, enc, "search[creator_name]", s.creatorName);
    params := PushParameter(params, enc, "search[creator_id]", CreatorIdValue(s));
    params := PushParameter(params, enc, "search[is_active]", IsActiveValue(s));
    params := PushParameter(params, enc, "search[is_deleted]", IsDeletedValue(s));
    params := PushParameter(params, enc, "search[category]", CategoryValue(s));
    params := PushParameter(params, enc, "search[order]", OrderValue(s));
  }

  /** A new search adds nothing to the query string. */
  lemma NewSearchParameters(enc: string -> string)
    ensures SearchParameters(NewSearch(), enc) == ""
  {
  }

  lemma {:induction false} CountAbsent(c: char, s: string)
    requires c !in s
    ensures Count(c, s) == 0
    decreases |s|
  {
    if s != [] {
      CountAbsent(c, s[1..]);
    }
  }

  /** With an encoder that never writes '&', a parameter holds one '&', and an unset criterion none. */
  lemma SegmentAmpersands(enc: string -> string, key: string, value: Option<string>)
    requires forall x :: '&' !in enc(x)
    ensures Count('&', Segment(enc, key, value)) == One(value)
  {
    if value.Some? {
      var k, v := enc(key), enc(value.value);
      CountAbsent('&', k);
      CountAbsent('&', v);
      CountConcat('&', "&", k);
      CountConcat('&', "&" + k, "=");
      CountConcat('&', "&" + k + "=", v);
    }
  }

  /**
   * Every criterion that is set gives exactly one parameter, and no unset one
   * gives any: with an encoder that never writes '&', the query string has
   * one '&' per criterion set.
   */
  lemma ParametersPerCriterion(s: PoolSearch, enc: string -> string)
    requires forall x :: '&' !in enc(x)
    ensures Count('&', SearchParameters(s, enc)) == SetCount(s)
  {
    var s1 := Segment(enc, "search[name_matches]", s.nameMatches);
    var s2 := Segment(enc, "search[id]", IdValue(s));
    var s3 := Segment(enc, "search[description_matches]", s.descriptionMatches);
    var s4 := Segment(enc, "search[creator_name]", s.creatorName);
    var s5 := Segment(enc, "search[creator_id]", CreatorIdValue(s));
    var s6 := Segment(enc, "search[is_active]", IsActiveValue(s));
    var s7 := Segment(enc, "search[is_deleted]", IsDeletedValue(s));
    var s8 := Segment(enc, "search[category]", CategoryValue(s));
    var s9 := Segment(enc, "search[order]", OrderValue(s));
    assert Count('&', s1) == One(s.nameMatches) by { SegmentAmpersands(enc, "search[name_matches]", s.nameMatches); }
    assert Count('&', s2) == One(s.id) by { SegmentAmpersands(enc, "search[id]", IdValue(s)); }
    assert Count('&', s3) == One(s.descriptionMatches) by { SegmentAmpersands(enc, "search[description_matches]", s.descriptionMatches); }
    assert Count('&', s4) == One(s.creatorName) by { SegmentAmpersands(enc, "search[creator_name]", s.creatorName); }
    assert Count('&', s5) == One(s.creatorId) by { SegmentAmpersands(enc, "search[creator_id]", CreatorIdValue(s)); }
    assert Count('&', s6) == One(s.isActive) by { SegmentAmpersands(enc, "search[is_active]", IsActiveValue(s)); }
    assert Count('&', s7) == One(s.isDeleted) by { SegmentAmpersands(enc, "search[is_deleted]", IsDeletedValue(s)); }
    assert Count('&', s8) == One(s.category) by { SegmentAmpersands(enc, "search[category]", CategoryValue(s)); }
    assert Count('&', s9) == One(s.order) by { SegmentAmpersands(enc, "search[order]", OrderValue(s)); }
    CountNine(s1, s2, s3, s4, s5, s6, s7, s8, s9);
  }

  lemma CountNine(s1: string, s2: string, s3: string, s4: string, s5: string, s6: string, s7: string, s8: string, s9: string)
    ensures Count('&', s1 + s2 + s3 + s4 + s5 + s6 + s7 + s8 + s9) ==
            Count('&', s1) + Count('&', s2) + Count('&', s3) + Count('&', s4) + Count('&', s5)
            + Count('&', s6) + Count('&', s7) + Count('&', s8) + Count('&', s9)
  {
    CountConcat('&', s1, s2);
    CountConcat('&', s1 + s2, s3);
    CountConcat('&', s1 + s2 + s3, s4);
    CountConcat('&', s1 + s2 + s3 + s4, s5);
    CountConcat('&', s1 + s2 + s3 + s4 + s5, s6);
    CountConcat('&', s1 + s2 + s3 + s4 + s5 + s6, s7);
    CountConcat('&', s1 + s2 + s3 + s4 + s5 + s6 + s7, s8);
    CountConcat('&', s1 + s2 + s3 + s4 + s5 + s6 + s7 + s8, s9);
  }

  /** A search on the name alone gives just the `search[name_matches]` parameter. */
  lemma NameMatchesParameters(enc: string -> string, name: string)
    ensures SearchParameters(WithNameMatches(NewSearch(), name), enc) == "&" + enc("search[name_matches]") + "=" + enc(name)
  {
  }

  /** The ids criterion joins the ids' decimal texts with commas before they are encoded. */
  lemma {:induction false} IdsJoined(ids: seq<u64>)
    ensures IdsText(ids) == Join(DecAll(ids), ",")
    decreases |ids|
  {
    if |ids| > 1 {
      IdsJoined(ids[1..]);
      assert DecAll(ids)[1..] == DecAll(ids[1..]);
    }
  }

  /** The result of one `poll_next`: not yet known, or the next item, with None for the end of the stream. */
  datatype Poll = Pending | Ready(item: Option<Result<Pool, Error>>)

  /** How a page fetch finished: the request failed, the body was not a list of pools, or it was. */
  datatype Fetched = FetchFailed(error: Error) | Undecodable(desc: string) | Decoded(pools: seq<Pool>)

  /** What polling the pending fetch reports. */
  datatype FutureOutcome = NotReady | Completed(fetched: Fetched)

  /** The fields of a stream: the next page to fetch, the reversed rest of the last page, whether it has ended, whether a fetch is pending and the URL last fetched. */
  datatype State = State(page: u64, chunk: seq<Result<Pool, Error>>, ended: bool, fetching: bool, queryUrl: Option<string>)

  /** A fetch is pending only while nothing is buffered and the stream has not ended. */
  predicate Inv(s: State)
  {
    s.fetching ==> !s.ended && s.chunk == []
  }

  /** `PoolStream::new`. */
  function Initial(): (s: State)
    ensures s.page == 1 && s.chunk == [] && !s.ended && !s.fetching && s.queryUrl.None?
    ensures Inv(s)
  {
    State(1, [], false, false, None)
  }

  function Reverse<T>(xs: seq<T>): (r: seq<T>)
    ensures |r| == |xs|
  {
    if xs == [] then [] else Reverse(xs[1..]) + [xs[0]]
  }


  /** The URL that fetches a given page. */
  function PageUrl(page: u64, params: string): string
  {
    "/pools.json?page=" + Dec(page) + params
  }

  datatype Stepped = Stepped(state: State, poll: Poll)

  /** What polling the pending fetch told the loop of `poll_next`. */
  datatype QueryStatus = QueryPending | QueryErr(error: Error) | NotFetching

  /** With nothing pending, a stream that has ended or has a buffered item answers at once. */
  function Served(s: State): (r: Stepped)
    requires s.ended || s.chunk != []
  {
    if s.ended then Stepped(s, Ready(None))
    else Stepped(s.(chunk := s.chunk[..|s.chunk| - 1]), Ready(Some(s.chunk[|s.chunk| - 1])))
  }

  /** A finished fetch that did not fail fills the buffer: the pools reversed, or a single Serial error. */
  function Store(s: State, f: Fetched): (t: State)
    requires !f.FetchFailed?
    ensures t.ended || t.chunk != []
  {
    var chunk := match f
                 case Decoded(pools) => Reverse(Oks<Pool, Error>(pools))
                 case Undecodable(desc) => [Err(Serial(desc))]
                 case FetchFailed(_) => [];
    s.(fetching := false, chunk := chunk, ended := chunk == [])
  }

  /** Polling the pending fetch. */
  function Polled(s: State, outcome: FutureOutcome): Stepped
  {
    match outcome
    case NotReady => Stepped(s, Pending)
    case Completed(FetchFailed(e)) => Stepped(s.(fetching := false, ended := true), Ready(Some(Err(e))))
    case Completed(f) => Served(Store(s, f))
  }

  /** Starting the fetch of the current page, and moving on to the next one. */
  function Issue(s: State, params: string): State
  {
    s.(page := WrappingAdd(s.page, 1), queryUrl := Some(PageUrl(s.page, params)), fetching := true)
  }

  /** Whether a poll from this state starts a fetch. */
  predicate Fetches(s: State)
  {
    !s.fetching && !s.ended && s.chunk == []
  }

  /**
   * One `poll_next`: a pending fetch is polled; otherwise an ended stream
   * answers None, a buffered item is handed out, and an empty buffer starts
   * the fetch of the next page, which is polled in the same call.
   */
  function PollStep(s: State, params: string, outcome: FutureOutcome): Stepped
  {
    if s.fetching then Polled(s, outcome)
    else if s.ended || s.chunk != [] then Served(s)
    else Polled(Issue(s, params), outcome)
  }

  class PoolStream {
    const search: PoolSearch
    var page: u64
    var chunk: seq<Result<Pool, Error>>
    var ended: bool
    var fetching: bool
    var queryUrl: Option<string>

    function StateOf(): State
      reads this
    {
      State(page, chunk, ended, fetching, queryUrl)
    }

    /** `PoolStream::new`: page 1, nothing buffered, not ended, nothing pending. */
    constructor (search: PoolSearch)
      ensures this.search == search && StateOf() == Initial()
    {
      this.search := search;
      page := 1;
      chunk := [];
      ended := false;
      fetching := false;
      queryUrl := None;
    }

    /**
     * `poll_next`, looping as the source does until it has an answer;
     * `outcome` is what polling the pending fetch reports, whether that fetch
     * was pending on entry or is started by this call.
     */
    method PollNext(enc: string -> string, outcome: FutureOutcome) returns (r: Poll)
      modifies this
      ensures Stepped(StateOf(), r) == PollStep(old(StateOf()), SearchParameters(search, enc), outcome)
    {
      ghost var params := SearchParameters(search, enc);
      ghost var start := StateOf();
      while true
        invariant StateOf() == start || (Fetches(start) && StateOf() == Issue(start, params))
        decreases if fetching then 0 else 1
      {
        var status := PollQuery(outcome);
        match status
        case QueryErr(e) =>
          return Ready(Some(Err(e)));
        case QueryPending =>
          return Pending;
        case NotFetching =>
          if ended {
            return Ready(None);
          } else if chunk != [] {
            var item := chunk[|chunk| - 1];
            chunk := chunk[..|chunk| - 1];
            return Ready(Some(item));
          } else {
            var p := page;
            page := WrappingAdd(page, 1);
            var params := ToSearchParameters(search, enc);
            queryUrl := Some(PageUrl(p, params));
            fetching := true;
          }
      }
    }

    /**
     * The first half of the loop in `poll_next`: poll the pending fetch, if
     * any, and store what it brought. The fields change as polling does in
     * the step function, and only a fetch that is still pending or failed
     * stops the loop.
     */
    method PollQuery(outcome: FutureOutcome) returns (status: QueryStatus)
      modifies this
      ensures !old(fetching) ==> status == NotFetching && StateOf() == old(StateOf())
      ensures old(fetching) ==> match outcome
                                case NotReady => status == QueryPending && StateOf() == old(StateOf())
                                case Completed(FetchFailed(e)) =>
                                  status == QueryErr(e) && StateOf() == old(StateOf()).(fetching := false, ended := true)
                                case Completed(f) => status == NotFetching && StateOf() == Store(old(StateOf()), f)
    {
      status := NotFetching;
      if fetching {
        match outcome {
          case NotReady =>
            status := QueryPending;
          case Completed(f) =>
            fetching := false;
            match f {
              case FetchFailed(e) =>
                ended := true;
                status := QueryErr(e);
              case Undecodable(desc) =>
                chunk := [Err(Serial(desc))];
                ended := chunk == [];
              case Decoded(pools) =>
                chunk := Reverse(Oks<Pool, Error>(pools));
                ended := chunk == [];
            }
        }
      }
    }
  }

  /** Every poll keeps a pending fetch alone with an empty buffer. */
  lemma PollStepKeepsInv(s: State, params: string, outcome: FutureOutcome)
    requires Inv(s)
    ensures Inv(PollStep(s, params, outcome).state)
  {
  }

  /**
   * A poll either leaves the page alone, or is one that starts a fetch: that
   * fetch is of the current page, and the page moves on by exactly one.
   */
  lemma PollStepPage(s: State, params: string, outcome: FutureOutcome)
    ensures var t := PollStep(s, params, outcome).state;
            if Fetches(s) then t.page == WrappingAdd(s.page, 1) && t.queryUrl == Some(PageUrl(s.page, params))
            else t.page == s.page && t.queryUrl == s.queryUrl
  {
  }

  /** The effect of successive polls, with the outcome each one observes. */
  datatype Trace = Trace(final: State, polls: seq<Poll>, fetched: seq<u64>)

  /** Polling over and over: the polls answered and the pages fetched, in order. */
  function Run(s: State, params: string, outcomes: seq<FutureOutcome>): (t: Trace)
    ensures |t.polls| == |outcomes|
    decreases |outcomes|
  {
    if outcomes == [] then Trace(s, [], [])
    else
      var step := PollStep(s, params, outcomes[0]);
      var rest := Run(step.state, params, outcomes[1..]);
      Trace(rest.final, [step.poll] + rest.polls, (if Fetches(s) then [s.page] else []) + rest.fetched)
  }

  /** An ended stream with nothing pending answers None to every poll and never changes again. */
  lemma {:induction false} EndedStaysEnded(s: State, params: string, outcomes: seq<FutureOutcome>)
    requires s.ended && !s.fetching
    ensures var t := Run(s, params, outcomes);
            t.final == s && t.fetched == [] && forall i :: 0 <= i < |t.polls| ==> t.polls[i] == Ready(None)
    decreases |outcomes|
  {
    if outcomes != [] {
      EndedStaysEnded(s, params, outcomes[1..]);
    }
  }

  lemma ReverseLast<T>(xs: seq<T>)
    requires xs != []
    ensures var r := Reverse(xs); r[|r| - 1] == xs[0] && r[..|r| - 1] == Reverse(xs[1..])
  {
    var r := Reverse(xs);
    assert r == Reverse(xs[1..]) + [xs[0]];
  }

  /**
   * A buffered page is handed out in the order the server sent it, one item
   * per poll, without fetching, whatever the polls are told.
   */
  lemma {:induction false} DrainInOrder(s: State, params: string, items: seq<Result<Pool, Error>>, outcomes: seq<FutureOutcome>)
    requires !s.fetching && !s.ended && s.chunk == Reverse(items)
    requires |outcomes| == |items|
    ensures var t := Run(s, params, outcomes);
            t.final == s.(chunk := []) && t.fetched == [] &&
            forall i :: 0 <= i < |items| ==> t.polls[i] == Ready(Some(items[i]))
    decreases |items|
  {
    if items != [] {
      ReverseLast(items);
      var step := PollStep(s, params, outcomes[0]);
      assert step == Stepped(s.(chunk := Reverse(items[1..])), Ready(Some(items[0])));
      DrainInOrder(step.state, params, items[1..], outcomes[1..]);
      var rest := Run(step.state, params, outcomes[1..]);
      var t := Run(s, params, outcomes);
      forall i | 1 <= i < |items|
        ensures t.polls[i] == Ready(Some(items[i]))
      {
        assert t.polls[i] == rest.polls[i - 1];
        assert items[1..][i - 1] == items[i];
      }
    }
  }

  /** A failed fetch is reported once, and then the stream only ever answers None. */
  lemma FetchErrorOnce(s: State, params: string, e: Error, outcomes: seq<FutureOutcome>)
    requires Inv(s) && (s.fetching || Fetches(s))
    ensures var t := Run(s, params, [Completed(FetchFailed(e))] + outcomes);
            t.polls[0] == Ready(Some(Err(e))) && forall i :: 1 <= i < |t.polls| ==> t.polls[i] == Ready(None)
  {
    var all := [Completed(FetchFailed(e))] + outcomes;
    assert all[0] == Completed(FetchFailed(e)) && all[1..] == outcomes;
    var step := PollStep(s, params, all[0]);
    EndedStaysEnded(step.state, params, outcomes);
  }

  /** An undecodable page is reported as a Serial error, and the stream goes on: its next poll fetches the next page. */
  lemma UndecodableContinues(s: State, params: string, desc: string, outcome: FutureOutcome)
    requires Inv(s) && (s.fetching || Fetches(s))
    ensures var step := PollStep(s, params, Completed(Undecodable(desc)));
            step.poll == Ready(Some(Err(Serial(desc)))) && Fetches(step.state) &&
            PollStep(step.state, params, outcome).state.queryUrl == Some(PageUrl(step.state.page, params))
  {
  }

  /** What one poll contributes to a run: the state it leaves, its answer, and the page it fetched if it started a fetch. */
  datatype Move = Move(state: State, poll: Poll, fetched: seq<u64>)

  /** Polls driven by any step function, one per outcome. */
  function RunBy(next: (State, FutureOutcome) -> Move, s: State, outcomes: seq<FutureOutcome>): (t: Trace)
    ensures |t.polls| == |outcomes|
    decreases |outcomes|
  {
    if outcomes == [] then Trace(s, [], [])
    else
      var m := next(s, outcomes[0]);
      var rest := RunBy(next, m.state, outcomes[1..]);
      Trace(rest.final, [m.poll] + rest.polls, m.fetched + rest.fetched)
  }

  /** Whatever the step, running two batches of polls one after the other is running them all. */
  lemma {:induction false} RunByAppend(next: (State, FutureOutcome) -> Move, s: State, a: seq<FutureOutcome>, b: seq<FutureOutcome>)
    ensures var ta := RunBy(next, s, a);
            var tb := RunBy(next, ta.final, b);
            RunBy(next, s, a + b) == Trace(tb.final, ta.polls + tb.polls, ta.fetched + tb.fetched)
    decreases |a|
  {
    if a == [] {
      assert a + b == b;
    } else {
      var m := next(s, a[0]);
      assert (a + b)[0] == a[0] && (a + b)[1..] == a[1..] + b;
      RunByAppend(next, m.state, a[1..], b);
      var ta := RunBy(next, m.state, a[1..]);
      var tb := RunBy(next, ta.final, b);
      assert [m.poll] + (ta.polls + tb.polls) == [m.poll] + ta.polls + tb.polls;
      assert m.fetched + (ta.fetched + tb.fetched) == m.fetched + ta.fetched + tb.fetched;
    }
  }

  /** One `poll_next` seen as a move of a run. */
  function PollMove(params: string): (State, FutureOutcome) -> Move
  {
    (s: State, o: FutureOutcome) =>
      var step := PollStep(s, params, o);
      Move(step.state, step.poll, if Fetches(s) then [s.page] else [])
  }

  /** The stream's run is the run driven by `poll_next`. */
  lemma {:induction false} RunIsRunBy(s: State, params: string, outcomes: seq<FutureOutcome>)
    ensures Run(s, params, outcomes) == RunBy(PollMove(params), s, outcomes)
    decreases |outcomes|
  {
    if outcomes != [] {
      RunIsRunBy(PollStep(s, params, outcomes[0]).state, params, outcomes[1..]);
    }
  }

  /** A move fetches nothing and keeps the page, or fetches the current page and moves one past it. */
  predicate CountsPages(next: (State, FutureOutcome) -> Move, s: State, o: FutureOutcome)
  {
    var m := next(s, o);
    (m.fetched == [] && m.state.page == s.page) ||
    (m.fetched == [s.page] && m.state.page == WrappingAdd(s.page, 1))
  }

  /** With such moves the k-th fetch is of the starting page plus k, and the page ends just past the last fetch. */
  lemma {:induction false} RunByPages(next: (State, FutureOutcome) -> Move, s: State, outcomes: seq<FutureOutcome>)
    requires forall x, o :: CountsPages(next, x, o)
    ensures var t := RunBy(next, s, outcomes);
            t.final.page == WrappingAdd(s.page, |t.fetched|) &&
            forall k :: 0 <= k < |t.fetched| ==> t.fetched[k] == WrappingAdd(s.page, k)
    decreases |outcomes|
  {
    if outcomes == [] {
      assert WrappingAdd(s.page, 0) == s.page;
    } else {
      var m := next(s, outcomes[0]);
      assert CountsPages(next, s, outcomes[0]);
      RunByPages(next, m.state, outcomes[1..]);
      var rest := RunBy(next, m.state, outcomes[1..]);
      var t := RunBy(next, s, outcomes);
      assert t.fetched == m.fetched + rest.fetched;
      if m.fetched == [s.page] {
        WrappingAddTwice(s.page, 1, |rest.fetched|);
        forall k | 1 <= k < |t.fetched|
          ensures t.fetched[k] == WrappingAdd(s.page, k)
        {
          assert t.fetched[k] == rest.fetched[k - 1];
          WrappingAddTwice(s.page, 1, k - 1);
        }
        assert WrappingAdd(s.page, 0) == s.page;
      } else {
        assert t.fetched == rest.fetched;
      }
    }
  }

  /** Pages are fetched in sequence: the k-th fetch is of the starting page plus k, and the page ends just past the last fetch. */
  lemma RunPages(s: State, params: string, outcomes: seq<FutureOutcome>)
    ensures var t := Run(s, params, outcomes);
            t.final.page == WrappingAdd(s.page, |t.fetched|) &&
            forall k :: 0 <= k < |t.fetched| ==> t.fetched[k] == WrappingAdd(s.page, k)
  {
    forall x, o
      ensures CountsPages(PollMove(params), x, o)
    {
      PollStepPage(x, params, o);
    }
    RunIsRunBy(s, params, outcomes);
    RunByPages(PollMove(params), s, outcomes);
  }

  /** Running two batches of polls one after the other is running them all. */
  lemma RunAppend(s: State, params: string, a: seq<FutureOutcome>, b: seq<FutureOutcome>)
    ensures var ta := Run(s, params, a);
            var tb := Run(ta.final, params, b);
            Run(s, params, a + b) == Trace(tb.final, ta.polls + tb.polls, ta.fetched + tb.fetched)
  {
    var ta := Run(s, params, a);
    RunIsRunBy(s, params, a);
    RunIsRunBy(ta.final, params, b);
    RunIsRunBy(s, params, a + b);
    RunByAppend(PollMove(params), s, a, b);
  }

  /** `n` copies of an outcome. */
  function Repeat(o: FutureOutcome, n: nat): (r: seq<FutureOutcome>)
    ensures |r| == n && forall i :: 0 <= i < n ==> r[i] == o
  {
    if n == 0 then [] else [o] + Repeat(o, n - 1)
  }

  /** The first poll of a new stream fetches page 1 and, when it holds pools, hands out the first one. */
  lemma FirstPoll(params: string, pools: seq<Pool>)
    requires pools != []
    ensures Run(Initial(), params, [Completed(Decoded(pools))]) ==
            Trace(State(2, Reverse(Oks<Pool, Error>(pools)[1..]), false, false, Some(PageUrl(1, params))), [Ready(Some(Ok(pools[0])))], [1])
  {
    var s := Initial();
    var o := Completed(Decoded(pools));
    var chunk := Reverse(Oks<Pool, Error>(pools));
    var issued := State(2, [], false, true, Some(PageUrl(1, params)));
    var stored := State(2, chunk, false, false, Some(PageUrl(1, params)));
    assert Fetches(s) && Issue(s, params) == issued;
    assert Store(issued, Decoded(pools)) == stored;
    ReverseLast(Oks<Pool, Error>(pools));
    assert PollStep(s, params, o) == Served(stored);
    RunOne(s, params, o);
  }

  /** A run of one poll is that poll. */
  lemma RunOne(s: State, params: string, o: FutureOutcome)
    ensures var step := PollStep(s, params, o);
            Run(s, params, [o]) == Trace(step.state, [step.poll], if Fetches(s) then [s.page] else [])
  {
    assert [o][1..] == [];
  }

  /** With the buffer empty, a poll answered by an empty page fetches the current page and ends the stream. */
  lemma EmptyPageEnds(s: State, params: string)
    requires Fetches(s)
    ensures var t := Run(s, params, [Completed(Decoded([]))]);
            t.polls == [Ready(None)] && t.fetched == [s.page] && t.final.ended && t.final.queryUrl == Some(PageUrl(s.page, params))
  {
    RunOne(s, params, Completed(Decoded([])));
    assert Reverse(Oks<Pool, Error>([])) == [];
  }

  /**
   * A search answered by one page of pools and then an empty page yields
   * exactly those pools in order and then the end, having fetched page 1 and
   * then page 2.
   */
  lemma TwoPageSearch(params: string, pools: seq<Pool>)
    requires pools != []
    ensures var outcomes := [Completed(Decoded(pools))] + Repeat(NotReady, |pools| - 1) + [Completed(Decoded([]))];
            var t := Run(Initial(), params, outcomes);
            |t.polls| == |pools| + 1 &&
            (forall i :: 0 <= i < |pools| ==> t.polls[i] == Ready(Some(Ok(pools[i])))) &&
            t.polls[|pools|] == Ready(None) &&
            t.fetched == [1, 2] && t.final.queryUrl == Some(PageUrl(2, params))
  {
    var first, middle, last := [Completed(Decoded(pools))], Repeat(NotReady, |pools| - 1), [Completed(Decoded([]))];
    var s0 := Initial();
    var items := Oks<Pool, Error>(pools)[1..];
    var s1 := State(2, Reverse(items), false, false, Some(PageUrl(1, params)));
    FirstPoll(params, pools);
    DrainInOrder(s1, params, items, middle);
    var t2 := Run(s1, params, middle);
    var drained := s1.(chunk := []);
    EmptyPageEnds(drained, params);
    var t3 := Run(drained, params, last);
    RunAppend(s0, params, first, middle);
    RunAppend(s0, params, first + middle, last);
    var t := Run(s0, params, first + middle + last);
    assert t.polls == [Ready(Some(Ok(pools[0])))] + t2.polls + [Ready(None)];
    assert t.fetched == [1] + [] + [2];
    forall i | 0 <= i < |pools|
      ensures t.polls[i] == Ready(Some(Ok(pools[i])))
    {
      if i > 0 {
        assert t.polls[i] == t2.polls[i - 1];
        assert items[i - 1] == Ok(pools[i]);
      }
    }
  }
}
