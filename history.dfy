/** The history view: a paginated, searchable list of the user's past
    conversations with local delete and clear-all. Each remote operation is
    split into the step that issues the request and the step that applies its
    response; the response itself is an input. */
module History {
  import opened Wrappers
  import opened Text
  import Api
  import Auth

  datatype Status = Succeeded | Errored

  /** One conversation summary as the history endpoint lists it. */
  datatype Conversation = Conversation(
    id: int, userId: int, pergunta: string, respostaPreview: string,
    fonte: Option<string>, tempoProcessamento: real, status: Status, createdAt: string)

  datatype Pagination = Pagination(total: int, limit: int, offset: int, hasMore: bool)

  /** The body of a successful page load. */
  datatype HistoryPage = HistoryPage(conversations: seq<Conversation>, pagination: Pagination)

  /** The body of a successful keyword search. */
  datatype SearchPage = SearchPage(query: string, results: seq<Conversation>, total: int)

  /** The body of a successful clear-all. */
  datatype ClearReceipt = ClearReceipt(deletedCount: int)

  /** Conversations per page. */
  const PageSize: nat := 20
  /** The most results a keyword search asks for. */
  const SearchLimit: nat := 50

  /** A read the view issues: one page of the history, or a keyword search. */
  datatype Fetch = Page(userId: int, pageNum: nat) | Keyword(userId: int, query: string) {
    function Limit(): nat {
      if Page? then PageSize else SearchLimit
    }
    function Offset(): nat
      requires Page?
    {
      pageNum * PageSize
    }
  }

  /** A write the view issues. */
  datatype Mutation = DeleteOne(userId: int, conversationId: int) | ClearAll(userId: int)

  /** The hook's state variables. */
  datatype ViewState = ViewState(
    conversations: seq<Conversation>, loading: bool, error: Option<string>,
    page: nat, hasMore: bool, total: int, searchQuery: string, isSearching: bool)

  /** The state before anything has loaded. */
  const Initial: ViewState := ViewState([], true, None, 0, false, 0, "", false)

  const LoadFallback: string := "Erro ao carregar histórico"
  const SearchFallback: string := "Erro ao buscar conversas"
  const DeleteFallback: string := "Erro ao deletar conversa"
  const ClearFallback: string := "Erro ao limpar histórico"

  /** `err.response?.data?.error || fallback`. */
  function ServerError(e: Api.Failure, fallback: string): string {
    OrElse(Api.DataError(e), fallback)
  }

  // ---------------------------------------------------------------- requests

  /** `loadHistory(pageNum)` issues a page request only when someone is logged in. */
  function LoadRequest(user: Option<Auth.User>, pageNum: nat): Option<Fetch> {
    match user
    case None => None
    case Some(u) => Some(Page(u.id, pageNum))
  }

  /** `search(query)`: a blank query, or no user, falls back to `loadHistory(0)`. */
  function SearchRequest(user: Option<Auth.User>, query: string): Option<Fetch> {
    if user.None? || IsBlank(query) then LoadRequest(user, 0)
    else Some(Keyword(user.value.id, query))
  }

  /** `loadMore`: the next page, only when idle, with more to load, and not in search mode. */
  function LoadMoreRequest(s: ViewState, user: Option<Auth.User>): Option<Fetch> {
    if !s.loading && s.hasMore && s.searchQuery == "" then LoadRequest(user, s.page + 1) else None
  }

  /** `refresh`: repeat the active search, or reload the first page. */
  function RefreshRequest(s: ViewState, user: Option<Auth.User>): Option<Fetch> {
    if s.searchQuery != "" then SearchRequest(user, s.searchQuery) else LoadRequest(user, 0)
  }

  function DeleteRequest(user: Option<Auth.User>, conversationId: int): Option<Mutation> {
    match user
    case None => None
    case Some(u) => Some(DeleteOne(u.id, conversationId))
  }

  function ClearAllRequest(user: Option<Auth.User>): Option<Mutation> {
    match user
    case None => None
    case Some(u) => Some(ClearAll(u.id))
  }

  // ------------------------------------------------------------- transitions

  /** The state once a read is issued: loading, error cleared, and searching for a search. */
  function Started(s: ViewState, f: Option<Fetch>): ViewState {
    match f
    case None => s
    case Some(Page(_, _)) => s.(loading := true, error := None)
    case Some(Keyword(_, _)) => s.(isSearching := true, loading := true, error := None)
  }

  /** The state once a page load settles. */
  function LoadCompleted(s: ViewState, pageNum: nat, resp: Result<HistoryPage, Api.Failure>): ViewState {
    match resp
    case Success(d) =>
      s.(conversations := if pageNum == 0 then d.conversations else s.conversations + d.conversations,
         total := d.pagination.total, hasMore := d.pagination.hasMore, page := pageNum, loading := false)
    case Failure(e) =>
      s.(error := Some(ServerError(e, LoadFallback)), loading := false)
  }

  /** The state once a keyword search settles. */
  function SearchCompleted(s: ViewState, query: string, resp: Result<SearchPage, Api.Failure>): ViewState {
    match resp
    case Success(d) =>
      s.(conversations := d.results, total := d.total, hasMore := false, searchQuery := query,
         loading := false, isSearching := false)
    case Failure(e) =>
      s.(error := Some(ServerError(e, SearchFallback)), loading := false, isSearching := false)
  }

  /** `clearSearch`: the query is emptied, then the first page is requested. */
  function ClearSearchStarted(s: ViewState, user: Option<Auth.User>): ViewState {
    Started(s.(searchQuery := ""), LoadRequest(user, 0))
  }

  /** `prev.filter(c => c.id !== id)`. */
  function RemoveId(cs: seq<Conversation>, id: int): (r: seq<Conversation>)
    ensures |r| <= |cs|
    ensures forall c :: c in r ==> c in cs && c.id != id
    ensures forall c :: c in cs && c.id != id ==> c in r
  {
    if cs == [] then []
    else if cs[0].id == id then RemoveId(cs[1..], id)
    else [cs[0]] + RemoveId(cs[1..], id)
  }

  /** The filter works entry by entry, so it keeps the server's order. */
  lemma {:induction false} RemoveIdAppend(a: seq<Conversation>, b: seq<Conversation>, id: int)
    ensures RemoveId(a + b, id) == RemoveId(a, id) + RemoveId(b, id)
  {
    if a != [] {
      assert (a + b)[1..] == a[1..] + b;
      RemoveIdAppend(a[1..], b, id);
    } else {
      assert a + b == b;
    }
  }

  /** Filtering out an id no entry has leaves the list exactly as it was. */
  lemma {:induction false} RemoveAbsentId(cs: seq<Conversation>, id: int)
    requires forall c :: c in cs ==> c.id != id
    ensures RemoveId(cs, id) == cs
  {
    if cs != [] {
      assert cs[0] in cs;
      assert forall c :: c in cs[1..] ==> c in cs;
      RemoveAbsentId(cs[1..], id);
      assert [cs[0]] + cs[1..] == cs;
    }
  }

  /** The state once a delete settles: on success the entries with that id go and the
      total drops by one; on failure only the error changes. */
  function DeleteCompleted(s: ViewState, conversationId: int, resp: Result<(), Api.Failure>): ViewState {
    match resp
    case Success(_) => s.(conversations := RemoveId(s.conversations, conversationId), total := s.total - 1)
    case Failure(e) => s.(error := Some(ServerError(e, DeleteFallback)))
  }

  /** The state once a clear-all settles. */
  function ClearAllCompleted(s: ViewState, resp: Result<ClearReceipt, Api.Failure>): ViewState {
    match resp
    case Success(_) => s.(conversations := [], total := 0, hasMore := false, page := 0)
    case Failure(e) => s.(error := Some(ServerError(e, ClearFallback)))
  }

  // ------------------------------------------------------------------ lemmas

  /** Without a user no page is requested and the state does not change; with one the
      request asks for 20 conversations at offset `pageNum * 20` for that user. */
  lemma LoadRequestShape(s: ViewState, user: Option<Auth.User>, pageNum: nat)
    ensures user.None? ==> LoadRequest(user, pageNum) == None && Started(s, LoadRequest(user, pageNum)) == s
    ensures user.Some? ==> LoadRequest(user, pageNum).Some?
    ensures user.Some? ==> var f := LoadRequest(user, pageNum).value;
      f.Page? && f.userId == user.value.id && f.Limit() == 20 && f.Offset() == pageNum * 20
  {
  }

  /** A successful load of page 0 replaces the list, of a later page appends after the
      existing entries in order; either way the counters come from the envelope and the
      query is untouched. */
  lemma LoadSuccess(s: ViewState, pageNum: nat, d: HistoryPage)
    ensures var r := LoadCompleted(s, pageNum, Success(d));
      && (pageNum == 0 ==> r.conversations == d.conversations)
      && (pageNum > 0 ==>
            && |r.conversations| == |s.conversations| + |d.conversations|
            && r.conversations[..|s.conversations|] == s.conversations
            && r.conversations[|s.conversations|..] == d.conversations)
      && r.total == d.pagination.total && r.hasMore == d.pagination.hasMore && r.page == pageNum
      && r.searchQuery == s.searchQuery && r.error == s.error && !r.loading
  {
    var r := LoadCompleted(s, pageNum, Success(d));
    if pageNum > 0 {
      assert r.conversations == s.conversations + d.conversations;
    }
  }

  /** A failed load keeps the list and the counters it started from, records the server's
      message or the fixed fallback, and stops loading. */
  lemma LoadFailure(s: ViewState, user: Option<Auth.User>, pageNum: nat, e: Api.Failure)
    requires user.Some?
    ensures var r := LoadCompleted(Started(s, LoadRequest(user, pageNum)), pageNum, Failure(e));
      && r.conversations == s.conversations && r.total == s.total
      && r.hasMore == s.hasMore && r.page == s.page && r.searchQuery == s.searchQuery
      && r.error == Some(if Truthy(Api.DataError(e)) then Api.DataError(e).value else LoadFallback)
      && r.error.value != ""
      && !r.loading
  {
  }

  /** A successful non-blank search shows exactly the results, suspends pagination,
      records the query and keeps the page number. */
  lemma SearchSuccess(s: ViewState, user: Option<Auth.User>, query: string, d: SearchPage)
    requires user.Some? && !IsBlank(query)
    ensures SearchRequest(user, query) == Some(Keyword(user.value.id, query))
    ensures SearchRequest(user, query).value.Limit() == 50
    ensures var r := SearchCompleted(Started(s, SearchRequest(user, query)), query, Success(d));
      && r.conversations == d.results && r.total == d.total && !r.hasMore
      && r.searchQuery == query && r.page == s.page
      && !r.loading && !r.isSearching && r.error == None
  {
  }

  /** A blank query, or no user, makes `search` a first-page load that keeps the current
      query (it is not cleared). */
  lemma BlankSearchLoadsFirstPage(s: ViewState, user: Option<Auth.User>, query: string)
    requires user.None? || IsBlank(query)
    ensures SearchRequest(user, query) == LoadRequest(user, 0)
    ensures Started(s, SearchRequest(user, query)).searchQuery == s.searchQuery
  {
  }

  /** `loadMore` asks for page `page + 1` exactly when idle, with more to load, not in
      search mode and logged in; otherwise it does nothing. */
  lemma LoadMoreGuard(s: ViewState, user: Option<Auth.User>)
    ensures LoadMoreRequest(s, user).Some? <==> !s.loading && s.hasMore && s.searchQuery == "" && user.Some?
    ensures LoadMoreRequest(s, user).Some? ==> LoadMoreRequest(s, user).value == Page(user.value.id, s.page + 1)
    ensures LoadMoreRequest(s, user).None? ==> Started(s, LoadMoreRequest(s, user)) == s
  {
  }

  /** `refresh` repeats the stored query as a keyword search when there is one (a stored
      query is never blank, see SearchStoresNonBlankQuery), and otherwise reloads page 0. */
  lemma RefreshDispatch(s: ViewState, user: Option<Auth.User>)
    requires user.Some?
    ensures s.searchQuery != "" && !IsBlank(s.searchQuery) ==>
      RefreshRequest(s, user) == Some(Keyword(user.value.id, s.searchQuery))
    ensures s.searchQuery == "" ==> RefreshRequest(s, user) == Some(Page(user.value.id, 0))
  {
  }

  /** The stored query is either empty or non-blank, and every transition keeps it so:
      only a search issued for a non-blank query, or the repeat of a stored one by
      `refresh`, stores one. */
  predicate QueryWellFormed(s: ViewState) {
    s.searchQuery == "" || !IsBlank(s.searchQuery)
  }

  lemma SearchStoresNonBlankQuery(s: ViewState, user: Option<Auth.User>, query: string,
                                  resp: Result<SearchPage, Api.Failure>, pageNum: nat,
                                  page: Result<HistoryPage, Api.Failure>)
    requires QueryWellFormed(s)
    ensures SearchRequest(user, query).Some? && SearchRequest(user, query).value.Keyword? ==>
      QueryWellFormed(SearchCompleted(Started(s, SearchRequest(user, query)), SearchRequest(user, query).value.query, resp))
    ensures QueryWellFormed(LoadCompleted(Started(s, LoadRequest(user, pageNum)), pageNum, page))
    ensures QueryWellFormed(ClearSearchStarted(s, user))
  {
  }

  /** The remaining transitions keep the stored query well formed: starting any request,
      a `refresh` that repeats the stored search, a delete and a clear-all. */
  lemma OtherTransitionsKeepQuery(s: ViewState, f: Option<Fetch>, resp: Result<SearchPage, Api.Failure>,
                                  id: int, deleted: Result<(), Api.Failure>,
                                  cleared: Result<ClearReceipt, Api.Failure>)
    requires QueryWellFormed(s)
    ensures QueryWellFormed(Started(s, f))
    ensures QueryWellFormed(SearchCompleted(s, s.searchQuery, resp))
    ensures QueryWellFormed(DeleteCompleted(s, id, deleted))
    ensures QueryWellFormed(ClearAllCompleted(s, cleared))
  {
  }

  /** The number of entries with the given id. */
  function Occurrences(cs: seq<Conversation>, id: int): nat {
    if cs == [] then 0 else (if cs[0].id == id then 1 else 0) + Occurrences(cs[1..], id)
  }

  /** No two entries share an id. */
  predicate UniqueIds(cs: seq<Conversation>) {
    forall i, j :: 0 <= i < j < |cs| ==> cs[i].id != cs[j].id
  }

  /** Removing an id drops exactly its occurrences and keeps the ids unique. */
  lemma {:induction false} RemoveIdCount(cs: seq<Conversation>, id: int)
    ensures |RemoveId(cs, id)| == |cs| - Occurrences(cs, id)
    ensures UniqueIds(cs) ==> UniqueIds(RemoveId(cs, id))
  {
    if cs != [] {
      RemoveIdCount(cs[1..], id);
      if UniqueIds(cs) {
        assert UniqueIds(cs[1..]) by {
          forall i, j | 0 <= i < j < |cs[1..]| ensures cs[1..][i].id != cs[1..][j].id {
            assert cs[1..][i] == cs[i + 1] && cs[1..][j] == cs[j + 1];
          }
        }
        var rest := RemoveId(cs[1..], id);
        if cs[0].id != id {
          forall c | c in rest ensures c.id != cs[0].id {
            var k :| 0 <= k < |cs[1..]| && cs[1..][k] == c;
            assert cs[k + 1] == c;
          }
        }
      }
    }
  }

  /** With unique ids an id occurs at most once, so a delete removes at most one entry:
      exactly one when it is listed, none when it is not. */
  lemma {:induction false} UniqueOccursOnce(cs: seq<Conversation>, id: int)
    requires UniqueIds(cs)
    ensures Occurrences(cs, id) == if exists c :: c in cs && c.id == id then 1 else 0
  {
    if cs != [] {
      assert UniqueIds(cs[1..]) by {
        forall i, j | 0 <= i < j < |cs[1..]| ensures cs[1..][i].id != cs[1..][j].id {
          assert cs[1..][i] == cs[i + 1] && cs[1..][j] == cs[j + 1];
        }
      }
      UniqueOccursOnce(cs[1..], id);
      if cs[0].id == id {
        forall c | c in cs[1..] ensures c.id != id {
          var k :| 0 <= k < |cs[1..]| && cs[1..][k] == c;
          assert cs[k + 1] == c;
        }
      } else {
        if exists c :: c in cs && c.id == id {
          var c :| c in cs && c.id == id;
          assert c in cs[1..] by {
            var k :| 0 <= k < |cs| && cs[k] == c;
            assert k != 0;
            assert cs[1..][k - 1] == c;
          }
        }
      }
    }
  }

  /** A successful delete removes every entry with that id and decrements the total by
      exactly one, listed or not; a failed one keeps list and total. */
  lemma DeleteOutcome(s: ViewState, id: int, resp: Result<(), Api.Failure>)
    ensures var r := DeleteCompleted(s, id, resp);
      && (resp.Success? ==> r.conversations == RemoveId(s.conversations, id) && r.total == s.total - 1
                            && (forall c :: c in r.conversations ==> c.id != id)
                            && ((forall c :: c in s.conversations ==> c.id != id) ==> r.conversations == s.conversations))
      && (resp.Failure? ==> r.conversations == s.conversations && r.total == s.total && r.error.Some?)
      && r.hasMore == s.hasMore && r.page == s.page && r.searchQuery == s.searchQuery && r.loading == s.loading
  {
    if resp.Success? && forall c :: c in s.conversations ==> c.id != id {
      RemoveAbsentId(s.conversations, id);
    }
  }

  /** A successful clear-all empties the view and resets the counters but keeps the query;
      a failed one keeps the list. */
  lemma ClearAllOutcome(s: ViewState, resp: Result<ClearReceipt, Api.Failure>)
    ensures var r := ClearAllCompleted(s, resp);
      && (resp.Success? ==> r.conversations == [] && r.total == 0 && !r.hasMore && r.page == 0)
      && (resp.Failure? ==> r.conversations == s.conversations && r.total == s.total && r.error.Some?)
      && r.searchQuery == s.searchQuery
  {
  }

  /** Clearing the search after a search leaves the same view as reloading the first page
      with the query emptied would have. */
  lemma SearchThenClearSearch(s: ViewState, user: Option<Auth.User>, query: string,
                              d: SearchPage, p: HistoryPage)
    requires user.Some? && !IsBlank(query) && !s.isSearching
    ensures var searched := SearchCompleted(Started(s, SearchRequest(user, query)), query, Success(d));
      LoadCompleted(ClearSearchStarted(searched, user), 0, Success(p))
        == LoadCompleted(Started(s.(searchQuery := ""), LoadRequest(user, 0)), 0, Success(p))
  {
  }

  /** Three page loads answered with 20, 20 and 7 conversations and `has_more` true, true,
      false: `loadMore` asks for offsets 20 and 40, the view ends with the 47 entries in page
      order, no more pages, and no further `loadMore` request. */
  lemma ThreePages(s: ViewState, user: Option<Auth.User>, p0: HistoryPage, p1: HistoryPage, p2: HistoryPage)
    requires user.Some? && s.searchQuery == ""
    requires |p0.conversations| == 20 && p0.pagination.hasMore
    requires |p1.conversations| == 20 && p1.pagination.hasMore
    requires |p2.conversations| == 7 && !p2.pagination.hasMore
    ensures var s1 := LoadCompleted(Started(s, LoadRequest(user, 0)), 0, Success(p0));
      var f1 := LoadMoreRequest(s1, user);
      && f1 == Some(Page(user.value.id, 1)) && f1.value.Offset() == 20
      && var s2 := LoadCompleted(Started(s1, f1), 1, Success(p1));
      var f2 := LoadMoreRequest(s2, user);
      && f2 == Some(Page(user.value.id, 2)) && f2.value.Offset() == 40
      && var s3 := LoadCompleted(Started(s2, f2), 2, Success(p2));
      && s3.conversations == p0.conversations + p1.conversations + p2.conversations
      && |s3.conversations| == 47 && !s3.hasMore && s3.page == 2 && !s3.loading
      && LoadMoreRequest(s3, user) == None
  {
  }

  // ------------------------------------------------------------------- class

  /** The hook's state held in place; each method is one step of one callback. */
  class HistoryView {
    var conversations: seq<Conversation>
    var loading: bool
    var error: Option<string>
    var page: nat
    var hasMore: bool
    var total: int
    var searchQuery: string
    var isSearching: bool

    function Snapshot(): ViewState
      reads this
    {
      ViewState(conversations, loading, error, page, hasMore, total, searchQuery, isSearching)
    }

    constructor ()
      ensures Snapshot() == Initial
    {
      conversations, loading, error := [], true, None;
      page, hasMore, total := 0, false, 0;
      searchQuery, isSearching := "", false;
    }

    /** `loadHistory(pageNum)` up to the request. */
    method BeginLoad(user: Option<Auth.User>, pageNum: nat) returns (f: Option<Fetch>)
      modifies this
      ensures f == LoadRequest(user, pageNum)
      ensures Snapshot() == Started(old(Snapshot()), f)
    {
      if user.None? {
        return None;
      }
      loading := true;
      error := None;
      f := Some(Page(user.value.id, pageNum));
    }

    /** `loadHistory(pageNum)` from the response on. */
    method CompleteLoad(f: Fetch, resp: Result<HistoryPage, Api.Failure>)
      requires f.Page?
      modifies this
      ensures Snapshot() == LoadCompleted(old(Snapshot()), f.pageNum, resp)
    {
      match resp {
        case Success(d) =>
          if f.pageNum == 0 {
            conversations := d.conversations;
          } else {
            conversations := conversations + d.conversations;
          }
          total := d.pagination.total;
          hasMore := d.pagination.hasMore;
          page := f.pageNum;
        case Failure(e) =>
          error := Some(ServerError(e, LoadFallback));
      }
      loading := false;
    }

    /** `search(query)` up to the request. */
    method Search(user: Option<Auth.User>, query: string) returns (f: Option<Fetch>)
      modifies this
      ensures f == SearchRequest(user, query)
      ensures Snapshot() == Started(old(Snapshot()), f)
    {
      if user.None? || IsBlank(query) {
        f := BeginLoad(user, 0);
      } else {
        ghost var before := Snapshot();
        isSearching, loading, error := true, true, None;
        f := Some(Keyword(user.value.id, query));
        assert Snapshot() == before.(isSearching := true, loading := true, error := None);
      }
    }

    /** `search(query)` from the response on. */
    method CompleteSearch(f: Fetch, resp: Result<SearchPage, Api.Failure>)
      requires f.Keyword?
      modifies this
      ensures Snapshot() == SearchCompleted(old(Snapshot()), f.query, resp)
    {
      match resp {
        case Success(d) =>
          conversations := d.results;
          total := d.total;
          hasMore := false;
          searchQuery := f.query;
        case Failure(e) =>
          error := Some(ServerError(e, SearchFallback));
      }
      loading := false;
      isSearching := false;
    }

    method ClearSearch(user: Option<Auth.User>) returns (f: Option<Fetch>)
      modifies this
      ensures f == LoadRequest(user, 0)
      ensures Snapshot() == ClearSearchStarted(old(Snapshot()), user)
    {
      searchQuery := "";
      f := BeginLoad(user, 0);
    }

    method LoadMore(user: Option<Auth.User>) returns (f: Option<Fetch>)
      modifies this
      ensures f == LoadMoreRequest(old(Snapshot()), user)
      ensures Snapshot() == Started(old(Snapshot()), f)
    {
      f := None;
      if !loading && hasMore && searchQuery == "" {
        f := BeginLoad(user, page + 1);
      }
    }

    method Refresh(user: Option<Auth.User>) returns (f: Option<Fetch>)
      modifies this
      ensures f == RefreshRequest(old(Snapshot()), user)
      ensures Snapshot() == Started(old(Snapshot()), f)
    {
      if searchQuery != "" {
        f := Search(user, searchQuery);
      } else {
        f := BeginLoad(user, 0);
      }
    }

    /** `deleteConversation(id)` up to the request: the state does not change. */
    method BeginDelete(user: Option<Auth.User>, conversationId: int) returns (m: Option<Mutation>)
      ensures m == DeleteRequest(user, conversationId)
    {
      m := if user.None? then None else Some(DeleteOne(user.value.id, conversationId));
    }

    /** `deleteConversation(id)` from the response on; `ok` is what the callback resolves to. */
    method CompleteDelete(m: Mutation, resp: Result<(), Api.Failure>) returns (ok: bool)
      requires m.DeleteOne?
      modifies this
      ensures ok == resp.Success?
      ensures Snapshot() == DeleteCompleted(old(Snapshot()), m.conversationId, resp)
    {
      match resp
      case Success(_) =>
        conversations := RemoveId(conversations, m.conversationId);
        total := total - 1;
        ok := true;
      case Failure(e) =>
        error := Some(ServerError(e, DeleteFallback));
        ok := false;
    }

    method BeginClearAll(user: Option<Auth.User>) returns (m: Option<Mutation>)
      ensures m == ClearAllRequest(user)
    {
      m := if user.None? then None else Some(ClearAll(user.value.id));
    }

    /** `clearAllHistory` from the response on; the reported count is not used. */
    method CompleteClearAll(m: Mutation, resp: Result<ClearReceipt, Api.Failure>) returns (ok: bool)
      requires m.ClearAll?
      modifies this
      ensures ok == resp.Success?
      ensures Snapshot() == ClearAllCompleted(old(Snapshot()), resp)
    {
      match resp
      case Success(_) =>
        conversations := [];
        total := 0;
        hasMore := false;
        page := 0;
        ok := true;
      case Failure(e) =>
        error := Some(ServerError(e, ClearFallback));
        ok := false;
    }
  }
}
