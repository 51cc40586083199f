/** Paged listings: the two-field cursor every list iterator keeps
    (`continuation`, `done`), the transition one `Next` makes against the
    server, the loop that drains an iterator into one aggregate page, and the
    properties of both over a whole conversation with the server. */
module Pagination {
  import opened Protocol
  import opened Service

  /** One page of a listing, and also the aggregate the drain loop builds. */
  datatype Page<T> = Page(count: int, resourceId: string, items: seq<T>)

  function EmptyPage<T>(): (p: Page<T>) { Page(0, "", []) }

  /** The iterator's own state: the token to resume from, and whether the
      listing has been reported complete. */
  datatype Cursor = Cursor(continuation: string, done: bool)

  /** A freshly listed iterator: no token yet, not done. */
  const Fresh: Cursor := Cursor("", false)

  /** Where a listing request goes: URL path, resource-type tag, resource link. */
  datatype ListTarget = ListTarget(path: string, resourceType: string, resourceLink: string)

  /** What one `Next` reports: a page, the end of the listing, or the error. */
  datatype Step<T> = Item(page: Page<T>) | End | Fail(err: Error)

  /** The iterator together with the server it talks to: the cursor, the
      replies the server still has to give, and the requests it has received. */
  datatype Session<T> = Session(cursor: Cursor, script: seq<Reply<Page<T>>>, log: seq<Request<T>>)

  /** A measure that every page-yielding `Next` decreases. */
  function Measure<T>(s: Session<T>): (m: nat)
  {
    |s.script| + if s.cursor.done then 0 else 1
  }

  /** The request a listing sends from a given continuation token. */
  function ListRequest<T>(target: ListTarget, continuation: string): (r: Request<T>)
    ensures r.verb == GET && r.expectedStatus == StatusOK && r.body == None
    ensures r.path == target.path && r.resourceType == target.resourceType
    ensures r.resourceLink == target.resourceLink
    ensures ContinuationHeader in r.headers <==> continuation != ""
    ensures HeaderGet(r.headers, ContinuationHeader) == continuation
  {
    Request(GET, target.path, target.resourceType, target.resourceLink, StatusOK, None,
            ContinuationHeaders(continuation))
  }

  /** The continuation token a successful reply carries ("" when none). */
  function TokenOf<T>(reply: Reply<Page<T>>): (token: string)
    requires reply.Answered?
  {
    HeaderGet(reply.headers, ContinuationHeader)
  }

  /** One call of `Next`. A done cursor answers `End` and touches nothing.
      Otherwise exactly one listing request goes out; a failure is reported
      as it came and leaves the cursor as it was; a page moves the cursor to
      the reply's token and marks it done exactly when that token is empty. */
  function NextStep<T>(target: ListTarget, s: Session<T>): (r: (Session<T>, Step<T>))
    ensures s.cursor.done ==> r == (s, End)
    ensures r.1.End? ==> s.cursor.done
    ensures !s.cursor.done ==>
      && r.0.log == s.log + [ListRequest(target, s.cursor.continuation)]
      && r.0.script == RestOf(s.script)
    ensures !s.cursor.done && NextReply(s.script).Failed? ==>
      r.0.cursor == s.cursor && r.1 == Fail(NextReply(s.script).err)
    ensures !s.cursor.done && NextReply(s.script).Answered? ==>
      var token := HeaderGet(NextReply(s.script).headers, ContinuationHeader);
      r.0.cursor == Cursor(token, token == "") && r.1 == Item(NextReply(s.script).body)
    ensures s.cursor.done ==> r.0.cursor.done
    ensures r.1.Item? ==> Measure(r.0) < Measure(s)
  {
    if s.cursor.done then (s, End)
    else
      var req := ListRequest(target, s.cursor.continuation);
      var log := s.log + [req];
      match NextReply(s.script)
      case Failed(e) => (Session(s.cursor, RestOf(s.script), log), Fail(e))
      case Answered(page, h) =>
        var token := HeaderGet(h, ContinuationHeader);
        (Session(Cursor(token, token == ""), RestOf(s.script), log), Item(page))
  }

  /** Folds one more page into the aggregate: counts add up, items are
      appended in order, the resource id is the latest page's. */
  function Merge<T>(acc: Page<T>, p: Page<T>): (r: Page<T>)
    ensures r.count == acc.count + p.count
    ensures r.resourceId == p.resourceId
    ensures |r.items| == |acc.items| + |p.items|
    ensures r.items[..|acc.items|] == acc.items && r.items[|acc.items|..] == p.items
  {
    Page(acc.count + p.count, p.resourceId, acc.items + p.items)
  }

  /** The drain loop: call `Next` until it reports the end, merging every
      page into `acc`; the first error ends the loop and discards the pages. */
  function Collect<T>(target: ListTarget, s: Session<T>, acc: Page<T>): (r: (Session<T>, Result<Page<T>>))
    ensures r.1.Ok? <==> r.0.cursor.done
    ensures s.cursor.done ==> r == (s, Ok(acc))
    ensures |r.0.log| >= |s.log| && r.0.log[..|s.log|] == s.log
    decreases Measure(s)
  {
    var (s', step) := NextStep(target, s);
    match step
    case Fail(e) => (s', Err(e))
    case End => (s', Ok(acc))
    case Item(p) => Collect(target, s', Merge(acc, p))
  }

  /** `k` successive calls of `Next`, with what each reported. */
  function Run<T>(target: ListTarget, s: Session<T>, k: nat): (r: (Session<T>, seq<Step<T>>))
    ensures |r.1| == k
    decreases k
  {
    if k == 0 then (s, [])
    else
      var (s1, step) := NextStep(target, s);
      var (s2, steps) := Run(target, s1, k - 1);
      (s2, [step] + steps)
  }

  // ----- Reference definitions of a finished listing -----

  /** Replies that make up a complete listing: at least one page, every reply
      a page, every token non-empty except the last, which is empty. */
  predicate IsListing<T>(replies: seq<Reply<Page<T>>>)
  {
    && |replies| >= 1
    && (forall i | 0 <= i < |replies| :: replies[i].Answered?)
    && (forall i | 0 <= i < |replies| - 1 :: TokenOf(replies[i]) != "")
    && TokenOf(replies[|replies| - 1]) == ""
  }

  /** The pages carried by successful replies, in order. */
  function Bodies<T>(replies: seq<Reply<Page<T>>>): (ps: seq<Page<T>>)
    requires forall i | 0 <= i < |replies| :: replies[i].Answered?
    ensures |ps| == |replies|
    ensures forall i | 0 <= i < |replies| :: ps[i] == replies[i].body
  {
    if replies == [] then [] else [replies[0].body] + Bodies(replies[1..])
  }

  function SumCounts<T>(ps: seq<Page<T>>): (n: int)
  {
    if ps == [] then 0 else ps[0].count + SumCounts(ps[1..])
  }

  function Flatten<T>(ps: seq<Page<T>>): (items: seq<T>)
  {
    if ps == [] then [] else ps[0].items + Flatten(ps[1..])
  }

  /** What draining a listing of pages `ps` should give: the sum of their
      counts, their items concatenated in order, the last page's id. */
  function Total<T>(ps: seq<Page<T>>): (r: Page<T>)
    requires ps != []
  {
    Page(SumCounts(ps), ps[|ps| - 1].resourceId, Flatten(ps))
  }

  /** The requests a listing sends, starting from token `continuation`: the
      first resumes from it, each later one from the previous reply's token. */
  function ListingRequests<T>(target: ListTarget, continuation: string, replies: seq<Reply<Page<T>>>): (rs: seq<Request<T>>)
    requires forall i | 0 <= i < |replies| :: replies[i].Answered?
    ensures |rs| == |replies|
    decreases |replies|
  {
    if replies == [] then []
    else [ListRequest(target, continuation)] + ListingRequests(target, TokenOf(replies[0]), replies[1..])
  }

  // ----- Properties -----

  /** Request i of a listing resumes from the token of reply i - 1, and the
      first from the cursor's own token; so a fresh iterator's first request
      carries no continuation header and every later one carries the token
      the server just issued. */
  lemma {:induction false} ListingRequestsCarryTokens<T>(target: ListTarget, continuation: string, replies: seq<Reply<Page<T>>>, i: nat)
    requires forall j | 0 <= j < |replies| :: replies[j].Answered?
    requires i < |replies|
    ensures ListingRequests(target, continuation, replies)[i]
         == ListRequest(target, if i == 0 then continuation else TokenOf(replies[i - 1]))
    decreases i
  {
    if i > 0 {
      ListingRequestsCarryTokens(target, TokenOf(replies[0]), replies[1..], i - 1);
    }
  }

  /** Merging a first page and then the total of the rest is merging the
      total of all of them. */
  lemma MergeTotal<T>(acc: Page<T>, ps: seq<Page<T>>)
    requires |ps| >= 2
    ensures Merge(Merge(acc, ps[0]), Total(ps[1..])) == Merge(acc, Total(ps))
  {
  }

  /** The total of a single page is that page. */
  lemma OnePageTotal<T>(p: Page<T>)
    ensures Total([p]) == p
  {
    assert [p][1..] == [];
    assert SumCounts([p]) == p.count + SumCounts([p][1..]) == p.count;
    assert Flatten([p]) == p.items + Flatten([p][1..]) == p.items + [];
    assert p.items + [] == p.items;
  }

  /** A page from a cursor that is not done: the drain sends one request,
      moves the cursor to the page's token and goes on with the page merged. */
  lemma CollectFirstPage<T>(target: ListTarget, s: Session<T>, acc: Page<T>)
    requires !s.cursor.done && s.script != [] && s.script[0].Answered?
    ensures var token := TokenOf(s.script[0]);
      Collect(target, s, acc) ==
      Collect(target, Session(Cursor(token, token == ""), s.script[1..],
                              s.log + [ListRequest(target, s.cursor.continuation)]),
              Merge(acc, s.script[0].body))
  {
  }

  /** Draining an iterator whose server answers with a complete listing of n
      pages: the result is the total of those pages, exactly n requests go
      out (each resuming from the previous token), the remaining script is
      untouched and the cursor ends done with an empty token. */
  lemma {:induction false} CollectListing<T>(target: ListTarget, s: Session<T>, acc: Page<T>, n: nat)
    requires !s.cursor.done && 1 <= n <= |s.script| && IsListing(s.script[..n])
    ensures Collect(target, s, acc) ==
      (Session(Cursor("", true), s.script[n..],
               s.log + ListingRequests(target, s.cursor.continuation, s.script[..n])),
       Ok(Merge(acc, Total(Bodies(s.script[..n])))))
    decreases n
  {
    var listing := s.script[..n];
    assert listing[0] == s.script[0];
    var p := s.script[0].body;
    var token := TokenOf(s.script[0]);
    var s' := Session(Cursor(token, token == ""), s.script[1..],
                      s.log + [ListRequest(target, s.cursor.continuation)]);
    CollectFirstPage(target, s, acc);
    if n == 1 {
      assert Bodies(listing) == [p];
      OnePageTotal(p);
      assert ListingRequests(target, s.cursor.continuation, listing) == [ListRequest(target, s.cursor.continuation)];
      assert s'.script == s.script[n..];
    } else {
      var rest := listing[1..];
      assert s'.script[..n - 1] == rest;
      ListingTail(listing);
      CollectListing(target, s', Merge(acc, p), n - 1);
      assert s'.script[n - 1..] == s.script[n..];
      var bs := Bodies(listing);
      assert Bodies(rest) == bs[1..];
      MergeTotal(acc, bs);
      var reqs := ListingRequests(target, s.cursor.continuation, listing);
      assert reqs == [ListRequest(target, s.cursor.continuation)] + ListingRequests(target, token, rest);
      assert s'.log + ListingRequests(target, token, rest) == s.log + reqs;
    }
  }

  /** A complete listing of two or more pages, less its first page, is still
      a complete listing. */
  lemma ListingTail<T>(replies: seq<Reply<Page<T>>>)
    requires |replies| >= 2 && IsListing(replies)
    ensures IsListing(replies[1..])
  {
  }

  /** The same for a freshly listed iterator: the aggregate is exactly the
      listing's total, the first request carries no continuation header. */
  lemma CollectFreshListing<T>(target: ListTarget, script: seq<Reply<Page<T>>>, log: seq<Request<T>>, n: nat)
    requires 1 <= n <= |script| && IsListing(script[..n])
    ensures Collect(target, Session(Fresh, script, log), EmptyPage()).1 == Ok(Total(Bodies(script[..n])))
    ensures Collect(target, Session(Fresh, script, log), EmptyPage()).0 ==
      Session(Cursor("", true), script[n..], log + ListingRequests(target, "", script[..n]))
    ensures ContinuationHeader !in ListingRequests(target, "", script[..n])[0].headers
  {
    CollectListing(target, Session(Fresh, script, log), EmptyPage(), n);
    assert [] + Flatten(Bodies(script[..n])) == Flatten(Bodies(script[..n]));
    ListingRequestsCarryTokens(target, "", script[..n], 0);
  }

  /** Draining stops at the first failure: after k pages with non-empty
      tokens, a failed reply makes the drain return that error, with the
      cursor resuming from the last token and not done, so a later `Next`
      retries the same page. */
  lemma {:induction false} CollectStopsAtFailure<T>(target: ListTarget, s: Session<T>, acc: Page<T>, k: nat)
    requires !s.cursor.done && k < |s.script|
    requires forall i | 0 <= i < k :: s.script[i].Answered? && TokenOf(s.script[i]) != ""
    requires s.script[k].Failed?
    ensures Collect(target, s, acc).1 == Err(s.script[k].err)
    ensures Collect(target, s, acc).0.cursor ==
      Cursor(if k == 0 then s.cursor.continuation else TokenOf(s.script[k - 1]), false)
    ensures Collect(target, s, acc).0.script == s.script[k + 1..]
    decreases k
  {
    var (s', step) := NextStep(target, s);
    if k > 0 {
      assert step == Item(s.script[0].body);
      assert forall i | 0 <= i < k - 1 :: s'.script[i] == s.script[i + 1];
      CollectStopsAtFailure(target, s', Merge(acc, s.script[0].body), k - 1);
      assert s'.script[k..] == s.script[k + 1..];
    }
  }

  /** Once done, every further `Next` reports the end and changes nothing. */
  lemma {:induction false} ExhaustedStaysExhausted<T>(target: ListTarget, s: Session<T>, k: nat)
    requires s.cursor.done
    ensures Run(target, s, k).0 == s
    ensures var steps := Run(target, s, k).1; forall i | 0 <= i < k :: steps[i] == End
  {
    if k > 0 {
      ExhaustedStaysExhausted(target, s, k - 1);
    }
  }

  /** Against a complete listing of n pages, n + m calls of `Next` report
      exactly the n pages in order and then m ends. */
  lemma {:induction false} RunListing<T>(target: ListTarget, s: Session<T>, n: nat, m: nat)
    requires !s.cursor.done && 1 <= n <= |s.script| && IsListing(s.script[..n])
    ensures var steps := Run(target, s, n + m).1;
      && (forall i | 0 <= i < n :: steps[i] == Item(s.script[i].body))
      && (forall i | n <= i < n + m :: steps[i] == End)
    decreases n
  {
    var listing := s.script[..n];
    assert listing[0] == s.script[0];
    var token := TokenOf(s.script[0]);
    var s' := Session(Cursor(token, token == ""), s.script[1..],
                      s.log + [ListRequest(target, s.cursor.continuation)]);
    assert NextStep(target, s) == (s', Item(s.script[0].body));
    var tail := Run(target, s', n - 1 + m).1;
    var steps := Run(target, s, n + m).1;
    assert steps == [Item(s.script[0].body)] + tail;
    if n == 1 {
      ExhaustedStaysExhausted(target, s', m);
      forall i | n <= i < n + m ensures steps[i] == End {
        assert steps[i] == tail[i - 1];
      }
    } else {
      assert s'.script[..n - 1] == listing[1..];
      ListingTail(listing);
      RunListing(target, s', n - 1, m);
      forall i | 0 < i < n ensures steps[i] == Item(s.script[i].body) {
        assert steps[i] == tail[i - 1] && s'.script[i - 1] == s.script[i];
      }
      forall i | n <= i < n + m ensures steps[i] == End {
        assert steps[i] == tail[i - 1];
      }
    }
  }

  /** A failed `Next` can simply be called again: it sends the very same
      request. */
  lemma RetryResendsRequest<T>(target: ListTarget, s: Session<T>)
    requires !s.cursor.done && NextReply(s.script).Failed?
    ensures var s1 := NextStep(target, s).0;
      NextStep(target, s1).0.log == s.log + [ListRequest(target, s.cursor.continuation), ListRequest(target, s.cursor.continuation)]
  {
  }

  // ----- The iterator and the drain loop, on mutable state -----

  /** A list iterator: the two fields the source keeps, plus the listing it
      walks and the server (the executor) it calls. */
  class ListIterator<T> {
    const server: ScriptedServer<T, Page<T>>
    const target: ListTarget
    var continuation: string
    var done: bool

    /** The iterator and its server as one session. */
    function State(): Session<T>
      reads this, server
    {
      Session(Cursor(continuation, done), server.script, server.log)
    }

    constructor (server: ScriptedServer<T, Page<T>>, target: ListTarget)
      ensures this.server == server && this.target == target
      ensures continuation == "" && !done
    {
      this.server := server;
      this.target := target;
      continuation := "";
      done := false;
    }

    method Next() returns (step: Step<T>)
      modifies this, server
      ensures (State(), step) == NextStep(target, old(State()))
    {
      if done {
        return End;
      }
      var headers: Headers := map[];
      if continuation != "" {
        headers := headers[ContinuationHeader := continuation];
      }
      var reply := server.Do(Request(GET, target.path, target.resourceType, target.resourceLink,
                                     StatusOK, None, headers));
      match reply {
        case Failed(e) =>
          return Fail(e);
        case Answered(page, h) =>
          continuation := HeaderGet(h, ContinuationHeader);
          done := continuation == "";
          return Item(page);
      }
    }
  }

  /** Drains an iterator into one aggregate page, stopping at the first error. */
  method CollectAll<T>(it: ListIterator<T>) returns (r: Result<Page<T>>)
    modifies it, it.server
    ensures (it.State(), r) == Collect(it.target, old(it.State()), EmptyPage())
  {
    var acc := EmptyPage();
    while true
      invariant Collect(it.target, it.State(), acc) == Collect(it.target, old(it.State()), EmptyPage())
      decreases Measure(it.State())
    {
      var step := it.Next();
      match step {
        case Fail(e) =>
          return Err(e);
        case End =>
          return Ok(acc);
        case Item(p) =>
          acc := Merge(acc, p);
      }
    }
  }
}
