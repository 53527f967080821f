/** The two handlers that touch the namespace: `POST /create` (CSRF check,
    then the `url` form-field check, then `createKey`) and `GET /:key`
    (look the key up and redirect). */
module Router {
  import opened Keys
  import opened Kv
  import opened Allocator

  datatype Response =
    | Redirect(location: string)   // `c.redirect(location)`
    | NotMatched                   // the path does not reach the handler
    | Forbidden                    // rejected by the CSRF middleware
    | ErrorPage                    // the validator hook's "Error!" fragment
    | CreatedPage(shortUrl: string) // the "Created!" fragment showing the short URL
    | RetriesExhausted             // every drawn candidate collided

  /** The redirect handler: the route pattern decides whether the segment
      reaches it; a `null` lookup sends the visitor to `/`, anything else
      (even an empty string) is the redirect target. */
  function ResolveKey(entries: map<string, string>, segment: string): (r: Response)
    ensures !MatchesKeyRoute(segment) <==> r == NotMatched
    ensures MatchesKeyRoute(segment) ==> r.Redirect?
    ensures MatchesKeyRoute(segment) && segment !in entries ==> r == Redirect("/")
    ensures MatchesKeyRoute(segment) && segment in entries ==> r == Redirect(entries[segment])
  {
    if !MatchesKeyRoute(segment) then NotMatched
    else match Find(entries, segment)
      case None => Redirect("/")
      case Some(url) => Redirect(url)
  }

  /** `GET /:key{[0-9a-z]{6}}` against the namespace: at most one lookup and
      no write. */
  method HandleKey(kv: Namespace, segment: string) returns (r: Response)
    modifies kv`calls
    ensures r == ResolveKey(kv.entries, segment)
    ensures kv.entries == old(kv.entries)
    ensures kv.calls == old(kv.calls) + if MatchesKeyRoute(segment) then [GetCall(segment)] else []
  {
    if !MatchesKeyRoute(segment) {
      return NotMatched;
    }
    var url := kv.Get(segment);
    if url == None {
      return Redirect("/");
    }
    return Redirect(url.value);
  }

  /** The two absence checks differ on an empty stored value: `createKey`
      treats it as free, while the resolver redirects to it. */
  lemma EmptyValueAsymmetry(entries: map<string, string>, k: string)
    requires MatchesKeyRoute(k) && k in entries && entries[k] == ""
    ensures !Taken(entries, k)
    ensures ResolveKey(entries, k) == Redirect("")
  {
  }

  /** A form submission as the handlers see it: the origin of the request
      URL, the CSRF middleware's verdict, and the `url` form field (absent
      when the form did not carry it as a string). */
  datatype Submission = Submission(origin: string, csrfPassed: bool, urlField: Option<string>)

  /** The `z.object({ url: z.string().url() })` check; `isUrl` stands for
      zod's URL test. */
  predicate SchemaAccepts(field: Option<string>, isUrl: string -> bool) {
    field.Some? && isUrl(field.value)
  }

  /** Both middlewares let the submission through to the handler. */
  predicate GatePasses(req: Submission, isUrl: string -> bool) {
    req.csrfPassed && SchemaAccepts(req.urlField, isUrl)
  }

  /** `new URL(`/${key}`, c.req.url)`, taken as the request's origin followed
      by `/` and the key. */
  function ShortUrl(origin: string, key: string): (u: string)
    ensures |u| == |origin| + 1 + |key|
    ensures u[..|origin|] == origin && u[|origin|] == '/' && u[|origin| + 1..] == key
  {
    origin + "/" + key
  }

  /** The response to `POST /create`, given what `createKey` would return
      if the submission reached it. */
  function GateResponse(req: Submission, isUrl: string -> bool, outcome: Outcome): Response {
    if !req.csrfPassed then Forbidden
    else if !SchemaAccepts(req.urlField, isUrl) then ErrorPage
    else match outcome
      case Allocated(k) => CreatedPage(ShortUrl(req.origin, k))
      case Exhausted => RetriesExhausted
  }

  /** The response to `POST /create`. */
  function SubmitResponse(entries: map<string, string>, req: Submission, isUrl: string -> bool, uuids: seq<string>): Response {
    GateResponse(req, isUrl, AllocationOutcome(entries, uuids))
  }

  /** The table after `POST /create`. */
  function SubmitEntries(entries: map<string, string>, req: Submission, isUrl: string -> bool, uuids: seq<string>): map<string, string> {
    if GatePasses(req, isUrl) then AfterAllocation(entries, uuids, req.urlField.value) else entries
  }

  /** `POST /create`: `csrf()`, then `validator`, then the handler calling
      `createKey` and rendering the short URL. */
  method HandleCreate(kv: Namespace, req: Submission, isUrl: string -> bool, uuids: seq<string>) returns (r: Response)
    modifies kv
    ensures r == SubmitResponse(old(kv.entries), req, isUrl, uuids)
    ensures kv.entries == SubmitEntries(old(kv.entries), req, isUrl, uuids)
    ensures !GatePasses(req, isUrl) ==> kv.calls == old(kv.calls)
    ensures GatePasses(req, isUrl) ==>
      kv.calls == old(kv.calls) + AllocationCalls(old(kv.entries), uuids, req.urlField.value)
  {
    if !req.csrfPassed {
      return Forbidden;
    }
    if !SchemaAccepts(req.urlField, isUrl) {
      return ErrorPage;
    }
    var outcome := CreateKey(kv, req.urlField.value, uuids);
    match outcome
    case Allocated(k) => r := CreatedPage(ShortUrl(req.origin, k));
    case Exhausted => r := RetriesExhausted;
  }

  /** A submission failing the CSRF check is refused whatever its URL; one
      failing the `url` check gets the error fragment; neither reaches
      `createKey` or changes the table. */
  lemma RejectedSubmissionChangesNothing(entries: map<string, string>, req: Submission, isUrl: string -> bool, uuids: seq<string>)
    ensures !req.csrfPassed ==> SubmitResponse(entries, req, isUrl, uuids) == Forbidden
    ensures req.csrfPassed && !SchemaAccepts(req.urlField, isUrl) ==> SubmitResponse(entries, req, isUrl, uuids) == ErrorPage
    ensures !GatePasses(req, isUrl) <==> SubmitResponse(entries, req, isUrl, uuids) in {Forbidden, ErrorPage}
    ensures !GatePasses(req, isUrl) ==> SubmitEntries(entries, req, isUrl, uuids) == entries
  {
  }

  /** When the URL check rejects the empty string, submissions keep every
      stored value non-empty, so a free candidate is always an absent key. */
  lemma SubmitKeepsNonEmpty(entries: map<string, string>, req: Submission, isUrl: string -> bool, uuids: seq<string>)
    requires AllNonEmpty(entries) && !isUrl("")
    ensures AllNonEmpty(SubmitEntries(entries, req, isUrl, uuids))
  {
    if GatePasses(req, isUrl) {
      AllocationKeepsNonEmpty(entries, uuids, req.urlField.value);
    }
  }

  /** Round trip: a submission that passes the gate and gets key `k` shows
      the short URL for `k`, and a later `GET /k` redirects to exactly the
      submitted URL. */
  lemma CreateThenResolve(entries: map<string, string>, req: Submission, isUrl: string -> bool, uuids: seq<string>)
    requires GatePasses(req, isUrl)
    requires forall j :: 0 <= j < |uuids| ==> IsUuidString(uuids[j])
    ensures AllocationOutcome(entries, uuids).Allocated? ==>
      var k := AllocationOutcome(entries, uuids).key;
      && SubmitResponse(entries, req, isUrl, uuids) == CreatedPage(ShortUrl(req.origin, k))
      && ResolveKey(SubmitEntries(entries, req, isUrl, uuids), k) == Redirect(req.urlField.value)
    ensures AllocationOutcome(entries, uuids).Exhausted? ==>
      SubmitResponse(entries, req, isUrl, uuids) == RetriesExhausted
  {
    AllocatedKeyMatchesRoute(entries, uuids);
  }

  /** For N submissions of non-empty URLs with well-formed UUIDs, starting
      from a table whose values are all non-empty: each allocated key, looked
      up afterwards, redirects to exactly the URL it was created for. */
  lemma RoundsResolveToTheirUrls(entries: map<string, string>, rounds: seq<Round>)
    requires AllNonEmpty(entries)
    requires forall i :: 0 <= i < |rounds| ==> rounds[i].url != ""
    requires forall i, j :: 0 <= i < |rounds| && 0 <= j < |rounds[i].uuids| ==> IsUuidString(rounds[i].uuids[j])
    ensures var (outcomes, final) := RunRounds(entries, rounds);
      forall i :: 0 <= i < |outcomes| && outcomes[i].Allocated? ==>
        ResolveKey(final, outcomes[i].key) == Redirect(rounds[i].url)
  {
    RoundsAllocateDistinctKeys(entries, rounds);
    RoundsKeysMatchRoute(entries, rounds);
  }

  /** One `POST /create`: the submission and the UUIDs `createKey` would
      draw if the submission reached it. */
  datatype Post = Post(req: Submission, uuids: seq<string>)

  /** A series of `POST /create` requests against one table, in order: the
      response to each and the table at the end. */
  function RunPosts(entries: map<string, string>, posts: seq<Post>, isUrl: string -> bool): (r: (seq<Response>, map<string, string>))
    ensures |r.0| == |posts|
    decreases |posts|
  {
    if posts == [] then ([], entries)
    else
      var p := posts[0];
      var rest := RunPosts(SubmitEntries(entries, p.req, isUrl, p.uuids), posts[1..], isUrl);
      ([SubmitResponse(entries, p.req, isUrl, p.uuids)] + rest.0, rest.1)
  }

  /** The `createKey` call a post amounts to. A post the gate rejects draws
      no UUID, so its round allocates nothing; its URL is never stored. */
  function GateRound(p: Post, isUrl: string -> bool): Round {
    if GatePasses(p.req, isUrl) then Round(p.uuids, p.req.urlField.value) else Round([], "/")
  }

  function GateRounds(posts: seq<Post>, isUrl: string -> bool): (rounds: seq<Round>)
    ensures |rounds| == |posts|
    ensures forall i :: 0 <= i < |posts| ==> rounds[i] == GateRound(posts[i], isUrl)
  {
    seq(|posts|, i requires 0 <= i < |posts| => GateRound(posts[i], isUrl))
  }

  /** A series of posts behaves as the series of `createKey` calls behind the
      gate: the same final table, and each response is the gate's answer for
      that call's outcome. */
  lemma {:induction false} RunPostsAsRounds(entries: map<string, string>, posts: seq<Post>, isUrl: string -> bool)
    decreases |posts|
    ensures RunPosts(entries, posts, isUrl).1 == RunRounds(entries, GateRounds(posts, isUrl)).1
    ensures forall i :: 0 <= i < |posts| ==>
      RunPosts(entries, posts, isUrl).0[i] == GateResponse(posts[i].req, isUrl, RunRounds(entries, GateRounds(posts, isUrl)).0[i])
  {
    if posts != [] {
      var p := posts[0];
      var rounds := GateRounds(posts, isUrl);
      var next := SubmitEntries(entries, p.req, isUrl, p.uuids);
      assert next == AfterAllocation(entries, rounds[0].uuids, rounds[0].url);
      assert rounds[1..] == GateRounds(posts[1..], isUrl);
      RunPostsAsRounds(next, posts[1..], isUrl);
      RunRoundsStep(entries, rounds);
      var responses := RunPosts(entries, posts, isUrl).0;
      var outcomes := RunRounds(entries, rounds).0;
      var restResponses := RunPosts(next, posts[1..], isUrl).0;
      var restOutcomes := RunRounds(next, rounds[1..]).0;
      assert responses == [SubmitResponse(entries, p.req, isUrl, p.uuids)] + restResponses;
      forall i | 0 <= i < |posts|
        ensures responses[i] == GateResponse(posts[i].req, isUrl, outcomes[i])
      {
        if i > 0 {
          assert responses[i] == restResponses[i - 1];
          assert outcomes[i] == restOutcomes[i - 1];
          assert posts[i] == posts[1..][i - 1];
        }
      }
    }
  }

  /** For N `POST /create` requests with well-formed UUIDs, against a table
      whose values are all non-empty and with a URL check that rejects the
      empty string: every short URL shown, resolved afterwards, redirects to
      exactly the URL submitted with it; two posts never get the same key;
      no stored pair changes, and the table stays free of empty values. */
  lemma PostsResolveToTheirUrls(entries: map<string, string>, posts: seq<Post>, isUrl: string -> bool)
    requires AllNonEmpty(entries) && !isUrl("")
    requires forall i, j :: 0 <= i < |posts| && 0 <= j < |posts[i].uuids| ==> IsUuidString(posts[i].uuids[j])
    ensures var (responses, final) := RunPosts(entries, posts, isUrl);
      && (forall i, k :: 0 <= i < |posts| && responses[i] == CreatedPage(ShortUrl(posts[i].req.origin, k)) ==>
            GatePasses(posts[i].req, isUrl) && ResolveKey(final, k) == Redirect(posts[i].req.urlField.value))
      && (forall i, j, k :: 0 <= i < j < |posts| && responses[i] == CreatedPage(ShortUrl(posts[i].req.origin, k)) ==>
            responses[j] != CreatedPage(ShortUrl(posts[j].req.origin, k)))
      && (forall k :: k in entries ==> k in final && final[k] == entries[k])
      && AllNonEmpty(final)
  {
    var rounds := GateRounds(posts, isUrl);
    forall i | 0 <= i < |rounds|
      ensures rounds[i].url != ""
    {
      if GatePasses(posts[i].req, isUrl) {
        assert isUrl(rounds[i].url);
      }
    }
    RunPostsAsRounds(entries, posts, isUrl);
    RoundsAllocateDistinctKeys(entries, rounds);
    RoundsResolveToTheirUrls(entries, rounds);
    var responses := RunPosts(entries, posts, isUrl).0;
    var outcomes := RunRounds(entries, rounds).0;
    forall i, k | 0 <= i < |posts| && responses[i] == CreatedPage(ShortUrl(posts[i].req.origin, k))
      ensures outcomes[i] == Allocated(k) && GatePasses(posts[i].req, isUrl)
    {
      var o := posts[i].req.origin;
      assert outcomes[i].Allocated?;
      assert ShortUrl(o, outcomes[i].key) == ShortUrl(o, k);
      assert ShortUrl(o, k)[|o| + 1..] == k;
    }
  }
}
