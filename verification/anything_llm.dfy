/** The remote workspace-chat client: endpoint composition, the three
    availability probes with their workspace-slug correction, and the chat
    call's status check. Every HTTP exchange is an outcome supplied by the
    caller; a connection error is an outcome whose status is not 200. */
module AnythingLlm {
  import opened Outcomes

  const ApiVersion := "/v1"
  const DefaultWorkspaceSlug := "default"
  const HttpOk: nat := 200
  const ChatMode := "chat"

  /** The client's configuration; `workspaceSlug` is the one field a probe
      may rewrite. */
  datatype Client = Client(host: string, apiKey: string, workspaceSlug: string)

  datatype Verb = Get | Post

  /** JSON body of a chat request: `{message, mode, sessionId}`. */
  datatype ChatBody = ChatBody(message: string, mode: string, sessionId: string)

  /** An outgoing HTTP request; `authorization` is the bearer header, when sent. */
  datatype Request = Request(verb: Verb, url: string, authorization: Option<string>, body: Option<ChatBody>)

  /** What the workspace probe receives: its status and the slugs of the
      `workspace` array, in order. */
  datatype Listing = Listing(status: nat, slugs: seq<string>)

  /** What the three probes receive from the remote service. */
  datatype ProbeOutcomes = ProbeOutcomes(root: nat, auth: nat, listing: Listing)

  /** What the chat endpoint answers: its status and the `textResponse` field. */
  datatype ChatResponse = ChatResponse(status: nat, textResponse: string)

  /** A probe run: whether it passed and the client as it leaves it. */
  datatype ProbeReport = ProbeReport(passed: bool, client: Client)

  /** A chat call: the request it sends and what it returns or raises
      (the status code of a refused chat). */
  datatype ChatExchange = ChatExchange(request: Request, result: Result<string, nat>)

  /** A client as constructed: the workspace slug is the one given, or
      "default" when none is given. */
  function NewClient(host: string, apiKey: string, workspaceSlug: Option<string>): (c: Client)
    ensures workspaceSlug.None? ==> c.workspaceSlug == "default"
    ensures workspaceSlug.Some? ==> c.workspaceSlug == workspaceSlug.value
    ensures c.host == host && c.apiKey == apiKey
  {
    Client(host, apiKey, if workspaceSlug.Some? then workspaceSlug.value else DefaultWorkspaceSlug)
  }

  /** The versioned API root: the host followed by exactly "/v1". */
  function BaseApiUrl(c: Client): (url: string)
    ensures |url| == |c.host| + 3
    ensures url[..|c.host|] == c.host
    ensures url[|c.host|..] == "/v1"
  {
    c.host + ApiVersion
  }

  function AuthHeader(apiKey: string): string {
    "Bearer " + apiKey
  }

  function RootProbe(c: Client): Request {
    Request(Get, c.host, None, None)
  }

  function AuthProbe(c: Client): Request {
    Request(Get, BaseApiUrl(c) + "/auth", Some(AuthHeader(c.apiKey)), None)
  }

  function WorkspaceProbe(c: Client): Request {
    Request(Get, BaseApiUrl(c) + "/workspace/" + c.workspaceSlug, Some(AuthHeader(c.apiKey)), None)
  }

  /** The requests a probe run issues, in the order `test_api` lists them. */
  function ProbeRequests(c: Client): (rs: seq<Request>)
    ensures |rs| == 3
    ensures rs[0].url == c.host && rs[0].authorization.None?
    ensures rs[1].url == c.host + "/v1/auth"
    ensures rs[2].url == c.host + "/v1/workspace/" + c.workspaceSlug
    ensures forall i :: 0 <= i < 3 ==> rs[i].verb == Get && rs[i].body.None?
    ensures rs[1].authorization == rs[2].authorization == Some("Bearer " + c.apiKey)
  {
    [RootProbe(c), AuthProbe(c), WorkspaceProbe(c)]
  }

  /** The prefix every chat URL of this client starts with. */
  function ChatUrlPrefix(host: string): string {
    host + ApiVersion + "/workspace/"
  }

  /** The chat endpoint of the client's current workspace. */
  function ChatUrl(c: Client): (url: string)
    ensures url == c.host + "/v1/workspace/" + c.workspaceSlug + "/chat"
  {
    BaseApiUrl(c) + "/workspace/" + c.workspaceSlug + "/chat"
  }

  /** Reads the workspace slug back out of a chat URL of `host`, if it is one. */
  function ChatUrlSlug(host: string, url: string): (slug: Option<string>)
  {
    var p := ChatUrlPrefix(host);
    if |url| >= |p| + 5 && url[..|p|] == p && url[|url| - 5..] == "/chat"
    then Some(url[|p|..|url| - 5])
    else None
  }

  /** The chat URL names exactly the client's workspace. */
  lemma ChatUrlRoundTrip(c: Client)
    ensures ChatUrlSlug(c.host, ChatUrl(c)) == Some(c.workspaceSlug)
  {
    var p := ChatUrlPrefix(c.host);
    var url := ChatUrl(c);
    assert url == p + c.workspaceSlug + "/chat";
    assert url[..|p|] == p;
    assert url[|url| - 5..] == "/chat";
    assert url[|p|..|url| - 5] == c.workspaceSlug;
  }

  /** Two clients of one host that chat at the same URL use the same workspace. */
  lemma ChatUrlInjective(c: Client, d: Client)
    requires c.host == d.host
    ensures ChatUrl(c) == ChatUrl(d) ==> c.workspaceSlug == d.workspaceSlug
  {
    ChatUrlRoundTrip(c);
    ChatUrlRoundTrip(d);
  }

  /** `fallback` is what the listing offers when the requested slug is
      missing: the first non-empty slug, or "" when there is none. */
  ghost predicate IsFallback(listing: seq<string>, fallback: string) {
    || (fallback == "" && forall j :: 0 <= j < |listing| ==> listing[j] == "")
    || (fallback != "" &&
        exists k :: 0 <= k < |listing| && listing[k] == fallback && forall j :: 0 <= j < k ==> listing[j] == "")
  }

  /** The first non-empty slug of the listing, in listing order, or "". */
  function FirstNonEmpty(listing: seq<string>): (r: string)
    ensures IsFallback(listing, r)
    ensures r == "" || r in listing
  {
    if listing == [] then ""
    else if listing[0] != "" then listing[0]
    else
      var rest := FirstNonEmpty(listing[1..]);
      assert forall j :: 1 <= j < |listing| ==> listing[j] == listing[1..][j - 1];
      if rest == "" then rest
      else
        var k :| 0 <= k < |listing[1..]| && listing[1..][k] == rest && forall j :: 0 <= j < k ==> listing[1..][j] == "";
        assert listing[k + 1] == rest;
        rest
  }

  /** Appending a slug changes the fallback only when the listing so far had
      no non-empty slug. */
  lemma {:induction false} FirstNonEmptySnoc(listing: seq<string>, slug: string)
    ensures FirstNonEmpty(listing + [slug]) ==
            if FirstNonEmpty(listing) == "" then slug else FirstNonEmpty(listing)
  {
    if listing != [] {
      assert (listing + [slug])[1..] == listing[1..] + [slug];
      FirstNonEmptySnoc(listing[1..], slug);
    }
  }

  /** The workspace the probe settles on: the requested slug when it occurs
      anywhere in the listing, otherwise the listing's fallback. */
  function ResolveSlug(requested: string, listing: seq<string>): (r: string)
    ensures requested in listing ==> r == requested
    ensures requested !in listing ==> IsFallback(listing, r)
    ensures r in listing || (r == "" && forall j :: 0 <= j < |listing| ==> listing[j] == "")
  {
    if requested in listing then requested else FirstNonEmpty(listing)
  }

  /** The slug-correction loop, step by step as `__test_workspace__` runs it. */
  method ResolveWorkspace(requested: string, listing: seq<string>) returns (slug: string)
    ensures slug == ResolveSlug(requested, listing)
  {
    var fallback := "";
    var i := 0;
    while i < |listing|
      invariant 0 <= i <= |listing|
      invariant requested !in listing[..i]
      invariant fallback == FirstNonEmpty(listing[..i])
    {
      if listing[i] == requested {
        return requested;
      }
      if fallback == "" {
        fallback := listing[i];
      }
      FirstNonEmptySnoc(listing[..i], listing[i]);
      assert listing[..i + 1] == listing[..i] + [listing[i]];
      i := i + 1;
    }
    assert listing[..i] == listing;
    slug := fallback;
  }

  /** Resolving again against the same listing changes nothing. */
  lemma ResolveIdempotent(requested: string, listing: seq<string>)
    ensures ResolveSlug(ResolveSlug(requested, listing), listing) == ResolveSlug(requested, listing)
  {
    var r := ResolveSlug(requested, listing);
    if r !in listing {
      assert r == "" && listing == [];
    }
  }

  /** Two small listings and the edge cases: an empty slug skipped, the
      requested slug listed late, and an empty listing. */
  lemma ResolveExamples()
    ensures ResolveSlug("default", ["default", "other"]) == "default"
    ensures ResolveSlug("default", ["other"]) == "other"
    ensures ResolveSlug("default", ["", "other", "third"]) == "other"
    ensures ResolveSlug("default", ["other", "default"]) == "default"
    ensures ResolveSlug("default", []) == ""
  {
    assert "default" in ["other", "default"];
    assert "default" !in ["other"];
    assert "default" !in ["", "other", "third"];
  }

  /** The workspace probe: it fails on a non-200 listing and leaves the slug
      alone; otherwise it passes, rewriting the slug when it is missing. */
  function TestWorkspace(c: Client, listing: Listing): (r: ProbeReport)
    ensures r.passed <==> listing.status == HttpOk
    ensures r.client.host == c.host && r.client.apiKey == c.apiKey
    ensures !r.passed ==> r.client == c
    ensures r.passed && c.workspaceSlug in listing.slugs ==> r.client == c
    ensures r.passed && c.workspaceSlug !in listing.slugs ==> IsFallback(listing.slugs, r.client.workspaceSlug)
  {
    if listing.status != HttpOk then ProbeReport(false, c)
    else ProbeReport(true, c.(workspaceSlug := ResolveSlug(c.workspaceSlug, listing.slugs)))
  }

  /** All three probes together: the run passes only if the root, the
      credential and the workspace probe each see status 200. The workspace
      correction takes effect whenever the listing itself was served, since
      the sibling probes run to completion regardless of each other. */
  function TestApi(c: Client, p: ProbeOutcomes): (r: ProbeReport)
    ensures r.passed <==> p.root == 200 && p.auth == 200 && p.listing.status == 200
    ensures r.client == TestWorkspace(c, p.listing).client
  {
    var ws := TestWorkspace(c, p.listing);
    ProbeReport(p.root == HttpOk && p.auth == HttpOk && ws.passed, ws.client)
  }

  /** Probing twice, the second time seeing the same outcomes as the first,
      ends where probing once did. The second probe asks for the corrected
      slug, so this speaks of a service that answers it with the same listing. */
  lemma TestApiIdempotent(c: Client, p: ProbeOutcomes)
    ensures TestApi(TestApi(c, p).client, p) == TestApi(c, p)
  {
    ResolveIdempotent(c.workspaceSlug, p.listing.slugs);
  }

  /** One chat call: the POST it sends, and the reply text on status 200 or
      the raised failure carrying the status otherwise. */
  function Chat(c: Client, sessionId: string, message: string, response: ChatResponse): (x: ChatExchange)
    ensures x.request.verb == Post
    ensures ChatUrlSlug(c.host, x.request.url) == Some(c.workspaceSlug)
    ensures x.request.authorization == Some("Bearer " + c.apiKey)
    ensures x.request.body == Some(ChatBody(message, "chat", sessionId))
    ensures x.result.Ok? <==> response.status == 200
    ensures x.result.Ok? ==> x.result.value == response.textResponse
    ensures x.result.Err? ==> x.result.error == response.status
  {
    ChatUrlRoundTrip(c);
    var request := Request(Post, ChatUrl(c), Some(AuthHeader(c.apiKey)), Some(ChatBody(message, ChatMode, sessionId)));
    if response.status != HttpOk then ChatExchange(request, Err(response.status))
    else ChatExchange(request, Ok(response.textResponse))
  }
}
