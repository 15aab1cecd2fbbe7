/** Building the text handed to the summariser for one story: the title,
    the article and the discussion thread, each wrapped in a tag, cut to a
    character budget and joined by the fixed separator. */
module Content {
  import opened Results
  import opened Text
  import opened Listing

  /** The outcome of one proxied fetch: a response with a success status and
      its body, a response with any other status, or a rejected promise
      (network failure). */
  datatype Fetch = Fetched(body: string) | NotOk(status: int) | Rejected

  /** A rejected fetch is not caught, so the whole call rejects. */
  datatype FetchError = FetchRejected

  /** The text a settled fetch contributes: its body, or `''` when the
      status was not a success. */
  function Body(f: Fetch): (r: string)
    requires !f.Rejected?
    ensures f.NotOk? ==> r == ""
    ensures f.Fetched? ==> r == f.body
  {
    if f.Fetched? then f.body else ""
  }

  /** The character budget: four characters per token. */
  function Budget(maxTokens: int): int { maxTokens * 4 }

  /** A tagged section of the payload, laid out as the template literal does. */
  function Section(tag: string, body: string): (r: string)
    ensures |r| > |body|
  {
    "\n<" + tag + ">\n" + body + "\n</" + tag + ">\n"
  }

  /** `xs.filter(Boolean)` on strings: drops the empty ones. */
  function DropEmpty(xs: seq<string>): (r: seq<string>)
    ensures forall x :: x in r <==> x in xs && x != ""
  {
    if |xs| == 0 then []
    else (if xs[0] != "" then [xs[0]] else []) + DropEmpty(xs[1..])
  }

  /** The program's three-slot array: each slot is its section when the
      raw text is non-empty and `''` otherwise. */
  function Slots(title: string, article: string, comments: string, maxTokens: int): seq<string>
  {
    [ if title != "" then Section("title", title) else "",
      if article != "" then Section("article", Prefix(article, Budget(maxTokens))) else "",
      if comments != "" then Section("comments", Prefix(comments, Budget(maxTokens))) else "" ]
  }

  /** The slots filtered and joined: exactly the included sections, in order,
      joined by the separator. */
  function Assemble(title: string, article: string, comments: string, maxTokens: int): (r: string)
    ensures r == Join(Sections(title, article, comments, maxTokens), Separator)
  {
    SlotsDropToSections(title, article, comments, maxTokens);
    Join(DropEmpty(Slots(title, article, comments, maxTokens)), Separator)
  }

  /** `getHackerNewsStory` once both fetches have settled: it fails exactly
      when a fetch rejects, and otherwise yields the included sections of the
      title and the two bodies, a non-success response counting as `''`. */
  function GetStory(story: Story, article: Fetch, comments: Fetch, maxTokens: int): (r: Result<string, FetchError>)
    ensures r.Err? <==> article.Rejected? || comments.Rejected?
    ensures r.Ok? ==> r.value == Join(Sections(story.title, Body(article), Body(comments), maxTokens), Separator)
  {
    if article.Rejected? || comments.Rejected? then Err(FetchRejected)
    else Ok(Assemble(story.title, Body(article), Body(comments), maxTokens))
  }

  /** Reference description of the payload: the sections whose raw text is
      non-empty, in the order title, article, comments; article and comments
      bodies are the first `min(len, max(0, 4 * maxTokens))` characters. */
  function Sections(title: string, article: string, comments: string, maxTokens: int): seq<string>
  {
    var b := Max(0, Budget(maxTokens));
    (if title != "" then [Section("title", title)] else [])
    + (if article != "" then [Section("article", article[..Min(|article|, b)])] else [])
    + (if comments != "" then [Section("comments", comments[..Min(|comments|, b)])] else [])
  }

  lemma DropEmptyAppend(a: seq<string>, b: seq<string>)
    ensures DropEmpty(a + b) == DropEmpty(a) + DropEmpty(b)
  {
    if |a| > 0 {
      assert (a + b)[1..] == a[1..] + b;
      DropEmptyAppend(a[1..], b);
    } else {
      assert a + b == b;
    }
  }

  lemma DropEmptySingle(x: string)
    ensures DropEmpty([x]) == (if x != "" then [x] else [])
  {
    assert [x][1..] == [];
  }

  /** `filter(Boolean)` on the three slots leaves exactly the included
      sections, in the order title, article, comments: a section is never
      empty, so only the `''` slots are dropped. */
  lemma SlotsDropToSections(title: string, article: string, comments: string, maxTokens: int)
    ensures DropEmpty(Slots(title, article, comments, maxTokens)) == Sections(title, article, comments, maxTokens)
  {
    var t := if title != "" then Section("title", title) else "";
    var a := if article != "" then Section("article", Prefix(article, Budget(maxTokens))) else "";
    var c := if comments != "" then Section("comments", Prefix(comments, Budget(maxTokens))) else "";
    var b := Max(0, Budget(maxTokens));
    assert Prefix(article, Budget(maxTokens)) == article[..Min(|article|, b)];
    assert Prefix(comments, Budget(maxTokens)) == comments[..Min(|comments|, b)];
    assert Slots(title, article, comments, maxTokens) == [t] + [a] + [c];
    DropEmptyAppend([t] + [a], [c]);
    DropEmptyAppend([t], [a]);
    DropEmptySingle(t);
    DropEmptySingle(a);
    DropEmptySingle(c);
  }

  /** A response with a non-success status counts as an empty body: the call
      still succeeds and the other section is unaffected. */
  lemma GetStoryNotOkIsEmpty(story: Story, other: Fetch, status: int, maxTokens: int)
    requires !other.Rejected?
    ensures GetStory(story, NotOk(status), other, maxTokens) == GetStory(story, Fetched(""), other, maxTokens)
    ensures GetStory(story, other, NotOk(status), maxTokens) == GetStory(story, other, Fetched(""), maxTokens)
    ensures GetStory(story, NotOk(status), other, maxTokens).Ok?
  {
  }

  /** The call fails exactly when one of the two fetches rejects. */
  lemma GetStoryFailsOnlyOnRejection(story: Story, article: Fetch, comments: Fetch, maxTokens: int)
    ensures GetStory(story, article, comments, maxTokens).Err? <==> article.Rejected? || comments.Rejected?
  {
  }

  /** The payload is empty exactly when title, article and comments are all
      empty; a non-empty raw text always contributes a section, even when the
      budget cuts its body to nothing. */
  lemma AssembleEmptyIff(title: string, article: string, comments: string, maxTokens: int)
    ensures Assemble(title, article, comments, maxTokens) == ""
        <==> title == "" && article == "" && comments == ""
  {
    var ss := Sections(title, article, comments, maxTokens);
    if title != "" || article != "" || comments != "" {
      assert |ss| > 0 && ss[0] != "";
      JoinNonEmpty(ss, Separator);
    }
  }

  /** Where the article lands: right after the title section when there is
      one, with its body cut to the budget, and kept whole when it fits. */
  lemma ArticleSection(title: string, article: string, comments: string, maxTokens: int)
    requires article != ""
    ensures var ss := Sections(title, article, comments, maxTokens);
      var k := if title != "" then 1 else 0;
      k < |ss| && ss[k] == Section("article", Prefix(article, Budget(maxTokens)))
    ensures |article| <= Budget(maxTokens) ==> Prefix(article, Budget(maxTokens)) == article
  {
  }

  /** Where the comments land: after the title and article sections that are
      present, cut to the same budget. */
  lemma CommentsSection(title: string, article: string, comments: string, maxTokens: int)
    requires comments != ""
    ensures var ss := Sections(title, article, comments, maxTokens);
      var k := (if title != "" then 1 else 0) + (if article != "" then 1 else 0);
      k == |ss| - 1 && ss[k] == Section("comments", Prefix(comments, Budget(maxTokens)))
    ensures |comments| <= Budget(maxTokens) ==> Prefix(comments, Budget(maxTokens)) == comments
  {
  }
}
