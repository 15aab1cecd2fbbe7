/** The Hacker News front-page listing: turning the parsed submission rows
    into stories and dropping the rows that lack an id or a link. */
module Listing {
  import opened Results

  /** Discussion pages live under this prefix, followed by the story id. */
  const ItemUrlPrefix := "https://news.ycombinator.com/item?id="

  /** One `.athing.submission` row as the HTML parser reports it: its `id`
      attribute, the text and `href` of its title link. Attributes may be
      missing. */
  datatype Candidate = Candidate(id: Option<string>, title: string, href: Option<string>)

  /** The object built for each row before filtering. */
  datatype Entry = Entry(id: Option<string>, title: string, url: Option<string>, hackerNewsUrl: string)

  /** A story that survived the filter: id and url are both present. */
  datatype Story = Story(id: string, title: string, url: string, hackerNewsUrl: string)

  /** What a template literal prints for an attribute that may be missing. */
  function Interpolate(a: Option<string>): string {
    if a.Some? then a.value else "undefined"
  }

  function ToEntry(c: Candidate): (e: Entry)
    ensures e.id == c.id && e.title == c.title && e.url == c.href
    ensures c.id.Some? ==> e.hackerNewsUrl == ItemUrlPrefix + c.id.value
  {
    Entry(c.id, c.title, c.href, ItemUrlPrefix + Interpolate(c.id))
  }

  function Entries(cs: seq<Candidate>): (es: seq<Entry>)
    ensures |es| == |cs|
    ensures forall i :: 0 <= i < |cs| ==> es[i] == ToEntry(cs[i])
  {
    seq(|cs|, i requires 0 <= i < |cs| => ToEntry(cs[i]))
  }

  /** `story.id && story.url` is truthy: both present and non-empty. */
  predicate Complete(e: Entry) {
    e.id.Some? && e.id.value != "" && e.url.Some? && e.url.value != ""
  }

  /** `stories.filter(story => story.id && story.url)`. */
  function KeepComplete(es: seq<Entry>): (r: seq<Entry>)
    ensures |r| <= |es|
    ensures forall e :: e in r <==> e in es && Complete(e)
  {
    if |es| == 0 then []
    else (if Complete(es[0]) then [es[0]] else []) + KeepComplete(es[1..])
  }

  /** The filter works entry by entry: filtering a concatenation is
      concatenating the filtered parts, so relative order is kept. Together
      with the one-entry case this pins the filter down completely. */
  lemma {:induction false} KeepCompleteDistributes(a: seq<Entry>, b: seq<Entry>)
    ensures KeepComplete(a + b) == KeepComplete(a) + KeepComplete(b)
  {
    if |a| == 0 {
      assert a + b == b;
    } else {
      assert (a + b)[0] == a[0];
      assert (a + b)[1..] == a[1..] + b;
      KeepCompleteDistributes(a[1..], b);
    }
  }

  /** A single entry is kept exactly when it has both fields. */
  lemma KeepCompleteSingle(e: Entry)
    ensures KeepComplete([e]) == (if Complete(e) then [e] else [])
  {
    assert [e][1..] == [];
  }

  /** The filter leaves a list alone exactly when every entry in it is complete. */
  lemma {:induction false} KeepCompleteFixes(es: seq<Entry>)
    ensures KeepComplete(es) == es <==> forall e :: e in es ==> Complete(e)
  {
    if |es| == 0 {
    } else if forall e :: e in es ==> Complete(e) {
      assert forall e :: e in es[1..] ==> e in es;
      KeepCompleteFixes(es[1..]);
      assert es == [es[0]] + es[1..];
    }
  }

  /** Filtering twice is filtering once. */
  lemma KeepCompleteIdempotent(es: seq<Entry>)
    ensures KeepComplete(KeepComplete(es)) == KeepComplete(es)
  {
    KeepCompleteFixes(KeepComplete(es));
  }

  function AsStory(e: Entry): Story
    requires Complete(e)
  {
    Story(e.id.value, e.title, e.url.value, e.hackerNewsUrl)
  }

  /** The entry a story came from. */
  function AsEntry(s: Story): Entry {
    Entry(Some(s.id), s.title, Some(s.url), s.hackerNewsUrl)
  }

  /** The listing step once the page is parsed: one story per complete row,
      in page order, each with a non-empty id and url and its discussion
      link built from its id. */
  function TopStories(cs: seq<Candidate>): (r: seq<Story>)
    ensures |r| == |KeepComplete(Entries(cs))|
    ensures forall i :: 0 <= i < |r| ==> AsEntry(r[i]) == KeepComplete(Entries(cs))[i]
    ensures forall i :: 0 <= i < |r| ==> r[i].id != "" && r[i].url != ""
    ensures forall i :: 0 <= i < |r| ==> r[i].hackerNewsUrl == ItemUrlPrefix + r[i].id
  {
    var es := Entries(cs);
    var kept := KeepComplete(es);
    assert forall i :: 0 <= i < |kept| ==> kept[i] in kept;
    assert forall i :: 0 <= i < |kept| ==> Complete(kept[i]) && AsEntry(AsStory(kept[i])) == kept[i];
    assert forall e :: e in es ==> e.id.Some? ==> e.hackerNewsUrl == ItemUrlPrefix + e.id.value;
    seq(|kept|, i requires 0 <= i < |kept| => AsStory(kept[i]))
  }

  /** A row reaches the listing exactly when its id and link are both
      present and non-empty. */
  lemma TopStoriesExactly(cs: seq<Candidate>, c: Candidate)
    requires c in cs
    ensures (exists s :: s in TopStories(cs) && AsEntry(s) == ToEntry(c))
        <==> (c.id.Some? && c.id.value != "" && c.href.Some? && c.href.value != "")
  {
    var es := Entries(cs);
    var kept := KeepComplete(es);
    var r := TopStories(cs);
    var j :| 0 <= j < |cs| && cs[j] == c;
    assert es[j] == ToEntry(c);
    if Complete(ToEntry(c)) {
      assert ToEntry(c) in kept;
      var k :| 0 <= k < |kept| && kept[k] == ToEntry(c);
      assert AsEntry(r[k]) == ToEntry(c);
      assert r[k] in r;
    } else {
      forall s | s in r ensures AsEntry(s) != ToEntry(c) {
        var k :| 0 <= k < |r| && r[k] == s;
        assert AsEntry(s) == kept[k];
      }
    }
  }
}
