/** The chat route (server/routes/chat.js): a greeting short-cut, otherwise a web
    search whose first three results are cleaned and assembled into the reply. The
    search itself (fetch, HTML scraping) is an input: the list of raw
    (link, title, snippet) matches in document order, or None when the fetch failed
    or answered with an error status. URL encoding and the redirect decoding are
    functions passed in. */
module ChatRoute {
  import opened Wrappers
  import opened Text
  import opened Collections

  const EmptyMessageReply := "Please provide a message."
  const GreetingReply := "Hello! I am your AI Career Mentor. I can help you with roadmaps, skills, and career doubts. specific questions work best!"
  const ApologyReply := "I'm having trouble connecting to the internet right now. Please try again later."
  const SearchBase := "https://html.duckduckgo.com/html/?q="
  const RedirectPrefix := "//duckduckgo.com/l/?uddg="
  const MaxResults := 3

  // ---------------------------------------------------------------- greeting

  /** The lowercased message starts with one of the greeting words. */
  predicate GreetingPrefix(lower: string) {
    StartsWith(lower, "hi") || StartsWith(lower, "hello") || StartsWith(lower, "hey") || StartsWith(lower, "greetings")
  }

  /** `/^(hi|hello|hey|greetings)/i` on the lowercased message, and fewer than three
      pieces when split on single spaces. */
  predicate IsGreeting(message: string) {
    var lower := Lower(message);
    GreetingPrefix(lower) && |Split(lower, ' ')| < 3
  }

  lemma {:induction false} CountLower(s: string)
    ensures Count(Lower(s), ' ') == Count(s, ' ')
    decreases |s|
  {
    if s != [] {
      assert Lower(s)[1..] == Lower(s[1..]);
      CountLower(s[1..]);
    }
  }

  /** A greeting is a message whose lowercase form begins with a greeting word and
      which holds at most one space: a prefix test, not a word test. */
  lemma GreetingIff(message: string)
    ensures IsGreeting(message) <==> GreetingPrefix(Lower(message)) && Count(message, ' ') < 2
  {
    CountLower(message);
  }

  /** "History" begins with "hi", so a one-word question about history gets the
      greeting instead of a search. */
  lemma HistoryIsGreeting()
    ensures IsGreeting("History")
  {
    var m := "History";
    GreetingIff(m);
    assert Lower(m)[..2] == "hi" by {
      assert Lower(m)[0] == 'h' && Lower(m)[1] == 'i';
    }
    assert ' ' !in m;
  }

  // ---------------------------------------------------------------- tag stripping

  /** A match of `/<[^>]+>/` starts at the head of `s`: a '<', at least one character
      other than '>', then a '>'. */
  predicate TagAtStart(s: string) {
    |s| >= 2 && s[0] == '<' && s[1] != '>' && IndexOf(s, '>') < |s|
  }

  /** `s.replace(/<[^>]+>/g, '')`: scanning from the left, each match runs from a '<'
      to the first '>' after it and is removed; the scan resumes after it. */
  function StripTags(s: string): (r: string)
    ensures |r| <= |s|
    ensures forall c :: c in r ==> c in s
    decreases |s|
  {
    if s == [] then []
    else if TagAtStart(s) then
      var rest := s[IndexOf(s, '>') + 1..];
      assert forall c :: c in rest ==> c in s;
      StripTags(rest)
    else
      var rest := StripTags(s[1..]);
      assert forall c :: c in s[1..] ==> c in s;
      [s[0]] + rest
  }

  predicate NoTags(s: string) {
    forall i :: 0 <= i < |s| ==> !TagAtStart(s[i..])
  }

  lemma KeptHead(s: string)
    requires s != [] && !TagAtStart(s)
    ensures StripTags(s) == [s[0]] + StripTags(s[1..])
  {
  }

  lemma NoTagsCons(c: char, t: string)
    requires NoTags(t) && !TagAtStart([c] + t)
    ensures NoTags([c] + t)
  {
    forall i | 0 <= i < |[c] + t| ensures !TagAtStart(([c] + t)[i..]) {
      if i > 0 {
        assert ([c] + t)[i..] == t[i - 1..];
      }
    }
  }

  /** Nothing left after stripping looks like a tag. */
  lemma {:induction false} StripTagsLeavesNoTags(s: string)
    ensures NoTags(StripTags(s))
    decreases |s|
  {
    if s == [] {
    } else if TagAtStart(s) {
      StripTagsLeavesNoTags(s[IndexOf(s, '>') + 1..]);
    } else {
      var t := StripTags(s[1..]);
      StripTagsLeavesNoTags(s[1..]);
      KeptHead(s);
      if s[0] == '<' && |s| >= 2 {
        if s[1] == '>' {
          KeptHead(s[1..]);
          assert ([s[0]] + t)[1] == '>';
        } else {
          assert '>' !in s[1..] by {
            assert IndexOf(s, '>') == |s|;
          }
          assert '>' !in t;
          assert IndexOf([s[0]] + t, '>') == |[s[0]] + t|;
        }
      }
      NoTagsCons(s[0], t);
    }
  }

  /** Text without tags is left as it is. */
  lemma {:induction false} StripTagsKeepsClean(s: string)
    requires NoTags(s)
    ensures StripTags(s) == s
    decreases |s|
  {
    if s != [] {
      assert !TagAtStart(s[0..]);
      assert s[0..] == s;
      assert NoTags(s[1..]) by {
        forall i | 0 <= i < |s[1..]| ensures !TagAtStart(s[1..][i..]) {
          assert s[1..][i..] == s[i + 1..];
        }
      }
      StripTagsKeepsClean(s[1..]);
    }
  }

  /** Stripping twice is stripping once. */
  lemma StripTagsIdempotent(s: string)
    ensures StripTags(StripTags(s)) == StripTags(s)
  {
    StripTagsLeavesNoTags(s);
    StripTagsKeepsClean(StripTags(s));
  }

  /** A bare "<>" encloses no character, so it is not a tag and survives. */
  lemma EmptyBracketsSurvive()
    ensures StripTags("<>") == "<>"
  {
    assert !TagAtStart("<>");
    assert !TagAtStart(">");
  }

  /** A tag at the head of the text is removed together with its brackets. */
  lemma BoldTagRemoved(t: string)
    ensures StripTags("<b>" + t) == StripTags(t)
  {
    var s := "<b>" + t;
    assert s[..3] == "<b>";
    assert IndexOf(s, '>') == 2;
    assert s[3..] == t;
  }

  // ---------------------------------------------------------------- results

  /** One regex match over the result page: the href and the inner HTML of the
      title and of the snippet. */
  datatype RawMatch = RawMatch(link: string, title: string, snippet: string)

  datatype SearchResult = SearchResult(title: string, link: string, snippet: string)

  /** The text of a title or snippet: tags removed, then trimmed. */
  function CleanText(html: string): string {
    Trim(StripTags(html))
  }

  /** A search-engine redirect is replaced by the decoded `uddg` value of its query
      string; `decode` yields None where decoding throws, and the link is then kept.
      Any other link is kept as it is. */
  function RewriteLink(link: string, decode: string -> Option<string>): (r: string)
    ensures !StartsWith(link, RedirectPrefix) ==> r == link
    ensures StartsWith(link, RedirectPrefix) ==>
              |Split(link, '?')| >= 2 && r == decode(Split(link, '?')[1]).GetOr(link)
  {
    if StartsWith(link, RedirectPrefix) then
      assert link[19] == RedirectPrefix[19] == '?';
      assert '?' in link;
      var query := Split(link, '?')[1];
      match decode(query)
      case Some(decoded) => decoded
      case None => link
    else link
  }

  function Extract(m: RawMatch, decode: string -> Option<string>): SearchResult {
    SearchResult(CleanText(m.title), RewriteLink(m.link, decode), CleanText(m.snippet))
  }

  /** The cleaning of one match under a given decoder, as a value. */
  function Extractor(decode: string -> Option<string>): RawMatch -> SearchResult {
    m => Extract(m, decode)
  }

  /** The first three matches in document order, each cleaned. */
  function FirstResults(ms: seq<RawMatch>, decode: string -> Option<string>): (rs: seq<SearchResult>)
    ensures |rs| == if |ms| < MaxResults then |ms| else MaxResults
    ensures forall k :: 0 <= k < |rs| ==> rs[k] == Extract(ms[k], decode)
  {
    var n := if |ms| < MaxResults then |ms| else MaxResults;
    seq(n, k requires 0 <= k < n => Extract(ms[k], decode))
  }

  /** The scraping loop: it stops after three matches or at the last one, and
      cleans each match it visits with `extract`. */
  method CollectResults(matches: seq<RawMatch>, extract: RawMatch -> SearchResult) returns (results: seq<SearchResult>)
    ensures |results| == if |matches| < MaxResults then |matches| else MaxResults
    ensures forall k :: 0 <= k < |results| ==> results[k] == extract(matches[k])
  {
    results := [];
    var count := 0;
    while count < |matches| && count < MaxResults
      invariant 0 <= count <= |matches| && count <= MaxResults && |results| == count
      invariant forall k :: 0 <= k < count ==> results[k] == extract(matches[k])
    {
      results := results + [extract(matches[count])];
      count := count + 1;
    }
  }

  // ---------------------------------------------------------------- reply

  function Header(message: string): string {
    "Here is what I found for \"" + message + "\":\n"
  }

  /** The block one result contributes to the reply. */
  function Block(r: SearchResult): string {
    "\n**" + r.title + "**\n" + r.snippet + "\n[Read more](" + r.link + ")\n"
  }

  /** The blocks of all results, in order. */
  function Blocks(rs: seq<SearchResult>): string {
    FlatMap(rs, Block)
  }

  /** The reply quotes the message, then holds one block per result in order. */
  method BuildReply(message: string, results: seq<SearchResult>) returns (reply: string)
    ensures reply == Header(message) + Blocks(results)
  {
    reply := Header(message);
    var k := 0;
    while k < |results|
      invariant 0 <= k <= |results|
      invariant reply == Header(message) + Blocks(results[..k])
    {
      assert results[..k + 1][..k] == results[..k];
      reply := reply + Block(results[k]);
      k := k + 1;
    }
    assert results[..k] == results;
  }

  lemma Placed(head: string, pre: string, b: string, rest: string)
    ensures OccursAt(b, head + (pre + b + rest), |head| + |pre|)
  {
    assert (head + (pre + b + rest))[|head| + |pre|..|head| + |pre| + |b|] == b;
  }

  /** Block k of the reply sits right after the header and the blocks of the
      results before it. */
  lemma ResultBlockPlaced(message: string, results: seq<SearchResult>, k: nat)
    requires k < |results|
    ensures OccursAt(Block(results[k]), Header(message) + Blocks(results),
                     |Header(message)| + |Blocks(results[..k])|)
  {
    var before, after := results[..k + 1], results[k + 1..];
    FlatMapAppend(before, after, Block);
    assert before + after == results;
    assert before[..k] == results[..k];
    assert Blocks(before) == Blocks(results[..k]) + Block(results[k]);
    Placed(Header(message), Blocks(results[..k]), Block(results[k]), Blocks(after));
  }

  function FallbackReply(searchUrl: string): string {
    "I found some information on DuckDuckGo but couldn't parse the specific details. You can check the results here: [Search Results](" + searchUrl + ")"
  }

  /** The `reply` the route sends, by what produced it. */
  datatype Reply =
    | AskForMessage
    | Greet
    | CannotConnect
    | SeeSearchPage(searchUrl: string)
    | Found(message: string, results: seq<SearchResult>)

  /** The text of the `reply` field. */
  function ReplyText(r: Reply): string {
    match r
    case AskForMessage => EmptyMessageReply
    case Greet => GreetingReply
    case CannotConnect => ApologyReply
    case SeeSearchPage(url) => FallbackReply(url)
    case Found(message, results) => Header(message) + Blocks(results)
  }

  datatype ChatResponse = ChatResponse(status: int, reply: Reply)

  /** What the route answers once a search was made: the apology when the fetch
      failed, the link to the search page when no result was scraped, otherwise
      the first results. */
  method SearchReply(message: string, searchUrl: string, search: Option<seq<RawMatch>>,
                     decode: string -> Option<string>)
    returns (reply: Reply)
    ensures search.None? ==> reply == CannotConnect
    ensures search == Some([]) ==> reply == SeeSearchPage(searchUrl)
    ensures search.Some? && search.value != [] ==>
              reply == Found(message, FirstResults(search.value, decode))
  {
    if search.None? {
      return CannotConnect;
    }
    var results := CollectResults(search.value, Extractor(decode));
    assert results == FirstResults(search.value, decode);
    if |results| > 0 {
      reply := Found(message, results);
    } else {
      reply := SeeSearchPage(searchUrl);
    }
  }

  /** POST /api/chat. `fetched` is the search URL when a search was made. */
  method HandleChat(message: Option<string>, search: Option<seq<RawMatch>>,
                    encode: string -> string, decode: string -> Option<string>)
    returns (resp: ChatResponse, fetched: Option<string>)
    ensures message.None? || message.value == [] ==>
              resp == ChatResponse(400, AskForMessage) && fetched.None?
    ensures message.Some? && message.value != [] && IsGreeting(message.value) ==>
              resp == ChatResponse(200, Greet) && fetched.None?
    ensures message.Some? && message.value != [] && !IsGreeting(message.value) ==>
              fetched == Some(SearchBase + encode(message.value)) && resp.status == 200
    ensures message.Some? && message.value != [] && !IsGreeting(message.value) && search.None? ==>
              resp.reply == CannotConnect
    ensures message.Some? && message.value != [] && !IsGreeting(message.value) && search == Some([]) ==>
              resp.reply == SeeSearchPage(SearchBase + encode(message.value))
    ensures message.Some? && message.value != [] && !IsGreeting(message.value) && search.Some? && search.value != [] ==>
              resp.reply == Found(message.value, FirstResults(search.value, decode))
  {
    fetched := None;
    if message.None? || message.value == [] {
      resp := ChatResponse(400, AskForMessage);
      return;
    }
    var msg := message.value;
    if IsGreeting(msg) {
      resp := ChatResponse(200, Greet);
      return;
    }
    var searchUrl := SearchBase + encode(msg);
    fetched := Some(searchUrl);
    var reply := SearchReply(msg, searchUrl, search, decode);
    resp := ChatResponse(200, reply);
  }
}
