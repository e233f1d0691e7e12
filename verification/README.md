# Career guidance: a verified model of its core

The application helps a student pick a career. A RIASEC interest quiz turns yes/no
answers into six scores. A results page ranks the scores and matches careers
against the top three types. Browsing pages page through careers and through
colleges and exams. A detail page shows a career together with the roadmaps and
colleges of its stream. A chat widget forwards questions to a server route, which
answers greetings itself and otherwise scrapes the first three web-search
results.

This project models that core in Dafny:

- the Express routes `/careers`, `/careers/:id`, `/colleges` and `/chat`;
- the seeding script;
- the React pages and the chat widget.

Each source file keeps its own form:

- Pure code is written as datatypes, functions and lemmas. This covers the results
  ranking, tag stripping, the greeting test and the query filters.
- Code that changes state is written as classes, with one method per user or
  network event. This covers the store, the quiz and the pages with infinite
  scrolling.
- Loops are written as methods with invariants. These are the scraping loop and
  the reply builder.

Every network request is a parameter: the payload it delivers, or `None` when it
fails.

Modules, one per file:

| module | file | source |
|---|---|---|
| `Wrappers`, `Collections`, `Text` | wrappers.dfy, collections.dfy, text.dfy | JavaScript runtime pieces: `Array.filter`, `slice`, `String.trim`, `split`, `toLowerCase`, `parseInt` |
| `Models` | models.dfy | the record shapes of server/models/models.js |
| `ItemsRoute` | items.dfy | server/routes/items.js |
| `SeedScript` | seed.dfy | server/seed.js |
| `ChatRoute` | chat_route.dfy | server/routes/chat.js |
| `AssessmentPage` | assessment.dfy | client/src/pages/Assessment.jsx |
| `ResultsPage` | results.dfy | client/src/pages/Results.jsx |
| `ScrollList` | scroll_list.dfy | the infinite-scroll payload that Careers.jsx and Colleges.jsx share |
| `CareersPage` | careers.dfy | client/src/pages/Careers.jsx |
| `CollegesPage` | colleges.dfy | client/src/pages/Colleges.jsx |
| `CareerDetailPage` | career_detail.dfy | client/src/pages/CareerDetail.jsx |
| `RoadmapsPage` | roadmaps.dfy | client/src/pages/Roadmaps.jsx |
| `ChatWidgetComponent` | chat_widget.dfy | client/src/components/ChatWidget.jsx |

A few modelling choices:

- Integers are unbounded. `type` is a Dafny keyword, so the type field is called
  `kind`.
- The database is one sequence per collection, in insertion order.
- A `$regex` search with option `i` is modelled as a literal substring test that
  ignores ASCII case.

## Model

| member | source | states |
|---|---|---|
| `Text.TrimSpec` | client/src/components/ChatWidget.jsx:26 | `trim` leaves a contiguous piece of the input with no whitespace at either end; only whitespace lies outside it; the result is empty exactly when every character is whitespace |
| `Text.BlankIffTrimsToEmpty` | client/src/components/ChatWidget.jsx:26 | `!input.trim()` holds exactly when every character of the input is whitespace |
| `Text.ParseDecimalText` | server/routes/items.js:8 | `parseInt` reads the decimal text of a natural number back as that number |
| `Text.NoDigitIsNaN` | server/routes/items.js:8-9 | `parseInt` of a text without any decimal digit is NaN |
| `ItemsRoute.IntParam` | server/routes/items.js:8-9 | `parseInt(x) \|\| d`: an absent value, NaN and 0 give the default; every other parsed value, negative ones included, is kept; the result is never 0 |
| `ItemsRoute.NonNumericParam` | server/routes/items.js:8-9 | a value without digits, such as "abc", falls back to the default |
| `ItemsRoute.DecimalParam` | server/routes/items.js:8 | the page number a client writes into the query string is the page the route uses |
| `ItemsRoute.MatchingCareers` | server/routes/items.js:14-34 | a career is selected iff it is in the store, the search occurs case-insensitively in its title or its description, and its type equals a given type |
| `ItemsRoute.MatchingEntries` | server/routes/items.js:96-107 | an entry is selected iff it is in the store, the search occurs in its name or its stream, and its type equals a given type |
| `ItemsRoute.CeilDiv` | server/routes/items.js:45 | `Math.ceil(total / limit)` is the least page count whose pages hold every record |
| `ItemsRoute.MoreAfterPage` | server/routes/items.js:44-45 | `currentPage < totalPages` holds exactly when records remain after the current page |
| `ItemsRoute.PastLastPage` | server/routes/items.js:37-40 | a page past the last one is empty |
| `ItemsRoute.PagesUpToIsPrefix` | server/routes/items.js:12 | pages 1..n concatenated are the first n·limit matching records |
| `ItemsRoute.AllPagesCoverMatches` | server/routes/items.js:37-45 | reading every page yields every matching record once, in order |
| `ItemsRoute.SkipSign` | server/routes/items.js:12 | with a positive limit the skip is negative exactly when the page is below 1 |
| `ItemsRoute.Summaries` | server/routes/items.js:39 | the list view of each career is the career without `subCareers`, in order |
| `ItemsRoute.ListCareers` | server/routes/items.js:6-51 | GET /careers: an error iff the limit or the skip is negative; otherwise the page window of the matching careers, with `currentPage`, `totalPages` = ceil(total / limit) and `total` = number of matches |
| `ItemsRoute.FindCareer` | server/routes/items.js:56 | `findOne({id})`: nothing iff no record has the id, otherwise the first such record in store order |
| `ItemsRoute.GetCareer` | server/routes/items.js:54-62 | GET /careers/:id: 404 "Career not found" iff no record has the id, otherwise a record with that id |
| `ItemsRoute.ExamsOf` | server/routes/items.js:119 | the `exams` list holds exactly the page items of type Exam |
| `ItemsRoute.CollegesOf` | server/routes/items.js:120 | the `colleges` list holds exactly the page items of type College |
| `ItemsRoute.SplitPartitionsPage` | server/routes/items.js:119-125 | the two lists share no record; when every item is an exam or a college, together they are the page items as a multiset |
| `ItemsRoute.ListColleges` | server/routes/items.js:89-133 | GET /colleges: an error iff the limit or the skip is negative; otherwise the page window of the matching entries, the `exams` and `colleges` split of that window, and the paging totals |
| `SeedScript.Tagged` | server/seed.js:40-41 | `map(e => ({...e, type}))`: same length; each document carries the given type and is otherwise unchanged |
| `SeedScript.Flatten` | server/seed.js:40-43 | the inserted list is every exam, tagged Exam, followed by every college, tagged College |
| `SeedScript.SplitFlattenRoundTrip` | server/seed.js:40-43 | splitting the flattened list by type gives back the tagged exams and the tagged colleges, each in its original order |
| `SeedScript.StoredRoadmaps` | server/seed.js:34 | a roadmap is stored without `stream`, because the schema does not declare it; everything else is kept |
| `SeedScript.Store.SeedDB` | server/seed.js:17-51 | all four collections are cleared first; an unreadable file leaves the store empty with exit code 1; a colleges file lacking `exams` or `colleges` leaves careers, questions and roadmaps inserted and the colleges collection empty, exit code 1; otherwise the colleges collection is the flattened list, exit code 0 |
| `AssessmentPage.InitialScores` | client/src/pages/Assessment.jsx:9 | all six types are present, each with score 0 |
| `AssessmentPage.Score` | client/src/pages/Assessment.jsx:31-34 | a yes adds one to the question's type; the other scores do not change |
| `AssessmentPage.TallyCountsYes` | client/src/pages/Assessment.jsx:29-45 | after any answers, each type's score is the number of yes answers to questions of that type |
| `AssessmentPage.TallySum` | client/src/pages/Assessment.jsx:29-45 | the scores sum to the number of yes answers, so the sum is at most the number of answers |
| `AssessmentPage.Assessment.constructor` | client/src/pages/Assessment.jsx:7-10 | the quiz starts loading, with no questions, index 0 and all-zero scores |
| `AssessmentPage.Assessment.Loaded` | client/src/pages/Assessment.jsx:14-24 | loading ends; a failed or empty fetch leaves no questions and accepts no answer |
| `AssessmentPage.Assessment.Answer` | client/src/pages/Assessment.jsx:29-46 | an answer is recorded only while questions are shown; before the last question the index advances; at the last question the final scores are handed on; the scores always equal the tally of the answers so far |
| `AssessmentPage.FinalScores` | client/src/pages/Assessment.jsx:39-44 | the scores handed to the results page count the yes answers per type and sum to at most the number of questions |
| `ResultsPage.Entries` | client/src/pages/Results.jsx:51 | `Object.entries(scores)` lists the six types in key order R, I, A, S, E, C, each with its score |
| `ResultsPage.SortByScore` | client/src/pages/Results.jsx:52 | the sort by descending score is a permutation and is non-increasing |
| `ResultsPage.SortStable` | client/src/pages/Results.jsx:52 | the sort is stable: entries with equal scores keep their order |
| `ResultsPage.AllTiedKeepOrder` | client/src/pages/Results.jsx:52 | when all scores are equal the order does not change |
| `ResultsPage.TopThree` | client/src/pages/Results.jsx:51-56 | three types are kept in non-increasing score order; the first has the maximum score; every omitted type scores at most the third |
| `ResultsPage.RankEntries` | client/src/pages/Results.jsx:51-53 | stable descending sort of any six entries carrying the scores, cut to three: non-increasing, led by the maximum, every omitted type at most the third |
| `ResultsPage.AllZeroProfile` | client/src/pages/Results.jsx:51-54 | all-zero scores rank as R, I, A |
| `ResultsPage.MatchedCareers` | client/src/pages/Results.jsx:71 | a career is matched iff its type is one of the top types |
| `ResultsPage.View` | client/src/pages/Results.jsx:24-71 | "No results" iff no scores were passed; loading iff scores exist and careers are loading; otherwise the profile of the three ranked types, the first as the top type, and the matching careers |
| `ResultsPage.ViewAsWritten` | client/src/pages/Results.jsx:12-22 | as written: rendering fails exactly when there are scores and the career request succeeded |
| `ResultsPage.CorrectedView` | client/src/pages/Results.jsx:12-71 | with the list taken out of the response, the settled page always shows the profile, matched against the careers the response holds |
| `ScrollList.Received` | client/src/pages/Careers.jsx:34 | `data.careers \|\| []`: a missing list counts as empty |
| `ScrollList.Accumulate` | client/src/pages/Careers.jsx:33-37 | page 1 replaces the list; a later page is appended after the earlier items, which are kept |
| `ScrollList.ScrollThroughIsPrefix` | client/src/pages/Careers.jsx:47-51 | after pages 1..n the list is the first n·limit matching records |
| `ScrollList.ScrollThroughIsPagesUpTo` | client/src/pages/Careers.jsx:33-37 | accumulating the route's pages equals concatenating them |
| `ScrollList.ScrollToEnd` | client/src/pages/Careers.jsx:38 | more pages are announced iff the list is still shorter than all matches; scrolling to the last page yields every match |
| `CareersPage.RequestUnderstood` | client/src/pages/Careers.jsx:27-28 | the route reads the page's request as the same page, limit 9 and the same search, with no type filter |
| `CareersPage.FilteredCareers` | client/src/pages/Careers.jsx:58-62 | a career is shown iff it is loaded and the filter is "All" or equals its type; "All" shows the list unchanged |
| `CareersPage.Careers.constructor` | client/src/pages/Careers.jsx:8-13 | initial state: empty list, loading, no search, filter "All", page 1, more pages assumed |
| `CareersPage.Careers.FetchCareers` | client/src/pages/Careers.jsx:24-45 | the request is page, limit 9 and the search when non-empty; a success accumulates the page and sets `hasMore`; a failure keeps the list; loading ends |
| `CareersPage.Careers.ChangeQuery` | client/src/pages/Careers.jsx:16-22 | a new search or filter resets to page 1 and replaces the list with the first page |
| `CareersPage.Careers.LoadMore` | client/src/pages/Careers.jsx:47-51 | only a visible button that is not loading acts: it requests the next page and appends it |
| `CollegesPage.TypeForTab` | client/src/pages/Colleges.jsx:17 | the exams tab asks for Exam; any other tab asks for College |
| `CollegesPage.TabServesItsKind` | client/src/pages/Colleges.jsx:15-19 | every item the route serves for a tab's request has that tab's type |
| `CollegesPage.Colleges.constructor` | client/src/pages/Colleges.jsx:7-13 | initial state: exams tab, no search, empty list, loading, page 1 |
| `CollegesPage.Colleges.FetchItems` | client/src/pages/Colleges.jsx:15-35 | the request carries page, limit 10, the tab's type and a non-empty search; a success accumulates `items` and sets `hasMore`; a failure keeps them |
| `CollegesPage.Colleges.ChangeQuery` | client/src/pages/Colleges.jsx:38-44 | a new search or tab resets to page 1 and replaces the items with the first page |
| `CollegesPage.Colleges.LoadMore` | client/src/pages/Colleges.jsx:46-50 | only a visible button (more pages, no search) that is not loading acts, requesting the next page |
| `CareerDetailPage.RelatedRoadmaps` | client/src/pages/CareerDetail.jsx:23 | a roadmap is related iff its stream is the career's stream or "Any Stream" |
| `CareerDetailPage.RelatedColleges` | client/src/pages/CareerDetail.jsx:29 | a college is related iff its stream is the career's stream or "Any Stream" |
| `CareerDetailPage.TopColleges` | client/src/pages/CareerDetail.jsx:172 | the first three related colleges, or all of them when there are fewer |
| `CareerDetailPage.CareerDetail.constructor` | client/src/pages/CareerDetail.jsx:8-11 | the page starts loading, with no career |
| `CareerDetailPage.CareerDetail.FetchData` | client/src/pages/CareerDetail.jsx:13-41 | career, roadmaps and colleges are stored as they arrive; the first failure keeps what earlier steps stored; loading always ends |
| `CareerDetailPage.CareerDetail.View` | client/src/pages/CareerDetail.jsx:43-52 | loading, then "Career not found" iff there is no career, otherwise the career with its roadmaps and at most three colleges |
| `CareerDetailPage.StoredRoadmapsNeverRelated` | client/src/pages/CareerDetail.jsx:21-24 | roadmaps as the server stores them are never related to any career |
| `CareerDetailPage.DefaultCollegesPageHasNoColleges` | client/src/pages/CareerDetail.jsx:27-31 | the page's parameterless `/colleges` request after seeding returns only exams when there are at least 10 exams, so no college is ever shown |
| `RoadmapsPage.FindRoadmap` | client/src/pages/Roadmaps.jsx:26 | `find`: nothing iff no roadmap has the selected id, otherwise the first roadmap that has it |
| `RoadmapsPage.SelectedRoadmap` | client/src/pages/Roadmaps.jsx:26 | `find(...) \|\| roadmapsData[0]`: nothing only for an empty list; the roadmap with the selected id when there is one, otherwise the first |
| `RoadmapsPage.Roadmaps.constructor` | client/src/pages/Roadmaps.jsx:6-8 | the page starts loading, with no roadmaps and no selection |
| `RoadmapsPage.Roadmaps.Loaded` | client/src/pages/Roadmaps.jsx:10-21 | a non-empty list selects its first roadmap; a failure keeps the state; loading ends |
| `RoadmapsPage.Roadmaps.Click` | client/src/pages/Roadmaps.jsx:56-59 | clicking a sidebar entry selects its id, so the page shows a roadmap with that id |
| `RoadmapsPage.Roadmaps.View` | client/src/pages/Roadmaps.jsx:23-26 | loading, then "No roadmaps found" iff the list is empty, otherwise the selected roadmap and its steps |
| `ChatRoute.GreetingIff` | server/routes/chat.js:14-15 | a message is a greeting iff, lowercased, it starts with hi, hello, hey or greetings and holds fewer than two spaces |
| `ChatRoute.HistoryIsGreeting` | server/routes/chat.js:15 | the test is a prefix test: "History" counts as a greeting |
| `ChatRoute.StripTags` | server/routes/chat.js:59-60 | stripping never lengthens the text and introduces no character |
| `ChatRoute.StripTagsLeavesNoTags` | server/routes/chat.js:59-60 | nothing that matches `<[^>]+>` is left after stripping |
| `ChatRoute.StripTagsKeepsClean` | server/routes/chat.js:59-60 | text without tags is left unchanged |
| `ChatRoute.StripTagsIdempotent` | server/routes/chat.js:59-60 | stripping twice is the same as stripping once |
| `ChatRoute.EmptyBracketsSurvive` | server/routes/chat.js:59 | a bare "<>" is not a tag and survives |
| `ChatRoute.BoldTagRemoved` | server/routes/chat.js:59 | a leading `<b>` is removed |
| `ChatRoute.RewriteLink` | server/routes/chat.js:63-70 | a link without the redirect prefix is unchanged; a redirect becomes the decoded value of its query, or stays as it was when decoding fails |
| `ChatRoute.FirstResults` | server/routes/chat.js:46-74 | at most three results: the first matches in document order, each cleaned |
| `ChatRoute.CollectResults` | server/routes/chat.js:46-74 | the scraping loop stops after three matches or at the last one, and its result k is match k cleaned |
| `Collections.FlatMapAppend` | server/routes/chat.js:79-81 | the text appended for a concatenation of results is the text of each part, in order |
| `ChatRoute.BuildReply` | server/routes/chat.js:76-81 | the reply is the header quoting the message, followed by one block per result, in order |
| `ChatRoute.ResultBlockPlaced` | server/routes/chat.js:76-81 | result k's block sits in the reply right after the header and the blocks of results 0..k-1 |
| `ChatRoute.SearchReply` | server/routes/chat.js:29-92 | after a search: the apology when the fetch failed, the search-page link when nothing was scraped, otherwise the first results |
| `ChatRoute.HandleChat` | server/routes/chat.js:6-94 | 400 "Please provide a message." iff the message is missing or empty; a greeting is answered without a search; otherwise the search URL is fetched and the answer is 200, as `SearchReply` says |
| `ChatWidgetComponent.AiMessage` | client/src/components/ChatWidget.jsx:36-39 | the AI message is the server's reply, or the fixed apology when the request failed |
| `ChatWidgetComponent.ChatWidget.constructor` | client/src/components/ChatWidget.jsx:8-13 | closed, with only the welcome message, empty input, not typing |
| `ChatWidgetComponent.ChatWidget.Toggle` | client/src/components/ChatWidget.jsx:173 | the round button flips the panel open or closed and changes nothing else |
| `ChatWidgetComponent.ChatWidget.Close` | client/src/components/ChatWidget.jsx:84 | the header button closes the panel |
| `ChatWidgetComponent.ChatWidget.EditInput` | client/src/components/ChatWidget.jsx:143 | typing replaces the input |
| `ChatWidgetComponent.ChatWidget.SendDisabled` | client/src/components/ChatWidget.jsx:149 | the send button is disabled exactly when the trimmed input is empty or a reply is pending |
| `ChatWidgetComponent.ChatWidget.Submit` | client/src/components/ChatWidget.jsx:24-31 | submitting happens only while no reply is pending; a message is posted exactly when the send button is enabled; blank input changes nothing; otherwise one user message with the untrimmed input is appended and posted, the input is cleared and typing is set |
| `ChatWidgetComponent.ChatWidget.Settle` | client/src/components/ChatWidget.jsx:33-42 | exactly one AI message is appended, and typing is cleared |
| `ChatWidgetComponent.ChatWidget.Send` | client/src/components/ChatWidget.jsx:24-43 | the whole send: the log only grows and keeps the welcome message first; a non-blank input adds the user message and then the reply or the apology |

## Findings

| source | as written | input that shows it | evidently intended | confidence | as-written member | corrected member |
|---|---|---|---|---|---|---|
| client/src/pages/Results.jsx:13-16 | `setAllCareers(data)` stores the whole GET /careers body, the paging object `{careers, currentPage, totalPages, total}`; `allCareers.filter` at line 71 then throws while rendering | any completed quiz whose career request succeeds | take the list out of the response (`data.careers`) | high; not executed | `ResultsPage.ViewAsWritten` | `ResultsPage.CorrectedView` |

Even with the correction, the request has no parameters. It therefore returns only
the first 10 careers of the store, so matching covers only that page.

Two consequences of the stored data are proved as lemmas, not claimed as
findings, because they depend on the data files and on the database driver's
default settings:

- The roadmap schema has no `stream` field, so stored roadmaps lose it, and the
  detail page never lists a related roadmap (`CareerDetailPage.StoredRoadmapsNeverRelated`).
- The detail page asks for the first page of `/colleges`. After seeding, that page
  holds no college when there are at least 10 exams
  (`CareerDetailPage.DefaultCollegesPageHasNoColleges`).

## Left out

- The HTTP layer is not modelled. This covers the axios instance, its retry and
  interceptors (client/src/services/api.js), and the server-awake event and its
  banner. Each request is a parameter holding the resolved body, or None when
  the request rejects.
- The database is not modelled: its indexes, `lean`, the parallel count and find,
  and store failures that answer 500 for other reasons. Collections are sequences
  in insertion order.
- A search is modelled as a literal case-insensitive substring test. Regular
  expression metacharacters in the search term are not interpreted.
- Case folding covers ASCII letters only; Unicode case mapping is not modelled.
- Query parameters are strings. Repeated parameters, which Express turns into
  arrays, are not modelled.
- Negative limits are not modelled: a negative `limit` is reported as an error
  instead of following the driver's treatment of negative limits.
- Timers are not modelled. The 500 ms debounce before a query change takes effect
  collapses into one `ChangeQuery` event. The 200 ms delay before the quiz
  advances collapses into `Answer`, so two answers given within that delay are
  not modelled.
- Overlapping requests and the order in which their responses arrive are not
  modelled. Each fetch settles before the next event.
- A question whose `type` is not one of the six RIASEC letters is not modelled:
  the source would add a new key with a NaN score.
- The `/questions` and `/roadmaps` routes are not modelled. They return the
  stored collection, which is the input of the quiz and of the roadmaps page.
- The route's own JSON encoding and the client's decoding are not modelled.
- In the chat route, the search fetch, the HTML result pattern,
  `encodeURIComponent` and the redirect decoding are parameters. The route sees
  the list of matches in document order; `decode` returns None where decoding
  throws.
- `ChatRoute.HandleChat`: the reply field is a `Reply` value, and its text is
  `ChatRoute.ReplyText`. A non-string chat message is not modelled.
- `ChatRoute.CollectResults` receives the cleaning of one match as a function
  value. `SearchReply` passes `Extract` with the request's decoder.
- `SeedScript.Store.SeedDB`: a failing `insertMany` (a record the schema
  rejects) is not modelled; the database calls always succeed.
- A career without a `stream` is not modelled. Career streams are strings, so
  `undefined === undefined` matches are not modelled.
- Rendering, styling, animation and scrolling into view are not modelled.
- Markdown rendering of chat replies is not modelled.
- The progress bar is not modelled.
