/**
 * The research helpers of aiJudge.js that turn a search response and the
 * project text into signals: competitor names, fallback competitors, keywords,
 * the industry and the trend message.
 */
module JudgeResearch {
  import opened Wrappers
  import opened Text
  import opened Seqs
  import opened Patterns
  import opened Planner
  import opened JudgeTypes

  // ----- extractCompetitorNames -----

  /** One entry of the known-competitor table: a keyword and its competitors. */
  datatype Entry = Entry(keyword: string, names: seq<string>)

  /** The known-competitor table, in its declaration order. */
  const COMPETITOR_DATABASE: seq<Entry> := [
    Entry("task", ["Asana", "Trello", "Monday.com", "ClickUp", "Todoist", "Notion"]),
    Entry("project", ["Asana", "Monday.com", "Jira", "Basecamp", "Linear", "Height"]),
    Entry("productivity", ["Notion", "Obsidian", "Roam Research", "Craft", "Coda"]),
    Entry("note", ["Notion", "Evernote", "Obsidian", "Bear", "Apple Notes"]),
    Entry("ai", ["OpenAI", "Anthropic", "Google AI", "Jasper", "Copy.ai"]),
    Entry("chatbot", ["Intercom", "Drift", "Zendesk", "Freshdesk", "Crisp"]),
    Entry("automation", ["Zapier", "Make", "n8n", "Pipedream", "Tray.io"]),
    Entry("marketplace", ["Amazon", "eBay", "Etsy", "Shopify", "WooCommerce"]),
    Entry("ecommerce", ["Shopify", "WooCommerce", "BigCommerce", "Squarespace"]),
    Entry("payment", ["Stripe", "PayPal", "Square", "Adyen", "Mollie"]),
    Entry("social", ["Facebook", "Instagram", "TikTok", "Twitter/X", "LinkedIn"]),
    Entry("messaging", ["Slack", "Discord", "Microsoft Teams", "Telegram"]),
    Entry("video", ["Zoom", "Google Meet", "Loom", "Riverside", "Descript"]),
    Entry("health", ["Headspace", "Calm", "Fitbit", "MyFitnessPal", "Noom"]),
    Entry("fitness", ["Strava", "Nike Run Club", "Peloton", "Fitbit", "Apple Fitness+"]),
    Entry("mental", ["Headspace", "Calm", "BetterHelp", "Talkspace", "Woebot"]),
    Entry("finance", ["Mint", "YNAB", "Robinhood", "Coinbase", "Plaid"]),
    Entry("invest", ["Robinhood", "Wealthfront", "Betterment", "Fidelity", "Schwab"]),
    Entry("crypto", ["Coinbase", "Binance", "Kraken", "MetaMask", "Ledger"]),
    Entry("banking", ["Chime", "Revolut", "N26", "Wise", "Mercury"]),
    Entry("education", ["Coursera", "Udemy", "Skillshare", "Khan Academy", "Duolingo"]),
    Entry("learning", ["Duolingo", "Babbel", "Coursera", "edX", "Masterclass"]),
    Entry("course", ["Teachable", "Thinkific", "Podia", "Kajabi", "Gumroad"]),
    Entry("developer", ["GitHub", "GitLab", "Vercel", "Netlify", "Railway"]),
    Entry("api", ["Postman", "Insomnia", "RapidAPI", "Swagger", "Stoplight"]),
    Entry("database", ["Supabase", "Firebase", "MongoDB Atlas", "PlanetScale", "Neon"]),
    Entry("design", ["Figma", "Sketch", "Adobe XD", "Canva", "Framer"]),
    Entry("graphic", ["Canva", "Adobe Creative Suite", "Figma", "Sketch"]),
    Entry("hiring", ["LinkedIn", "Indeed", "Greenhouse", "Lever", "Workday"]),
    Entry("hr", ["BambooHR", "Gusto", "Rippling", "Deel", "Remote"]),
    Entry("crm", ["Salesforce", "HubSpot", "Pipedrive", "Close", "Copper"]),
    Entry("sales", ["Salesforce", "HubSpot", "Outreach", "Salesloft", "Gong"]),
    Entry("marketing", ["HubSpot", "Mailchimp", "Klaviyo", "ActiveCampaign"]),
    Entry("email", ["Mailchimp", "ConvertKit", "Klaviyo", "Sendgrid", "Postmark"]),
    Entry("seo", ["Ahrefs", "SEMrush", "Moz", "Surfer SEO", "Clearscope"]),
    Entry("analytics", ["Google Analytics", "Mixpanel", "Amplitude", "Heap", "PostHog"])
  ]

  /** The capitalised words a topic match must not be. */
  const TOPIC_EXCLUDED: seq<string> := ["The", "And", "For", "With"]

  /** The competitors of every table entry whose keyword the lower-cased idea contains, in table order. */
  function DatabaseNames(db: seq<Entry>, ideaLower: string): seq<string>
    decreases |db|
  {
    if db == [] then []
    else
      var e := db[|db| - 1];
      DatabaseNames(db[..|db| - 1], ideaLower) + (if Contains(ideaLower, e.keyword) then e.names else [])
  }

  /** The matches kept: longer than two characters and not excluded. */
  function KeepNames(ms: seq<string>): seq<string>
    decreases |ms|
  {
    if ms == [] then []
    else
      var m := ms[|ms| - 1];
      KeepNames(ms[..|ms| - 1]) + (if |m| > 2 && m !in TOPIC_EXCLUDED then [m] else [])
  }

  /** The first three capitalised-word matches of a topic text, filtered. */
  function TopicCandidates(text: string): seq<string> {
    KeepNames(Take(AllMatches(CapWord, text), 3))
  }

  function TopicNames(topics: seq<string>): seq<string>
    decreases |topics|
  {
    if topics == [] then []
    else
      var t := topics[|topics| - 1];
      TopicNames(topics[..|topics| - 1]) + (if t != "" then TopicCandidates(t) else [])
  }

  /** What `extractCompetitorNames(searchResults, coreIdea)` returns; `None` is a null response. */
  function CompetitorNames(answer: Option<SearchAnswer>, coreIdea: string): seq<string> {
    var fromTable := DatabaseNames(COMPETITOR_DATABASE, LowerStr(coreIdea));
    var fromTopics := if answer.Some? then TopicNames(answer.value.topics) else [];
    Take(AddAll(AddAll([], fromTable), fromTopics), 5)
  }

  /** Every keyword of the table has at least two characters. */
  lemma KeywordsAtLeastTwo()
    ensures forall k :: 0 <= k < |COMPETITOR_DATABASE| ==> |COMPETITOR_DATABASE[k].keyword| >= 2
  {
  }

  /** An idea shorter than every keyword matches no entry. */
  lemma {:induction false} DatabaseNamesShortIdea(db: seq<Entry>, ideaLower: string)
    requires forall k :: 0 <= k < |db| ==> |db[k].keyword| > |ideaLower|
    ensures DatabaseNames(db, ideaLower) == []
    decreases |db|
  {
    if db != [] {
      DatabaseNamesShortIdea(db[..|db| - 1], ideaLower);
      if Contains(ideaLower, db[|db| - 1].keyword) {
        var i :| 0 <= i <= |ideaLower| && IsPrefix(db[|db| - 1].keyword, ideaLower[i..]);
        assert false;
      }
    }
  }

  /**
   * What `conductWebResearch` finds for an idea of at most one character
   * when every search answers nothing (`searchGoogle` gives null on an error
   * or an empty answer): no competitors, and the stable message as the
   * market growth and the industry trend.
   */
  lemma SilentSearchResearch(coreIdea: string)
    requires |coreIdea| <= 1
    ensures CompetitorNames(None, coreIdea) == []
    ensures ExtractTrends(None) == STABLE_MESSAGE
  {
    KeywordsAtLeastTwo();
    DatabaseNamesShortIdea(COMPETITOR_DATABASE, LowerStr(coreIdea));
    assert AddAll<string>([], []) == [];
  }

  lemma DatabaseNamesSnoc(db: seq<Entry>, i: nat, ideaLower: string)
    requires i < |db|
    ensures db[..i + 1] == db[..i] + [db[i]]
    ensures DatabaseNames(db[..i + 1], ideaLower) ==
      DatabaseNames(db[..i], ideaLower) + (if Contains(ideaLower, db[i].keyword) then db[i].names else [])
  {
    assert db[..i + 1][..i] == db[..i];
  }

  lemma TopicNamesSnoc(topics: seq<string>, t: nat)
    requires t < |topics|
    ensures TopicNames(topics[..t + 1]) ==
      TopicNames(topics[..t]) + (if topics[t] != "" then TopicCandidates(topics[t]) else [])
  {
    assert topics[..t + 1][..t] == topics[..t];
  }

  /** Adds `names` to the insertion-ordered set `acc`, one `add` at a time. */
  method AddEach(acc: seq<string>, names: seq<string>) returns (r: seq<string>)
    ensures r == AddAll(acc, names)
  {
    r := acc;
    var j := 0;
    while j < |names|
      invariant 0 <= j <= |names|
      invariant r == AddAll(acc, names[..j])
    {
      if names[j] !in r {
        r := r + [names[j]];
      }
      AddAllSnoc(acc, names, j);
      j := j + 1;
    }
    assert names[..|names|] == names;
  }

  /** The `competitorDatabase` loop: every entry whose keyword the idea contains adds its competitors. */
  method ScanDatabase(db: seq<Entry>, ideaLower: string) returns (competitors: seq<string>)
    ensures competitors == AddAll([], DatabaseNames(db, ideaLower))
  {
    competitors := [];
    var i := 0;
    while i < |db|
      invariant 0 <= i <= |db|
      invariant competitors == AddAll([], DatabaseNames(db[..i], ideaLower))
    {
      var entry := db[i];
      DatabaseNamesSnoc(db, i, ideaLower);
      if Contains(ideaLower, entry.keyword) {
        AddAllAppend([], DatabaseNames(db[..i], ideaLower), entry.names);
        competitors := AddEach(competitors, entry.names);
      } else {
        assert DatabaseNames(db[..i] + [entry], ideaLower) == DatabaseNames(db[..i], ideaLower);
      }
      i := i + 1;
    }
    assert db[..|db|] == db;
  }

  /** The first three matches of one topic text, less the short and excluded ones. */
  method TopicMatches(text: string) returns (kept: seq<string>)
    ensures kept == TopicCandidates(text)
  {
    var first := Take(AllMatches(CapWord, text), 3);
    kept := [];
    var k := 0;
    while k < |first|
      invariant 0 <= k <= |first|
      invariant kept == KeepNames(first[..k])
    {
      var m := first[k];
      if |m| > 2 && m !in TOPIC_EXCLUDED {
        kept := kept + [m];
      }
      assert first[..k + 1][..k] == first[..k];
      k := k + 1;
    }
    assert first[..|first|] == first;
  }

  /** The `topics.forEach` loop: each topic with text adds its candidates to `acc`. */
  method ScanTopics(acc: seq<string>, topics: seq<string>) returns (competitors: seq<string>)
    ensures competitors == AddAll(acc, TopicNames(topics))
  {
    competitors := acc;
    var t := 0;
    while t < |topics|
      invariant 0 <= t <= |topics|
      invariant competitors == AddAll(acc, TopicNames(topics[..t]))
    {
      TopicNamesSnoc(topics, t);
      if topics[t] != "" {
        var kept := TopicMatches(topics[t]);
        AddAllAppend(acc, TopicNames(topics[..t]), kept);
        competitors := AddEach(competitors, kept);
      } else {
        assert TopicNames(topics[..t + 1]) == TopicNames(topics[..t]);
      }
      t := t + 1;
    }
    assert topics[..|topics|] == topics;
  }

  /**
   * `extractCompetitorNames`: the table scan and the topic scan add to one
   * insertion-ordered set, of which the first five are returned.
   */
  method ExtractCompetitorNames(answer: Option<SearchAnswer>, coreIdea: string) returns (names: seq<string>)
    ensures names == CompetitorNames(answer, coreIdea)
    ensures |names| <= 5 && NoDup(names)
  {
    var ideaLower := LowerStr(coreIdea);
    var competitors := ScanDatabase(COMPETITOR_DATABASE, ideaLower);
    var fromTopics: seq<string> := [];
    if answer.Some? {
      fromTopics := TopicNames(answer.value.topics);
      competitors := ScanTopics(competitors, answer.value.topics);
    } else {
      assert competitors == AddAll(competitors, []);
    }
    AddAllNoDup([], DatabaseNames(COMPETITOR_DATABASE, ideaLower));
    AddAllNoDup(AddAll([], DatabaseNames(COMPETITOR_DATABASE, ideaLower)), fromTopics);
    names := Take(competitors, 5);
  }

  lemma {:induction false} DatabaseNamesMembers(db: seq<Entry>, ideaLower: string)
    ensures forall n :: n in DatabaseNames(db, ideaLower) ==>
      exists k :: 0 <= k < |db| && Contains(ideaLower, db[k].keyword) && n in db[k].names
    decreases |db|
  {
    if db != [] {
      var init := db[..|db| - 1];
      DatabaseNamesMembers(init, ideaLower);
      forall n | n in DatabaseNames(db, ideaLower)
        ensures exists k :: 0 <= k < |db| && Contains(ideaLower, db[k].keyword) && n in db[k].names
      {
        if n in DatabaseNames(init, ideaLower) {
          var k :| 0 <= k < |init| && Contains(ideaLower, init[k].keyword) && n in init[k].names;
          assert db[k] == init[k];
        }
      }
    }
  }

  lemma {:induction false} KeepNamesMembers(ms: seq<string>)
    ensures forall n :: n in KeepNames(ms) ==> n in ms && |n| > 2 && n !in TOPIC_EXCLUDED
    decreases |ms|
  {
    if ms != [] {
      KeepNamesMembers(ms[..|ms| - 1]);
      assert forall x :: x in ms[..|ms| - 1] ==> x in ms;
    }
  }

  /** A topic name that passed the filter: a capitalised-word match of the topic text. */
  predicate TopicMatch(n: string, topic: string) {
    topic != "" && n in AllMatches(CapWord, topic) && Shaped(CapWord, n) && |n| > 2 && n !in TOPIC_EXCLUDED
  }

  lemma {:induction false} TopicNamesMembers(topics: seq<string>)
    ensures forall n :: n in TopicNames(topics) ==> exists k :: 0 <= k < |topics| && TopicMatch(n, topics[k])
    decreases |topics|
  {
    if topics != [] {
      var init, t := topics[..|topics| - 1], topics[|topics| - 1];
      TopicNamesMembers(init);
      forall n | n in TopicNames(topics) ensures exists k :: 0 <= k < |topics| && TopicMatch(n, topics[k]) {
        if n in TopicNames(init) {
          var k :| 0 <= k < |init| && TopicMatch(n, init[k]);
          assert topics[k] == init[k];
        } else {
          var ms := AllMatches(CapWord, t);
          KeepNamesMembers(Take(ms, 3));
          AllMatchesSound(CapWord, t);
          assert n in ms;
          assert TopicMatch(n, topics[|topics| - 1]);
        }
      }
    }
  }

  /**
   * At most five distinct names, each either a competitor listed under a
   * table keyword the idea contains, or a capitalised word (longer than two
   * characters and not excluded) among the first three matches of a topic.
   */
  lemma CompetitorNamesShape(answer: Option<SearchAnswer>, coreIdea: string)
    ensures var names := CompetitorNames(answer, coreIdea);
      |names| <= 5 && NoDup(names) &&
      forall n :: n in names ==>
        (exists k :: 0 <= k < |COMPETITOR_DATABASE| &&
           Contains(LowerStr(coreIdea), COMPETITOR_DATABASE[k].keyword) && n in COMPETITOR_DATABASE[k].names) ||
        (answer.Some? && exists k :: 0 <= k < |answer.value.topics| && TopicMatch(n, answer.value.topics[k]))
  {
    var fromTable := DatabaseNames(COMPETITOR_DATABASE, LowerStr(coreIdea));
    var fromTopics := if answer.Some? then TopicNames(answer.value.topics) else [];
    var all := AddAll(AddAll([], fromTable), fromTopics);
    AddAllNoDup([], fromTable);
    AddAllNoDup(AddAll([], fromTable), fromTopics);
    AddAllMembers([], fromTable);
    AddAllMembers(AddAll([], fromTable), fromTopics);
    DatabaseNamesMembers(COMPETITOR_DATABASE, LowerStr(coreIdea));
    if answer.Some? {
      TopicNamesMembers(answer.value.topics);
    }
    assert forall n :: n in Take(all, 5) ==> n in all;
  }

  // ----- generateFallbackCompetitors -----

  /** A keyword group: any trigger in the text adds its three names. */
  datatype Group = Group(triggers: seq<string>, names: seq<string>)

  const FALLBACK_GROUPS: seq<Group> := [
    Group(["task", "project", "productivity"], ["Asana", "Notion", "Monday.com"]),
    Group(["ai", "automat"], ["Zapier", "ChatGPT", "Jasper"]),
    Group(["learn", "course", "education"], ["Coursera", "Udemy", "Skillshare"]),
    Group(["shop", "store", "ecommerce"], ["Shopify", "WooCommerce", "Etsy"]),
    Group(["finance", "money", "invest"], ["Robinhood", "Mint", "YNAB"]),
    Group(["health", "fitness", "wellness"], ["Headspace", "Fitbit", "MyFitnessPal"]),
    Group(["social", "community", "network"], ["Discord", "Slack", "Circle"]),
    Group(["video", "stream", "content"], ["YouTube", "TikTok", "Loom"]),
    Group(["crm", "sales", "customer"], ["Salesforce", "HubSpot", "Pipedrive"]),
    Group(["design", "creative", "visual"], ["Figma", "Canva", "Adobe"])
  ]

  const VARIOUS := "Various startups in this space"

  predicate GroupMatches(g: Group, text: string) {
    exists k :: 0 <= k < |g.triggers| && Contains(text, g.triggers[k])
  }

  function GroupNames(groups: seq<Group>, text: string): seq<string>
    decreases |groups|
  {
    if groups == [] then []
    else
      var g := groups[|groups| - 1];
      GroupNames(groups[..|groups| - 1], text) + (if GroupMatches(g, text) then g.names else [])
  }

  /** `(coreIdea + ' ' + problemStatement).toLowerCase()` */
  function FallbackText(p: Project): string {
    LowerStr(p.coreIdea + " " + p.problemStatement)
  }

  /** `generateFallbackCompetitors(projectData)`. */
  function FallbackCompetitors(p: Project): seq<string> {
    FallbackFrom(FALLBACK_GROUPS, FallbackText(p))
  }

  /** The names of the groups matching `text`, deduplicated, at most five; the placeholder when none match. */
  function FallbackFrom(groups: seq<Group>, text: string): seq<string> {
    var found := GroupNames(groups, text);
    Take(Dedup(if found == [] then [VARIOUS] else found), 5)
  }

  lemma {:induction false} GroupNamesMembers(groups: seq<Group>, text: string)
    requires forall k :: 0 <= k < |groups| ==> groups[k].names != []
    ensures GroupNames(groups, text) == [] <==> forall k :: 0 <= k < |groups| ==> !GroupMatches(groups[k], text)
    ensures forall n :: n in GroupNames(groups, text) ==>
      exists k :: 0 <= k < |groups| && GroupMatches(groups[k], text) && n in groups[k].names
    decreases |groups|
  {
    if groups != [] {
      var init, g := groups[..|groups| - 1], groups[|groups| - 1];
      assert forall k :: 0 <= k < |init| ==> init[k] == groups[k];
      GroupNamesMembers(init, text);
      forall n | n in GroupNames(groups, text)
        ensures exists k :: 0 <= k < |groups| && GroupMatches(groups[k], text) && n in groups[k].names
      {
        if n in GroupNames(init, text) {
          var k :| 0 <= k < |init| && GroupMatches(init[k], text) && n in init[k].names;
          assert groups[k] == init[k];
        } else {
          assert groups[|groups| - 1] == g;
        }
      }
    }
  }

  /**
   * One to five distinct names; the placeholder 'Various startups in this
   * space' is returned, alone, exactly when no keyword group matched, and
   * otherwise every name belongs to a matched group.
   */
  lemma FallbackShape(p: Project)
    ensures var r := FallbackCompetitors(p);
      1 <= |r| <= 5 && NoDup(r) &&
      (r == [VARIOUS] <==> forall k :: 0 <= k < |FALLBACK_GROUPS| ==> !GroupMatches(FALLBACK_GROUPS[k], FallbackText(p))) &&
      (VARIOUS in r <==> r == [VARIOUS]) &&
      (r != [VARIOUS] ==> forall n :: n in r ==>
         exists k :: 0 <= k < |FALLBACK_GROUPS| && GroupMatches(FALLBACK_GROUPS[k], FallbackText(p)) &&
                     n in FALLBACK_GROUPS[k].names)
  {
    assert forall k :: 0 <= k < |FALLBACK_GROUPS| ==> FALLBACK_GROUPS[k].names != [] && VARIOUS !in FALLBACK_GROUPS[k].names;
    FallbackFromShape(FALLBACK_GROUPS, FallbackText(p));
  }

  /** `FallbackShape` for any groups that all name someone and never name the placeholder. */
  lemma FallbackFromShape(groups: seq<Group>, text: string)
    requires forall k :: 0 <= k < |groups| ==> groups[k].names != [] && VARIOUS !in groups[k].names
    ensures var r := FallbackFrom(groups, text);
      1 <= |r| <= 5 && NoDup(r) &&
      (r == [VARIOUS] <==> forall k :: 0 <= k < |groups| ==> !GroupMatches(groups[k], text)) &&
      (VARIOUS in r <==> r == [VARIOUS]) &&
      (r != [VARIOUS] ==> forall n :: n in r ==>
         exists k :: 0 <= k < |groups| && GroupMatches(groups[k], text) && n in groups[k].names)
  {
    var found := GroupNames(groups, text);
    var r := FallbackFrom(groups, text);
    GroupNamesMembers(groups, text);
    if found == [] {
      FallbackNothingFound();
      assert r == [VARIOUS];
    } else {
      assert VARIOUS !in found;
      FallbackFound(found);
      assert r == Take(Dedup(found), 5);
    }
  }

  /** With no names found, the fallback is the placeholder alone. */
  lemma FallbackNothingFound()
    ensures Take(Dedup([VARIOUS]), 5) == [VARIOUS]
  {
    assert Dedup([VARIOUS]) == Insert(AddAll([], []), VARIOUS) == [VARIOUS] by {
      assert [VARIOUS][..0] == [];
    }
  }

  /** With some names found, the fallback is their first five distinct ones. */
  lemma FallbackFound(found: seq<string>)
    requires found != [] && VARIOUS !in found
    ensures var r := Take(Dedup(found), 5);
      1 <= |r| <= 5 && NoDup(r) && VARIOUS !in r && r != [VARIOUS] && forall n :: n in r ==> n in found
  {
    DedupMembers(found);
    TakeNoDup(Dedup(found), 5);
    var r := Take(Dedup(found), 5);
    assert r[0] in r;
  }

  // ----- extractKeywords -----

  const JUDGE_STOPWORDS: seq<string> := [
    "the", "a", "an", "and", "or", "but", "in", "on", "at", "to", "for", "of",
    "with", "by", "that", "this", "is", "are", "was", "were", "be", "been", "being", "have",
    "has", "had", "do", "does", "did", "will", "would", "could", "should", "may", "might", "can",
    "it", "its", "they", "them", "their", "we", "our", "you", "your", "i", "my", "me"]

  /** The words `extractKeywords` keeps: longer than 2, not a stopword, first occurrences, the first 4. */
  function JudgeKeywordList(text: string): seq<string> {
    KeywordListWith(text, JUDGE_STOPWORDS)
  }

  /** The first four distinct words longer than two characters that are not in `stop`. */
  function KeywordListWith(text: string, stop: seq<string>): seq<string> {
    Take(Dedup(FilterWords(Split(KeywordText(text), IsSpace), 2, stop)), 4)
  }

  function JudgeKeywords(text: string): string {
    Join(JudgeKeywordList(text), " ")
  }

  /**
   * The first four distinct words that pass the filter (all of them when
   * fewer pass), each longer than two characters, made of
   * lower-case letters and digits only and not a stopword, in order of first
   * occurrence; the returned string splits back into exactly these words.
   */
  lemma JudgeKeywordsShape(text: string)
    ensures var ws := JudgeKeywordList(text);
      var all := Dedup(FilterWords(Split(KeywordText(text), IsSpace), 2, JUDGE_STOPWORDS));
      |ws| == (if |all| < 4 then |all| else 4) && NoDup(ws) &&
      (forall k :: 0 <= k < |ws| ==>
         |ws[k]| > 2 && ws[k] !in JUDGE_STOPWORDS &&
         forall c :: c in ws[k] ==> IsLower(c) || IsDigit(c)) &&
      ws <= all &&
      (ws == [] ==> JudgeKeywords(text) == "") &&
      (ws != [] ==> Split(JudgeKeywords(text), IsSpace) == ws)
  {
    KeywordListShape(text, JUDGE_STOPWORDS);
  }

  /** `JudgeKeywordsShape` for any stopword list. */
  lemma KeywordListShape(text: string, stop: seq<string>)
    ensures var ws := KeywordListWith(text, stop);
      var all := Dedup(FilterWords(Split(KeywordText(text), IsSpace), 2, stop));
      |ws| == (if |all| < 4 then |all| else 4) && NoDup(ws) &&
      (forall k :: 0 <= k < |ws| ==>
         |ws[k]| > 2 && ws[k] !in stop &&
         forall c :: c in ws[k] ==> IsLower(c) || IsDigit(c)) &&
      ws <= all &&
      (ws == [] ==> Join(ws, " ") == "") &&
      (ws != [] ==> Split(Join(ws, " "), IsSpace) == ws)
  {
    var t := KeywordText(text);
    var all := FilterWords(Split(t, IsSpace), 2, stop);
    var ws := KeywordListWith(text, stop);
    SplitTokens(t, IsSpace);
    DedupCard(all);
    AddAllMembers([], all);
    forall k | 0 <= k < |ws| ensures IsToken(ws[k], IsSpace) && |ws[k]| > 2 && ws[k] !in stop &&
                                    forall c :: c in ws[k] ==> IsLower(c) || IsDigit(c) {
      assert ws[k] == Dedup(all)[k];
      assert ws[k] in all;
      var j :| 0 <= j < |all| && all[j] == ws[k];
      assert ws[k] in Split(t, IsSpace);
      forall c | c in ws[k] ensures IsLower(c) || IsDigit(c) {
        assert c in t;
      }
    }
    if ws != [] {
      SplitJoin(ws, IsSpace);
    }
  }

  // ----- extractIndustry -----

  const JUDGE_INDUSTRIES: seq<Rule> := [
    Rule(["saas", "software", "platform", "tool", "app"], "saas"),
    Rule(["ai", "artificial intelligence", "machine learning", "ml", "automation"], "ai"),
    Rule(["finance", "banking", "payment", "invest", "money", "crypto"], "fintech"),
    Rule(["health", "medical", "wellness", "fitness", "mental"], "healthtech"),
    Rule(["education", "learning", "course", "training", "teach"], "edtech"),
    Rule(["shop", "store", "marketplace", "retail", "commerce"], "ecommerce"),
    Rule(["social", "community", "network", "connect"], "social"),
    Rule(["enterprise", "business", "b2b", "corporate"], "enterprise"),
    Rule(["consumer", "b2c", "personal", "individual"], "consumer")
  ]

  const JUDGE_DEFAULT_INDUSTRY := "technology"

  /** The industry `extractIndustry` reports: the first whose keyword list matches. */
  function JudgeIndustry(text: string): string {
    FirstLabel(JUDGE_INDUSTRIES, LowerStr(text), JUDGE_DEFAULT_INDUSTRY)
  }

  /** `extractIndustry(text)`: lower-cases the text and scans the industry table. */
  method ExtractIndustry(text: string) returns (industry: string)
    ensures industry == JudgeIndustry(text)
  {
    industry := ScanIndustries(JUDGE_INDUSTRIES, LowerStr(text), JUDGE_DEFAULT_INDUSTRY);
  }

  /** The nested loops of `extractIndustry`: industries in order, their keywords in order, first hit returns. */
  method ScanIndustries(industries: seq<Rule>, textLower: string, dflt: string) returns (industry: string)
    ensures industry == FirstLabel(industries, textLower, dflt)
  {
    var i := 0;
    while i < |industries|
      invariant 0 <= i <= |industries|
      invariant FirstLabel(industries[i..], textLower, dflt) == FirstLabel(industries, textLower, dflt)
    {
      var rule := industries[i];
      var j := 0;
      while j < |rule.patterns|
        invariant 0 <= j <= |rule.patterns|
        invariant forall k :: 0 <= k < j ==> !Contains(textLower, rule.patterns[k])
      {
        if Contains(textLower, rule.patterns[j]) {
          assert RuleMatches(industries[i..][0], textLower);
          return rule.industry;
        }
        j := j + 1;
      }
      assert industries[i..][1..] == industries[i + 1..];
      i := i + 1;
    }
    return dflt;
  }

  /**
   * The first industry in table order with a matching keyword wins; "saas"
   * comes first in the table, so any text containing "app" (as in "happy")
   * is "saas" whatever else it mentions.
   */
  lemma JudgeIndustryFirstMatch(text: string)
    ensures var t := LowerStr(text);
      (exists k :: 0 <= k < |JUDGE_INDUSTRIES| && RuleMatches(JUDGE_INDUSTRIES[k], t) &&
         (forall j :: 0 <= j < k ==> !RuleMatches(JUDGE_INDUSTRIES[j], t)) &&
         JudgeIndustry(text) == JUDGE_INDUSTRIES[k].industry) ||
      ((forall k :: 0 <= k < |JUDGE_INDUSTRIES| ==> !RuleMatches(JUDGE_INDUSTRIES[k], t)) &&
         JudgeIndustry(text) == JUDGE_DEFAULT_INDUSTRY)
    ensures Contains(LowerStr(text), "app") ==> JudgeIndustry(text) == "saas"
  {
    FirstLabelIsFirstMatch(JUDGE_INDUSTRIES, LowerStr(text), JUDGE_DEFAULT_INDUSTRY);
    if Contains(LowerStr(text), "app") {
      assert JUDGE_INDUSTRIES[0].patterns[4] == "app";
    }
  }

  // ----- extractTrends -----

  const GROWTH_MESSAGE := "Market showing strong growth signals based on industry data"
  const MATURATION_MESSAGE := "Market showing signs of maturation - differentiation crucial"
  const STABLE_MESSAGE := "Market appears stable with room for innovative solutions"

  /** The stable message spells "stable" at index 15 and has no `g` and no `x` in either case. */
  lemma StableMessageLetters()
    ensures STABLE_MESSAGE[15..21] == "stable"
    ensures 'g' !in STABLE_MESSAGE && 'G' !in STABLE_MESSAGE
    ensures 'x' !in STABLE_MESSAGE && 'X' !in STABLE_MESSAGE
  {
    var a, b, c := "Market appears ", "stable with room", " for innovative solutions";
    StableMessageParts(a, b, c);
    assert 'g' !in a && 'G' !in a && 'x' !in a && 'X' !in a;
    StableMiddleLetters(b);
    StableEndLetters(c);
    assert (a + b + c)[15..21] == b[..6];
  }

  lemma StableMessageParts(a: string, b: string, c: string)
    requires a == "Market appears " && b == "stable with room" && c == " for innovative solutions"
    ensures STABLE_MESSAGE == a + b + c && |a| == 15 && b[..6] == "stable"
  {
    StableMessageHalves(a + b, c);
  }

  lemma StableMessageHalves(front: string, back: string)
    requires front == "Market appears stable with room" && back == " for innovative solutions"
    ensures STABLE_MESSAGE == front + back
  {
  }

  lemma StableMiddleLetters(b: string)
    requires b == "stable with room"
    ensures 'g' !in b && 'G' !in b && 'x' !in b && 'X' !in b
  {
  }

  lemma StableEndLetters(c: string)
    requires c == " for innovative solutions"
    ensures 'g' !in c && 'G' !in c && 'x' !in c && 'X' !in c
  {
  }

  /** `extractTrends(searchResults)`; `None` is a null response. */
  function ExtractTrends(answer: Option<SearchAnswer>): (m: string)
    ensures m == GROWTH_MESSAGE || m == MATURATION_MESSAGE || m == STABLE_MESSAGE
  {
    if answer.Some? && JsLength(answer.value.summaryText) > 20 then
      var a := LowerStr(answer.value.summaryText);
      if Contains(a, "grow") || Contains(a, "increas") then GROWTH_MESSAGE
      else if Contains(a, "declin") || Contains(a, "shrink") then MATURATION_MESSAGE
      else STABLE_MESSAGE
    else STABLE_MESSAGE
  }

  /**
   * Growth words win over decline words; an abstract of 20 characters or
   * fewer, or no response, reads as stable.
   */
  lemma ExtractTrendsCases(answer: Option<SearchAnswer>)
    ensures var long := answer.Some? && JsLength(answer.value.summaryText) > 20;
      var a := if answer.Some? then LowerStr(answer.value.summaryText) else "";
      (ExtractTrends(answer) == GROWTH_MESSAGE <==> long && (Contains(a, "grow") || Contains(a, "increas"))) &&
      (ExtractTrends(answer) == MATURATION_MESSAGE <==>
         long && !(Contains(a, "grow") || Contains(a, "increas")) && (Contains(a, "declin") || Contains(a, "shrink"))) &&
      (!long ==> ExtractTrends(answer) == STABLE_MESSAGE)
  {
  }
}
