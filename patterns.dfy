/** The concrete rule table of the hybrid selector (`RULE_PATTERNS`, compiled
    into `COMPILED_RULES`). Every pattern there is, once its trailing `.*` (or
    `(in )?.*`-style tail, which also matches the empty string) is dropped, a
    choice of literal phrases with a word boundary or a start-of-text anchor in
    front and an optional word boundary behind; the alternations and optional
    groups are written out with `Then` and `Opt`. */
module Patterns {
  import opened Text
  import opened Rules

  /** `anchored`: the pattern starts with `^\s*` instead of `\b`;
      `boundedEnd`: the pattern ends with `\b`. */
  datatype Pattern = Pattern(anchored: bool, phrases: seq<string>, boundedEnd: bool)

  /** Regex concatenation of two alternations: every `x + y`, in order. */
  function Then(xs: seq<string>, ys: seq<string>): seq<string>
  {
    if xs == [] then []
    else seq(|ys|, j requires 0 <= j < |ys| => xs[0] + ys[j]) + Then(xs[1..], ys)
  }

  /** `Then` offers exactly the concatenations of a choice from each side. */
  lemma {:induction false} ThenExact(xs: seq<string>, ys: seq<string>, w: string)
    ensures w in Then(xs, ys) <==> exists i, j :: 0 <= i < |xs| && 0 <= j < |ys| && w == xs[i] + ys[j]
  {
    if xs != [] {
      var heads := seq(|ys|, j requires 0 <= j < |ys| => xs[0] + ys[j]);
      assert Then(xs, ys) == heads + Then(xs[1..], ys);
      ThenExact(xs[1..], ys, w);
      if w in heads {
        var j :| 0 <= j < |ys| && heads[j] == w;
        assert w == xs[0] + ys[j];
      }
      if w in Then(xs[1..], ys) {
        var i, j :| 0 <= i < |xs[1..]| && 0 <= j < |ys| && w == xs[1..][i] + ys[j];
        assert w == xs[i + 1] + ys[j];
      }
      if i, j :| 0 <= i < |xs| && 0 <= j < |ys| && w == xs[i] + ys[j] {
        if i == 0 {
          assert heads[j] == w;
        } else {
          assert xs[1..][i - 1] == xs[i];
        }
      }
    }
  }

  /** The first `|ys|` concatenations of `Then` start with the first left choice. */
  lemma ThenHead(xs: seq<string>, ys: seq<string>, j: int)
    requires xs != [] && 0 <= j < |ys|
    ensures j < |Then(xs, ys)| && Then(xs, ys)[j] == xs[0] + ys[j]
  {
    assert Then(xs, ys) == seq(|ys|, k requires 0 <= k < |ys| => xs[0] + ys[k]) + Then(xs[1..], ys);
  }

  /** After them come the concatenations of the remaining left choices. */
  lemma ThenTail(xs: seq<string>, ys: seq<string>, k: int)
    requires xs != [] && 0 <= k < |Then(xs[1..], ys)|
    ensures |ys| + k < |Then(xs, ys)| && Then(xs, ys)[|ys| + k] == Then(xs[1..], ys)[k]
  {
    assert Then(xs, ys) == seq(|ys|, j requires 0 <= j < |ys| => xs[0] + ys[j]) + Then(xs[1..], ys);
  }

  /** The optional group `(x)?`. */
  function Opt(x: string): seq<string> {
    ["", x]
  }

  /** `\b` in front of a phrase that starts with a word character. */
  predicate BoundaryBefore(text: string, i: int)
    requires 0 <= i <= |text|
  {
    i == 0 || !IsWordChar(text[i - 1])
  }

  /** `\b` behind a phrase that ends with a word character. */
  predicate BoundaryAfter(text: string, j: int)
    requires 0 <= j <= |text|
  {
    j == |text| || !IsWordChar(text[j])
  }

  /** What the pattern demands in front of a phrase that starts at `i`. */
  predicate LeadIn(p: Pattern, text: string, i: int)
    requires 0 <= i <= |text|
  {
    if p.anchored then forall j | 0 <= j < i :: IsSpace(text[j]) else BoundaryBefore(text, i)
  }

  /** Phrase `k` of `p` matches at position `i` of `text`. */
  predicate MatchAt(p: Pattern, text: string, i: int, k: int) {
    && 0 <= k < |p.phrases|
    && OccursAt(text, p.phrases[k], i)
    && LeadIn(p, text, i)
    && (p.boundedEnd ==> BoundaryAfter(text, i + |p.phrases[k]|))
  }

  /** `pattern.search(text)` finds a match: only where one of the pattern's
      phrases stands in the text, and always when the text is one of them. */
  function Search(p: Pattern, text: string): (found: bool)
    ensures found ==> exists k | 0 <= k < |p.phrases| :: Contains(text, p.phrases[k])
    ensures (exists k | 0 <= k < |p.phrases| :: p.phrases[k] == text) ==> found
  {
    if i, k :| 0 <= i <= |text| && 0 <= k < |p.phrases| && MatchAt(p, text, i, k) then
      assert Contains(text, p.phrases[k]);
      true
    else
      assert forall k | 0 <= k < |p.phrases| && p.phrases[k] == text :: MatchAt(p, text, 0, k);
      false
  }

  // The patterns, in table order.
  const GmailRead := Pattern(true,
    Then(Then(["check ", "read ", "show ", "get ", "view "], Opt("my ")),
         ["email", "emails", "gmail", "inbox", "messages"]), true)
  const GmailUnread := Pattern(false, Then(["unread ", "new "], ["email", "emails"]), true)
  const CalendarWords := Pattern(false,
    ["calendar", "schedule", "agenda", "appointment", "appointments",
     "event", "events", "meeting", "meetings"], true)
  const CalendarWhatsOn := Pattern(false,
    Then(Then(Then(["what"], ["'s", "s", " is"]), [" on "]), Then(Opt("my "), ["calendar", "schedule"])), false)
  const CalendarAdd := Pattern(false,
    Then(Then(["add ", "create ", "schedule "], Opt("a ")), ["event", "meeting", "appointment"]), true)
  const WeatherWords := Pattern(false,
    ["weather", "forecast", "temperature", "humidity", "rain", "snow", "wind", "sunny"], true)
  const WeatherHowIs := Pattern(false, Then(["how is the weather "], Opt("in ")), false)
  const SearchVerbs := Pattern(false,
    Then(Then(["search", "find", "look up", "research", "google", "web"], [" "]), Opt("for ")), false)
  const SearchWhoIs := Pattern(false, Then(["who is", "what is", "where is"], [" "]), false)
  const DriveWords := Pattern(false,
    ["drive", "document", "spreadsheet", "doc", "sheet", "presentation", "slide"], true)
  const DriveEdit := Pattern(false,
    Then(Then(["open ", "create ", "edit ", "share "], Opt("a ")), ["doc", "document", "sheet", "spreadsheet"]), true)
  const MapsWords := Pattern(false,
    ["map", "maps", "location", "route", "directions", "navigate", "distance"], true)
  const MapsHowTo := Pattern(false, Then(Then(["how "], ["to", "do i"]), [" get to "]), false)
  const SlackWords := Pattern(false,
    ["slack", "message", "chat", "channel", "workspace", "dm", "direct message"], true)
  const SlackSend := Pattern(false,
    Then(Then(Then(["send ", "post "], Opt("a ")), ["message ", "notification "]), ["in ", "to "]), false)
  const FilesystemWords := Pattern(false,
    ["file", "files", "folder", "directory", "document", "save", "store", "download", "upload", "attach"], true)

  // Each pattern with its agent tags and filesystem flag.
  const GmailReadRule := Rule(t => Search(GmailRead, t), ["gmail"], false)
  const GmailUnreadRule := Rule(t => Search(GmailUnread, t), ["gmail"], false)
  const CalendarWordsRule := Rule(t => Search(CalendarWords, t), ["googlecalendar"], false)
  const CalendarWhatsOnRule := Rule(t => Search(CalendarWhatsOn, t), ["googlecalendar"], false)
  const CalendarAddRule := Rule(t => Search(CalendarAdd, t), ["googlecalendar"], false)
  const WeatherWordsRule := Rule(t => Search(WeatherWords, t), ["weather"], false)
  const WeatherHowIsRule := Rule(t => Search(WeatherHowIs, t), ["weather"], false)
  const SearchVerbsRule := Rule(t => Search(SearchVerbs, t), ["composio_search"], false)
  const SearchWhoIsRule := Rule(t => Search(SearchWhoIs, t), ["composio_search"], false)
  const DriveWordsRule := Rule(t => Search(DriveWords, t), ["googledrive"], false)
  const DriveEditRule := Rule(t => Search(DriveEdit, t), ["googledrive"], false)
  const MapsWordsRule := Rule(t => Search(MapsWords, t), ["google_maps"], false)
  const MapsHowToRule := Rule(t => Search(MapsHowTo, t), ["google_maps"], false)
  const SlackWordsRule := Rule(t => Search(SlackWords, t), ["slack"], false)
  const SlackSendRule := Rule(t => Search(SlackSend, t), ["slack"], false)
  const FilesystemWordsRule := Rule(t => Search(FilesystemWords, t), [], true)

  // The agent rules, grouped by the agent they pick.
  const GmailRules: seq<Rule> := [GmailReadRule, GmailUnreadRule]
  const CalendarRules: seq<Rule> := [CalendarWordsRule, CalendarWhatsOnRule, CalendarAddRule]
  const WeatherRules: seq<Rule> := [WeatherWordsRule, WeatherHowIsRule]
  const SearchRules: seq<Rule> := [SearchVerbsRule, SearchWhoIsRule]
  const DriveRules: seq<Rule> := [DriveWordsRule, DriveEditRule]
  const MapsRules: seq<Rule> := [MapsWordsRule, MapsHowToRule]
  const SlackRules: seq<Rule> := [SlackWordsRule, SlackSendRule]

  /** The fifteen rules that pick a capability agent, in source order. */
  const AgentRules: seq<Rule> :=
    GmailRules + CalendarRules + WeatherRules + SearchRules + DriveRules + MapsRules + SlackRules

  /** `COMPILED_RULES`: the agent rules, then the filesystem rule. */
  const CompiledRules: seq<Rule> := AgentRules + [FilesystemWordsRule]

  /** Every rule of `group` picks the agent `tag` and nothing else, and leaves
      the filesystem flag down; and there is such a rule. */
  ghost predicate Picks(group: seq<Rule>, tag: string) {
    group != [] && forall r | r in group :: !r.fs && r.tags == [tag]
  }

  /** The Gmail rules pick Gmail; the calendar rules pick Google Calendar. */
  lemma GmailAndCalendarGroups()
    ensures Picks(GmailRules, "gmail")
         && Picks(CalendarRules, "googlecalendar")
  {
  }

  /** The weather rules pick the weather agent; the search rules pick web search. */
  lemma WeatherAndSearchGroups()
    ensures Picks(WeatherRules, "weather")
         && Picks(SearchRules, "composio_search")
  {
  }

  /** The Drive, Maps and Slack rules pick their own agents. */
  lemma DriveMapsAndSlackGroups()
    ensures Picks(DriveRules, "googledrive")
         && Picks(MapsRules, "google_maps")
         && Picks(SlackRules, "slack")
  {
  }

  /** The shape of the table: sixteen rules, the agent rules first; only the
      last raises the filesystem flag, and it carries no tag; every agent rule
      carries exactly one tag (which one, the group lemmas above say). */
  lemma RuleTable()
    ensures |CompiledRules| == 16 && CompiledRules[..15] == AgentRules
    ensures CompiledRules[15].fs && CompiledRules[15].tags == []
    ensures forall r | r in AgentRules :: !r.fs && |r.tags| == 1
  {
    assert CompiledRules[15] == FilesystemWordsRule;
    assert CompiledRules[..15] == AgentRules;
    GmailAndCalendarGroups();
    WeatherAndSearchGroups();
    DriveMapsAndSlackGroups();
  }
}
