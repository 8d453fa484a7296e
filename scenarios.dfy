/** Worked requests: the rule table on two concrete sentences, the word count
    behind the fast path, and concrete runs of team building and streaming. */
module Scenarios {
  import opened Text
  import opened Rules
  import opened Patterns
  import opened HybridSelector
  import Ubik

  /** Lower-casing works character by character, so it distributes over `+`. */
  lemma LowerAppend(a: string, b: string)
    ensures Lower(a + b) == Lower(a) + Lower(b)
  {
    assert forall i | 0 <= i < |a + b| :: Lower(a + b)[i] == (Lower(a) + Lower(b))[i];
  }

  /** An occurrence stays one when text is added in front or behind. */
  lemma OccursShift(a: string, b: string, sub: string, i: int)
    requires OccursAt(b, sub, i)
    ensures OccursAt(a + b, sub, |a| + i)
    ensures OccursAt(b + a, sub, i)
  {
    assert (a + b)[|a| + i..|a| + i + |sub|] == b[i..i + |sub|];
    assert (b + a)[i..i + |sub|] == b[i..i + |sub|];
  }

  /** "check my emails" is the seventh phrase of the first Gmail pattern. */
  lemma GmailPhrase()
    ensures GmailRead.phrases[6] == "check my emails"
  {
    var verbs := ["check ", "read ", "show ", "get ", "view "];
    var nouns := ["email", "emails", "gmail", "inbox", "messages"];
    var inner := Then(verbs, Opt("my "));
    ThenHead(verbs, Opt("my "), 1);
    assert inner[1] == "check my ";
    ThenHead(inner[1..], nouns, 1);
    ThenTail(inner, nouns, 1);
    assert Then(inner, nouns)[6] == "check my " + "emails";
  }

  /** "check my emails" selects the Gmail agent. */
  lemma CheckMyEmailsSelectsGmail()
    ensures "gmail" in Route(CompiledRules, "check my emails").tags
  {
    var text := "check my emails";
    assert Lower(text) == text by {
      assert forall i | 0 <= i < |text| :: Lower(text)[i] == text[i];
    }
    GmailPhrase();
    assert MatchAt(GmailRead, text, 0, 6);
    assert CompiledRules[0].matcher(text);
    assert Selects(CompiledRules, text, "gmail");
    RouteTagsExact(CompiledRules, text, "gmail");
  }

  /** "my emails" has two words. */
  lemma MyEmailsWords()
    ensures WordCount("my emails") == 2
  {
    WordCountOfWord("my");
    WordCountOfWord("emails");
    WordCountJoin("my", ' ', "emails");
    assert "my" + [' '] + "emails" == "my emails";
  }

  /** "check my emails" has three words. */
  lemma CheckMyEmailsWords()
    ensures WordCount("check my emails") == 3
  {
    WordCountOfWord("check");
    MyEmailsWords();
    WordCountJoin("check", ' ', "my emails");
    assert "check" + [' '] + "my emails" == "check my emails";
  }

  /** "check my emails" is answered by the rules alone: the selector model is
      not awaited and the cache is not touched. */
  lemma CheckMyEmailsTakesFastPath()
    ensures TakesFastPath(CompiledRules, "check my emails")
  {
    CheckMyEmailsSelectsGmail();
    CheckMyEmailsWords();
  }

  // The sentence "search for the best italian restaurant and save the results",
  // in three pieces.
  const Piece1 := "search for the best "
  const Piece2 := "italian restaurant "
  const Piece3 := "and save the results"

  lemma Piece1Facts()
    ensures Lower(Piece1) == Piece1 && OccursAt(Piece1, "search", 0)
  {
    assert forall i | 0 <= i < |Piece1| :: Lower(Piece1)[i] == Piece1[i];
  }

  lemma Piece2Facts()
    ensures Lower(Piece2) == Piece2
  {
    assert forall i | 0 <= i < |Piece2| :: Lower(Piece2)[i] == Piece2[i];
  }

  lemma Piece3Facts()
    ensures Lower(Piece3) == Piece3 && OccursAt(Piece3, "save", 4)
  {
    assert forall i | 0 <= i < |Piece3| :: Lower(Piece3)[i] == Piece3[i];
  }

  /** The sentence is already lower-case and mentions both "search" and "save". */
  lemma SearchAndSaveSentence()
    ensures SearchAndSave(Lower(Piece1 + Piece2 + Piece3))
  {
    var text := Piece1 + Piece2 + Piece3;
    Piece1Facts();
    Piece2Facts();
    Piece3Facts();
    LowerAppend(Piece1, Piece2);
    LowerAppend(Piece1 + Piece2, Piece3);
    OccursShift(Piece2 + Piece3, Piece1, "search", 0);
    assert Piece1 + (Piece2 + Piece3) == text;
    OccursShift(Piece1 + Piece2, Piece3, "save", 4);
  }

  /** A request to search and save gets the web search agent and the
      filesystem agent, whatever else the rules pick. */
  lemma SearchAndSaveOverride()
    ensures SearchTag in Route(CompiledRules, Piece1 + Piece2 + Piece3).tags
    ensures Route(CompiledRules, Piece1 + Piece2 + Piece3).needsFs
  {
    SearchAndSaveSentence();
  }

  /** Streaming [content "a", a tool call, content "b"] prints "ab". */
  lemma StreamExample()
    ensures Ubik.ContentOf([Ubik.TeamRunResponseContent("a"), Ubik.TeamToolCallStarted("x"),
                            Ubik.TeamRunResponseContent("b")]) == "ab"
  {
    var e1 := Ubik.TeamRunResponseContent("a");
    var e2 := Ubik.TeamToolCallStarted("x");
    var e3 := Ubik.TeamRunResponseContent("b");
    assert [e1, e2, e3][..2] == [e1, e2];
    assert [e1, e2][..1] == [e1];
    assert [e1][..0] == [];
    assert Ubik.ContentOf([e1]) == "a";
    assert Ubik.ContentOf([e1, e2]) == "a";
  }

  /** Of Gmail, Slack and weather, Slack's tools cannot be fetched: the team is
      the Gmail and weather agents, in that order. */
  lemma OneOfThreeFails()
    ensures Ubik.Built(["gmail", "slack", "weather"], t => t != "slack")
         == [Ubik.HandlerFor("gmail"), Ubik.HandlerFor("weather")]
  {
    var builds := (t: string) => t != "slack";
    Ubik.BuiltSplit(["gmail", "slack"], ["weather"], builds);
    Ubik.BuiltSplit(["gmail"], ["slack"], builds);
    assert ["gmail"] + ["slack"] == ["gmail", "slack"];
    assert ["gmail", "slack"] + ["weather"] == ["gmail", "slack", "weather"];
    assert ["gmail"][..0] == [] && ["slack"][..0] == [] && ["weather"][..0] == [];
    assert "gmail" != "slack" && "weather" != "slack" by {
      assert "gmail"[0] != "slack"[0];
      assert "weather"[0] != "slack"[0];
    }
    Ubik.ToolTags("gmail");
    Ubik.ToolTags("slack");
    Ubik.ToolTags("weather");
  }
}
