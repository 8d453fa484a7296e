/** The rule pass of the hybrid selector (`rule_based_selector`): every rule of
    a fixed list is tried against the lower-cased request, the tags of all
    matching rules are unioned, their filesystem flags are or-ed, and two
    contextual overrides are applied afterwards. The matchers are abstract
    here; the concrete table lives in module Patterns. */
module Rules {
  import opened Text

  /** One entry of the rule table: a matcher over the lower-cased request, the
      agent tags it contributes and whether it asks for the filesystem agent. */
  datatype Rule = Rule(matcher: string -> bool, tags: seq<string>, fs: bool)

  /** What the rule pass decides: a set of agent tags and the filesystem flag. */
  datatype Routed = Routed(tags: set<string>, needsFs: bool)

  const SearchTag := "composio_search"
  const WeatherTag := "weather"
  const MapsTag := "google_maps"

  /** Tags contributed by the rules of `rules` that accept `text`. */
  function MatchedTags(rules: seq<Rule>, text: string): set<string>
  {
    if rules == [] then {}
    else
      var last := rules[|rules| - 1];
      MatchedTags(rules[..|rules| - 1], text) + (if last.matcher(text) then set t | t in last.tags else {})
  }

  /** Some rule of `rules` that accepts `text` raises the filesystem flag. */
  predicate MatchedFs(rules: seq<Rule>, text: string)
  {
    && rules != []
    && (|| MatchedFs(rules[..|rules| - 1], text)
        || (rules[|rules| - 1].matcher(text) && rules[|rules| - 1].fs))
  }

  /** Some rule accepting `text` carries tag `t`. */
  predicate Selects(rules: seq<Rule>, text: string, t: string) {
    exists i | 0 <= i < |rules| :: rules[i].matcher(text) && t in rules[i].tags
  }

  /** Some rule accepting `text` has its filesystem flag set. */
  predicate SelectsFs(rules: seq<Rule>, text: string) {
    exists i | 0 <= i < |rules| :: rules[i].matcher(text) && rules[i].fs
  }

  /** First override: the request mentions both "search" and "save". */
  predicate SearchAndSave(lower: string) {
    Contains(lower, "search") && Contains(lower, "save")
  }

  /** Second override's trigger words: "map" or "directions". */
  predicate MentionsMap(lower: string) {
    Contains(lower, "map") || Contains(lower, "directions")
  }

  /** The rule pass: union of all matching rules, then the two overrides. */
  function Route(rules: seq<Rule>, text: string): (r: Routed)
    ensures MatchedTags(rules, Lower(text)) <= r.tags
    ensures MatchedFs(rules, Lower(text)) ==> r.needsFs
    ensures SearchAndSave(Lower(text)) ==> SearchTag in r.tags && r.needsFs
    ensures WeatherTag in r.tags && MentionsMap(Lower(text)) ==> MapsTag in r.tags
  {
    var lower := Lower(text);
    var tags := MatchedTags(rules, lower) + (if SearchAndSave(lower) then {SearchTag} else {});
    var tags' := if WeatherTag in tags && MentionsMap(lower) then tags + {MapsTag} else tags;
    Routed(tags', MatchedFs(rules, lower) || SearchAndSave(lower))
  }

  /** No rule stops the pass: a tag is collected iff SOME accepting rule has it. */
  lemma {:induction false} MatchedTagsExact(rules: seq<Rule>, text: string, t: string)
    ensures t in MatchedTags(rules, text) <==> Selects(rules, text, t)
  {
    if rules != [] {
      var init := rules[..|rules| - 1];
      MatchedTagsExact(init, text, t);
      if Selects(init, text, t) {
        var i :| 0 <= i < |init| && init[i].matcher(text) && t in init[i].tags;
        assert rules[i] == init[i];
      }
    }
  }

  /** The filesystem flag of the pass is the "or" of every accepting rule's flag. */
  lemma {:induction false} MatchedFsExact(rules: seq<Rule>, text: string)
    ensures MatchedFs(rules, text) <==> SelectsFs(rules, text)
  {
    if rules != [] {
      var init := rules[..|rules| - 1];
      MatchedFsExact(init, text);
      if SelectsFs(init, text) {
        var i :| 0 <= i < |init| && init[i].matcher(text) && init[i].fs;
        assert rules[i] == init[i];
      }
    }
  }

  /** The order of the rules does not matter: a split table gives the union. */
  lemma {:induction false} MatchedTagsSplit(a: seq<Rule>, b: seq<Rule>, text: string)
    ensures MatchedTags(a + b, text) == MatchedTags(a, text) + MatchedTags(b, text)
    decreases |b|
  {
    if b == [] {
      assert a + b == a;
    } else {
      var b' := b[..|b| - 1];
      assert (a + b)[..|a + b| - 1] == a + b';
      assert (a + b)[|a + b| - 1] == b[|b| - 1];
      MatchedTagsSplit(a, b', text);
    }
  }

  /** The tag set of the pass, exactly: matching rules plus the two overrides.
      The maps override needs "weather" from a rule; without it it never fires. */
  lemma RouteTagsExact(rules: seq<Rule>, text: string, t: string)
    ensures t in Route(rules, text).tags <==>
      || Selects(rules, Lower(text), t)
      || (t == SearchTag && SearchAndSave(Lower(text)))
      || (t == MapsTag && Selects(rules, Lower(text), WeatherTag) && MentionsMap(Lower(text)))
  {
    MatchedTagsExact(rules, Lower(text), t);
    MatchedTagsExact(rules, Lower(text), WeatherTag);
  }

  /** The filesystem flag of the pass, exactly. */
  lemma RouteFsExact(rules: seq<Rule>, text: string)
    ensures Route(rules, text).needsFs <==> SelectsFs(rules, Lower(text)) || SearchAndSave(Lower(text))
  {
    MatchedFsExact(rules, Lower(text));
  }

  /** The pass sees only the lower-cased request. */
  lemma RouteIgnoresCase(rules: seq<Rule>, text: string)
    ensures Route(rules, Lower(text)) == Route(rules, text)
  {
    LowerIdempotent(text);
  }

  /** `s` lists its elements once each. */
  predicate NoDuplicates(s: seq<string>) {
    forall i, j :: 0 <= i < j < |s| ==> s[i] != s[j]
  }

  /** `list(agents)`: the elements of a set, each once, in unspecified order. */
  method ListOf(s: set<string>) returns (xs: seq<string>)
    ensures NoDuplicates(xs)
    ensures forall x :: x in xs <==> x in s
  {
    xs := [];
    var rest := s;
    while rest != {}
      invariant rest <= s
      invariant NoDuplicates(xs)
      invariant forall x :: x in xs <==> x in s - rest
      decreases rest
    {
      var x :| x in rest;
      assert x !in xs;
      xs := xs + [x];
      rest := rest - {x};
    }
  }

  /** `rule_based_selector`: the loop over the rule table with a mutable tag set
      and flag, then the overrides, then the set turned into a list. */
  method RuleBasedSelector(rules: seq<Rule>, request: string) returns (agents: seq<string>, needsFs: bool)
    ensures NoDuplicates(agents)
    ensures forall t :: t in agents <==> t in Route(rules, request).tags
    ensures needsFs == Route(rules, request).needsFs
  {
    var lower := Lower(request);
    var found: set<string> := {};
    needsFs := false;
    for k := 0 to |rules|
      invariant found == MatchedTags(rules[..k], lower)
      invariant needsFs == MatchedFs(rules[..k], lower)
    {
      assert rules[..k + 1][..k] == rules[..k];
      var rule := rules[k];
      if rule.matcher(lower) {
        for j := 0 to |rule.tags|
          invariant found == MatchedTags(rules[..k], lower) + set t | t in rule.tags[..j]
        {
          assert rule.tags[..j + 1] == rule.tags[..j] + [rule.tags[j]];
          found := found + {rule.tags[j]};
        }
        assert rule.tags[..|rule.tags|] == rule.tags;
        if rule.fs {
          needsFs := true;
        }
      }
    }
    assert rules[..|rules|] == rules;
    // Contextual overrides.
    if Contains(lower, "search") && Contains(lower, "save") {
      found := found + {SearchTag};
      needsFs := true;
    }
    if WeatherTag in found && (Contains(lower, "map") || Contains(lower, "directions")) {
      found := found + {MapsTag};
    }
    agents := ListOf(found);
  }
}
