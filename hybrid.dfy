/** The hybrid selector of `smart_agent_selector.py`: the rule pass first, the
    selector model only for long or unmatched requests, and a cache of model-path
    results keyed by the exact request text. The model is an oracle whose answer
    for one call is a parameter (`ModelReply`); the `askedModel` results report
    whether the call awaited it. */
module HybridSelector {
  import opened Text
  import opened Rules

  /** A selection as the selector returns it: `{"agents": [...], "needs_filesystem": ...}`. */
  datatype Selection = Selection(agents: seq<string>, needsFs: bool)

  /** What awaiting the selector model within its one-second limit gives: the
      limit expires, the reply is not valid JSON, the reply parses to a
      selection, or some other exception is raised (it propagates to the caller). */
  datatype ModelReply = Timeout | NotJson | Parsed(sel: Selection) | Raised

  /** A selector call returns a selection or lets an exception through. */
  datatype Outcome = Returned(sel: Selection) | Propagated

  /** Requests of at most this many words take the rule result directly. */
  const FastPathMaxWords := 7

  /** `sel` lists the tags of the rule pass, each once, with its filesystem flag. */
  ghost predicate ListsRoute(sel: Selection, rules: seq<Rule>, text: string) {
    var routed := Route(rules, text);
    && NoDuplicates(sel.agents)
    && (forall t :: t in sel.agents <==> t in routed.tags)
    && sel.needsFs == routed.needsFs
  }

  /** The model path's fallback: the rule pass, or `["composio_search"]` when
      the rules found nothing; the filesystem flag is the rules' flag. */
  ghost predicate IsFallback(sel: Selection, rules: seq<Rule>, text: string) {
    if Route(rules, text).tags == {} then sel == Selection([SearchTag], Route(rules, text).needsFs)
    else ListsRoute(sel, rules, text)
  }

  /** The fast path applies: the rules found something and the request has at
      most seven words. */
  predicate TakesFastPath(rules: seq<Rule>, text: string) {
    Route(rules, text).tags != {} && WordCount(text) <= FastPathMaxWords
  }

  /** The effect of `llm_based_selector` on the cache `before`, giving `after`,
      result `r` and whether the model was awaited. */
  ghost predicate ModelPath(before: map<string, Selection>, after: map<string, Selection>, rules: seq<Rule>,
                      request: string, reply: ModelReply, r: Outcome, askedModel: bool)
  {
    if request in before then
      r == Returned(before[request]) && !askedModel && after == before
    else
      && askedModel
      && match reply
         case Raised => r == Propagated && after == before
         case Parsed(sel) => r == Returned(sel) && after == before[request := sel]
         case _ => r.Returned? && IsFallback(r.sel, rules, request) && after == before[request := r.sel]
  }

  /** The fallback never leaves the caller without an agent: it offers the
      rules' tags, and exactly `["composio_search"]` when there are none. */
  lemma FallbackNeverEmpty(sel: Selection, rules: seq<Rule>, text: string)
    requires IsFallback(sel, rules, text)
    ensures |sel.agents| > 0
    ensures Route(rules, text).tags == {} ==> sel.agents == [SearchTag]
    ensures Route(rules, text).tags != {} ==> forall t :: t in sel.agents <==> t in Route(rules, text).tags
    ensures sel.needsFs == Route(rules, text).needsFs
  {
    if Route(rules, text).tags != {} {
      var t :| t in Route(rules, text).tags;
      assert t in sel.agents;
    }
  }

  /** Whatever the model path returns is in the cache afterwards, under the
      request's own text, and no other entry changes. */
  lemma ModelPathCaches(before: map<string, Selection>, after: map<string, Selection>, rules: seq<Rule>,
                        request: string, reply: ModelReply, r: Outcome, askedModel: bool)
    requires ModelPath(before, after, rules, request, reply, r, askedModel)
    ensures r.Returned? ==> request in after && after[request] == r.sel
    ensures r.Propagated? ==> after == before
    ensures forall key :: key != request ==> (key in after <==> key in before)
    ensures forall key :: key != request && key in before ==> after[key] == before[key]
  {
  }

  /** A second model-path call with the same text returns the first call's
      selection, without awaiting the model and without touching the cache. */
  lemma {:induction false} RepeatHitsCache(c0: map<string, Selection>, c1: map<string, Selection>,
                                           c2: map<string, Selection>, rules: seq<Rule>, request: string,
                                           reply1: ModelReply, reply2: ModelReply,
                                           r1: Outcome, r2: Outcome, asked1: bool, asked2: bool)
    requires ModelPath(c0, c1, rules, request, reply1, r1, asked1)
    requires ModelPath(c1, c2, rules, request, reply2, r2, asked2)
    requires r1.Returned?
    ensures r2 == r1 && !asked2 && c2 == c1
  {
    ModelPathCaches(c0, c1, rules, request, reply1, r1, asked1);
  }

  /** Keys are the exact text: requests that differ only in case are cached apart. */
  lemma CacheKeysAreCaseSensitive(before: map<string, Selection>, after: map<string, Selection>,
                                  rules: seq<Rule>, reply: ModelReply, r: Outcome, askedModel: bool)
    requires "check my emails" !in before
    requires ModelPath(before, after, rules, "Check my emails", reply, r, askedModel)
    ensures "check my emails" !in after
  {
    assert "Check my emails" != "check my emails" by {
      assert "Check my emails"[0] != "check my emails"[0];
    }
  }

  /** The cache of `_selector_cache`, owned by one selector, with the rule table
      it falls back on. */
  class SelectorCache {
    var entries: map<string, Selection>
    const rules: seq<Rule>

    constructor (rules: seq<Rule>)
      ensures entries == map[] && this.rules == rules
    {
      entries := map[];
      this.rules := rules;
    }

    /** `llm_based_selector`: a cache hit returns the stored selection; a miss
        awaits the model, falls back to the rules on a timeout or a reply that
        is not JSON, and stores the result; any other exception propagates and
        stores nothing. */
    method LlmBasedSelector(request: string, reply: ModelReply) returns (r: Outcome, askedModel: bool)
      modifies this
      ensures ModelPath(old(entries), entries, rules, request, reply, r, askedModel)
    {
      if request in entries {
        return Returned(entries[request]), false;
      }
      askedModel := true;
      match reply {
        case Raised =>
          return Propagated, askedModel;
        case Parsed(sel) =>
          r := Returned(sel);
        case _ =>
          var agents, needsFs := RuleBasedSelector(rules, request);
          r := Returned(Selection(if agents == [] then [SearchTag] else agents, needsFs));
          if agents == [] {
            assert Route(rules, request).tags == {};
          } else {
            assert agents[0] in Route(rules, request).tags;
          }
      }
      entries := entries[request := r.sel];
    }

    /** `smart_agent_selector`: the rule result when it is non-empty and the
        request has at most seven words, the model path otherwise. */
    method SmartAgentSelector(request: string, reply: ModelReply) returns (r: Outcome, askedModel: bool)
      modifies this
      ensures TakesFastPath(rules, request) ==>
        r.Returned? && ListsRoute(r.sel, rules, request) && !askedModel && entries == old(entries)
      ensures !TakesFastPath(rules, request) ==>
        ModelPath(old(entries), entries, rules, request, reply, r, askedModel)
    {
      var agents, needsFs := RuleBasedSelector(rules, request);
      if agents != [] && WordCount(request) <= FastPathMaxWords {
        assert agents[0] in Route(rules, request).tags;
        return Returned(Selection(agents, needsFs)), false;
      }
      if agents == [] {
        assert Route(rules, request).tags == {};
      }
      r, askedModel := LlmBasedSelector(request, reply);
    }
  }

  /** Two identical requests through the model path: the second is a cache hit. */
  method RepeatedRequest(cache: SelectorCache, request: string, first: ModelReply, second: ModelReply)
    returns (r1: Outcome, r2: Outcome, asked2: bool)
    requires first != Raised
    modifies cache
    ensures r1.Returned? && r2 == r1 && !asked2
    ensures request in cache.entries && cache.entries[request] == r1.sel
  {
    var asked1;
    r1, asked1 := cache.LlmBasedSelector(request, first);
    ghost var between := cache.entries;
    r2, asked2 := cache.LlmBasedSelector(request, second);
  }
}
