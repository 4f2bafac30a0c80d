/** The two regular expressions of `ProcessChatlogs` that the model runs
    itself: `Agent\s(\w+)` (`apply_agent_regex`) and `(.*?:\s)`
    (`apply_client_regex`), each written as the scan Python's `re.findall`
    performs, with the first match taken. */
module ChatRegex {
  import opened Wrappers
  import opened Text

  /** The sentinel `apply_agent_regex` returns when no agent is found. */
  const NoAgent := "No agent"

  // ---------------------------------------------------------------------
  // Agent\s(\w+)

  /** `Agent`, one whitespace character and a word character start at `p`. */
  predicate AgentAt(s: string, p: nat)
  {
    && p + 7 <= |s|
    && s[p] == 'A' && s[p + 1] == 'g' && s[p + 2] == 'e' && s[p + 3] == 'n' && s[p + 4] == 't'
    && IsSpace(s[p + 5])
    && IsWordChar(s[p + 6])
  }

  /** End of the greedy `\w+` run that starts at `i`. */
  function WordEnd(s: string, i: nat): (e: nat)
    requires i <= |s|
    ensures i <= e <= |s|
    decreases |s| - i
  {
    if i < |s| && IsWordChar(s[i]) then WordEnd(s, i + 1) else i
  }

  /** The run is non-empty when it starts on a word character, and cannot
      be extended. */
  lemma {:induction false} WordEndBounds(s: string, i: nat)
    requires i <= |s|
    ensures i < |s| && IsWordChar(s[i]) ==> i < WordEnd(s, i)
    ensures WordEnd(s, i) == |s| || !IsWordChar(s[WordEnd(s, i)])
    decreases |s| - i
  {
    if i < |s| && IsWordChar(s[i]) {
      WordEndBounds(s, i + 1);
    }
  }

  /** The run is made of word characters. */
  lemma {:induction false} WordEndWord(s: string, i: nat)
    requires i <= |s|
    ensures forall k | i <= k < WordEnd(s, i) :: IsWordChar(s[k])
    decreases |s| - i
  {
    if i < |s| && IsWordChar(s[i]) {
      WordEndWord(s, i + 1);
    }
  }

  /** Leftmost position at or after `p` where the agent pattern matches. */
  function FirstAgent(s: string, p: nat): Option<nat>
    requires p <= |s|
    decreases |s| - p
  {
    if AgentAt(s, p) then Some(p)
    else if p == |s| then None
    else FirstAgent(s, p + 1)
  }

  /** A match the search reports is a match, at or after `p`. */
  lemma {:induction false} FirstAgentFound(s: string, p: nat)
    requires p <= |s|
    ensures FirstAgent(s, p).Some? ==> p <= FirstAgent(s, p).value && AgentAt(s, FirstAgent(s, p).value)
    decreases |s| - p
  {
    if !AgentAt(s, p) && p < |s| {
      FirstAgentFound(s, p + 1);
    }
  }

  /** No match lies between `p` and the one the search reports, nor at or
      after `p` when it reports none. */
  lemma {:induction false} FirstAgentLeftmost(s: string, p: nat)
    requires p <= |s|
    ensures forall q: nat | p <= q && (FirstAgent(s, p).None? || q < FirstAgent(s, p).value) :: !AgentAt(s, q)
    decreases |s| - p
  {
    if !AgentAt(s, p) && p < |s| {
      FirstAgentLeftmost(s, p + 1);
    }
  }

  /** `apply_agent_regex`: the captured name of the first `Agent\s(\w+)`
      match, or `"No agent"` when there is none. */
  function ApplyAgentRegex(chatlog: string): string
  {
    match FirstAgent(chatlog, 0)
    case None => NoAgent
    case Some(p) =>
      FirstAgentFound(chatlog, 0);
      WordEndBounds(chatlog, p + 6);
      chatlog[p + 6..WordEnd(chatlog, p + 6)]
  }

  /** The search reports no match exactly when the pattern matches nowhere. */
  lemma FirstAgentNone(s: string)
    ensures FirstAgent(s, 0).None? <==> forall p: nat :: !AgentAt(s, p)
  {
    FirstAgentFound(s, 0);
    FirstAgentLeftmost(s, 0);
  }

  /** The sentinel is returned exactly when the search reports no match: a
      name is a `\w+` run, and the sentinel holds a space. */
  lemma AgentRegexSentinel(chatlog: string)
    ensures ApplyAgentRegex(chatlog) == NoAgent <==> FirstAgent(chatlog, 0).None?
  {
    if FirstAgent(chatlog, 0).Some? {
      var p := FirstAgent(chatlog, 0).value;
      FirstAgentFound(chatlog, 0);
      WordEndBounds(chatlog, p + 6);
      WordEndWord(chatlog, p + 6);
      var name := chatlog[p + 6..WordEnd(chatlog, p + 6)];
      assert IsWordChar(name[0]);
      if |name| > 2 {
        assert name[2] == chatlog[p + 8];
        assert IsWordChar(name[2]);
        assert !IsWordChar(NoAgent[2]);
      }
    }
  }

  /** When the pattern matches, the name is the whole word run that follows
      the leftmost match (`FirstAgentLeftmost`): non-empty, and not followed by
      a word character. */
  lemma AgentRegexName(chatlog: string)
    requires FirstAgent(chatlog, 0).Some?
    ensures var p := FirstAgent(chatlog, 0).value;
      var name := ApplyAgentRegex(chatlog);
      var e := p + 6 + |name|;
      && 0 < |name| && e <= |chatlog| && chatlog[p + 6..e] == name
      && (e == |chatlog| || !IsWordChar(chatlog[e]))
  {
    var p := FirstAgent(chatlog, 0).value;
    FirstAgentFound(chatlog, 0);
    WordEndBounds(chatlog, p + 6);
  }

  /** A name found is made of word characters only. */
  lemma AgentRegexWord(chatlog: string)
    requires FirstAgent(chatlog, 0).Some?
    ensures forall k | 0 <= k < |ApplyAgentRegex(chatlog)| :: IsWordChar(ApplyAgentRegex(chatlog)[k])
  {
    var p := FirstAgent(chatlog, 0).value;
    FirstAgentFound(chatlog, 0);
    WordEndBounds(chatlog, p + 6);
    WordEndWord(chatlog, p + 6);
    var name := chatlog[p + 6..WordEnd(chatlog, p + 6)];
    assert ApplyAgentRegex(chatlog) == name;
    forall k | 0 <= k < |name|
      ensures IsWordChar(name[k])
    {
      assert name[k] == chatlog[p + 6 + k];
    }
  }

  // ---------------------------------------------------------------------
  // (.*?:\s)

  /** A colon followed by a whitespace character sits at `q`. */
  predicate ColonSpaceAt(s: string, q: nat)
  {
    q + 1 < |s| && s[q] == ':' && IsSpace(s[q + 1])
  }

  /** The string ends in a colon and a whitespace character. */
  predicate EndsWithColonSpace(s: string)
  {
    |s| >= 2 && s[|s| - 2] == ':' && IsSpace(s[|s| - 1])
  }

  /** The lazy `.*?:\s` tried from `q`: the first `:\s` reached before the
      dot would have to cross a newline. */
  function LazyColonSpace(s: string, q: nat): Option<nat>
    requires q <= |s|
    decreases |s| - q
  {
    if ColonSpaceAt(s, q) then Some(q)
    else if q == |s| || s[q] == '\n' then None
    else LazyColonSpace(s, q + 1)
  }

  /** The lazy match stops at the first `:\s` after `q` and crosses no
      newline on the way; it fails only when every `:\s` after `q` lies
      beyond a newline. */
  lemma {:induction false} LazyColonSpaceSpec(s: string, q: nat)
    requires q <= |s|
    ensures var r := LazyColonSpace(s, q);
      && (r.Some? ==>
            && q <= r.value
            && ColonSpaceAt(s, r.value)
            && '\n' !in s[q..r.value]
            && forall k | q <= k < r.value :: !ColonSpaceAt(s, k))
      && (r.None? ==> forall k: nat | q <= k && ColonSpaceAt(s, k) :: '\n' in s[q..k])
    decreases |s| - q
  {
    if ColonSpaceAt(s, q) {
    } else if q == |s| || s[q] == '\n' {
      assert forall k: nat | q < k <= |s| :: s[q..k][0] == s[q];
    } else {
      LazyColonSpaceSpec(s, q + 1);
      assert forall k: nat | q < k <= |s| :: s[q..k] == [s[q]] + s[q + 1..k];
    }
  }

  /** `re.findall`'s search for the first match, tried from `p` onwards. */
  function ScanClient(s: string, p: nat): Option<string>
    requires p <= |s|
    decreases |s| - p
  {
    match LazyColonSpace(s, p)
    case Some(e) =>
      LazyColonSpaceSpec(s, p);
      Some(s[p..e + 2])
    case None => if p == |s| then None else ScanClient(s, p + 1)
  }

  /** The search fails exactly when no `:\s` lies at or after `p`; a match
      ends in `:` and whitespace and occurs in `s[p..]`. */
  lemma {:induction false} ScanClientSpec(s: string, p: nat)
    requires p <= |s|
    ensures ScanClient(s, p).None? <==> forall q: nat | p <= q :: !ColonSpaceAt(s, q)
    ensures ScanClient(s, p).Some? ==> EndsWithColonSpace(ScanClient(s, p).value) && Contains(s[p..], ScanClient(s, p).value)
    decreases |s| - p
  {
    LazyColonSpaceSpec(s, p);
    match LazyColonSpace(s, p)
    case Some(e) =>
    case None =>
      if p < |s| {
        ScanClientSpec(s, p + 1);
        assert s[p..][1..] == s[p + 1..];
      }
  }

  /** `apply_client_regex` (and the same expression inlined in
      `acquire_dialogue`): the first match of `(.*?:\s)`, or `None` where
      Python's `[0]` raises IndexError. A match ends in a colon. */
  function ApplyClientRegex(sentence: string): (prefix: Option<string>)
    ensures prefix.Some? ==> |prefix.value| >= 2 && prefix.value[|prefix.value| - 2] == ':'
  {
    ScanClientSpec(sentence, 0);
    ScanClient(sentence, 0)
  }

  /** The client regex fails exactly when no colon is followed by a
      whitespace character; a match ends in `:` and whitespace and occurs in
      the sentence, and on a sentence without newlines (every segment
      capture) it is the sentence up to and including its first such pair. */
  lemma ClientRegexMatch(sentence: string)
    ensures ApplyClientRegex(sentence).None? <==> forall q: nat :: !ColonSpaceAt(sentence, q)
    ensures ApplyClientRegex(sentence).Some? ==>
      && EndsWithColonSpace(ApplyClientRegex(sentence).value)
      && Contains(sentence, ApplyClientRegex(sentence).value)
    ensures ApplyClientRegex(sentence).Some? && '\n' !in sentence ==>
      && ApplyClientRegex(sentence).value <= sentence
      && forall k | 0 <= k < |ApplyClientRegex(sentence).value| - 2 :: !ColonSpaceAt(sentence, k)
  {
    ScanClientSpec(sentence, 0);
    LazyColonSpaceSpec(sentence, 0);
    assert sentence[0..] == sentence;
    if ApplyClientRegex(sentence).Some? && '\n' !in sentence {
      match LazyColonSpace(sentence, 0)
      case Some(e) =>
      case None => assert false;
    }
  }
}
