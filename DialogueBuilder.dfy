/** Turning one transcript's regex captures into its two-speaker dialogue:
    the slot selection and the turn-building loop of `acquire_dialogue`. */
module DialogueBuilder {
  import opened Wrappers
  import opened Text
  import opened ChatRegex

  /** The name the service side may use instead of `Agent <name>`. */
  const Alias := "Klantenservice"

  /** The client-regex match that reveals the alias. */
  const AliasPrefix := "Klantenservice: "

  /** One capture of the segment pattern: group 1 holds text between two
      timestamps, group 2 the text after the last one. */
  datatype Segment = Segment(interior: string, trailing: string)

  /** One line of dialogue: its position among the paired sentences, the
      text with the speaker's prefix removed, and its timestamp. */
  datatype Turn = Turn(index: nat, text: string, timestamp: string)

  /** The per-transcript dict `{agent_name: agent_sentences,
      actual_client_name: client_sentences}`, agent key inserted first. */
  datatype Dialogue = Dialogue(agentKey: string, agentTurns: seq<Turn>, clientKey: string, clientTurns: seq<Turn>)

  /** The variables the turn-building loop updates: `agent_name`,
      `agent_sentences`, `client_sentences` and `actual_client_name`
      (unbound until a client sentence is seen). */
  datatype Speakers = Speakers(agent: string, agentTurns: seq<Turn>, clientTurns: seq<Turn>, client: Option<string>)

  // ---------------------------------------------------------------------
  // Slot selection

  /** What one capture contributes to `sentences`: group 2 when group 1 is
      empty, then group 1 when group 2 is empty. */
  function SlotSentences(seg: Segment): (r: seq<string>)
    ensures seg.interior == "" && seg.trailing != "" ==> r == [seg.trailing]
    ensures seg.interior != "" && seg.trailing == "" ==> r == [seg.interior]
    ensures seg.interior == "" && seg.trailing == "" ==> r == ["", ""]
    ensures seg.interior != "" && seg.trailing != "" ==> r == []
  {
    (if seg.interior == "" then [seg.trailing] else []) + (if seg.trailing == "" then [seg.interior] else [])
  }

  /** The `sentences` list built from the first `m` captures, in order. */
  function SlotsPrefix(segs: seq<Segment>, m: nat): seq<string>
    requires m <= |segs|
    decreases m
  {
    if m == 0 then [] else SlotsPrefix(segs, m - 1) + SlotSentences(segs[m - 1])
  }

  /** The `sentences` list built from all captures, in order. */
  function Slots(segs: seq<Segment>): seq<string>
  {
    SlotsPrefix(segs, |segs|)
  }

  /** Exactly one of the two groups is non-empty. */
  predicate OneSlot(seg: Segment)
  {
    (seg.interior == "") != (seg.trailing == "")
  }

  /** The non-empty group of a capture with exactly one. */
  function Populated(seg: Segment): string
  {
    if seg.interior == "" then seg.trailing else seg.interior
  }

  /** Extending a sentence-per-capture list by one capture keeps it one. */
  lemma PopulatedSnoc(a: seq<string>, segs: seq<Segment>, m: nat)
    requires 0 < m <= |segs| && |a| == m - 1
    requires forall k | 0 <= k < m - 1 :: a[k] == Populated(segs[k])
    ensures forall k | 0 <= k < m :: (a + [Populated(segs[m - 1])])[k] == Populated(segs[k])
  {
  }

  /** Slot selection over the first `m` captures, when each fills exactly
      one group. */
  lemma {:induction false} SlotsPrefixPopulated(segs: seq<Segment>, m: nat)
    requires m <= |segs|
    requires forall k | 0 <= k < |segs| :: OneSlot(segs[k])
    ensures |SlotsPrefix(segs, m)| == m
    ensures forall k | 0 <= k < m :: SlotsPrefix(segs, m)[k] == Populated(segs[k])
    decreases m
  {
    if m > 0 {
      SlotsPrefixPopulated(segs, m - 1);
      assert OneSlot(segs[m - 1]);
      PopulatedSnoc(SlotsPrefix(segs, m - 1), segs, m);
    }
  }

  /** When every capture fills exactly one group, slot selection yields one
      sentence per capture: the filled group, in capture order. */
  lemma SlotsOnePopulated(segs: seq<Segment>)
    requires forall k | 0 <= k < |segs| :: OneSlot(segs[k])
    ensures |Slots(segs)| == |segs|
    ensures forall k | 0 <= k < |segs| :: Slots(segs)[k] == Populated(segs[k])
  {
    SlotsPrefixPopulated(segs, |segs|);
  }

  /** The slot-selection loop of `acquire_dialogue`. */
  method SelectSentences(segs: seq<Segment>) returns (sentences: seq<string>)
    ensures sentences == Slots(segs)
  {
    sentences := [];
    for i := 0 to |segs|
      invariant sentences == SlotsPrefix(segs, i)
    {
      var seg := segs[i];
      ghost var before := sentences;
      if seg.interior == "" {
        sentences := sentences + [seg.trailing];
      }
      if seg.trailing == "" {
        sentences := sentences + [seg.interior];
      }
      assert sentences == before + SlotSentences(seg) by {
        if seg.interior == "" && seg.trailing == "" {
          assert before + [seg.trailing] + [seg.interior] == before + ["", ""];
        }
      }
    }
  }

  // ---------------------------------------------------------------------
  // Turn building

  /** Number of pairs `zip(sentences, time_stamps)` yields. */
  function ZipLength(sentences: seq<string>, timestamps: seq<string>): (n: nat)
    ensures n <= |sentences| && n <= |timestamps|
    ensures n == |sentences| || n == |timestamps|
  {
    if |sentences| < |timestamps| then |sentences| else |timestamps|
  }

  /** Loop state at the start of a transcript. */
  function Start(agent0: string, client0: Option<string>): Speakers
  {
    Speakers(agent0, [], [], client0)
  }

  /** One iteration of the turn-building loop on pair `i`; `Err(i)` is the
      IndexError raised when the sentence has no client prefix. */
  function Step(sp: Speakers, i: nat, sentence: string, timestamp: string): (r: Result<Speakers, nat>)
    ensures r.Err? <==> ApplyClientRegex(sentence).None?
    ensures r.Err? ==> r.error == i
  {
    match ApplyClientRegex(sentence)
    case None => Err(i)
    case Some(clientName) =>
      var agent := if clientName == AliasPrefix then Alias else sp.agent;
      var tag := agent + ": ";
      if Contains(sentence, tag) then
        Ok(sp.(agent := agent, agentTurns := sp.agentTurns + [Turn(i, ReplaceAll(sentence, tag), timestamp)]))
      else
        Ok(sp.(agent := agent,
               clientTurns := sp.clientTurns + [Turn(i, ReplaceAll(sentence, clientName), timestamp)],
               client := Some(clientName)))
  }

  /** The loop state after the first `n` pairs, or the first error. */
  function PairTurns(start: Speakers, sentences: seq<string>, timestamps: seq<string>, n: nat): Result<Speakers, nat>
    requires n <= |sentences| && n <= |timestamps|
    decreases n
  {
    if n == 0 then Ok(start)
    else
      match PairTurns(start, sentences, timestamps, n - 1)
      case Err(j) => Err(j)
      case Ok(sp) => Step(sp, n - 1, sentences[n - 1], timestamps[n - 1])
  }

  /** Once a pair raised, later pairs are never reached. */
  lemma {:induction false} PairTurnsStops(start: Speakers, sentences: seq<string>, timestamps: seq<string>, m: nat, n: nat)
    requires m <= n <= |sentences| && n <= |timestamps|
    requires PairTurns(start, sentences, timestamps, m).Err?
    ensures PairTurns(start, sentences, timestamps, n) == PairTurns(start, sentences, timestamps, m)
    decreases n
  {
    if n > m {
      PairTurnsStops(start, sentences, timestamps, m, n - 1);
    }
  }

  /** The turn-building loop of `acquire_dialogue` for one transcript,
      starting from the given agent name and the client name carried over
      from earlier transcripts. */
  method BuildTurns(agentName: string, sentences: seq<string>, timestamps: seq<string>, clientName: Option<string>)
    returns (r: Result<Speakers, nat>)
    ensures r == PairTurns(Start(agentName, clientName), sentences, timestamps, ZipLength(sentences, timestamps))
  {
    var n := if |sentences| < |timestamps| then |sentences| else |timestamps|;
    var agent := agentName;
    var agentTurns: seq<Turn> := [];
    var clientTurns: seq<Turn> := [];
    var actualClient := clientName;
    for i := 0 to n
      invariant PairTurns(Start(agentName, clientName), sentences, timestamps, i)
                == Ok(Speakers(agent, agentTurns, clientTurns, actualClient))
    {
      var sentence, timestamp := sentences[i], timestamps[i];
      var prefix := ApplyClientRegex(sentence);
      if prefix.None? {
        PairTurnsStops(Start(agentName, clientName), sentences, timestamps, i + 1, n);
        return Err(i);
      }
      var client := prefix.value;
      if client == AliasPrefix {
        agent := Alias;
      }
      var tag := agent + ": ";
      if Contains(sentence, tag) {
        agentTurns := agentTurns + [Turn(i, ReplaceAll(sentence, tag), timestamp)];
      } else {
        clientTurns := clientTurns + [Turn(i, ReplaceAll(sentence, client), timestamp)];
        actualClient := Some(client);
      }
    }
    r := Ok(Speakers(agent, agentTurns, clientTurns, actualClient));
  }

  // ---------------------------------------------------------------------
  // What the loop computes

  /** `agent_name` while pair `k - 1` is routed: the starting name, switched
      to the alias by the first sentence whose client prefix is the alias. */
  function AgentBefore(agent0: string, sentences: seq<string>, k: nat): string
    requires k <= |sentences|
    decreases k
  {
    if k == 0 then agent0
    else if ApplyClientRegex(sentences[k - 1]) == Some(AliasPrefix) then Alias
    else AgentBefore(agent0, sentences, k - 1)
  }

  /** The agent tag searched for in sentence `i`. */
  function SpanTag(agent0: string, sentences: seq<string>, i: nat): string
    requires i < |sentences|
  {
    AgentBefore(agent0, sentences, i + 1) + ": "
  }

  /** Sentence `i` contains the agent tag in force for it. */
  predicate Routed(agent0: string, sentences: seq<string>, i: nat)
    requires i < |sentences|
  {
    Contains(sentences[i], SpanTag(agent0, sentences, i))
  }

  /** `t` is sentence `t.index` routed to the agent: it holds the agent tag,
      every occurrence of which is removed, and carries its own timestamp. */
  predicate AgentTurnOf(agent0: string, sentences: seq<string>, timestamps: seq<string>, t: Turn)
  {
    && t.index < |sentences| && t.index < |timestamps|
    && t.timestamp == timestamps[t.index]
    && Routed(agent0, sentences, t.index)
    && t.text == ReplaceAll(sentences[t.index], SpanTag(agent0, sentences, t.index))
  }

  /** `t` is sentence `t.index` routed to the client: it lacks the agent
      tag, and every occurrence of its client prefix is removed. */
  predicate ClientTurnOf(agent0: string, sentences: seq<string>, timestamps: seq<string>, t: Turn)
  {
    && t.index < |sentences| && t.index < |timestamps|
    && t.timestamp == timestamps[t.index]
    && !Routed(agent0, sentences, t.index)
    && ApplyClientRegex(sentences[t.index]).Some?
    && t.text == ReplaceAll(sentences[t.index], ApplyClientRegex(sentences[t.index]).value)
  }

  /** Turn indices are below `n` and strictly increase along the list. */
  predicate Ascending(ts: seq<Turn>, n: nat)
  {
    && (forall k | 0 <= k < |ts| :: ts[k].index < n)
    && (forall a, b | 0 <= a < b < |ts| :: ts[a].index < ts[b].index)
  }

  /** Appending a turn whose index is above all others keeps the order. */
  lemma AscendingSnoc(ts: seq<Turn>, t: Turn, n: nat)
    requires Ascending(ts, t.index) && t.index < n
    ensures Ascending(ts + [t], n)
  {
  }

  /** A bound on the indices holds for every larger bound. */
  lemma AscendingWiden(ts: seq<Turn>, m: nat, n: nat)
    requires Ascending(ts, m) && m <= n
    ensures Ascending(ts, n)
  {
  }

  /** One loop iteration, given the agent name then in force: the sentence
      goes to the agent list exactly when it holds the agent tag, and
      otherwise to the client list, whose prefix becomes the client name. */
  lemma StepRoutes(agent0: string, sentences: seq<string>, timestamps: seq<string>, i: nat, sp: Speakers)
    requires i < |sentences| && i < |timestamps|
    requires sp.agent == AgentBefore(agent0, sentences, i)
    requires Step(sp, i, sentences[i], timestamps[i]).Ok?
    ensures var r := Step(sp, i, sentences[i], timestamps[i]).value;
      && ApplyClientRegex(sentences[i]).Some?
      && r.agent == AgentBefore(agent0, sentences, i + 1)
      && (Routed(agent0, sentences, i) ==>
            && r.agentTurns == sp.agentTurns + [Turn(i, ReplaceAll(sentences[i], SpanTag(agent0, sentences, i)), timestamps[i])]
            && r.clientTurns == sp.clientTurns
            && r.client == sp.client)
      && (!Routed(agent0, sentences, i) ==>
            && r.agentTurns == sp.agentTurns
            && r.clientTurns == sp.clientTurns + [Turn(i, ReplaceAll(sentences[i], ApplyClientRegex(sentences[i]).value), timestamps[i])]
            && r.client == ApplyClientRegex(sentences[i]))
  {
    var c := ApplyClientRegex(sentences[i]).value;
    var agent := if c == AliasPrefix then Alias else sp.agent;
    assert agent == AgentBefore(agent0, sentences, i + 1);
  }

  /** The agent name switches to the alias exactly when an earlier sentence
      carried the alias prefix, and otherwise stays the extracted one. */
  lemma {:induction false} AgentBeforeAlias(agent0: string, sentences: seq<string>, k: nat)
    requires k <= |sentences|
    ensures AgentBefore(agent0, sentences, k)
            == if exists j | 0 <= j < k :: ApplyClientRegex(sentences[j]) == Some(AliasPrefix) then Alias else agent0
    decreases k
  {
    if k > 0 {
      AgentBeforeAlias(agent0, sentences, k - 1);
      if ApplyClientRegex(sentences[k - 1]) != Some(AliasPrefix) {
        assert forall j | 0 <= j < k :: ApplyClientRegex(sentences[j]) == Some(AliasPrefix) ==> j < k - 1;
      }
    }
  }

  /** A sentence whose client prefix is the alias always goes to the agent,
      under the alias name, so it is never counted as a client turn. */
  lemma AliasSentenceIsAgentTurn(agent0: string, sentences: seq<string>, i: nat)
    requires i < |sentences| && ApplyClientRegex(sentences[i]) == Some(AliasPrefix)
    ensures AgentBefore(agent0, sentences, i + 1) == Alias
    ensures Routed(agent0, sentences, i)
  {
    ClientRegexMatch(sentences[i]);
    assert SpanTag(agent0, sentences, i) == AliasPrefix;
  }

  /** Zip truncation: every pair processed yields exactly one turn. */
  lemma {:induction false} PairTurnsCount(agent0: string, client0: Option<string>, sentences: seq<string>, timestamps: seq<string>, n: nat)
    requires n <= |sentences| && n <= |timestamps|
    ensures PairTurns(Start(agent0, client0), sentences, timestamps, n).Ok? ==>
      var sp := PairTurns(Start(agent0, client0), sentences, timestamps, n).value;
      |sp.agentTurns| + |sp.clientTurns| == n
    decreases n
  {
    if n > 0 {
      PairTurnsCount(agent0, client0, sentences, timestamps, n - 1);
    }
  }

  /** When the loop raises, the error names the first processed sentence
      without a client prefix. */
  lemma {:induction false} PairTurnsErrorFirst(agent0: string, client0: Option<string>, sentences: seq<string>, timestamps: seq<string>, n: nat)
    requires n <= |sentences| && n <= |timestamps|
    ensures PairTurns(Start(agent0, client0), sentences, timestamps, n).Err? ==>
      var j := PairTurns(Start(agent0, client0), sentences, timestamps, n).error;
      && j < n
      && ApplyClientRegex(sentences[j]).None?
      && forall i | 0 <= i < j :: ApplyClientRegex(sentences[i]).Some?
    decreases n
  {
    if n > 0 {
      PairTurnsErrorFirst(agent0, client0, sentences, timestamps, n - 1);
      PairTurnsOk(agent0, client0, sentences, timestamps, n - 1);
    }
  }

  /** When the loop completes, every processed sentence has a client prefix. */
  lemma {:induction false} PairTurnsOk(agent0: string, client0: Option<string>, sentences: seq<string>, timestamps: seq<string>, n: nat)
    requires n <= |sentences| && n <= |timestamps|
    ensures PairTurns(Start(agent0, client0), sentences, timestamps, n).Ok? ==>
      forall i | 0 <= i < n :: ApplyClientRegex(sentences[i]).Some?
    decreases n
  {
    if n > 0 {
      PairTurnsOk(agent0, client0, sentences, timestamps, n - 1);
    }
  }

  /** The loop raises exactly when some processed sentence has no client
      prefix. */
  lemma PairTurnsError(agent0: string, client0: Option<string>, sentences: seq<string>, timestamps: seq<string>, n: nat)
    requires n <= |sentences| && n <= |timestamps|
    ensures PairTurns(Start(agent0, client0), sentences, timestamps, n).Err?
            <==> exists i | 0 <= i < n :: ApplyClientRegex(sentences[i]).None?
  {
    PairTurnsErrorFirst(agent0, client0, sentences, timestamps, n);
    PairTurnsOk(agent0, client0, sentences, timestamps, n);
  }

  /** The final agent name, the dict's first key, is the alias when any
      processed sentence carried the alias prefix, else the extracted name. */
  lemma {:induction false} PairTurnsAgent(agent0: string, client0: Option<string>, sentences: seq<string>, timestamps: seq<string>, n: nat)
    requires n <= |sentences| && n <= |timestamps|
    ensures PairTurns(Start(agent0, client0), sentences, timestamps, n).Ok? ==>
      PairTurns(Start(agent0, client0), sentences, timestamps, n).value.agent == AgentBefore(agent0, sentences, n)
    decreases n
  {
    if n > 0 {
      PairTurnsAgent(agent0, client0, sentences, timestamps, n - 1);
    }
  }

  /** `ts` is a valid agent list for the first `n` pairs. */
  predicate AgentTurns(agent0: string, sentences: seq<string>, timestamps: seq<string>, ts: seq<Turn>, n: nat)
  {
    && (forall t | t in ts :: AgentTurnOf(agent0, sentences, timestamps, t))
    && Ascending(ts, n)
  }

  /** `ts` is a valid client list for the first `n` pairs. */
  predicate ClientTurns(agent0: string, sentences: seq<string>, timestamps: seq<string>, ts: seq<Turn>, n: nat)
  {
    && (forall t | t in ts :: ClientTurnOf(agent0, sentences, timestamps, t))
    && Ascending(ts, n)
  }

  lemma AgentTurnsSnoc(agent0: string, sentences: seq<string>, timestamps: seq<string>, ts: seq<Turn>, t: Turn, n: nat)
    requires AgentTurns(agent0, sentences, timestamps, ts, t.index)
    requires AgentTurnOf(agent0, sentences, timestamps, t) && t.index < n
    ensures AgentTurns(agent0, sentences, timestamps, ts + [t], n)
  {
    AscendingSnoc(ts, t, n);
  }

  lemma ClientTurnsSnoc(agent0: string, sentences: seq<string>, timestamps: seq<string>, ts: seq<Turn>, t: Turn, n: nat)
    requires ClientTurns(agent0, sentences, timestamps, ts, t.index)
    requires ClientTurnOf(agent0, sentences, timestamps, t) && t.index < n
    ensures ClientTurns(agent0, sentences, timestamps, ts + [t], n)
  {
    AscendingSnoc(ts, t, n);
  }

  /** Routing, agent side: every agent turn is a sentence holding the agent
      tag then in force, with that tag removed, its own index and its own
      timestamp, and indices increase strictly along the list. */
  lemma {:induction false} PairTurnsAgentRouting(agent0: string, client0: Option<string>, sentences: seq<string>, timestamps: seq<string>, n: nat)
    requires n <= |sentences| && n <= |timestamps|
    ensures PairTurns(Start(agent0, client0), sentences, timestamps, n).Ok? ==>
      AgentTurns(agent0, sentences, timestamps, PairTurns(Start(agent0, client0), sentences, timestamps, n).value.agentTurns, n)
    decreases n
  {
    if n > 0 {
      PairTurnsAgentRouting(agent0, client0, sentences, timestamps, n - 1);
      PairTurnsAgent(agent0, client0, sentences, timestamps, n - 1);
      var prev := PairTurns(Start(agent0, client0), sentences, timestamps, n - 1);
      if prev.Ok? && Step(prev.value, n - 1, sentences[n - 1], timestamps[n - 1]).Ok? {
        var sp := prev.value;
        StepRoutes(agent0, sentences, timestamps, n - 1, sp);
        if Routed(agent0, sentences, n - 1) {
          var t := Turn(n - 1, ReplaceAll(sentences[n - 1], SpanTag(agent0, sentences, n - 1)), timestamps[n - 1]);
          assert AgentTurnOf(agent0, sentences, timestamps, t);
          AgentTurnsSnoc(agent0, sentences, timestamps, sp.agentTurns, t, n);
        } else {
          AscendingWiden(sp.agentTurns, n - 1, n);
        }
      }
    }
  }

  /** Routing, client side: every client turn is a sentence without the
      agent tag then in force, with its client prefix removed, its own index
      and its own timestamp, and indices increase strictly along the list. */
  lemma {:induction false} PairTurnsClientRouting(agent0: string, client0: Option<string>, sentences: seq<string>, timestamps: seq<string>, n: nat)
    requires n <= |sentences| && n <= |timestamps|
    ensures PairTurns(Start(agent0, client0), sentences, timestamps, n).Ok? ==>
      ClientTurns(agent0, sentences, timestamps, PairTurns(Start(agent0, client0), sentences, timestamps, n).value.clientTurns, n)
    decreases n
  {
    if n > 0 {
      PairTurnsClientRouting(agent0, client0, sentences, timestamps, n - 1);
      PairTurnsAgent(agent0, client0, sentences, timestamps, n - 1);
      var prev := PairTurns(Start(agent0, client0), sentences, timestamps, n - 1);
      if prev.Ok? && Step(prev.value, n - 1, sentences[n - 1], timestamps[n - 1]).Ok? {
        var sp := prev.value;
        assert PairTurns(Start(agent0, client0), sentences, timestamps, n) == Step(sp, n - 1, sentences[n - 1], timestamps[n - 1]);
        StepRoutes(agent0, sentences, timestamps, n - 1, sp);
        if Routed(agent0, sentences, n - 1) {
          AscendingWiden(sp.clientTurns, n - 1, n);
        } else {
          var c := ApplyClientRegex(sentences[n - 1]).value;
          var t := Turn(n - 1, ReplaceAll(sentences[n - 1], c), timestamps[n - 1]);
          assert ClientTurnOf(agent0, sentences, timestamps, t);
          ClientTurnsSnoc(agent0, sentences, timestamps, sp.clientTurns, t, n);
        }
      }
    }
  }

  /** Some turn of `ts` is sentence `i`. */
  predicate HasTurnAt(ts: seq<Turn>, i: nat)
  {
    exists k | 0 <= k < |ts| :: ts[k].index == i
  }

  /** Appending a turn adds exactly its sentence. */
  lemma HasTurnAtSnoc(ts: seq<Turn>, t: Turn, i: nat)
    ensures HasTurnAt(ts + [t], i) <==> HasTurnAt(ts, i) || t.index == i
  {
    if HasTurnAt(ts + [t], i) {
      var k :| 0 <= k < |ts| + 1 && (ts + [t])[k].index == i;
      if k < |ts| {
        assert ts[k].index == i;
      }
    }
    if HasTurnAt(ts, i) {
      var k :| 0 <= k < |ts| && ts[k].index == i;
      assert (ts + [t])[k].index == i;
    }
    if t.index == i {
      assert (ts + [t])[|ts|].index == i;
    }
  }

  /** Each of the first `n` sentences is in the agent list exactly when it
      holds the agent tag in force for it, and in the client list exactly
      when it does not. */
  predicate RoutedExactly(agent0: string, sentences: seq<string>, sp: Speakers, n: nat)
    requires n <= |sentences|
  {
    forall i | 0 <= i < n ::
      && (HasTurnAt(sp.agentTurns, i) <==> Routed(agent0, sentences, i))
      && (HasTurnAt(sp.clientTurns, i) <==> !Routed(agent0, sentences, i))
  }

  /** One iteration extends the exact routing by its own sentence. */
  lemma StepRoutedExactly(agent0: string, sentences: seq<string>, timestamps: seq<string>, i: nat, sp: Speakers)
    requires i < |sentences| && i < |timestamps|
    requires sp.agent == AgentBefore(agent0, sentences, i)
    requires Ascending(sp.agentTurns, i) && Ascending(sp.clientTurns, i)
    requires RoutedExactly(agent0, sentences, sp, i)
    requires Step(sp, i, sentences[i], timestamps[i]).Ok?
    ensures RoutedExactly(agent0, sentences, Step(sp, i, sentences[i], timestamps[i]).value, i + 1)
  {
    StepRoutes(agent0, sentences, timestamps, i, sp);
    var r := Step(sp, i, sentences[i], timestamps[i]).value;
    forall j | 0 <= j < i + 1
      ensures HasTurnAt(r.agentTurns, j) <==> Routed(agent0, sentences, j)
      ensures HasTurnAt(r.clientTurns, j) <==> !Routed(agent0, sentences, j)
    {
      if Routed(agent0, sentences, i) {
        HasTurnAtSnoc(sp.agentTurns, Turn(i, ReplaceAll(sentences[i], SpanTag(agent0, sentences, i)), timestamps[i]), j);
      } else {
        HasTurnAtSnoc(sp.clientTurns, Turn(i, ReplaceAll(sentences[i], ApplyClientRegex(sentences[i]).value), timestamps[i]), j);
      }
    }
  }

  /** Both turn lists name processed sentences only, in ascending order. */
  lemma PairTurnsAscending(agent0: string, client0: Option<string>, sentences: seq<string>, timestamps: seq<string>, n: nat)
    requires n <= |sentences| && n <= |timestamps|
    ensures var r := PairTurns(Start(agent0, client0), sentences, timestamps, n);
      r.Ok? ==> Ascending(r.value.agentTurns, n) && Ascending(r.value.clientTurns, n)
  {
    PairTurnsAgentRouting(agent0, client0, sentences, timestamps, n);
    PairTurnsClientRouting(agent0, client0, sentences, timestamps, n);
  }

  /** Routing is exact: each processed sentence has a turn in the agent list
      exactly when it holds the agent tag in force for it, and a turn in the
      client list exactly when it does not. */
  lemma {:induction false} PairTurnsRoutedExactly(agent0: string, client0: Option<string>, sentences: seq<string>, timestamps: seq<string>, n: nat)
    requires n <= |sentences| && n <= |timestamps|
    ensures PairTurns(Start(agent0, client0), sentences, timestamps, n).Ok? ==>
      RoutedExactly(agent0, sentences, PairTurns(Start(agent0, client0), sentences, timestamps, n).value, n)
    decreases n
  {
    if n > 0 {
      PairTurnsRoutedExactly(agent0, client0, sentences, timestamps, n - 1);
      var prev := PairTurns(Start(agent0, client0), sentences, timestamps, n - 1);
      if prev.Ok? && Step(prev.value, n - 1, sentences[n - 1], timestamps[n - 1]).Ok? {
        var sp := prev.value;
        assert PairTurns(Start(agent0, client0), sentences, timestamps, n) == Step(sp, n - 1, sentences[n - 1], timestamps[n - 1]);
        PairTurnsAgent(agent0, client0, sentences, timestamps, n - 1);
        PairTurnsAscending(agent0, client0, sentences, timestamps, n - 1);
        StepRoutedExactly(agent0, sentences, timestamps, n - 1, sp);
      }
    }
  }

  /** An agent turn's text is its sentence with every occurrence of the
      agent tag cut out, at least one of them: shorter by a positive number
      of tags. */
  lemma AgentTurnText(agent0: string, sentences: seq<string>, timestamps: seq<string>, t: Turn)
    requires AgentTurnOf(agent0, sentences, timestamps, t)
    ensures var tag := SpanTag(agent0, sentences, t.index);
      && Count(sentences[t.index], tag) > 0
      && |t.text| + |tag| * Count(sentences[t.index], tag) == |sentences[t.index]|
  {
    var tag := SpanTag(agent0, sentences, t.index);
    CountContains(sentences[t.index], tag);
    ReplaceAllCount(sentences[t.index], tag);
  }

  /** A client turn's text is its sentence with every occurrence of its
      client prefix cut out, at least one of them: shorter by a positive
      number of prefixes. */
  lemma ClientTurnText(agent0: string, sentences: seq<string>, timestamps: seq<string>, t: Turn)
    requires ClientTurnOf(agent0, sentences, timestamps, t)
    ensures var prefix := ApplyClientRegex(sentences[t.index]).value;
      && Count(sentences[t.index], prefix) > 0
      && |t.text| + |prefix| * Count(sentences[t.index], prefix) == |sentences[t.index]|
  {
    var sentence := sentences[t.index];
    var prefix := ApplyClientRegex(sentence).value;
    ClientRegexMatch(sentence);
    CountContains(sentence, prefix);
    ReplaceAllCount(sentence, prefix);
  }

  /** Last write wins, for a loop state after `n` pairs: the client name is
      the prefix of the last sentence routed to the client, or the name
      carried in when there is none. */
  predicate LastClientWins(sp: Speakers, client0: Option<string>, sentences: seq<string>, n: nat)
  {
    && (sp.clientTurns == [] ==> sp.client == client0)
    && (sp.clientTurns != [] ==>
          var last := sp.clientTurns[|sp.clientTurns| - 1];
          && last.index < n && last.index < |sentences|
          && ApplyClientRegex(sentences[last.index]).Some?
          && sp.client == ApplyClientRegex(sentences[last.index]))
  }

  /** One iteration keeps the client name the prefix of the last client turn. */
  lemma StepLastClientWins(sp: Speakers, client0: Option<string>, sentences: seq<string>, timestamps: seq<string>, i: nat)
    requires i < |sentences| && i < |timestamps|
    requires LastClientWins(sp, client0, sentences, i)
    requires Step(sp, i, sentences[i], timestamps[i]).Ok?
    ensures LastClientWins(Step(sp, i, sentences[i], timestamps[i]).value, client0, sentences, i + 1)
  {
  }

  /** Last write wins: the client key is the prefix of the last sentence
      routed to the client, or the name carried in when there is none. */
  lemma {:induction false} PairTurnsClientKey(agent0: string, client0: Option<string>, sentences: seq<string>, timestamps: seq<string>, n: nat)
    requires n <= |sentences| && n <= |timestamps|
    ensures PairTurns(Start(agent0, client0), sentences, timestamps, n).Ok? ==>
      LastClientWins(PairTurns(Start(agent0, client0), sentences, timestamps, n).value, client0, sentences, n)
    decreases n
  {
    if n > 0 {
      PairTurnsClientKey(agent0, client0, sentences, timestamps, n - 1);
      var prev := PairTurns(Start(agent0, client0), sentences, timestamps, n - 1);
      if prev.Ok? {
        var r := Step(prev.value, n - 1, sentences[n - 1], timestamps[n - 1]);
        assert PairTurns(Start(agent0, client0), sentences, timestamps, n) == r;
        if r.Ok? {
          StepLastClientWins(prev.value, client0, sentences, timestamps, n - 1);
        }
      }
    }
  }

  /** The client name carried in affects only the client name carried out:
      whether the loop raises, the agent name and both turn lists are the
      same whatever name an earlier transcript left behind. */
  lemma {:induction false} PairTurnsClientIrrelevant(agent0: string, c1: Option<string>, c2: Option<string>, sentences: seq<string>, timestamps: seq<string>, n: nat)
    requires n <= |sentences| && n <= |timestamps|
    ensures var r1 := PairTurns(Start(agent0, c1), sentences, timestamps, n);
      var r2 := PairTurns(Start(agent0, c2), sentences, timestamps, n);
      && r1.Ok? == r2.Ok?
      && (r1.Err? ==> r1.error == r2.error)
      && (r1.Ok? ==>
            && r1.value.agent == r2.value.agent
            && r1.value.agentTurns == r2.value.agentTurns
            && r1.value.clientTurns == r2.value.clientTurns
            && (r1.value.clientTurns != [] ==> r1.value.client == r2.value.client))
    decreases n
  {
    if n > 0 {
      PairTurnsClientIrrelevant(agent0, c1, c2, sentences, timestamps, n - 1);
    }
  }

  // ---------------------------------------------------------------------
  // The dialogue dict

  /** The two keys can be told apart: only the client key has a colon. */
  predicate WellFormed(d: Dialogue)
  {
    ':' !in d.agentKey && ':' in d.clientKey
  }

  /** The dict written for a transcript whose loop left a client name bound. */
  function ToDialogue(sp: Speakers): Dialogue
    requires sp.client.Some?
  {
    Dialogue(sp.agent, sp.agentTurns, sp.client.value, sp.clientTurns)
  }

  /** The agent key never holds a colon: it is the extracted word run or
      the alias. */
  lemma AgentKeyNoColon(agent0: string, client0: Option<string>, sentences: seq<string>, timestamps: seq<string>, n: nat)
    requires n <= |sentences| && n <= |timestamps|
    requires forall k | 0 <= k < |agent0| :: IsWordChar(agent0[k])
    requires PairTurns(Start(agent0, client0), sentences, timestamps, n).Ok?
    ensures ':' !in PairTurns(Start(agent0, client0), sentences, timestamps, n).value.agent
  {
    PairTurnsAgent(agent0, client0, sentences, timestamps, n);
    AgentBeforeAlias(agent0, sentences, n);
    assert !IsWordChar(':');
    assert ':' !in Alias;
  }

  /** The client key always holds a colon: it is a client prefix ending in
      `: `, or the carried-in name, which has one too. */
  lemma ClientKeyColon(agent0: string, client0: Option<string>, sentences: seq<string>, timestamps: seq<string>, n: nat)
    requires n <= |sentences| && n <= |timestamps|
    requires client0.Some? ==> ':' in client0.value
    requires PairTurns(Start(agent0, client0), sentences, timestamps, n).Ok?
    ensures var sp := PairTurns(Start(agent0, client0), sentences, timestamps, n).value;
      sp.client.Some? ==> ':' in sp.client.value
  {
    var sp := PairTurns(Start(agent0, client0), sentences, timestamps, n).value;
    PairTurnsClientKey(agent0, client0, sentences, timestamps, n);
    if sp.clientTurns != [] {
      var c := ApplyClientRegex(sentences[sp.clientTurns[|sp.clientTurns| - 1].index]).value;
      assert c[|c| - 2] == ':';
    }
  }

  /** A dialogue built from an extracted agent name has two keys a reader
      can tell apart: only the client key has a colon. */
  lemma BuiltDialogueWellFormed(agent0: string, client0: Option<string>, sentences: seq<string>, timestamps: seq<string>, n: nat)
    requires n <= |sentences| && n <= |timestamps|
    requires forall k | 0 <= k < |agent0| :: IsWordChar(agent0[k])
    requires client0.Some? ==> ':' in client0.value
    requires PairTurns(Start(agent0, client0), sentences, timestamps, n).Ok?
    ensures var sp := PairTurns(Start(agent0, client0), sentences, timestamps, n).value;
      sp.client.Some? ==> WellFormed(ToDialogue(sp))
  {
    AgentKeyNoColon(agent0, client0, sentences, timestamps, n);
    ClientKeyColon(agent0, client0, sentences, timestamps, n);
  }
}
