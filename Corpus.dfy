/** The `ProcessChatlogs` class: the pass over all transcripts that fills
    `chat_dict` and `agent_error_logs` (`acquire_dialogue`), the scan that
    fills `client_error_logs` (`find_chatlogs_without_client`), and the final
    filter (`return_chatlogs`). */
module Corpus {
  import opened Wrappers
  import opened Text
  import opened ChatRegex
  import opened DialogueBuilder

  /** One transcript: its raw text, and what the timestamp scan
      (`apply_timestamp_regex`) and the segment scan
      (`apply_chat_sentence_regex`) return on it. */
  datatype Chatlog = Chatlog(body: string, timestamps: seq<string>, segments: seq<Segment>)

  /** The exceptions `acquire_dialogue` lets escape. */
  datatype Error =
    | ClientPrefixMissing(chatIndex: nat, sentenceIndex: nat)  // IndexError from the client regex
    | ClientNameUnbound(chatIndex: nat)                        // UnboundLocalError on `actual_client_name`

  /** The chat index an error was raised at. */
  function ErrorIndex(e: Error): nat
  {
    match e
    case ClientPrefixMissing(i, _) => i
    case ClientNameUnbound(i) => i
  }

  /** The agent pattern matches somewhere in the transcript, so the agent
      regex returns a name rather than the sentinel (`AgentRegexSentinel`)
      and the transcript is not diverted. */
  predicate AgentFound(log: Chatlog)
  {
    FirstAgent(log.body, 0).Some?
  }

  /** The turn-building loop run on a transcript, with the client name
      carried over from earlier transcripts. */
  function TranscriptTurns(log: Chatlog, client: Option<string>): Result<Speakers, nat>
  {
    var sentences := Slots(log.segments);
    PairTurns(Start(ApplyAgentRegex(log.body), client), sentences, log.timestamps, ZipLength(sentences, log.timestamps))
  }

  /** What `acquire_dialogue` has done so far: the dict and agent log it
      writes, the client name it carries from one transcript to the next,
      and the exception, if one was raised. */
  datatype Pass = Pass(chatDict: map<nat, Dialogue>, agentErrors: seq<string>, client: Option<string>, error: Option<Error>)

  /** One iteration of the outer loop of `acquire_dialogue`, on transcript `i`. */
  function ProcessTranscript(p: Pass, i: nat, log: Chatlog): Pass
    requires p.error.None?
  {
    if !AgentFound(log) then p.(agentErrors := p.agentErrors + [log.body])
    else
      match TranscriptTurns(log, p.client)
      case Err(j) => p.(error := Some(ClientPrefixMissing(i, j)))
      case Ok(sp) =>
        if sp.client.None? then p.(error := Some(ClientNameUnbound(i)))
        else p.(chatDict := p.chatDict[i := ToDialogue(sp)], client := sp.client)
  }

  // ---------------------------------------------------------------------
  // What each transcript contributes

  /** What a transcript yields on its own: diverted to the agent log, an
      IndexError at one of its sentences, or the loop state its turn
      building ends in when no client name is carried in. */
  datatype Outcome = Diverted(body: string) | Raised(sentence: nat) | Built(speakers: Speakers)

  /** The outcome of one transcript, independent of all the others. */
  function Visit(log: Chatlog): Outcome
  {
    if !AgentFound(log) then Diverted(log.body)
    else
      match TranscriptTurns(log, None)
      case Err(j) => Raised(j)
      case Ok(sp) => Built(sp)
  }

  /** The outcomes of all transcripts, by index. */
  function Outcomes(logs: seq<Chatlog>): seq<Outcome>
  {
    seq(|logs|, k requires 0 <= k < |logs| => Visit(logs[k]))
  }

  /** Folds one outcome into the pass: the only thing an earlier transcript
      lends a later one is the client name, used when the later one has no
      client turn of its own. */
  function Advance(p: Pass, i: nat, o: Outcome): Pass
    requires p.error.None?
  {
    match o
    case Diverted(body) => p.(agentErrors := p.agentErrors + [body])
    case Raised(j) => p.(error := Some(ClientPrefixMissing(i, j)))
    case Built(sp) =>
      var client := if sp.clientTurns == [] then p.client else sp.client;
      if client.None? then p.(error := Some(ClientNameUnbound(i)))
      else p.(chatDict := p.chatDict[i := Dialogue(sp.agent, sp.agentTurns, client.value, sp.clientTurns)], client := client)
  }

  /** The pass over the first `n` outcomes, starting from the dict and agent
      log an earlier call left behind; it stops at the first exception. */
  function Run(outs: seq<Outcome>, n: nat, dict0: map<nat, Dialogue>, errs0: seq<string>): Pass
    requires n <= |outs|
    decreases n
  {
    if n == 0 then Pass(dict0, errs0, None, None)
    else
      var p := Run(outs, n - 1, dict0, errs0);
      if p.error.Some? then p else Advance(p, n - 1, outs[n - 1])
  }

  /** One call of `acquire_dialogue` over all transcripts. */
  function Acquire(logs: seq<Chatlog>, dict0: map<nat, Dialogue>, errs0: seq<string>): Pass
  {
    Run(Outcomes(logs), |logs|, dict0, errs0)
  }

  /** An iteration of the outer loop, which runs the turn-building loop with
      the carried client name, does what folding in the transcript's own
      outcome does: the carried name changes neither whether the loop
      raises nor the turns, only the client key of a transcript without a
      client turn. */
  lemma ProcessTranscriptAdvance(p: Pass, i: nat, log: Chatlog)
    requires p.error.None?
    ensures ProcessTranscript(p, i, log) == Advance(p, i, Visit(log))
  {
    if AgentFound(log) {
      var agent0 := ApplyAgentRegex(log.body);
      var sentences := Slots(log.segments);
      var n := ZipLength(sentences, log.timestamps);
      PairTurnsClientIrrelevant(agent0, p.client, None, sentences, log.timestamps, n);
      PairTurnsClientKey(agent0, p.client, sentences, log.timestamps, n);
      PairTurnsClientKey(agent0, None, sentences, log.timestamps, n);
    }
  }

  /** A transcript with an agent and no IndexError yields an agent name
      without a colon. */
  lemma VisitAgent(log: Chatlog)
    requires Visit(log).Built?
    ensures AgentFound(log)
    ensures ':' !in Visit(log).speakers.agent
  {
    var sentences := Slots(log.segments);
    AgentRegexWord(log.body);
    AgentKeyNoColon(ApplyAgentRegex(log.body), None, sentences, log.timestamps, ZipLength(sentences, log.timestamps));
  }

  /** A transcript with an agent and no IndexError yields a client name
      exactly when some sentence went to the client; that name is then the
      prefix of the last such sentence, and it holds a colon. */
  lemma VisitClient(log: Chatlog)
    requires Visit(log).Built?
    ensures var sp := Visit(log).speakers;
      && (sp.client.Some? <==> sp.clientTurns != [])
      && (sp.client.Some? ==> ':' in sp.client.value)
      && (sp.clientTurns != [] ==>
            var k := sp.clientTurns[|sp.clientTurns| - 1].index;
            k < |Slots(log.segments)| && sp.client == ApplyClientRegex(Slots(log.segments)[k]))
  {
    var agent0 := ApplyAgentRegex(log.body);
    var sentences := Slots(log.segments);
    var n := ZipLength(sentences, log.timestamps);
    PairTurnsClientKey(agent0, None, sentences, log.timestamps, n);
    ClientKeyColon(agent0, None, sentences, log.timestamps, n);
  }

  // ---------------------------------------------------------------------
  // Properties of one pass, for any outcomes

  /** A transcript that builds its turns puts each of its paired sentences
      in exactly the list that routing sends it to. */
  lemma VisitRoutedExactly(log: Chatlog)
    requires Visit(log).Built?
    ensures var sentences := Slots(log.segments);
      RoutedExactly(ApplyAgentRegex(log.body), sentences, Visit(log).speakers, ZipLength(sentences, log.timestamps))
  {
    var sentences := Slots(log.segments);
    PairTurnsRoutedExactly(ApplyAgentRegex(log.body), None, sentences, log.timestamps, ZipLength(sentences, log.timestamps));
  }

  /** Once an exception is raised, the remaining transcripts are not visited. */
  lemma {:induction false} RunStops(outs: seq<Outcome>, m: nat, n: nat, dict0: map<nat, Dialogue>, errs0: seq<string>)
    requires m <= n <= |outs|
    requires Run(outs, m, dict0, errs0).error.Some?
    ensures Run(outs, n, dict0, errs0) == Run(outs, m, dict0, errs0)
    decreases n
  {
    if n > m {
      RunStops(outs, m, n - 1, dict0, errs0);
    }
  }

  /** The same pass started from an empty dict and log, with the earlier
      dict and log put in front. */
  function Rebase(b: Pass, dict0: map<nat, Dialogue>, errs0: seq<string>): Pass
  {
    Pass(dict0 + b.chatDict, errs0 + b.agentErrors, b.client, b.error)
  }

  /** A pass from any earlier state writes the same entries and log lines as
      one from an empty state, and raises the same exception: the earlier
      dict and log only sit underneath. */
  lemma {:induction false} RunRebase(outs: seq<Outcome>, n: nat, dict0: map<nat, Dialogue>, errs0: seq<string>)
    requires n <= |outs|
    ensures Run(outs, n, dict0, errs0) == Rebase(Run(outs, n, map[], []), dict0, errs0)
    decreases n
  {
    if n > 0 {
      RunRebase(outs, n - 1, dict0, errs0);
      var b := Run(outs, n - 1, map[], []);
      if b.error.None? {
        match outs[n - 1]
        case Diverted(body) =>
          assert (errs0 + b.agentErrors) + [body] == errs0 + (b.agentErrors + [body]);
        case Raised(_) =>
        case Built(sp) =>
          var client := if sp.clientTurns == [] then b.client else sp.client;
          if client.Some? {
            var d := Dialogue(sp.agent, sp.agentTurns, client.value, sp.clientTurns);
            assert (dict0 + b.chatDict)[n - 1 := d] == dict0 + b.chatDict[n - 1 := d];
          }
      }
    }
  }

  /** Repeated calls: a second pass over the same transcripts rewrites
      identical dict entries, appends every agent-log line of the first pass
      again, and raises what the first raised. */
  lemma RunTwice(outs: seq<Outcome>, dict0: map<nat, Dialogue>, errs0: seq<string>)
    ensures var p1 := Run(outs, |outs|, dict0, errs0);
      var p2 := Run(outs, |outs|, p1.chatDict, p1.agentErrors);
      && |errs0| <= |p1.agentErrors|
      && p2.chatDict == p1.chatDict
      && p2.agentErrors == p1.agentErrors + p1.agentErrors[|errs0|..]
      && p2.error == p1.error
  {
    var b := Run(outs, |outs|, map[], []);
    RunRebase(outs, |outs|, dict0, errs0);
    var p1 := Run(outs, |outs|, dict0, errs0);
    RunRebase(outs, |outs|, p1.chatDict, p1.agentErrors);
    assert (dict0 + b.chatDict) + b.chatDict == dict0 + b.chatDict;
    assert p1.agentErrors[|errs0|..] == b.agentErrors;
  }

  /** An exception is raised by the transcript it names: the pass reached
      that transcript without an exception and stopped right after it, an
      IndexError comes from a transcript whose own outcome raised it, and an
      UnboundLocalError from one that built its turns. */
  lemma {:induction false} RunErrorIndex(outs: seq<Outcome>, n: nat, dict0: map<nat, Dialogue>, errs0: seq<string>)
    requires n <= |outs|
    ensures var b := Run(outs, n, dict0, errs0);
      b.error.Some? ==>
        var i := ErrorIndex(b.error.value);
        && i < n
        && Run(outs, i, dict0, errs0).error.None?
        && Run(outs, i + 1, dict0, errs0) == b
        && (b.error.value.ClientPrefixMissing? ==> outs[i] == Raised(b.error.value.sentenceIndex))
        && (b.error.value.ClientNameUnbound? ==> outs[i].Built?)
    decreases n
  {
    if n > 0 {
      RunErrorIndex(outs, n - 1, dict0, errs0);
    }
  }

  /** Every entry the pass writes sits under the index of a transcript it
      has visited that built its turns, and holds that transcript's agent
      name and turn lists; its client key is the transcript's own client
      name whenever it has a client turn. */
  lemma {:induction false} RunEntries(outs: seq<Outcome>, n: nat)
    requires n <= |outs|
    ensures var b := Run(outs, n, map[], []);
      forall i | i in b.chatDict ::
        && i < n
        && outs[i].Built?
        && b.chatDict[i].agentKey == outs[i].speakers.agent
        && b.chatDict[i].agentTurns == outs[i].speakers.agentTurns
        && b.chatDict[i].clientTurns == outs[i].speakers.clientTurns
        && (b.chatDict[i].clientTurns != [] ==> Some(b.chatDict[i].clientKey) == outs[i].speakers.client)
    decreases n
  {
    if n > 0 {
      RunEntries(outs, n - 1);
    }
  }

  /** When the pass completes, no transcript raised an IndexError, and every
      transcript that built its turns has an entry under its own index, with
      no renumbering. */
  lemma {:induction false} RunComplete(outs: seq<Outcome>, n: nat)
    requires n <= |outs|
    ensures var b := Run(outs, n, map[], []);
      b.error.None? ==> forall i | 0 <= i < n :: !outs[i].Raised? && (outs[i].Built? ==> i in b.chatDict)
    decreases n
  {
    if n > 0 {
      RunComplete(outs, n - 1);
      var p := Run(outs, n - 1, map[], []);
      var b := Run(outs, n, map[], []);
      if b.error.None? {
        assert p.error.None?;
        assert p.chatDict.Keys <= b.chatDict.Keys;
      }
    }
  }

  /** The bodies of the diverted transcripts, in order. */
  function AgentLog(outs: seq<Outcome>): seq<string>
    decreases |outs|
  {
    if outs == [] then []
    else
      AgentLog(outs[..|outs| - 1])
      + (if outs[|outs| - 1].Diverted? then [outs[|outs| - 1].body] else [])
  }

  /** When the pass completes, the agent log holds the body of every
      diverted transcript, in order, and nothing else. */
  lemma {:induction false} RunAgentLog(outs: seq<Outcome>, n: nat)
    requires n <= |outs|
    ensures var b := Run(outs, n, map[], []);
      b.error.None? ==> b.agentErrors == AgentLog(outs[..n])
    decreases n
  {
    if n > 0 {
      RunAgentLog(outs, n - 1);
      assert outs[..n][..n - 1] == outs[..n - 1];
    }
  }

  /** Every client name a transcript yields holds a colon. */
  predicate ColonClients(outs: seq<Outcome>)
  {
    forall k | 0 <= k < |outs| && outs[k].Built? && outs[k].speakers.clientTurns != [] ::
      outs[k].speakers.client.Some? && ':' in outs[k].speakers.client.value
  }

  /** Then so does the client name carried along, and every client key the
      pass writes. */
  lemma {:induction false} RunClientColon(outs: seq<Outcome>, n: nat)
    requires n <= |outs|
    requires ColonClients(outs)
    ensures var b := Run(outs, n, map[], []);
      && (b.client.Some? ==> ':' in b.client.value)
      && (forall i | i in b.chatDict :: ':' in b.chatDict[i].clientKey)
    decreases n
  {
    if n > 0 {
      RunClientColon(outs, n - 1);
    }
  }

  /** The client name is never reset between transcripts: an entry without
      client turns is keyed by the client name the previous transcripts
      left behind. */
  lemma RunCarriedOver(outs: seq<Outcome>, i: nat)
    requires i < |outs|
    ensures var before := Run(outs, i, map[], []);
      var after := Run(outs, i + 1, map[], []);
      before.error.None? && i in after.chatDict && after.chatDict[i].clientTurns == [] ==>
        before.client.Some? && after.chatDict[i].clientKey == before.client.value
  {
    RunEntries(outs, i);
  }

  // ---------------------------------------------------------------------
  // Properties of `acquire_dialogue` on transcripts

  /** A dict entry is the dialogue of its own transcript: the transcript
      has an agent and raises nothing, the agent key and both turn lists
      are those its turn-building loop yields, the two keys differ, and a
      client key backed by client turns is the transcript's own. */
  predicate BuiltFrom(d: Dialogue, log: Chatlog)
  {
    && Visit(log).Built?
    && d.agentKey == Visit(log).speakers.agent
    && d.agentTurns == Visit(log).speakers.agentTurns
    && d.clientTurns == Visit(log).speakers.clientTurns
    && WellFormed(d)
    && (d.clientTurns != [] ==> Some(d.clientKey) == Visit(log).speakers.client)
  }

  /** Every entry the pass writes is the dialogue of the transcript at its
      index, and in particular has exactly two distinct keys. */
  lemma AcquireDialogues(logs: seq<Chatlog>)
    ensures var b := Acquire(logs, map[], []);
      && (forall i | i in b.chatDict :: i < |logs| && BuiltFrom(b.chatDict[i], logs[i]))
      && (b.client.Some? ==> ':' in b.client.value)
  {
    var outs := Outcomes(logs);
    forall k | 0 <= k < |outs| && outs[k].Built?
      ensures ':' !in outs[k].speakers.agent
      ensures outs[k].speakers.clientTurns != [] ==> outs[k].speakers.client.Some? && ':' in outs[k].speakers.client.value
    {
      VisitAgent(logs[k]);
      VisitClient(logs[k]);
    }
    RunEntries(outs, |logs|);
    RunClientColon(outs, |logs|);
  }

  /** Routing: a transcript without an agent never gets a dict entry; when
      the pass completes, every transcript with an agent has one, under its
      own index. */
  lemma AcquireRouting(logs: seq<Chatlog>)
    ensures var b := Acquire(logs, map[], []);
      && (forall i | i in b.chatDict :: i < |logs| && AgentFound(logs[i]))
      && (b.error.None? ==> forall i | 0 <= i < |logs| :: i in b.chatDict <==> AgentFound(logs[i]))
  {
    var outs := Outcomes(logs);
    RunEntries(outs, |logs|);
    RunComplete(outs, |logs|);
    forall i | 0 <= i < |logs|
      ensures outs[i].Diverted? <==> !AgentFound(logs[i])
    {
      assert outs[i] == Visit(logs[i]);
    }
  }

  /** The bodies of the transcripts without an agent, in order. */
  function NoAgentBodies(logs: seq<Chatlog>): seq<string>
    decreases |logs|
  {
    if logs == [] then []
    else
      NoAgentBodies(logs[..|logs| - 1])
      + (if AgentFound(logs[|logs| - 1]) then [] else [logs[|logs| - 1].body])
  }

  /** The diverted outcomes are the transcripts without an agent, bodies
      unchanged. */
  lemma {:induction false} AgentLogOfOutcomes(logs: seq<Chatlog>)
    ensures AgentLog(Outcomes(logs)) == NoAgentBodies(logs)
    decreases |logs|
  {
    if logs != [] {
      var m := |logs| - 1;
      AgentLogOfOutcomes(logs[..m]);
      assert Outcomes(logs)[..m] == Outcomes(logs[..m]);
      assert Outcomes(logs)[m] == Visit(logs[m]);
    }
  }

  /** Routing: when the pass completes, the agent log holds the body of every
      transcript without an agent, verbatim and in order, and nothing else. */
  lemma AcquireAgentLog(logs: seq<Chatlog>)
    ensures var b := Acquire(logs, map[], []);
      b.error.None? ==> b.agentErrors == NoAgentBodies(logs)
  {
    var outs := Outcomes(logs);
    RunAgentLog(outs, |logs|);
    assert outs[..|logs|] == outs;
    AgentLogOfOutcomes(logs);
  }

  /** The pass raises UnboundLocalError at transcript `i` exactly when it
      gets there with no client name carried over, and the transcript has
      an agent, raises no IndexError and routes all of its sentences to the
      agent. */
  lemma ClientNameUnboundIff(logs: seq<Chatlog>, i: nat)
    requires i < |logs|
    ensures var before := Run(Outcomes(logs), i, map[], []);
      var after := Run(Outcomes(logs), i + 1, map[], []);
      after.error == Some(ClientNameUnbound(i)) <==>
        && before.error.None?
        && before.client.None?
        && Visit(logs[i]).Built?
        && Visit(logs[i]).speakers.clientTurns == []
  {
    var outs := Outcomes(logs);
    RunErrorIndex(outs, i, map[], []);
    if outs[i].Built? {
      VisitClient(logs[i]);
    }
  }

  /** Where the outer loop stops, at the end or at the first exception, the
      pass is complete. */
  lemma AcquireEnds(logs: seq<Chatlog>, i: nat, dict0: map<nat, Dialogue>, errs0: seq<string>)
    requires i <= |logs|
    requires i == |logs| || Run(Outcomes(logs), i, dict0, errs0).error.Some?
    ensures Run(Outcomes(logs), i, dict0, errs0) == Acquire(logs, dict0, errs0)
  {
    if i < |logs| {
      RunStops(Outcomes(logs), i, |logs|, dict0, errs0);
    }
  }

  /** A pass from a dict of built entries leaves a dict of built entries,
      however far it gets. */
  lemma AcquireBuilt(logs: seq<Chatlog>, dict0: map<nat, Dialogue>, errs0: seq<string>)
    requires AllBuilt(dict0, logs)
    ensures AllBuilt(Acquire(logs, dict0, errs0).chatDict, logs)
  {
    RunRebase(Outcomes(logs), |logs|, dict0, errs0);
    AcquireDialogues(logs);
  }

  /** Every entry sits under the index of a transcript and is that
      transcript's dialogue. */
  ghost predicate AllBuilt(dict: map<nat, Dialogue>, logs: seq<Chatlog>)
  {
    forall k | k in dict :: k < |logs| && BuiltFrom(dict[k], logs[k])
  }

  // ---------------------------------------------------------------------
  // Filtering

  /** Indices below `n` whose entry has no client turns, in ascending order:
      what `find_chatlogs_without_client` appends to `client_error_logs`. */
  function ClientlessIndices(dict: map<nat, Dialogue>, n: nat): seq<nat>
    decreases n
  {
    if n == 0 then []
    else
      ClientlessIndices(dict, n - 1)
      + (if n - 1 in dict && dict[n - 1].clientTurns == [] then [n - 1] else [])
  }

  /** The indices appended are exactly the entries with an empty client
      list, each once, in ascending order. */
  lemma {:induction false} ClientlessIndicesSpec(dict: map<nat, Dialogue>, n: nat)
    ensures forall x :: x in ClientlessIndices(dict, n) <==> x < n && x in dict && dict[x].clientTurns == []
    ensures forall a, b | 0 <= a < b < |ClientlessIndices(dict, n)| :: ClientlessIndices(dict, n)[a] < ClientlessIndices(dict, n)[b]
    decreases n
  {
    if n > 0 {
      ClientlessIndicesSpec(dict, n - 1);
      var c := ClientlessIndices(dict, n - 1);
      assert forall a | 0 <= a < |c| :: c[a] < n - 1 by {
        forall a | 0 <= a < |c| ensures c[a] < n - 1 {
          assert c[a] in c;
        }
      }
    }
  }

  /** A transcript survives the final filter: it has an agent, raises
      nothing, and routes at least one sentence to the client. */
  predicate Retained(log: Chatlog)
  {
    Visit(log).Built? && Visit(log).speakers.clientTurns != []
  }

  /** `return_chatlogs`' comprehension: the entries whose index is not listed,
      with their dialogues unchanged. */
  function WithoutIndices(dict: map<nat, Dialogue>, drop: seq<nat>): (r: map<nat, Dialogue>)
    ensures r.Keys == dict.Keys - set x | x in drop
    ensures forall k | k in r :: r[k] == dict[k]
  {
    map k | k in dict && k !in drop :: dict[k]
  }

  /** On a fresh object, the corpus `return_chatlogs` returns holds exactly
      the transcripts with an agent and at least one client turn, each under
      its own index with its dialogue. */
  lemma ReturnedCorpus(logs: seq<Chatlog>)
    ensures var b := Acquire(logs, map[], []);
      var r := WithoutIndices(b.chatDict, ClientlessIndices(b.chatDict, |logs|));
      b.error.None? ==>
        && (forall i | 0 <= i < |logs| :: i in r <==> Retained(logs[i]))
        && (forall i | i in r :: i < |logs| && r[i] == b.chatDict[i] && BuiltFrom(r[i], logs[i]))
  {
    var b := Acquire(logs, map[], []);
    var outs := Outcomes(logs);
    var r := WithoutIndices(b.chatDict, ClientlessIndices(b.chatDict, |logs|));
    RunEntries(outs, |logs|);
    RunComplete(outs, |logs|);
    AcquireDialogues(logs);
    ClientlessIndicesSpec(b.chatDict, |logs|);
    if b.error.None? {
      forall i | 0 <= i < |logs|
        ensures i in r <==> Retained(logs[i])
      {
        assert outs[i] == Visit(logs[i]);
        if outs[i].Built? {
          assert i in b.chatDict;
        }
      }
    }
  }

  /** Calling `return_chatlogs` twice on a fresh object returns the same
      corpus, although both error logs hold every entry twice. */
  lemma ReturnTwice(logs: seq<Chatlog>)
    ensures var p1 := Acquire(logs, map[], []);
      var c1 := ClientlessIndices(p1.chatDict, |logs|);
      var p2 := Acquire(logs, p1.chatDict, p1.agentErrors);
      var c2 := c1 + ClientlessIndices(p2.chatDict, |logs|);
      p1.error.None? ==>
        && p2.error.None?
        && p2.agentErrors == p1.agentErrors + p1.agentErrors
        && c2 == c1 + c1
        && WithoutIndices(p2.chatDict, c2) == WithoutIndices(p1.chatDict, c1)
  {
    RunTwice(Outcomes(logs), map[], []);
    var p1 := Acquire(logs, map[], []);
    var p2 := Acquire(logs, p1.chatDict, p1.agentErrors);
    var c1 := ClientlessIndices(p1.chatDict, |logs|);
    assert p2.chatDict == p1.chatDict;
    assert p1.agentErrors[0..] == p1.agentErrors;
    assert (set x | x in c1 + c1) == (set x | x in c1);
  }

  // ---------------------------------------------------------------------
  // The class

  class ProcessChatlogs {
    const chatlogs: seq<Chatlog>
    var chatDict: map<nat, Dialogue>
    var agentErrorLogs: seq<string>
    var clientErrorLogs: seq<nat>

    /** Every dict entry sits under the index of a transcript and is that
        transcript's dialogue. */
    ghost predicate Valid()
      reads this
    {
      AllBuilt(chatDict, chatlogs)
    }

    /** The dataclass with only `chatlogs` given: the dict and both logs
        start empty. */
    constructor (chatlogs: seq<Chatlog>)
      ensures Valid()
      ensures this.chatlogs == chatlogs
      ensures chatDict == map[] && agentErrorLogs == [] && clientErrorLogs == []
    {
      this.chatlogs := chatlogs;
      chatDict := map[];
      agentErrorLogs := [];
      clientErrorLogs := [];
    }

    /** `acquire_dialogue`: one pass over all transcripts, writing dict
        entries and agent-log lines until the end or the first exception;
        what was written before an exception stays. */
    method AcquireDialogue() returns (r: Result<map<nat, Dialogue>, Error>)
      requires Valid()
      modifies this
      ensures Valid()
      ensures var p := Acquire(chatlogs, old(chatDict), old(agentErrorLogs));
        && chatDict == p.chatDict
        && agentErrorLogs == p.agentErrors
        && r == if p.error.None? then Ok(chatDict) else Err(p.error.value)
      ensures clientErrorLogs == old(clientErrorLogs)
    {
      ghost var dict0, errs0 := chatDict, agentErrorLogs;
      var actualClientName: Option<string> := None;
      var raised: Option<Error> := None;
      var i := 0;
      while i < |chatlogs| && raised.None?
        invariant 0 <= i <= |chatlogs|
        invariant clientErrorLogs == old(clientErrorLogs)
        invariant Run(Outcomes(chatlogs), i, dict0, errs0) == Pass(chatDict, agentErrorLogs, actualClientName, raised)
      {
        actualClientName, raised := AcquireOne(i, actualClientName, dict0, errs0);
        i := i + 1;
      }
      AcquireEnds(chatlogs, i, dict0, errs0);
      AcquireBuilt(chatlogs, dict0, errs0);
      r := if raised.None? then Ok(chatDict) else Err(raised.value);
    }

    /** The body of the outer loop of `acquire_dialogue` on transcript `i`:
        divert it to the agent log, or build its turns and write its entry,
        or raise. It does what `ProcessTranscript` says, which extends the
        pass over the transcripts before `i` by one. */
    method AcquireOne(i: nat, actualClientName: Option<string>, ghost dict0: map<nat, Dialogue>, ghost errs0: seq<string>)
      returns (client: Option<string>, raised: Option<Error>)
      requires i < |chatlogs|
      requires Run(Outcomes(chatlogs), i, dict0, errs0) == Pass(chatDict, agentErrorLogs, actualClientName, None)
      modifies this`chatDict, this`agentErrorLogs
      ensures ProcessTranscript(Pass(old(chatDict), old(agentErrorLogs), actualClientName, None), i, chatlogs[i])
              == Pass(chatDict, agentErrorLogs, client, raised)
      ensures Run(Outcomes(chatlogs), i + 1, dict0, errs0) == Pass(chatDict, agentErrorLogs, client, raised)
    {
      var chatlog := chatlogs[i];
      ProcessTranscriptAdvance(Pass(chatDict, agentErrorLogs, actualClientName, None), i, chatlog);
      assert Outcomes(chatlogs)[i] == Visit(chatlog);
      client, raised := actualClientName, None;
      var agentName := ApplyAgentRegex(chatlog.body);
      AgentRegexSentinel(chatlog.body);
      if agentName == NoAgent {
        agentErrorLogs := agentErrorLogs + [chatlog.body];
      } else {
        var sentences := SelectSentences(chatlog.segments);
        var turns := BuildTurns(agentName, sentences, chatlog.timestamps, actualClientName);
        if turns.Err? {
          raised := Some(ClientPrefixMissing(i, turns.error));
        } else if turns.value.client.None? {
          raised := Some(ClientNameUnbound(i));
        } else {
          var sp := turns.value;
          client := sp.client;
          chatDict := chatDict[i := Dialogue(sp.agent, sp.agentTurns, sp.client.value, sp.clientTurns)];
        }
      }
    }

    /** `find_chatlogs_without_client`: runs the pass again, then appends the
        index of every entry whose client list is empty, in ascending index
        order (the dict's insertion order). */
    method FindChatlogsWithoutClient() returns (r: Result<seq<nat>, Error>)
      requires Valid()
      modifies this
      ensures Valid()
      ensures var p := Acquire(chatlogs, old(chatDict), old(agentErrorLogs));
        && chatDict == p.chatDict
        && agentErrorLogs == p.agentErrors
        && (p.error.None? ==>
              && clientErrorLogs == old(clientErrorLogs) + ClientlessIndices(chatDict, |chatlogs|)
              && r == Ok(clientErrorLogs))
        && (p.error.Some? ==> clientErrorLogs == old(clientErrorLogs) && r == Err(p.error.value))
    {
      var acquired := AcquireDialogue();
      if acquired.Err? {
        return Err(acquired.error);
      }
      CollectClientless();
      r := Ok(clientErrorLogs);
    }

    /** The loop of `find_chatlogs_without_client`: visits the indices in
        ascending order and appends each one whose entry has no client turn.
        Every key is a transcript index, so no entry is skipped. */
    method CollectClientless()
      requires forall k | k in chatDict :: k < |chatlogs|
      modifies this`clientErrorLogs
      ensures clientErrorLogs == old(clientErrorLogs) + ClientlessIndices(chatDict, |chatlogs|)
    {
      var key := 0;
      while key < |chatlogs|
        invariant 0 <= key <= |chatlogs|
        invariant clientErrorLogs == old(clientErrorLogs) + ClientlessIndices(chatDict, key)
      {
        if key in chatDict {
          var dialogue := chatDict[key];
          if |dialogue.clientTurns| == 0 {
            clientErrorLogs := clientErrorLogs + [key];
          }
        }
        key := key + 1;
      }
    }

    /** `return_chatlogs`: runs the scan above, then returns the dict without
        every index ever appended to `client_error_logs`. */
    method ReturnChatlogs() returns (r: Result<map<nat, Dialogue>, Error>)
      requires Valid()
      modifies this
      ensures Valid()
      ensures var p := Acquire(chatlogs, old(chatDict), old(agentErrorLogs));
        && chatDict == p.chatDict
        && agentErrorLogs == p.agentErrors
        && (p.error.None? ==>
              && clientErrorLogs == old(clientErrorLogs) + ClientlessIndices(chatDict, |chatlogs|)
              && r == Ok(WithoutIndices(chatDict, clientErrorLogs)))
        && (p.error.Some? ==> clientErrorLogs == old(clientErrorLogs) && r == Err(p.error.value))
    {
      var clientErrors := FindChatlogsWithoutClient();
      if clientErrors.Err? {
        return Err(clientErrors.error);
      }
      r := Ok(map k | k in chatDict && k !in clientErrors.value :: chatDict[k]);
    }
  }
}
