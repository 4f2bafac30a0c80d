# Chatlog preprocessing, modelled in Dafny

`ProcessChatlogs` turns customer-service chat transcripts into two-speaker
dialogues. For each transcript it:

- finds the service agent with the regex `Agent\s(\w+)`;
- sends transcripts without an agent to `agent_error_logs`;
- adds the non-empty group of each capture of the segment regex to the
  sentences (two empty strings when both groups are empty, nothing when
  neither is);
- pairs each sentence with a timestamp (`zip`, so the shorter list wins);
- finds the speaker prefix of each sentence with `(.*?:\s)`.

Each sentence then goes to one of two speakers. It is an agent turn when it
contains `"<agent>: "`, where the agent name switches to `Klantenservice`
once a sentence has the prefix `Klantenservice: `. Otherwise it is a client
turn, and its prefix becomes the client name. Within one call of
`acquire_dialogue` the client name is not reset between transcripts; each
call starts with no client name.

The dialogue is stored in `chat_dict` under the transcript's own index.
`find_chatlogs_without_client` re-runs that pass and lists the entries with
no client turn in `client_error_logs`. `return_chatlogs` returns the dict
without the listed entries.

Files:

- `Wrappers.dfy` holds `Option` and `Result`.
- `Text.dfy` holds Python's `\s`, `\w`, substring `in`, `str.replace` and
  `str.count`.
- `ChatRegex.dfy` holds the agent and client regexes. Each one is written
  as the leftmost-first, greedy or lazy scan that `re.findall` performs.
- `DialogueBuilder.dfy` holds slot selection and the turn-building loop.
  Each is written as a method, beside the function that specifies it.
- `Corpus.dfy` holds the pass over all transcripts and the filter, as
  functions. It also holds the class `ProcessChatlogs`, whose methods update
  `chatDict`, `agentErrorLogs` and `clientErrorLogs` in place.

The two exceptions `acquire_dialogue` lets escape are modelled as an `Error`
value:

- `ClientPrefixMissing` is the `IndexError` raised when a sentence has no
  `:` followed by whitespace.
- `ClientNameUnbound` is the `UnboundLocalError` raised when a transcript
  routes every sentence to the agent and no earlier transcript in the same
  call set a client name.

As in Python, writes made before an exception remain in the object.

The pass is specified in two layers:

- `ProcessTranscript` is one outer-loop iteration, exactly as written.
- `Visit` is what a transcript yields on its own. `Advance` folds that
  result into the pass.

`ProcessTranscriptAdvance` proves the two agree: the carried client name
changes only the client key of a transcript that has no client turn.

## Model

| member | source | states |
|---|---|---|
| Text.IsSpace | preprocess_chatlogs.py:26-27 | computes `\s`: exactly the characters for which `str.isspace()` holds |
| Text.IsWordChar | preprocess_chatlogs.py:26 | computes `\w` on code points up to U+00FF: ASCII letters, digits, `_`, and the Latin-1 letters and digits |
| ChatRegex.AgentAt | preprocess_chatlogs.py:26 | `Agent`, one whitespace and a word character start at the given position: where `Agent\s(\w+)` can match |
| ChatRegex.WordEnd | preprocess_chatlogs.py:26 | computes where the greedy `\w+` run ends, within the string; characterised by `WordEndBounds` and `WordEndWord` |
| ChatRegex.FirstAgent | preprocess_chatlogs.py:46 | computes the leftmost position where `Agent\s(\w+)` matches, or none; characterised by `FirstAgentFound`, `FirstAgentLeftmost` and `FirstAgentNone` |
| ChatRegex.ApplyAgentRegex | preprocess_chatlogs.py:40-50 | computes `apply_agent_regex`: the `\w+` capture at the leftmost match, or `'No agent'`; characterised by `AgentRegexSentinel`, `AgentRegexName` and `AgentRegexWord` |
| ChatRegex.WordEndBounds | preprocess_chatlogs.py:26 | the greedy `\w+` run is non-empty when it starts on a word character and stops before a non-word character or the end |
| ChatRegex.WordEndWord | preprocess_chatlogs.py:26 | every character of the `\w+` run is a word character |
| ChatRegex.FirstAgentFound | preprocess_chatlogs.py:46 | the position the search reports is an `Agent\s\w` match at or after the start |
| ChatRegex.FirstAgentLeftmost | preprocess_chatlogs.py:46 | no match lies before the reported one, and none at all when none is reported (`findall(...)[0]` is the leftmost match) |
| ChatRegex.FirstAgentNone | preprocess_chatlogs.py:45-50 | the search finds nothing exactly when the pattern matches nowhere in the transcript |
| ChatRegex.AgentRegexSentinel | preprocess_chatlogs.py:45-50 | `apply_agent_regex` returns `'No agent'` exactly when there is no match: a real name can never equal the sentinel |
| ChatRegex.AgentRegexName | preprocess_chatlogs.py:45-47 | the name is the whole maximal non-empty word run right after `Agent` and a whitespace at the leftmost match |
| ChatRegex.AgentRegexWord | preprocess_chatlogs.py:45-47 | the agent name consists of word characters only |
| ChatRegex.LazyColonSpace | preprocess_chatlogs.py:27 | computes the lazy `.*?:\s` tried from one start position: the first `:` and whitespace reached without crossing a newline; characterised by `LazyColonSpaceSpec` |
| ChatRegex.ScanClient | preprocess_chatlogs.py:57 | computes the first match of `(.*?:\s)`, retrying from each later start position as `re.findall` does; characterised by `ScanClientSpec` |
| ChatRegex.LazyColonSpaceSpec | preprocess_chatlogs.py:27 | the lazy `.*?:\s` stops at the first `:` + whitespace, crossing no newline, and fails only when every such pair lies past a newline |
| ChatRegex.ScanClientSpec | preprocess_chatlogs.py:57 | the `findall` search fails exactly when no `:` is followed by whitespace; a match ends in `:` and whitespace and occurs in the text |
| ChatRegex.ApplyClientRegex | preprocess_chatlogs.py:52-58 | the client name, when found, ends in a colon and one more character |
| ChatRegex.ClientRegexMatch | preprocess_chatlogs.py:52-58 | `[0]` raises exactly when no colon is followed by whitespace; on a newline-free sentence the name is its prefix up to and including the first `: ` pair |
| DialogueBuilder.SlotsPrefix | preprocess_chatlogs.py:109-115 | computes the sentences the first `m` captures contribute, in capture order |
| DialogueBuilder.Slots | preprocess_chatlogs.py:109-115 | computes `sentences` for all captures; characterised by `SlotSentences` and `SlotsOnePopulated`, and computed in place by `SelectSentences` |
| DialogueBuilder.SlotSentences | preprocess_chatlogs.py:109-115 | a capture contributes group 2 when only group 1 is empty, group 1 when only group 2 is empty, two empty strings when both are empty, nothing when neither is |
| DialogueBuilder.SelectSentences | preprocess_chatlogs.py:109-115 | the slot-selection loop builds exactly the per-capture contributions, concatenated in order |
| DialogueBuilder.PopulatedSnoc | preprocess_chatlogs.py:109-115 | appending the populated group of the next capture extends a list of populated groups |
| DialogueBuilder.SlotsPrefixPopulated | preprocess_chatlogs.py:109-115 | when every capture has exactly one empty group, the first `m` captures give `m` sentences, the `k`-th being capture `k`'s populated group |
| DialogueBuilder.SlotsOnePopulated | preprocess_chatlogs.py:109-115 | the same for all captures: one sentence per capture, in capture order |
| DialogueBuilder.ZipLength | preprocess_chatlogs.py:123 | `zip` yields as many pairs as the shorter of the two lists |
| DialogueBuilder.Start | preprocess_chatlogs.py:117-121 | the loop state before the first pair: the extracted agent name, both lists empty, and the client name carried in |
| DialogueBuilder.Step | preprocess_chatlogs.py:123-139 | one iteration raises exactly when the sentence has no client prefix, and the error names that sentence |
| DialogueBuilder.PairTurns | preprocess_chatlogs.py:123-139 | computes the loop state after the first `n` zipped pairs, or the index of the first sentence that raises; characterised by `PairTurnsCount`, `PairTurnsError`, `PairTurnsRoutedExactly`, `PairTurnsAgentRouting`, `PairTurnsClientRouting` and `PairTurnsClientKey` |
| DialogueBuilder.PairTurnsStops | preprocess_chatlogs.py:123-126 | once a pair raises, the later pairs are never reached |
| DialogueBuilder.BuildTurns | preprocess_chatlogs.py:120-139 | the turn-building loop ends in the state, or raises the error, that the pairwise fold over the zipped pairs gives |
| DialogueBuilder.AgentBefore | preprocess_chatlogs.py:131-132 | computes `agent_name` while a pair is routed: the extracted name, switched to `Klantenservice` by the first alias prefix; characterised by `AgentBeforeAlias` |
| DialogueBuilder.SpanTag | preprocess_chatlogs.py:134 | computes the tag `f"{agent_name}: "` searched for in a sentence |
| DialogueBuilder.Routed | preprocess_chatlogs.py:134 | the sentence contains the agent tag in force for it, so it goes to the agent list |
| DialogueBuilder.AgentTurnOf | preprocess_chatlogs.py:134-135 | a turn is a sentence routed to the agent: its own index and timestamp, and the sentence with the tag removed |
| DialogueBuilder.ClientTurnOf | preprocess_chatlogs.py:137-138 | a turn is a sentence routed to the client: its own index and timestamp, and the sentence with its client prefix removed |
| DialogueBuilder.StepRoutes | preprocess_chatlogs.py:126-139 | one iteration puts the sentence in the agent list, tag removed, exactly when it contains the agent tag then in force; otherwise in the client list, prefix removed, and that prefix becomes the client name |
| DialogueBuilder.AgentBeforeAlias | preprocess_chatlogs.py:131-132 | the agent name in force is `Klantenservice` once any earlier sentence had the prefix `Klantenservice: `, and the extracted name otherwise |
| DialogueBuilder.AliasSentenceIsAgentTurn | preprocess_chatlogs.py:131-135 | a sentence with the prefix `Klantenservice: ` is always an agent turn |
| DialogueBuilder.PairTurnsCount | preprocess_chatlogs.py:123-139 | with zip truncation, every processed pair yields exactly one turn |
| DialogueBuilder.PairTurnsErrorFirst | preprocess_chatlogs.py:123-126 | when the loop raises, it names the first processed sentence without a client prefix |
| DialogueBuilder.PairTurnsOk | preprocess_chatlogs.py:123-126 | when the loop completes, every processed sentence has a client prefix |
| DialogueBuilder.PairTurnsError | preprocess_chatlogs.py:123-126 | the loop raises if and only if some processed sentence has no client prefix |
| DialogueBuilder.PairTurnsAgent | preprocess_chatlogs.py:131-142 | the agent key written is the alias if any processed sentence carried the alias prefix, else the extracted name |
| DialogueBuilder.AscendingSnoc | preprocess_chatlogs.py:134-138 | appending a turn for a later sentence keeps the turn list in sentence order |
| DialogueBuilder.AscendingWiden | preprocess_chatlogs.py:134-138 | a turn list in order below one bound stays in order below any larger bound |
| DialogueBuilder.AgentTurnsSnoc | preprocess_chatlogs.py:134-135 | appending a correct agent turn for a later sentence keeps the agent list correct |
| DialogueBuilder.ClientTurnsSnoc | preprocess_chatlogs.py:137-139 | appending a correct client turn for a later sentence keeps the client list correct |
| DialogueBuilder.PairTurnsAgentRouting | preprocess_chatlogs.py:134-135 | each agent turn has its own sentence index and timestamp; its sentence contains the agent tag, and the text has every occurrence of the tag removed; the list is in sentence order |
| DialogueBuilder.PairTurnsClientRouting | preprocess_chatlogs.py:137-138 | each client turn has its own index and timestamp; its sentence lacks the agent tag, and the text has every occurrence of the client prefix removed; the list is in sentence order |
| DialogueBuilder.HasTurnAtSnoc | preprocess_chatlogs.py:134-138 | appending a turn adds exactly its own sentence to the sentences the list holds |
| DialogueBuilder.StepRoutedExactly | preprocess_chatlogs.py:134-139 | one iteration extends exact routing to its own sentence: agent list if it holds the agent tag in force, client list otherwise |
| DialogueBuilder.PairTurnsAscending | preprocess_chatlogs.py:134-138 | both turn lists name processed sentences only, in ascending order |
| DialogueBuilder.PairTurnsRoutedExactly | preprocess_chatlogs.py:123-139 | routing is exact: each processed sentence has a turn in the agent list if and only if it holds the agent tag in force for it, and a turn in the client list if and only if it does not |
| DialogueBuilder.AgentTurnText | preprocess_chatlogs.py:134-135 | an agent turn's text is its sentence with all `sentence.count(tag)` occurrences of the tag cut out, and that count is positive |
| DialogueBuilder.ClientTurnText | preprocess_chatlogs.py:137-138 | a client turn's text is its sentence with all `sentence.count(prefix)` occurrences of the client prefix cut out, and that count is positive |
| DialogueBuilder.StepLastClientWins | preprocess_chatlogs.py:137-139 | one iteration keeps the client name equal to the prefix of the last client turn |
| DialogueBuilder.PairTurnsClientKey | preprocess_chatlogs.py:139-143 | last write wins: the client key is the prefix of the last client turn, or the name carried in when there is no client turn |
| DialogueBuilder.PairTurnsClientIrrelevant | preprocess_chatlogs.py:89-143 | the client name left by earlier transcripts changes neither whether a transcript raises nor its agent key or turn lists, only the client key when it has no client turn |
| DialogueBuilder.ToDialogue | preprocess_chatlogs.py:141-143 | computes `sentence_dict`: the agent key with its turns, then the client key with its turns |
| DialogueBuilder.WellFormed | preprocess_chatlogs.py:160 | the two keys can be told apart, so `dialogue.keys()` holds two keys |
| DialogueBuilder.AgentKeyNoColon | preprocess_chatlogs.py:131-142 | the agent key never holds a colon |
| DialogueBuilder.ClientKeyColon | preprocess_chatlogs.py:139-143 | the client key always holds a colon |
| DialogueBuilder.BuiltDialogueWellFormed | preprocess_chatlogs.py:142-143 | the two keys of a dialogue differ, so `CSM, KLT = dialogue.keys()` unpacks two keys, agent first |
| Corpus.AgentFound | preprocess_chatlogs.py:92-95 | the agent regex finds a name, so the transcript is not diverted |
| Corpus.TranscriptTurns | preprocess_chatlogs.py:100-139 | computes the turn-building loop of one transcript: its sentences, its timestamps, its agent name and the client name carried in |
| Corpus.ProcessTranscript | preprocess_chatlogs.py:89-147 | computes one outer-loop iteration exactly as written: divert, raise IndexError, raise UnboundLocalError, or write the entry; characterised by `ProcessTranscriptAdvance` |
| Corpus.Visit | preprocess_chatlogs.py:92-139 | computes what one transcript yields with no client name carried in: diverted, raised at a sentence, or its loop state |
| Corpus.Advance | preprocess_chatlogs.py:89-147 | folds one transcript's outcome into the pass, using the carried client name only when the transcript has no client turn |
| Corpus.Run | preprocess_chatlogs.py:89-147 | computes the pass over the first `n` transcripts, stopping at the first exception; characterised by the `Run` lemmas below |
| Corpus.Acquire | preprocess_chatlogs.py:85-149 | computes one call of `acquire_dialogue` from the dict and agent log left by earlier calls; characterised by the `Acquire` lemmas below |
| Corpus.ProcessTranscriptAdvance | preprocess_chatlogs.py:89-147 | an outer-loop iteration does what folding in the transcript's own outcome does |
| Corpus.VisitAgent | preprocess_chatlogs.py:92-97 | a transcript that builds its turns has an agent, and its agent key holds no colon |
| Corpus.VisitClient | preprocess_chatlogs.py:137-143 | a transcript that builds its turns has a client name exactly when it has a client turn; the name holds a colon and is the prefix of its last client turn |
| Corpus.VisitRoutedExactly | preprocess_chatlogs.py:123-139 | a transcript that builds its turns puts each paired sentence in exactly the list routing sends it to |
| Corpus.RunStops | preprocess_chatlogs.py:89-149 | after an exception, later transcripts are not visited |
| Corpus.RunRebase | preprocess_chatlogs.py:85-149 | a pass from any earlier dict and agent log writes the same entries and appends the same lines as one from empty |
| Corpus.RunTwice | preprocess_chatlogs.py:85-149 | a second pass rewrites identical entries, appends the agent-log lines again and raises what the first raised |
| Corpus.RunErrorIndex | preprocess_chatlogs.py:89-143 | an exception names the transcript raising it: the pass reached it cleanly and stopped right after it; an IndexError comes from that transcript's own sentences |
| Corpus.RunEntries | preprocess_chatlogs.py:142-147 | each entry sits under the index of a visited transcript that built its turns and holds that transcript's agent key and turn lists |
| Corpus.RunComplete | preprocess_chatlogs.py:89-147 | when the pass completes, nothing raised an IndexError and every transcript that built its turns has an entry under its own index |
| Corpus.RunAgentLog | preprocess_chatlogs.py:95-97 | when the pass completes, the agent log holds exactly the diverted bodies, in order |
| Corpus.RunClientColon | preprocess_chatlogs.py:139-143 | the carried client name and every client key written hold a colon |
| Corpus.RunCarriedOver | preprocess_chatlogs.py:139-143 | an entry without client turns is keyed by the client name earlier transcripts left behind |
| Corpus.AcquireDialogues | preprocess_chatlogs.py:85-149 | every entry is its own transcript's dialogue, with two distinct keys |
| Corpus.AcquireRouting | preprocess_chatlogs.py:92-147 | a transcript without an agent never gets an entry; when the pass completes, a transcript has an entry exactly when it has an agent |
| Corpus.AgentLogOfOutcomes | preprocess_chatlogs.py:95-97 | the diverted outcomes are exactly the transcripts without an agent, bodies unchanged and in order |
| Corpus.AcquireAgentLog | preprocess_chatlogs.py:95-97 | when the pass completes, `agent_error_logs` is exactly the bodies of the transcripts without an agent, in order |
| Corpus.ClientNameUnboundIff | preprocess_chatlogs.py:139-143 | `UnboundLocalError` at transcript `i` if and only if no client name was carried to it and it has an agent, raises no IndexError and has no client turn |
| Corpus.AcquireEnds | preprocess_chatlogs.py:89 | where the outer loop stops, at the end or at the first exception, the pass is complete |
| Corpus.AcquireBuilt | preprocess_chatlogs.py:85-149 | a pass keeps every entry of the dict the dialogue of its own transcript |
| Corpus.ClientlessIndices | preprocess_chatlogs.py:158-163 | computes the indices `find_chatlogs_without_client` appends, in ascending order; characterised by `ClientlessIndicesSpec` |
| Corpus.ClientlessIndicesSpec | preprocess_chatlogs.py:158-163 | the indices appended are exactly the entries with an empty client list, each once, in ascending order |
| Corpus.WithoutIndices | preprocess_chatlogs.py:175 | the comprehension keeps exactly the keys not listed, with their dialogues unchanged |
| Corpus.ReturnedCorpus | preprocess_chatlogs.py:167-177 | on a fresh object, the returned dict holds exactly the transcripts with an agent and at least one client turn, each its own dialogue under its own index |
| Corpus.ReturnTwice | preprocess_chatlogs.py:167-177 | a second `return_chatlogs` returns the same dict while both error logs hold every line twice |
| Corpus.ProcessChatlogs.constructor | preprocess_chatlogs.py:9-19 | the dataclass starts with the given transcripts, an empty dict and empty logs |
| Corpus.ProcessChatlogs.AcquireDialogue | preprocess_chatlogs.py:85-149 | the dict and agent log become those of the pass from their old values; it returns the dict, or raises the pass's exception with earlier writes kept |
| Corpus.ProcessChatlogs.AcquireOne | preprocess_chatlogs.py:90-147 | one outer-loop iteration does what `ProcessTranscript` specifies and extends the pass by one transcript |
| Corpus.ProcessChatlogs.FindChatlogsWithoutClient | preprocess_chatlogs.py:151-165 | it runs the pass, then appends the clientless indices in ascending order and returns the log; on an exception the log is unchanged |
| Corpus.ProcessChatlogs.CollectClientless | preprocess_chatlogs.py:158-163 | the loop appends exactly the clientless indices, in ascending order |
| Corpus.ProcessChatlogs.ReturnChatlogs | preprocess_chatlogs.py:167-177 | it returns the dict without every index ever listed in `client_error_logs` |
| Text.Contains | preprocess_chatlogs.py:134 | computes `t in s`; characterised by `ContainsIff` |
| Text.ReplaceAll | preprocess_chatlogs.py:134-138 | computes `s.replace(pat, '')`: removes the non-overlapping occurrences, scanning from the left; characterised by `ReplaceAllAbsent` and `ReplaceAllCount` |
| Text.Count | preprocess_chatlogs.py:134-138 | computes `s.count(pat)`, the reference for what `replace` removes; characterised by `CountContains` |
| Text.ContainsAt | preprocess_chatlogs.py:134 | an occurrence at some position makes `tag in sentence` hold |
| Text.ContainsWitness | preprocess_chatlogs.py:134 | `tag in sentence` yields a position where the tag occurs |
| Text.ContainsIff | preprocess_chatlogs.py:134 | `in` holds exactly when the tag occurs at some position |
| Text.ReplaceAllAbsent | preprocess_chatlogs.py:134-138 | `replace` leaves a sentence without the pattern unchanged |
| Text.CountContains | preprocess_chatlogs.py:134-138 | `str.count` of a pattern is positive exactly when the pattern occurs (`in`) |
| Text.ReplaceAllCount | preprocess_chatlogs.py:134-138 | `s.replace(pat, '')` is shorter than `s` by exactly `len(pat) * s.count(pat)` |

## Left out

- The timestamp regex and the segment regex (preprocess_chatlogs.py:31,38,60-75) are not run. Their `findall` results are fields of `Chatlog`: `timestamps`, and `segments` with their two groups.
- `regex_without_last_response` (preprocess_chatlogs.py:35) is never used by the class.
- `convert_timestamps_into_time` (preprocess_chatlogs.py:77-83) has an empty body (`pass`).
- The `__main__` block (preprocess_chatlogs.py:180-190) reads a spreadsheet with pandas, which is I/O. The `pprint` printer (preprocess_chatlogs.py:3,6) is never used by the class.
- `\w` is modelled for code points up to U+00FF only: ASCII letters, digits, `_` and the Latin-1 letters and digits. Python also accepts letters and digits beyond U+00FF.
- `\s` is modelled as the set of characters `str.isspace` accepts.
- The client regex's `.` excludes only `\n`, as in Python without `re.DOTALL`.
- Python dict insertion order is modelled as ascending index order. `chat_dict` is filled in index order from empty, and a rerun only rewrites existing keys, so `find_chatlogs_without_client` visits its keys in ascending order. `CollectClientless` visits the indices below the number of transcripts in ascending order.
- Corpus.ProcessChatlogs.constructor: takes only `chatlogs`. The other dataclass fields start empty, as `__main__` uses the class. Passing a non-empty dict or log is not modelled.
- The exceptions are results rather than unwinding, and no other exception can occur. The `ValueError` from unpacking `dialogue.keys()` at line 160 is ruled out by `BuiltDialogueWellFormed`.
- `AcquireOne` and `CollectClientless` are the loop bodies of `acquire_dialogue` and `find_chatlogs_without_client`, written as methods of their own.
