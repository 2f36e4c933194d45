# chainagent agent-backend: fleet numbering, message handling, agent selection

This project models, in Dafny, the parts of the agent backend that carry logic of
their own. Everything else in the repository is glue around external services:
the fly.io CLI, the XMTP messaging client, Coinbase wallets, the OpenAI model and
llama_deploy.

- **Fleet scaler** (`scale_up.dfy`, module `ScaleUp`). It lists the deployed apps
  whose names start with `llama-deploy-`. It bootstraps the admin agent
  `llama-deploy-admin-agent` when that app is not listed. It then deploys instance
  `llama-deploy-agent-<n>`, where `n` is one more than the largest all-digit last
  `-` segment of a listed name (0 when there is none). The fleet's group id and
  admin wallet live in two files, each created on first use and reused afterwards.
  The files are a `map` from file name to content (`FleetFiles`).
- **Agent workflow** (`agent_workflow.dfy`, module `Workflows`, class
  `AgentWorkflow`). The handler answers every group message whose sender is not the
  agent itself, with one send of the RAG answer. `get_group_messages` drains the
  message queue in FIFO order. `run` normalises the prior history to
  `role`/`content` pairs and appends the user's turn. It rejects a missing or empty
  input, hands the history to the chat step and returns `{response, sources: []}`.
- **Group listener** (`xmtp_integration.dfy`, module `XmtpIntegration`). It feeds a
  finite message stream to the handler in order. The sends are then the processed
  contents of the other senders' messages, in arrival order.
- **Agent factory** (`factory.dfy`, module `Factory`). `create_agent` picks a
  variant tag. `"rag"` always selects the RAG workflow. Otherwise a case-insensitive
  `agentic` in `EXAMPLE_TYPE` selects the agentic composition, and anything else
  (including unset) selects the default `AgentWorkflow`. The chat history is passed
  on unchanged.
- **Python string operations** (`py_str.dfy`, module `PyStr`). These are `strip`,
  `lower`, `isdigit`, `int`, `str`, `split('-')[-1]` and `startswith`. Among the
  properties proved about them are `int(str(n)) == n` and that `strip` is idempotent.

External behaviour enters as parameters:
- the outcome of each CLI command (`ProcessResult`), and the app names decoded from
  the JSON listing (`appNames`);
- the results of `deploy_admin_agent` and `deploy_new_instance`;
- the 16 hex digits of `os.urandom(8).hex()`, and the wallet `create_mpc_wallet`
  returns;
- the RAG answer (`AgentWorkflow.rag`), and the chat step made of the memory buffer
  and the model call (`AgentWorkflow.answer`);
- the value of `EXAMPLE_TYPE`.

Two facts about the code shape the model:
- every message from another sender gets its own reply, duplicates included;
- `initialize` never calls `join_group_chat`.

## Model

| member | source | states |
|---|---|---|
| `PyStr.IsSpace` | scale_up.py:38 | Python's whitespace set: space and `\t`-`\r` are whitespace; digits, ASCII letters and `-` are not |
| `PyStr.Strip` | scale_up.py:38 | `s` is the result framed by a whitespace-only head and a whitespace-only tail, and the result neither starts nor ends with whitespace |
| `PyStr.TrimStart` | scale_up.py:38 | the result is a suffix of the input, and everything dropped before it is whitespace |
| `PyStr.TrimEnd` | scale_up.py:38 | the result is a prefix of the input, and everything dropped after it is whitespace |
| `PyStr.StripUnchanged` | scale_up.py:38 | a string without leading or trailing whitespace is its own strip |
| `PyStr.StripIdempotent` | scale_up.py:38 | stripping twice equals stripping once |
| `PyStr.LowerChar` | app/examples/factory.py:14 | a capital ASCII letter maps to its lower-case letter (code point plus 32); every other character is unchanged |
| `PyStr.Lower` | app/examples/factory.py:14 | same length; each character is lower-cased independently |
| `PyStr.LowerCharOfLetter` | app/examples/factory.py:14 | exactly a lower-case letter and its capital lower-case to that letter |
| `PyStr.LowerEqualsIffCasing` | app/examples/factory.py:14 | `s.lower()` equals a lower-case word iff `s` spells it in any mix of cases |
| `PyStr.IsDigits` | scale_up.py:158 | `isdigit()`: a digit string is non-empty and holds no `-` and no whitespace |
| `PyStr.DecimalValue` | scale_up.py:158 | `int(s)` ignores a leading zero: `int("0" + t) == int(t)` |
| `PyStr.NatToString` | scale_up.py:100 | `str(n)` is a non-empty digit string without a leading zero (except `"0"`) |
| `PyStr.DecimalValueOfNatToString` | scale_up.py:158 | `int(str(n)) == n` |
| `PyStr.LastSegment` | scale_up.py:158 | `split('-')[-1]` is a suffix with no `-`, preceded by `-` or the start of the string |
| `PyStr.LastSegmentAfterSeparator` | scale_up.py:158 | the last segment of `p + "-" + d` is `d` when `d` has no `-` |
| `PyStr.StartsWith` | scale_up.py:33 | `s.startswith(p)` iff `s == p + t` for some `t` |
| `ScaleUp.RunCommand` | scale_up.py:18-25 | success iff the exit code is 0; the text is stdout on success and stderr on failure |
| `ScaleUp.FleetApps` | scale_up.py:33 | the filtered list is no longer than the listing, and every name in it starts with `llama-deploy-` |
| `ScaleUp.FleetAppsMultiplicity` | scale_up.py:33 | each `llama-deploy-` name is kept as often as it is listed; every other name is dropped |
| `ScaleUp.FleetAppsMembers` | scale_up.py:33 | a name is kept iff it is listed and starts with `llama-deploy-` |
| `ScaleUp.FleetAppsAppend` | scale_up.py:33 | the filter keeps order: filtering `a + b` is filtering `a`, then `b` |
| `ScaleUp.FleetAppsKeepsFleet` | scale_up.py:33 | a listing of fleet names only is returned unchanged |
| `ScaleUp.GetCurrentInstances` | scale_up.py:27-33 | `[]` when the listing command fails, otherwise the prefix-filtered listed names |
| `ScaleUp.NumericSuffix` | scale_up.py:158 | a name contributes a number iff its last `-` segment is a non-empty run of digits |
| `ScaleUp.ParsedSuffixes` | scale_up.py:158 | at most one number per listed name |
| `ScaleUp.ParsedSuffixesMembers` | scale_up.py:158 | the parsed numbers are exactly those contributed by listed names |
| `ScaleUp.ParsedSuffixesAppend` | scale_up.py:158 | parsing keeps order: parsing `a + b` is parsing `a`, then `b` |
| `ScaleUp.NonNumericNameContributesNothing` | scale_up.py:158 | a name whose last segment is not all digits adds nothing |
| `ScaleUp.AdminNameHasNoSuffix` | scale_up.py:14 | `llama-deploy-admin-agent` contributes no instance number |
| `ScaleUp.Max` | scale_up.py:159 | `max` returns an element of the list that no element exceeds |
| `ScaleUp.NextInstance` | scale_up.py:159 | the next number is above every parsed suffix |
| `ScaleUp.NextInstanceZeroIffNoSuffix` | scale_up.py:158-159 | the next number is 0 exactly when no listed name has a numeric suffix |
| `ScaleUp.NextInstanceIsMaxPlusOne` | scale_up.py:158-159 | the next number exceeds every suffix, and is one more than a suffix that is present |
| `ScaleUp.AppName` | scale_up.py:100 | an instance name starts with `llama-deploy-agent-`, so it is a fleet name |
| `ScaleUp.AppNameSuffix` | scale_up.py:100 | the suffix parsed back from `llama-deploy-agent-{n}` is `n` |
| `ScaleUp.NewAppNameIsFresh` | scale_up.py:158-159 | `llama-deploy-agent-{next}` equals no listed name, leading zeros in listed names included |
| `ScaleUp.NewAppNameIsFreshInListing` | scale_up.py:33 | the new name equals no listed app name at all, fleet or not |
| `ScaleUp.NextInstanceAfterTop` | scale_up.py:158-159 | when some name carries suffix `top` and none carries more, the next number is `top + 1` |
| `ScaleUp.GapIsNotReused` | scale_up.py:158-159 | suffixes 0, 1 and 3, plus any names without a numeric suffix (such as the admin agent's), give 4 |
| `ScaleUp.RunScaleUp` | scale_up.py:149-169 | the steps are exactly `[BootstrapAdmin]` when the admin is not listed (nothing when it is), then, unless that bootstrap failed, one `DeployInstance` of `next` under a name that is fresh; the report says how the run ended and, on success, carries both URLs |
| `ScaleUp.FlyUrl` | scale_up.py:165-166 | the URL is the app name framed by `https://` and `.fly.dev` |
| `ScaleUp.Serialized` | scale_up.py:37-38 | reading a text file gives its text; a wallet file reads as a JSON object text |
| `ScaleUp.GroupChatIdAfter` | scale_up.py:35-43 | an existing file is left as is and its stripped content is returned; otherwise `group-` plus the random hex is returned and written to the file; no other file changes |
| `ScaleUp.NewGroupChatIdFormat` | scale_up.py:40 | a new group id is `group-` followed by 16 hex digits (22 characters) |
| `ScaleUp.GroupChatIdIgnoresRandomOnceStored` | scale_up.py:36-38 | once the file exists, the random value has no effect |
| `ScaleUp.GroupChatIdIsPersistent` | scale_up.py:35-43 | a second call returns the first call's id and writes nothing |
| `ScaleUp.LoadWallet` | scale_up.py:48 | loading succeeds iff the file holds a wallet object, and then gives that wallet |
| `ScaleUp.AdminWalletAfter` | scale_up.py:45-54 | an existing file is left as is and what loading it gives is returned; otherwise the created wallet is stored and returned; no other file changes |
| `ScaleUp.AdminWalletIgnoresProviderOnceStored` | scale_up.py:46-48 | once stored, the provider's new wallet has no effect |
| `ScaleUp.AdminWalletIsPersistent` | scale_up.py:45-54 | a second call returns the first call's wallet and writes nothing |
| `ScaleUp.FleetFiles.GetOrCreateGroupChatId` | scale_up.py:35-43 | the returned id and the new files are those of `GroupChatIdAfter` |
| `ScaleUp.FleetFiles.GetOrCreateAdminWallet` | scale_up.py:45-54 | the returned wallet and the new files are those of `AdminWalletAfter` |
| `Workflows.IsTruthy` | llama_deploy_app/workflows/agent_workflow.py:69 | the input counts as given iff it is neither `None` nor `""` |
| `Workflows.PrepareChatHistory` | llama_deploy_app/workflows/agent_workflow.py:61-72 | fails with `NoUserInput` iff the input is missing or empty; otherwise the prior turns in order, then one `user` turn with the input |
| `Workflows.PreparedHistoryRoundTrip` | llama_deploy_app/workflows/agent_workflow.py:63-72 | dropping the last prepared turn gives back the prior turns, and that last turn is the user's |
| `Workflows.NormalizeEntries` | llama_deploy_app/workflows/agent_workflow.py:112-115 | succeeds iff every entry has `role` and `content`; then it keeps exactly those two values per entry, in order; a failure names the key missing from the first incomplete entry, `role` before `content` |
| `Workflows.NormalizeHistory` | llama_deploy_app/workflows/agent_workflow.py:114 | `None` normalises to no entries; a list normalises entry by entry |
| `Workflows.NormalizeAsDicts` | llama_deploy_app/workflows/agent_workflow.py:112-115 | normalising the dicts of a list of chat turns gives back those turns |
| `Workflows.NormalizeIdempotent` | llama_deploy_app/workflows/agent_workflow.py:112-115 | normalising a normalised history changes nothing |
| `Workflows.RunWorkflow` | llama_deploy_app/workflows/agent_workflow.py:111-128 | a history key error comes first, then the missing-input error; on success `sources == []` and `response` is the chat step's answer on the normalised history plus the user turn |
| `Workflows.RunNoneHistoryIsEmpty` | llama_deploy_app/workflows/agent_workflow.py:114 | a `None` history runs like `[]` |
| `Workflows.Reply` | llama_deploy_app/workflows/agent_workflow.py:41-44 | the agent's own message sends nothing; any other sends one message, the processed content |
| `Workflows.NotFromSelf` | llama_deploy_app/workflows/agent_workflow.py:42 | holds exactly the messages whose sender is not the agent, and no more messages than arrived |
| `Workflows.NotFromSelfMultiplicity` | llama_deploy_app/workflows/agent_workflow.py:42 | every message of another sender is kept as often as it arrived; the agent's own are dropped |
| `Workflows.NotFromSelfAppend` | llama_deploy_app/workflows/agent_workflow.py:42 | the filter keeps arrival order: filtering `a + b` is filtering `a`, then `b` |
| `Workflows.Replies` | llama_deploy_app/workflows/xmtp_integration.py:58-59 | at most one send per message, each to the agent's group |
| `Workflows.RepliesAreProcessedOthers` | llama_deploy_app/workflows/agent_workflow.py:41-44 | over a stream, the sends are the processed contents of the non-self messages, one each, in arrival order |
| `Workflows.RepliesAppend` | llama_deploy_app/workflows/agent_workflow.py:41-44 | handling a stream in two parts sends what handling it whole sends |
| `Workflows.OwnMessagesSendNothing` | llama_deploy_app/workflows/agent_workflow.py:41-44 | a stream made only of the agent's own messages sends nothing |
| `Workflows.AgentWorkflow.constructor` | llama_deploy_app/workflows/agent_workflow.py:21-28 | no client, address, wallet or group; empty queue |
| `Workflows.AgentWorkflow.Initialize` | llama_deploy_app/workflows/agent_workflow.py:30-38 | the created wallet's address becomes both the wallet and the agent address; the group is set and a client exists |
| `Workflows.AgentWorkflow.HandleGroupMessage` | llama_deploy_app/workflows/agent_workflow.py:41-44 | the send trace grows by `Reply`: nothing for its own message, one processed answer otherwise |
| `Workflows.AgentWorkflow.SendGroupMessage` | llama_deploy_app/workflows/agent_workflow.py:50-52 | appends one send to the agent's group |
| `Workflows.AgentWorkflow.GetGroupMessages` | llama_deploy_app/workflows/agent_workflow.py:54-58 | returns the whole queue, oldest first, and leaves it empty |
| `Workflows.AgentWorkflow.Run` | llama_deploy_app/workflows/agent_workflow.py:105-128 | returns `RunWorkflow`'s result; sends the response to the group iff the run succeeds and a client is set |
| `XmtpIntegration.ListenToGroupChat` | llama_deploy_app/workflows/xmtp_integration.py:56-59 | handling a stream appends exactly `Replies` of that stream to the send trace |
| `Factory.AgentType` | app/examples/factory.py:14 | an unset variable gives `""`; a set one keeps its length and holds no capital ASCII letter |
| `Factory.CreateAgent` | app/examples/factory.py:13-28 | `"rag"` selects RAG; otherwise agentic iff the lower-cased `EXAMPLE_TYPE` is `agentic`, else the default; the history is passed on |
| `Factory.AgenticAnyCasing` | app/examples/factory.py:14-22 | for non-`rag` types, agentic is chosen iff `EXAMPLE_TYPE` is some casing of `agentic` |
| `Factory.UnsetExampleTypeSelectsDefault` | app/examples/factory.py:14-24 | an unset `EXAMPLE_TYPE` selects the default agent for any non-`rag` type |
| `Factory.NonRagDefersToEnvironment` | app/examples/factory.py:13-24 | every workflow type other than `"rag"` chooses as the default `"agent"` does |

## Left out

- The `flyctl` subprocesses, `deploy_workflow` and the bodies of `deploy_admin_agent`
  and `deploy_new_instance` are external processes and services. This includes the
  welcome message and `os.chdir`. `RunScaleUp` takes only their boolean results. As
  written, both deploy functions call `initialize` with three arguments while it
  takes one. The model does not reconcile this.
- `main`'s printed lines, and its final `get_or_create_group_chat_id` call made only
  for printing, are not modelled.
- JSON is not parsed. The app listing enters as the decoded names (`appNames`). A
  `json.loads` failure is not modelled.
- ScaleUp.LoadWallet: a wallet file holding text is always a failure. JSON text that
  would parse is not recognised, because wallet content is kept as the object
  `json.dump` wrote, not as its text.
- ScaleUp.Serialized: JSON escaping of quotes, backslashes and non-ASCII characters
  is not modelled.
- `os.urandom` is a parameter: any 16 lower-case hex digits.
- The wallet, XMTP client, signature and registration, `join_group_chat`, the faucet
  and `create_agent_with_xmtp` are thin SDK pass-throughs with nothing to state.
- PyStr.IsDigits: ASCII digits only. Python's `isdigit` also accepts other Unicode
  digits, with two outcomes the model does not share. `int` accepts every Unicode
  decimal digit, so for a listing with `llama-deploy-agent-٣` the code deploys 4
  while the model deploys 0. Digits that are not decimal, such as the superscript
  `²`, pass `isdigit`, and `int` then raises `ValueError` in `main`.
- PyStr.Lower: maps only `A`-`Z`. For the one comparison it serves (`== "agentic"`)
  the outcome is the same as Python's. Only U+0130 and U+212A (KELVIN SIGN) lower-case
  to ASCII letters. The first keeps a combining mark (`"i̇"`) and the second gives
  `k`, so neither can produce `agentic`.
- `run_command`'s `decode('utf-8')` raising on output that is not UTF-8 is not
  modelled: the outputs are taken as text already.
- A listing entry without `Name` raises `KeyError` in `get_current_instances`. This is
  not modelled: `appNames` gives names only.
- The text-mode read of the group id file turns an interior `\r\n` or `\r` into
  `\n` before `strip`. This is not modelled: `Serialized` gives the text as stored.
- The LLM call, the memory buffer's token truncation and the RAG workflow are
  foreign libraries. They are the function fields `rag` and `answer`. The pre-buffer
  history is what `answer` receives.
- `ChatMessage` role validation is library behaviour and is not modelled. History
  values are taken to be strings.
- `asyncio.create_task` and the background listener are left out: the stream is a
  finite sequence handled sequentially (`ListenToGroupChat`).
- Workflows.AgentWorkflow.HandleGroupMessage requires a client. The handler is
  installed only by `initialize`, which sets one.
- Nothing in `agent_workflow.py` enqueues into `message_queue`. Its items are modelled as
  inbound messages.
- `create_agent` returns a variant tag. `build_agentic_workflow` is not defined in
  `agent_workflow.py`, and `AgentWorkflow.__init__` takes no `chat_history`.
- Logging is not modelled. `llama_deploy_app/workflows/deploy.py` is service wiring
  with no logic of its own.
