# Tabula dashboard pipeline and DAO update builder, in Dafny

This project models two pieces of the Tabula governance dashboard and proves
properties about them.

- **The dashboard page** (`frontend/app/page.tsx`). The `fetchData` effect takes
  the connected wallet address through three services in order: token holdings,
  then delegations, then updates for the wallet's DAOs. It keeps four pieces of
  page state: `delegationsData`, `updates`, `loading` and `error`. The page then
  splits the updates into urgent, important and fyi groups.
- **The agent's DAO update builder** (`agent/src/ai/dao_updates.py`).
  `get_dao_updates` turns each proposal of a DAO into an update. The update's
  priority comes from `_analyze_proposal_impact`, a line parser of the language
  model's reply. The updates are then sorted by priority rank with `reverse=True`.

Files:

- `wrappers.dfy`: `Option`, and `AllPresent`, which collects a sequence of
  optional values.
- `seqs.dfy`: the order-preserving `Filter` behind JavaScript's `filter`, and its
  laws.
- `pystrings.dfy`: the Python string operations the parser uses. These are
  `strip` (with Python's white-space set), `split` on one character, `replace`
  with the empty string, and `lower`.
- `impact.dfy`: `_analyze_proposal_impact`. The language model is a parameter,
  the function from prompt to reply.
- `dao_updates.dfy`: building one update per proposal, the stable rank sort, and
  `get_dao_updates` as a method. Its loop over the proposal nodes is the method
  `BuildUpdates`, which receives the impact analysis as a function. The Tally
  client is a parameter.
- `dashboard.dfy`: the page state, the pure function `Fetch` that specifies one
  run of `fetchData`, the class `Page` whose method `FetchData` updates four
  fields, and the priority groups.

How services and data are represented:

- The three frontend services are caller-supplied functions. Each returns
  `Resolved(value)` or `Rejected`.
- A run records every request it issues, together with the page state at that
  moment. "No service is called" is therefore a statement about that list.
- JSON fields the agent reads are `Missing`, `Null` or a string. This keeps the
  `KeyError` and `AttributeError` paths of the Python code.

Behaviours of the code that the model keeps, and that a reader might not expect:

- The slug list is the active slugs followed by the available slugs. It is not
  deduplicated.
- An empty slug list skips the updates call and leaves `updates` as it was. It
  does not set `updates` to an empty list.
- The delegations are committed as soon as they arrive. A later updates failure
  leaves them on the page next to the previous updates.
- There is no stale-result suppression.
- Without an address, `loading` and `error` are not touched.
- With a new address, the previous delegations and updates stay on the page
  until the new ones are committed. They are replaced only when the new
  answers arrive.
- The sort with `reverse=True` puts fyi updates first and urgent updates last.
  The page regroups the updates by priority anyway.

## Model

| member | source | states |
|---|---|---|
| Dashboard.Page.constructor | frontend/app/page.tsx:28-31 | a fresh page has no delegations, no updates, is not loading and has no error |
| Dashboard.Page.FetchData | frontend/app/page.tsx:33-72 | the fields it leaves and the calls it makes are exactly those of the specification `Fetch` run from the state before the call |
| Dashboard.AbsentAddressResets | frontend/app/page.tsx:35-39 | without an address (none or empty): no call, delegations null, updates empty, `loading` and `error` unchanged |
| Dashboard.PresentAddressSettles | frontend/app/page.tsx:41-68 | with an address: one to three calls, the first is the holdings request for that address, call i is the service of stage i, every call is made with `loading` true and `error` null, and `loading` is false at the end |
| Dashboard.ErrorIffRejected | frontend/app/page.tsx:63-65 | only the last call can be rejected; the final error is the fixed message if some call was rejected and null otherwise |
| Dashboard.EarlyFailureKeepsResults | frontend/app/page.tsx:46-51 | a rejected holdings or delegations call stops before the updates, keeps the previous delegations and updates, and sets error and `loading` false |
| Dashboard.DelegationsCommittedBeforeUpdates | frontend/app/page.tsx:50-62 | resolved delegations are committed and are on the page during the updates call; the updates call happens exactly when the slug list is non-empty, and is made with those slugs and the holdings; updates are replaced exactly when it resolves and otherwise keep their old value |
| Dashboard.UpdatesOnlyForNonEmptySlugs | frontend/app/page.tsx:59-60 | the updates service is never called with an empty slug list |
| Dashboard.DaoSlugs | frontend/app/page.tsx:54-57 | one slug per active or available delegation, so the list is empty exactly when both lists are |
| Dashboard.DaoSlugsLayout | frontend/app/page.tsx:54-57 | the slug list is the active slugs then the available slugs, in order; its length is the sum; the recommended delegations do not affect it |
| Dashboard.DaoSlugsCounts | frontend/app/page.tsx:55-56 | a slug occurs in one mapped delegation list once per delegation that carries it |
| Dashboard.SlugOccurrences | frontend/app/page.tsx:54-57 | no deduplication: a slug occurs in the slug list once per active and once per available delegation that carries it |
| Dashboard.Fetch | frontend/app/page.tsx:33-72 | at most three calls, none exactly when the address is absent or empty; without an address `loading` and `error` are kept, with one `loading` ends false and `error` is null or the fixed message |
| Dashboard.FetchKeepsSettled | frontend/app/page.tsx:33-72 | from a settled state (not loading, error null or the fixed message) a run ends settled |
| Dashboard.FetchIdempotent | frontend/app/page.tsx:33-72 | a second run with the same address and service answers leaves the state the first run left |
| Dashboard.GroupByPriority | frontend/app/page.tsx:94-96 | an update is in the urgent, important or fyi group exactly when it is among the updates with that priority |
| Dashboard.GroupsAreExact | frontend/app/page.tsx:94-96 | each group holds exactly the updates with its priority, each as many times as it occurs among the updates, and is a subsequence of the updates |
| Dashboard.GroupsPartition | frontend/app/page.tsx:94-96 | when every priority is urgent, important or fyi, the group sizes add up to the number of updates, the multisets add up, and each update is in exactly one group |
| Seqs.FilterMembers | frontend/app/page.tsx:94-96 | an element is in the filtered list exactly when it is in the list and satisfies the predicate; the result is no longer than the list |
| Seqs.FilterMultiset | frontend/app/page.tsx:94-96 | the filter keeps every occurrence of a kept element and none of the others |
| Seqs.FilterOrder | frontend/app/page.tsx:94-96 | the filter keeps relative order |
| Seqs.FilterPartition | frontend/app/page.tsx:94-96 | three exclusive predicates that cover a list split it into filters whose sizes and multisets add up to the list's |
| PyStrings.Strip | agent/src/ai/dao_updates.py:101 | the result has no leading or trailing white space, and is empty exactly when the input is all white space |
| PyStrings.StripTrims | agent/src/ai/dao_updates.py:101 | the result is the input with white-space prefixes and suffixes removed |
| PyStrings.StripIdempotent | agent/src/ai/dao_updates.py:127-129 | stripping twice is stripping once |
| PyStrings.Split | agent/src/ai/dao_updates.py:123 | one part more than separators, no part holds the separator, and joining the parts gives back the input |
| PyStrings.SplitJoin | agent/src/ai/dao_updates.py:128 | splitting a join of separator-free parts gives back the parts |
| PyStrings.RemoveAllAbsent | agent/src/ai/dao_updates.py:127-129 | `replace(marker, '')` leaves a string without the marker unchanged |
| PyStrings.LowerChar | agent/src/ai/dao_updates.py:129 | an ASCII capital becomes the small letter 32 code points above it; every other character is kept; the result is never a capital |
| PyStrings.Lower | agent/src/ai/dao_updates.py:129 | same length, character i is the lower case of input character i, no upper-case letter left |
| PyStrings.LowerIgnoresCase | agent/src/ai/dao_updates.py:129 | strings that agree up to the case of their letters have the same lower case |
| PyStrings.LowerOfLower | agent/src/ai/dao_updates.py:129 | a string without upper-case letters is its own lower case |
| Impact.Prompt | agent/src/ai/dao_updates.py:108-120 | the prompt holds the title and the description verbatim, at their places between the fixed texts |
| Impact.FieldText | agent/src/ai/dao_updates.py:127-129 | a reply line with its marker removed is stripped and no longer than the line |
| Impact.FieldTextOfMarked | agent/src/ai/dao_updates.py:127-129 | a marker, a space and a clean value read back as the value |
| Impact.NormalizeRisk | agent/src/ai/dao_updates.py:134 | low exactly for "low", high exactly for "high", medium for everything else |
| Impact.ParseLines | agent/src/ai/dao_updates.py:127-135 | with three or more lines the summary and the area list are never empty |
| Impact.ParseReply | agent/src/ai/dao_updates.py:123-142 | the summary and the area list are never empty; fewer than two line breaks means fewer than three lines, which gives the error analysis |
| Impact.ParseReplyFields | agent/src/ai/dao_updates.py:127-134 | with three or more lines: the summary is the first line without its marker, or the fixed text when that is blank; one area per comma field of the second line, area i being field i stripped, none holding a comma; high or low exactly when the lower-cased third line says so |
| Impact.AnalyzeProposalImpact | agent/src/ai/dao_updates.py:95-142 | the summary and areas are never empty; with a usable title and description the result is the parse of the model's reply to the prompt |
| Impact.BlankProposalFallback | agent/src/ai/dao_updates.py:98-106 | a blank title, or a blank description after a string title, gives the no-data analysis |
| Impact.ModelConsultedOnlyForValidData | agent/src/ai/dao_updates.py:101-121 | without a usable title and description the result does not depend on the model and is the no-data or the error analysis |
| Impact.ShortReplyFallback | agent/src/ai/dao_updates.py:123-142 | a reply with fewer than three lines gives the error analysis |
| Impact.RiskWordIgnoresCase | agent/src/ai/dao_updates.py:129-134 | any spelling of low, medium or high in upper- or lower-case letters gives that risk level |
| Impact.RiskDefaultsToMedium | agent/src/ai/dao_updates.py:129-134 | with three or more lines the risk is medium exactly when the lower-cased third line is neither low nor high |
| Impact.BlankAreasLine | agent/src/ai/dao_updates.py:128-133 | a blank areas line gives one empty area, so the `["Unknown"]` fallback never fires |
| Impact.AreasRoundTrip | agent/src/ai/dao_updates.py:128 | the areas line of a reply in the requested format reads back as the areas |
| Impact.RiskRoundTrip | agent/src/ai/dao_updates.py:129-134 | the risk line of a reply in the requested format reads back as the risk level |
| Impact.ParseFormatRoundTrip | agent/src/ai/dao_updates.py:116-134 | parsing a reply in the requested format gives back the analysis it was formatted from |
| DaoUpdates.UpdateTitle | agent/src/ai/dao_updates.py:169 | the update's title is the title the impact analysis read for its prompt (line 98), or `None` when that title is null |
| DaoUpdates.PriorityFor | agent/src/ai/dao_updates.py:171 | urgent exactly for high risk, never fyi |
| DaoUpdates.BuildUpdate | agent/src/ai/dao_updates.py:165-180 | from a node and its impact analysis: an update exactly when the node has an id, has object metadata and the organization name is a string; id `prop_` + id, the DAO's slug and name, the title `Proposal: ` + the rendered title, the impact summary as description, proposal category, urgent exactly for high risk, never fyi, one link action to the proposal's Tally page |
| Wrappers.AllPresent | agent/src/ai/dao_updates.py:159-187 | a list of the values exactly when every entry is present, in the same order |
| DaoUpdates.BuildUpdates | agent/src/ai/dao_updates.py:159-180 | the loop over the nodes gives all the built updates in node order, or nothing as soon as one node fails |
| DaoUpdates.UpdateOfNode | agent/src/ai/dao_updates.py:160-171 | the update of a node carries that node's non-empty impact summary and is urgent exactly when its risk is high |
| DaoUpdates.InsertAtBoundary | agent/src/ai/dao_updates.py:183 | one insertion step of the sort places an update after every update of at least its rank and before the first of a lower rank |
| DaoUpdates.SortIsStableGrouping | agent/src/ai/dao_updates.py:183 | `SortByRankDescending`, the insertion sort by `Insert` on the key `Rank` (urgent 0, important 1, fyi 2) with `reverse=True`, equals the fyi updates, then the important ones, then the urgent ones, each group in its original order |
| DaoUpdates.SortPermutesInRankOrder | agent/src/ai/dao_updates.py:183 | `SortByRankDescending` is a permutation of its input, with the same length and elements, and `Rank` never increases along it |
| DaoUpdates.ImportantBeforeUrgent | agent/src/ai/dao_updates.py:171-183 | for updates that are never fyi, the sort is the important ones followed by the urgent ones |
| DaoUpdates.GetDaoUpdates | agent/src/ai/dao_updates.py:144-187 | empty when the organization or the proposal nodes cannot be read, or when any node fails to build; otherwise the sorted updates of all nodes |
| DaoUpdates.BuiltUpdates | agent/src/ai/dao_updates.py:159-180 | for any impact analysis: one built update per node, each of the DAO, in the proposal category and not fyi |
| DaoUpdates.SuccessfulUpdates | agent/src/ai/dao_updates.py:159-183 | for any impact analysis, on success: one update per node, a permutation of the built updates, important before urgent in node order, all of the DAO and in the proposal category |

## Left out

- Timestamps (`datetime.utcnow()`) are left out. They come from the clock.
- The `metadata` payload and vote statistics of an update are left out. They
  are carried through and never inspected.
- `_invoke_llm` is not modelled. The model receives the reply it returns,
  already stripped, as the `llm` parameter. The `ChatOpenAI` set-up and the
  environment-variable handling are foreign calls.
- The language model and the three frontend services are functions. Two
  identical prompts or requests therefore always get the same answer, which a
  real model or network call need not give. No lemma relies on this.
- The Tally client is not modelled. Its two queries are parameters whose
  answers are already classified as missing, unreadable or usable. A query that
  raises counts as unreadable.
- The `user_holdings` argument of `get_dao_updates` is left out because the
  code never reads it.
- Logging and `console.log`/`console.error` are left out. They are diagnostics.
- The rendering of the page is left out: the JSX, `renderDaoCard`, the wallet
  widgets and CSS. It is user interface.
- Overlapping `useEffect` runs are not modelled. Each run completes before the
  next one starts. The code has no stale-result check either.
- React runs the effect when the address changes. The model instead calls
  `FetchData` once per run.
- The pydantic models without logic are left out: `TreasuryChange`,
  `GovernanceChange` and `SocialSentiment` (which has a float score).
- `UpdateAction` keeps its kind, label and URL, but the label field is named
  `caption`.
- The smoke script under `agent/src/tally` is not part of this model.
- `Dashboard.Delegation` keeps only the slug and the DAO name. Amounts and
  proposal counts are only displayed.
- `Dashboard.DelegationsData` always carries its three lists. A payload without
  them would make the slug construction throw after the delegations were
  committed, and that path is not modelled.
- `Dashboard.Holdings` is an opaque payload. It is passed from the first
  service to the other two.
- JSON values other than strings and `null` in the fields the agent reads are
  not modelled, for example a numeric title.
- `PyStrings.LowerChar` and `PyStrings.Lower`: only ASCII letters are
  lower-cased, and every other character is kept, whereas Python
  lower-cases all of Unicode. The result is only compared with "low", "medium"
  and "high". The only non-ASCII characters whose lower case contains an ASCII
  letter are U+212A KELVIN SIGN (to "k") and U+0130 (to "i" with a combining
  dot). Neither can produce one of those three words, so the comparison gives
  the same answer.
- `PyStrings.RemoveAll` states only that the result is no longer than the
  input. The properties the parser needs are separate lemmas:
  `RemoveAllAbsent` and `RemoveAllLeading`.
